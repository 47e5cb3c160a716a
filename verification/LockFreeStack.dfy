/** `LFStack`: a stamped Treiber stack whose nodes come from, and return to, an object pool.

    The pool is used through what `ObjectPool.HandsOutUnowned` states: `Alloc` yields a node nobody has. Steps are as
    in `ObjectPool`. `log` records each call at the step where it takes effect. */
module LockFreeStack {
  import opened Stamps
  import opened Tally
  import opened Ownership
  import opened Reference
  import Treiber

  datatype Pc =
    | Idle
    | PushAlloc(v: Value)
    | PushSet(p: Address, v: Value)
    | PushData(p: Address, v: Value)
    | PushRead(p: Address, v: Value)
    | PushLink(p: Address, v: Value, copy: Word, ver: nat)
    | PushCas(p: Address, v: Value, copy: Word, ver: nat)
    | PushCount
    | PopRead
    | PopNext(copy: Word, ver: nat)
    | PopCas(copy: Word, ver: nat, succ: Address)
    | PopCount(p: Address, got: Value)
    | PopData(p: Address, got: Value)
    | PopFree(p: Address, v: Value, got: Value)
    | PopDone(v: Value, got: Value)
  {
    predicate Copied() { PushLink? || PushCas? || PopNext? || PopCas? }

    predicate Pushing() { PushSet? || PushData? || PushRead? || PushLink? || PushCas? }

    predicate Popped() { PopCount? || PopData? || PopFree? }
  }

  ghost function Held(pc: Pc): Address {
    if pc.Pushing() || pc.Popped() then pc.p else NULL
  }

  ghost predicate Uncounted(pc: Pc) { pc.PushCount? }
  ghost predicate Overcounted(pc: Pc) { pc.PopCount? }

  /** `got` in a program point, `ver`, `chain`, `vals`, `owner` and `log` are history. A node owned by
      `Client` is back in the pool. */
  datatype Stack = Stack(
    top: Word,
    next: map<Address, Address>,
    data: map<Address, Value>,
    count: int,
    pcs: map<nat, Pc>,
    ver: nat,
    chain: seq<Address>,
    vals: seq<Value>,
    owner: map<Address, Owner>,
    log: seq<Event>)
  {
    ghost function Go(t: nat, pc: Pc): Stack { this.(pcs := pcs[t := pc]) }

    ghost function Give(p: Address, o: Owner): Stack { this.(owner := owner[p := o]) }
  }

  ghost predicate Init(s: Stack) {
    && s.top == Word(0, NULL) && s.next == map[] && s.data == map[] && s.count == 0
    && s.ver == 0 && s.chain == [] && s.vals == [] && s.owner == map[] && s.log == []
    && forall t :: t in s.pcs ==> s.pcs[t] == Idle
  }

  /** Where the thread is after its step at `pc`. `push` says which call an idle thread makes, `v` with what. */
  ghost function NextPc(s: Stack, pc: Pc, p: Address, v: Value, push: bool): Pc {
    match pc
    case Idle => if push then PushAlloc(v) else PopRead
    case PushAlloc(x) => PushSet(p, x)
    case PushSet(q, x) => PushData(q, x)
    case PushData(q, x) => PushRead(q, x)
    case PushRead(q, x) => PushLink(q, x, s.top, s.ver)
    case PushLink(q, x, copy, at) => PushCas(q, x, copy, at)
    case PushCas(q, x, copy, _) => if s.top == copy then PushCount else PushRead(q, x)
    case PushCount => Idle
    case PopRead => if s.top.addr == NULL then Idle else PopNext(s.top, s.ver)
    case PopNext(copy, at) => PopCas(copy, at, Treiber.Load(s.next, copy.addr))
    case PopCas(copy, _, _) => if s.top == copy then PopCount(copy.addr, DataAt(s, copy.addr)) else PopRead
    case PopCount(q, got) => PopData(q, got)
    case PopData(q, got) => PopFree(q, DataAt(s, q), got)
    case PopFree(_, x, got) => PopDone(x, got)
    case PopDone(_, _) => Idle
  }

  ghost function DataAt(s: Stack, p: Address): Value { if p in s.data then s.data[p] else 0 }

  /** What the step of thread `t` at `pc` does. `p` is the node that the pool hands out, `v` the value that
      it happens to carry. */
  ghost function Do(s: Stack, t: nat, pc: Pc, p: Address, v: Value): Stack {
    match pc
    case PushAlloc(_) => s.Give(p, Call(t)).(next := s.next[p := NULL], data := s.data[p := v])
    case PushSet(q, _) => s.(next := s.next[q := NULL])
    case PushData(q, x) => s.(data := s.data[q := x])
    case PushLink(q, _, copy, _) => s.(next := s.next[q := copy.addr])
    case PushCas(q, x, copy, _) =>
      if s.top == copy then
        s.Give(q, Listed).(top := copy.Bump(q), ver := s.ver + 1,
                           chain := [q] + s.chain, vals := [x] + s.vals, log := s.log + [Put(x)])
      else s
    case PushCount => s.(count := s.count + 1)
    case PopRead => if s.top.addr == NULL then s.(log := s.log + [WasEmpty]) else s
    case PopCas(copy, _, succ) =>
      if s.top == copy then
        s.Give(copy.addr, Call(t)).(
          top := copy.Bump(succ), ver := s.ver + 1, chain := Treiber.Rest(s.chain),
          vals := if s.vals == [] then [] else s.vals[1..], log := s.log + [Got(DataAt(s, copy.addr))])
      else s
    case PopCount(_, _) => s.(count := s.count - 1)
    case PopFree(q, _, _) => s.Give(q, Client)
    case _ => s
  }

  /** One step of thread `t`. The pool hands out a node that nobody has. */
  ghost predicate Step(s: Stack, t: nat, p: Address, v: Value, push: bool, s': Stack)
    requires t in s.pcs
  {
    && (s.pcs[t].PushAlloc? ==> p != NULL && (p in s.owner ==> s.owner[p] == Client))
    && s' == Do(s, t, s.pcs[t], p, v).Go(t, NextPc(s, s.pcs[t], p, v, push))
  }

  ghost predicate Next(s: Stack, s': Stack) {
    exists t, p, v, push :: t in s.pcs && Step(s, t, p, v, push, s')
  }

  ghost predicate Wins(s: Stack, pc: Pc) { (pc.PushCas? || pc.PopCas?) && s.top == pc.copy }

  /** The one hypothesis, as for the pool: a `Pop` whose exchange wins has read the successor that the top node still
      has. */
  ghost predicate Fresh(s: Stack, t: nat)
    requires t in s.pcs
  {
    s.pcs[t].PopCas? && Wins(s, s.pcs[t]) ==> s.pcs[t].succ == Treiber.Load(s.next, s.top.addr)
  }

  ghost predicate NextFresh(s: Stack, s': Stack) {
    exists t, p, v, push :: t in s.pcs && Step(s, t, p, v, push, s') && Fresh(s, t)
  }

  ghost predicate Run(tr: seq<Stack>) {
    && tr != [] && Init(tr[0])
    && (forall i :: 0 <= i < |tr| - 1 ==> NextFresh(tr[i], tr[i + 1]))
  }

  /** Fewer than 2^17 exchanges succeed while an attempt holds its copy. */
  ghost predicate Bounded(s: Stack) {
    forall t :: t in s.pcs && s.pcs[t].Copied() ==> s.ver < s.pcs[t].ver + STAMPS
  }

  ghost predicate BoundedRun(tr: seq<Stack>) {
    && tr != [] && Init(tr[0])
    && (forall i :: 0 <= i < |tr| - 1 ==> Next(tr[i], tr[i + 1]))
    && (forall i :: 0 <= i < |tr| ==> Bounded(tr[i]))
  }

  // ----- the invariant -----

  ghost predicate CopyOk(s: Stack, pc: Pc) {
    && (pc.Copied() ==> Treiber.ReadAt(s.top, s.ver, pc.copy, pc.ver))
    && (pc.PopNext? || pc.PopCas? ==> pc.copy.addr != NULL && pc.copy.addr in s.next)
    && (pc.PopCas? && pc.ver == s.ver ==> pc.succ == Treiber.Load(s.next, pc.copy.addr))
    && (pc.PushCas? ==> pc.p in s.next && s.next[pc.p] == pc.copy.addr)
  }

  ghost predicate HoldOk(s: Stack, pc: Pc) {
    && (pc.Pushing() || pc.Popped() ==> pc.p != NULL)
    && (pc.PushRead? || pc.PushLink? || pc.PushCas? ==> pc.p in s.data && s.data[pc.p] == pc.v)
    && (pc.PopCount? || pc.PopData? ==> pc.p in s.data && s.data[pc.p] == pc.got)
    && (pc.PopFree? || pc.PopDone? ==> pc.v == pc.got)
  }

  /** The values of the nodes from the top down. */
  ghost predicate Carries(data: map<Address, Value>, chain: seq<Address>, vals: seq<Value>) {
    && |vals| == |chain|
    && forall i :: 0 <= i < |chain| ==> chain[i] in data && data[chain[i]] == vals[i]
  }

  ghost predicate Inv(s: Stack) {
    && Treiber.Linked(s.top, s.next, s.ver, s.chain)
    && (forall t :: t in s.pcs ==> CopyOk(s, s.pcs[t]) && HoldOk(s, s.pcs[t]))
    && s.owner.Keys == s.next.Keys == s.data.Keys
    && Unique(s.pcs, Held, s.owner, s.chain)
    && Carries(s.data, s.chain, s.vals)
    && Replay(Lifo, s.log) == Some(s.vals)
    && s.count + Count(s.pcs, Uncounted) == |s.chain| + Count(s.pcs, Overcounted)
  }

  lemma InitInv(s: Stack)
    requires Init(s)
    ensures Inv(s)
  {
    CountZero(s.pcs, Uncounted);
    CountZero(s.pcs, Overcounted);
  }

  lemma MemoryFrame(s: Stack, t: nat, pc: Pc, p: Address, v: Value)
    ensures pc.PushAlloc? || pc.PushSet? || pc.PushLink? || Do(s, t, pc, p, v).next == s.next
    ensures pc.PushAlloc? || pc.PushData? || Do(s, t, pc, p, v).data == s.data
    ensures Do(s, t, pc, p, v).pcs == s.pcs
  {}

  lemma TopFrame(s: Stack, t: nat, pc: Pc, p: Address, v: Value)
    ensures var s' := Do(s, t, pc, p, v);
      if Wins(s, pc) then s'.ver == s.ver + 1
      else s'.top == s.top && s'.ver == s.ver && s'.chain == s.chain && s'.vals == s.vals
  {}

  lemma StepFrame(s: Stack, t: nat, p: Address, v: Value, push: bool, s': Stack)
    requires t in s.pcs && Step(s, t, p, v, push, s')
    ensures t in s'.pcs && s'.pcs == s.pcs[t := s'.pcs[t]]
    ensures s.pcs[t].PushAlloc? || s.pcs[t].PushSet? || s.pcs[t].PushLink? || s'.next == s.next
    ensures s.pcs[t].PushAlloc? || s.pcs[t].PushData? || s'.data == s.data
    ensures if Wins(s, s.pcs[t]) then s'.ver == s.ver + 1
            else s'.top == s.top && s'.ver == s.ver && s'.chain == s.chain && s'.vals == s.vals
  {
    MemoryFrame(s, t, s.pcs[t], p, v);
    TopFrame(s, t, s.pcs[t], p, v);
  }

  /** The node that the step at `pc` writes. */
  ghost function Written(pc: Pc, p: Address): Address {
    if pc.PushAlloc? then p else if pc.Pushing() then pc.p else NULL
  }

  lemma WinLinked(s: Stack, t: nat, pc: Pc, p: Address, v: Value)
    requires pc.PopCas? || (pc.PushCas? && pc.p != NULL && pc.p !in s.chain)
    requires Treiber.Linked(s.top, s.next, s.ver, s.chain) && CopyOk(s, pc) && s.top == pc.copy
    requires pc.PopCas? ==> pc.succ == Treiber.Load(s.next, s.top.addr)
    ensures var s' := Do(s, t, pc, p, v); Treiber.Linked(s'.top, s'.next, s'.ver, s'.chain)
  {
    if pc.PopCas? {
      Treiber.PopKeepsLinked(s.top, s.next, s.ver, s.chain);
    } else {
      Treiber.PushKeepsLinked(s.top, s.next, s.ver, s.chain, pc.p);
    }
  }

  lemma WriteLinked(s: Stack, t: nat, pc: Pc, p: Address, v: Value)
    requires Treiber.Linked(s.top, s.next, s.ver, s.chain)
    requires pc.PushAlloc? || pc.PushSet? || pc.PushLink?
    requires Written(pc, p) != NULL && Written(pc, p) !in s.chain
    ensures var s' := Do(s, t, pc, p, v); Treiber.Linked(s'.top, s'.next, s'.ver, s'.chain)
  {
    var link := if pc.PushLink? then pc.copy.addr else NULL;
    Treiber.WriteOutsideKeepsLinked(s.top, s.next, s.ver, s.chain, Written(pc, p), link);
  }

  lemma StepLinked(s: Stack, t: nat, p: Address, v: Value, push: bool, s': Stack)
    requires t in s.pcs && Step(s, t, p, v, push, s') && Treiber.Linked(s.top, s.next, s.ver, s.chain)
    requires CopyOk(s, s.pcs[t]) && Fresh(s, t)
    requires s.pcs[t].PushAlloc? || s.pcs[t].Pushing() ==>
      Written(s.pcs[t], p) != NULL && Written(s.pcs[t], p) !in s.chain
    ensures Treiber.Linked(s'.top, s'.next, s'.ver, s'.chain)
  {
    var pc := s.pcs[t];
    if Wins(s, pc) {
      WinLinked(s, t, pc, p, v);
    } else if pc.PushAlloc? || pc.PushSet? || pc.PushLink? {
      WriteLinked(s, t, pc, p, v);
    } else {
      StepFrame(s, t, p, v, push, s');
    }
  }

  lemma OtherCopy(s: Stack, t: nat, p: Address, v: Value, push: bool, s': Stack, u: nat)
    requires Inv(s) && t in s.pcs && u in s.pcs && u != t && Step(s, t, p, v, push, s')
    ensures u in s'.pcs && CopyOk(s', s'.pcs[u])
  {
    StepFrame(s, t, p, v, push, s');
    var pc := s.pcs[u];
    assert CopyOk(s, pc) && HoldOk(s, pc) && HoldOk(s, s.pcs[t]);
    if s.pcs[t].PushAlloc? || s.pcs[t].PushSet? || s.pcs[t].PushLink? {
      var q := if s.pcs[t].PushAlloc? then p else s.pcs[t].p;
      assert pc.PushCas? ==> Held(pc) != q;
      if pc.PopCas? && pc.ver == s.ver {
        assert pc.copy.addr == s.chain[0];
      }
    }
  }

  lemma OtherHold(s: Stack, t: nat, p: Address, v: Value, push: bool, s': Stack, u: nat)
    requires Inv(s) && t in s.pcs && u in s.pcs && u != t && Step(s, t, p, v, push, s')
    ensures u in s'.pcs && HoldOk(s', s'.pcs[u])
  {
    StepFrame(s, t, p, v, push, s');
    var pc := s.pcs[u];
    assert HoldOk(s, pc) && HoldOk(s, s.pcs[t]);
    if s.pcs[t].PushAlloc? || s.pcs[t].PushData? {
      var q := if s.pcs[t].PushAlloc? then p else s.pcs[t].p;
      assert Held(pc) != q;
    }
  }

  lemma OwnCopy(s: Stack, t: nat, p: Address, v: Value, push: bool, s': Stack)
    requires t in s.pcs && Step(s, t, p, v, push, s') && CopyOk(s, s.pcs[t])
    requires s.top.stamp == s.ver % STAMPS && (s.top.addr != NULL ==> s.top.addr in s.next)
    ensures t in s'.pcs && CopyOk(s', s'.pcs[t])
  {}

  lemma OwnHold(s: Stack, t: nat, p: Address, v: Value, push: bool, s': Stack)
    requires t in s.pcs && Step(s, t, p, v, push, s') && CopyOk(s, s.pcs[t]) && HoldOk(s, s.pcs[t])
    requires s.next.Keys == s.data.Keys
    ensures t in s'.pcs && HoldOk(s', s'.pcs[t])
  {}

  lemma WinOwner(s: Stack, t: nat, p: Address, v: Value, push: bool, s': Stack)
    requires Inv(s) && t in s.pcs && Step(s, t, p, v, push, s')
    requires Wins(s, s.pcs[t])
    ensures Unique(s'.pcs, Held, s'.owner, s'.chain)
  {
    var pc, pc' := s.pcs[t], s'.pcs[t];
    assert CopyOk(s, pc) && HoldOk(s, pc);
    if pc.PopCas? {
      assert s.chain == [pc.copy.addr] + s'.chain;
      assert pc.copy.addr in s.chain;
      Passing(s.pcs, Held, s.owner, s.chain, t, pc', pc.copy.addr, Call(t), s'.chain);
    } else {
      Passing(s.pcs, Held, s.owner, s.chain, t, pc', pc.p, Listed, s'.chain);
    }
  }

  lemma QuietOwner(s: Stack, t: nat, p: Address, v: Value, push: bool, s': Stack)
    requires t in s.pcs && Step(s, t, p, v, push, s') && Unique(s.pcs, Held, s.owner, s.chain) && HoldOk(s, s.pcs[t])
    requires !Wins(s, s.pcs[t])
    ensures Unique(s'.pcs, Held, s'.owner, s'.chain)
  {
    StepFrame(s, t, p, v, push, s');
    var pc, pc' := s.pcs[t], s'.pcs[t];
    if pc.PushAlloc? {
      Passing(s.pcs, Held, s.owner, s.chain, t, pc', p, Call(t), s.chain);
    } else if pc.PopFree? {
      Passing(s.pcs, Held, s.owner, s.chain, t, pc', pc.p, Client, s.chain);
    } else {
      assert s'.owner == s.owner;
      Staying(s.pcs, Held, s.owner, s.chain, t, pc');
    }
  }

  lemma StepKeys(s: Stack, t: nat, p: Address, v: Value, push: bool, s': Stack)
    requires Inv(s) && t in s.pcs && Step(s, t, p, v, push, s')
    ensures s'.owner.Keys == s'.next.Keys == s'.data.Keys
  {
    assert CopyOk(s, s.pcs[t]) && HoldOk(s, s.pcs[t]);
    assert Held(s.pcs[t]) != NULL ==> Held(s.pcs[t]) in s.owner;
    KeysOf(s, t, s.pcs[t], p, v);
  }

  lemma KeysOf(s: Stack, t: nat, pc: Pc, p: Address, v: Value)
    requires s.owner.Keys == s.next.Keys == s.data.Keys && (Held(pc) != NULL ==> Held(pc) in s.owner)
    requires (pc.Pushing() || pc.Popped() ==> pc.p != NULL) && (pc.PopCas? ==> pc.copy.addr in s.next)
    ensures var s' := Do(s, t, pc, p, v); s'.owner.Keys == s'.next.Keys == s'.data.Keys
  {}

  lemma WinValues(s: Stack, t: nat, pc: Pc, p: Address, v: Value)
    requires Wins(s, pc) && HoldOk(s, pc) && s.top.addr == Treiber.First(s.chain)
    requires Carries(s.data, s.chain, s.vals) && Replay(Lifo, s.log) == Some(s.vals)
    requires (pc.PopCas? ==> pc.copy.addr != NULL)
    ensures var s' := Do(s, t, pc, p, v); Carries(s'.data, s'.chain, s'.vals) && Replay(Lifo, s'.log) == Some(s'.vals)
  {
    if pc.PushCas? {
      PushValues(s.data, s.chain, s.vals, s.log, pc.p, pc.v);
    } else {
      PopValues(s.data, s.chain, s.vals, s.log);
    }
  }

  lemma PushValues(data: map<Address, Value>, chain: seq<Address>, vals: seq<Value>, log: seq<Event>, p: Address,
                   v: Value)
    requires Carries(data, chain, vals) && Replay(Lifo, log) == Some(vals) && p in data && data[p] == v
    ensures Carries(data, [p] + chain, [v] + vals) && Replay(Lifo, log + [Put(v)]) == Some([v] + vals)
  {
    ReplayOneMore(Lifo, log, Put(v));
  }

  lemma PopValues(data: map<Address, Value>, chain: seq<Address>, vals: seq<Value>, log: seq<Event>)
    requires Carries(data, chain, vals) && Replay(Lifo, log) == Some(vals) && chain != []
    ensures chain[0] in data
    ensures Carries(data, chain[1..], vals[1..]) && Replay(Lifo, log + [Got(data[chain[0]])]) == Some(vals[1..])
  {
    ReplayOneMore(Lifo, log, Got(data[chain[0]]));
  }

  lemma StepValues(s: Stack, t: nat, p: Address, v: Value, push: bool, s': Stack)
    requires t in s.pcs && Step(s, t, p, v, push, s') && HoldOk(s, s.pcs[t])
    requires Carries(s.data, s.chain, s.vals) && Replay(Lifo, s.log) == Some(s.vals)
    requires s.top.addr == Treiber.First(s.chain) && NULL !in s.chain
    requires s.pcs[t].PopCas? ==> s.pcs[t].copy.addr != NULL
    requires s.pcs[t].PushAlloc? || s.pcs[t].PushData? ==> Written(s.pcs[t], p) !in s.chain
    ensures Carries(s'.data, s'.chain, s'.vals) && Replay(Lifo, s'.log) == Some(s'.vals)
  {
    var pc := s.pcs[t];
    if Wins(s, pc) {
      WinValues(s, t, pc, p, v);
    } else {
      StepFrame(s, t, p, v, push, s');
      if pc.PopRead? && s.top.addr == NULL {
        ReplayOneMore(Lifo, s.log, WasEmpty);
      } else {
        assert s'.log == s.log;
      }
    }
  }

  lemma StepCount(s: Stack, t: nat, p: Address, v: Value, push: bool, s': Stack)
    requires Inv(s) && t in s.pcs && Step(s, t, p, v, push, s')
    ensures s'.count + Count(s'.pcs, Uncounted) == |s'.chain| + Count(s'.pcs, Overcounted)
  {
    StepFrame(s, t, p, v, push, s');
    assert CopyOk(s, s.pcs[t]);
    CountStep(s.pcs, t, s'.pcs[t], Uncounted);
    CountStep(s.pcs, t, s'.pcs[t], Overcounted);
    if s.pcs[t].PopCas? && s.top == s.pcs[t].copy {
      assert s.chain != [];
    }
  }

  lemma StepInv(s: Stack, s': Stack)
    requires Inv(s) && NextFresh(s, s')
    ensures Inv(s')
  {
    var t, p, v, push :| t in s.pcs && Step(s, t, p, v, push, s') && Fresh(s, t);
    var pc := s.pcs[t];
    assert CopyOk(s, pc) && HoldOk(s, pc);
    assert s.chain != [] ==> s.chain[0] in s.chain;
    assert Held(pc) != NULL ==> Held(pc) in s.owner && s.owner[Held(pc)] == Call(t);
    StepLinked(s, t, p, v, push, s');
    StepFrame(s, t, p, v, push, s');
    forall u | u in s'.pcs ensures CopyOk(s', s'.pcs[u]) && HoldOk(s', s'.pcs[u]) {
      if u == t {
        OwnCopy(s, t, p, v, push, s');
        OwnHold(s, t, p, v, push, s');
      } else {
        OtherCopy(s, t, p, v, push, s', u);
        OtherHold(s, t, p, v, push, s', u);
      }
    }
    StepKeys(s, t, p, v, push, s');
    if Wins(s, pc) {
      WinOwner(s, t, p, v, push, s');
    } else {
      QuietOwner(s, t, p, v, push, s');
    }
    StepValues(s, t, p, v, push, s');
    StepCount(s, t, p, v, push, s');
  }

  // ----- results -----

  lemma {:induction false} RunInv(tr: seq<Stack>, n: nat)
    requires Run(tr) && n < |tr|
    ensures Inv(tr[n])
  {
    if n == 0 {
      InitInv(tr[0]);
    } else {
      RunInv(tr, n - 1);
      assert NextFresh(tr[n - 1], tr[n - 1 + 1]);
      StepInv(tr[n - 1], tr[n]);
    }
  }

  /** The hypothesis is exact: the exchange of a `Pop` leaves the rest of the list, and nothing else, reachable from the
      top if and only if the successor it installs is the one that the top node still has. */
  lemma PopKeepsListExactlyWhen(s: Stack, t: nat, p: Address, v: Value, push: bool, s': Stack)
    requires Inv(s) && t in s.pcs && Step(s, t, p, v, push, s') && s.pcs[t].PopCas? && Wins(s, s.pcs[t])
    ensures s'.chain == Treiber.Rest(s.chain)
    ensures Treiber.Linked(s'.top, s'.next, s'.ver, s'.chain) <==> Fresh(s, t)
  {
    assert CopyOk(s, s.pcs[t]);
    if Fresh(s, t) {
      StepLinked(s, t, p, v, push, s');
    }
    assert Treiber.LinkAt(s.next, s.chain, 0);
  }

  lemma BoundedStep(s: Stack, s': Stack)
    requires Inv(s) && Bounded(s) && Next(s, s')
    ensures NextFresh(s, s')
  {
    var t, p, v, push :| t in s.pcs && Step(s, t, p, v, push, s');
    assert CopyOk(s, s.pcs[t]);
    if s.pcs[t].PopCas? {
      Treiber.WinMeansUnchanged(s.top, s.next, s.ver, s.chain, s.pcs[t].copy, s.pcs[t].ver);
    }
  }

  lemma {:induction false} BoundedInv(tr: seq<Stack>, n: nat)
    requires BoundedRun(tr) && n < |tr|
    ensures Inv(tr[n])
  {
    if n == 0 {
      InitInv(tr[0]);
    } else {
      BoundedInv(tr, n - 1);
      BoundedStep(tr[n - 1], tr[n - 1 + 1]);
      StepInv(tr[n - 1], tr[n]);
    }
  }

  /** The stamp ensures it as long as fewer than 2^17 exchanges succeed during one attempt. */
  lemma BoundedRunIsRun(tr: seq<Stack>)
    requires BoundedRun(tr)
    ensures Run(tr)
  {
    forall i | 0 <= i < |tr| - 1 ensures NextFresh(tr[i], tr[i + 1]) {
      BoundedInv(tr, i);
      BoundedStep(tr[i], tr[i + 1]);
    }
  }

  /** The stack is last-in first-out in every run, although nodes are recycled: replaying the calls in
      the order they took effect gives exactly the values found by following `next` from the top, every
      pop got the value then on top, and `Pop` reported empty only when it was. */
  lemma LastInFirstOut(tr: seq<Stack>, n: nat)
    requires Run(tr) && n < |tr|
    ensures Treiber.Linked(tr[n].top, tr[n].next, tr[n].ver, tr[n].chain)
    ensures Carries(tr[n].data, tr[n].chain, tr[n].vals)
    ensures Replay(Lifo, tr[n].log) == Some(tr[n].vals)
  {
    RunInv(tr, n);
  }

  /** The value a `Pop` hands back, read only after its exchange, is the one it removed. */
  lemma PopReturnsWhatItRemoved(tr: seq<Stack>, n: nat, t: nat)
    requires Run(tr) && n < |tr| && t in tr[n].pcs && tr[n].pcs[t].PopDone?
    ensures tr[n].pcs[t].v == tr[n].pcs[t].got
  {
    RunInv(tr, n);
    assert HoldOk(tr[n], tr[n].pcs[t]);
  }

  /** With no call in progress `GetUseCount` is the number of values on the stack. */
  lemma CountAtRest(tr: seq<Stack>, n: nat)
    requires Run(tr) && n < |tr| && forall t :: t in tr[n].pcs ==> tr[n].pcs[t] == Idle
    ensures tr[n].count == |tr[n].vals|
  {
    RunInv(tr, n);
    CountZero(tr[n].pcs, Uncounted);
    CountZero(tr[n].pcs, Overcounted);
  }

  /** No step of the model is ever blocked by a read of memory that does not exist. */
  lemma NeverStuck(tr: seq<Stack>, n: nat, t: nat)
    requires Run(tr) && n < |tr| && t in tr[n].pcs
    ensures tr[n].pcs[t].PopNext? || tr[n].pcs[t].PopCas? ==>
      tr[n].pcs[t].copy.addr in tr[n].next && tr[n].pcs[t].copy.addr in tr[n].data
    ensures tr[n].pcs[t].PopData? ==> tr[n].pcs[t].p in tr[n].data
  {
    RunInv(tr, n);
    assert CopyOk(tr[n], tr[n].pcs[t]) && HoldOk(tr[n], tr[n].pcs[t]);
  }
}
