/** `LFQueue`: a linked queue with stamped head and tail words, recycled nodes and a counter that gates
    `Dequeue`. Steps are as in `ObjectPool`; the node pool is used through what `ObjectPool.HandsOutUnowned` states. */
module LockFreeQueue {
  import opened Stamps
  import opened Tally
  import opened Ownership
  import opened Reference
  import Treiber

  /** `hv` and `tv` are the positions at which the copied head and tail words were current (history). */
  datatype Pc =
    | Idle
    | EnqAlloc(v: Value)
    | EnqData(p: Address, v: Value)
    | EnqRead(p: Address, v: Value)
    | EnqNext(p: Address, v: Value, ct: Word, tv: nat)
    | EnqLink(p: Address, v: Value, ct: Word, tv: nat)
    | EnqHelp(p: Address, v: Value, ct: Word, tv: nat, nx: Address)
    | EnqCount(p: Address, ct: Word, tv: nat)
    | EnqSwing(p: Address, ct: Word, tv: nat)
    | DeqGate
    | DeqBack
    | DeqHead
    | DeqTail(ch: Word, hv: nat)
    | DeqTailNext(ch: Word, hv: nat, ct: Word, tv: nat)
    | DeqHelp(ch: Word, hv: nat, ct: Word, tv: nat, nx: Address)
    | DeqNext(ch: Word, hv: nat)
    | DeqData(ch: Word, hv: nat, nx: Address)
    | DeqCas(ch: Word, hv: nat, nx: Address, d: Value)
    | DeqFree(p: Address, d: Value)
    | DeqDone(d: Value)
  {
    predicate HasTail() { EnqNext? || EnqLink? || EnqHelp? || EnqCount? || EnqSwing? || DeqTailNext? || DeqHelp? }

    predicate HasHead() { DeqTail? || DeqTailNext? || DeqHelp? || DeqNext? || DeqData? || DeqCas? }

    /** Owns a node that is not yet linked. */
    predicate Private() { EnqData? || EnqRead? || EnqNext? || EnqLink? || EnqHelp? }

    /** About to read or exchange the `next` field of the copied tail node. */
    predicate AtTailNode() { EnqNext? || EnqLink? }
  }

  function Held(pc: Pc): Address {
    if pc.Private() || pc.DeqFree? then pc.p else NULL
  }

  predicate Uncounted(pc: Pc) { pc.EnqCount? }
  predicate Refused(pc: Pc) { pc.DeqBack? }
  predicate PastGate(pc: Pc) {
    pc.DeqHead? || pc.DeqTail? || pc.DeqTailNext? || pc.DeqHelp? || pc.DeqNext? || pc.DeqData? || pc.DeqCas?
  }

  /** History: `hist` is every node in link order, the first dummy included, `vals` the values linked,
      `hpos` and `tpos` the positions of the head and tail words in `hist`, `log` the calls in the order
      they took effect, `counted` the counter increments and `passed` the `Dequeue` calls past the gate. */
  datatype Queue = Queue(
    head: Word,
    tail: Word,
    next: map<Address, Address>,
    data: map<Address, Value>,
    count: int,
    pcs: map<nat, Pc>,
    hist: seq<Address>,
    vals: seq<Value>,
    hpos: nat,
    tpos: nat,
    owner: map<Address, Owner>,
    log: seq<Event>,
    counted: nat,
    passed: nat)
  {
    ghost function Go(t: nat, pc: Pc): Queue { this.(pcs := pcs[t := pc]) }

    ghost function Give(p: Address, o: Owner): Queue { this.(owner := owner[p := o]) }

    ghost function LinkLast(at: Address, p: Address, v: Value): Queue {
      Give(p, Listed).(next := next[at := p], hist := hist + [p], vals := vals + [v], log := log + [Put(v)])
    }

    /** The compare-exchange on the tail word, whichever thread attempts it. */
    ghost function SwingTail(ct: Word, nx: Address): Queue {
      if tail == ct then this.(tail := ct.Bump(nx), tpos := tpos + 1) else this
    }

    ghost function TakeHead(t: nat, ch: Word, nx: Address, d: Value): Queue {
      Give(ch.addr, Call(t)).(head := ch.Bump(nx), hpos := hpos + 1, log := log + [Got(d)])
    }
  }

  ghost predicate Init(s: Queue) {
    && s.hist == [s.head.addr] && s.head == s.tail && s.head.stamp == 0 && s.head.addr != NULL
    && s.next == map[s.head.addr := NULL] && s.data.Keys == {s.head.addr} && s.count == 0
    && s.vals == [] && s.hpos == 0 && s.tpos == 0 && s.owner == map[s.head.addr := Listed]
    && s.log == [] && s.counted == 0 && s.passed == 0
    && forall t :: t in s.pcs ==> s.pcs[t] == Idle
  }

  ghost function DataAt(s: Queue, p: Address): Value { if p in s.data then s.data[p] else 0 }

  /** Where the thread is after its step at `pc`. `enq` says which call an idle thread makes, `v` with what. */
  ghost function NextPc(s: Queue, pc: Pc, p: Address, v: Value, enq: bool): Pc {
    match pc
    case Idle => if enq then EnqAlloc(v) else DeqGate
    case EnqAlloc(x) => EnqData(p, x)
    case EnqData(q, x) => EnqRead(q, x)
    case EnqRead(q, x) => EnqNext(q, x, s.tail, s.tpos)
    case EnqNext(q, x, ct, tv) =>
      var nx := Treiber.Load(s.next, ct.addr);
      if nx == NULL then EnqLink(q, x, ct, tv) else EnqHelp(q, x, ct, tv, nx)
    case EnqLink(q, x, ct, tv) => if Links(s, pc) then EnqCount(q, ct, tv) else EnqRead(q, x)
    case EnqHelp(q, x, _, _, _) => EnqRead(q, x)
    case EnqCount(q, ct, tv) => EnqSwing(q, ct, tv)
    case EnqSwing(_, _, _) => Idle
    case DeqGate => if s.count - 1 < 0 then DeqBack else DeqHead
    case DeqBack => Idle
    case DeqHead => DeqTail(s.head, s.hpos)
    case DeqTail(ch, hv) => if ch == s.tail then DeqTailNext(ch, hv, s.tail, s.tpos) else DeqNext(ch, hv)
    case DeqTailNext(ch, hv, ct, tv) =>
      var nx := Treiber.Load(s.next, ct.addr);
      if nx == NULL then DeqHead else DeqHelp(ch, hv, ct, tv, nx)
    case DeqHelp(ch, hv, _, _, _) => DeqNext(ch, hv)
    case DeqNext(ch, hv) =>
      var nx := Treiber.Load(s.next, ch.addr);
      if nx == NULL then DeqHead else DeqData(ch, hv, nx)
    case DeqData(ch, hv, nx) => DeqCas(ch, hv, nx, DataAt(s, nx))
    case DeqCas(ch, _, _, d) => if Takes(s, pc) then DeqFree(ch.addr, d) else DeqHead
    case DeqFree(_, d) => DeqDone(d)
    case DeqDone(_) => Idle
  }

  /** The exchange of a `next` field, of the tail word and of the head word succeed. */
  predicate Links(s: Queue, pc: Pc) { pc.EnqLink? && Treiber.Load(s.next, pc.ct.addr) == NULL }

  predicate Swings(s: Queue, pc: Pc) { (pc.EnqHelp? || pc.EnqSwing? || pc.DeqHelp?) && s.tail == pc.ct }

  predicate Takes(s: Queue, pc: Pc) { pc.DeqCas? && s.head == pc.ch }

  /** What the step of thread `t` at `pc` does. `p` is the node that the pool hands out, `v` the value that it
      happens to carry. */
  ghost function Do(s: Queue, t: nat, pc: Pc, p: Address, v: Value): Queue {
    match pc
    case EnqAlloc(_) => s.Give(p, Call(t)).(next := s.next[p := NULL], data := s.data[p := v])
    case EnqData(q, x) => s.(data := s.data[q := x])
    case EnqLink(q, x, ct, _) => if Links(s, pc) then s.LinkLast(ct.addr, q, x) else s
    case EnqHelp(_, _, ct, _, nx) => s.SwingTail(ct, nx)
    case EnqCount(_, _, _) => s.(count := s.count + 1, counted := s.counted + 1)
    case EnqSwing(q, ct, _) => s.SwingTail(ct, q)
    case DeqGate => s.(count := s.count - 1, passed := if s.count - 1 < 0 then s.passed else s.passed + 1)
    case DeqBack => s.(count := s.count + 1)
    case DeqHelp(_, _, ct, _, nx) => s.SwingTail(ct, nx)
    case DeqCas(ch, _, nx, d) => if Takes(s, pc) then s.TakeHead(t, ch, nx, d) else s
    case DeqFree(q, _) => s.Give(q, Client)
    case _ => s
  }

  /** One step of thread `t`. The pool hands out a node that nobody has. */
  ghost predicate Step(s: Queue, t: nat, p: Address, v: Value, enq: bool, s': Queue)
    requires t in s.pcs
  {
    && (s.pcs[t].EnqAlloc? ==> p != NULL && (p in s.owner ==> s.owner[p] == Client))
    && s' == Do(s, t, s.pcs[t], p, v).Go(t, NextPc(s, s.pcs[t], p, v, enq))
  }

  ghost predicate Next(s: Queue, s': Queue) {
    exists t, p, v, enq :: t in s.pcs && Step(s, t, p, v, enq, s')
  }

  /** The node that the exchange of the tail word installs. */
  function Swung(pc: Pc): Address { if pc.EnqSwing? then pc.p else if pc.EnqHelp? || pc.DeqHelp? then pc.nx else NULL }

  /** First hypothesis, about the step of thread `t`: an exchange of the tail or head word that wins installs the
      successor that the word's node still has, and for the head, the tail is ahead and the value read is still that
      of the node. */
  ghost predicate Fresh(s: Queue, t: nat)
    requires t in s.pcs
  {
    var pc := s.pcs[t];
    && (Swings(s, pc) ==> Swung(pc) != NULL && Swung(pc) == Treiber.Load(s.next, s.tail.addr))
    && (Takes(s, pc) ==> pc.nx != NULL && pc.nx == Treiber.Load(s.next, s.head.addr) && s.head != s.tail
                           && pc.d == DataAt(s, pc.nx))
  }

  /** Second hypothesis, about the step of thread `t`: its link exchange does not win on a node that another call
      still holds privately. The exchange compares with an unstamped null, so no stamp rules that out. */
  ghost predicate Unshared(s: Queue, t: nat)
    requires t in s.pcs
  {
    Links(s, s.pcs[t]) ==>
      forall u :: u in s.pcs && u != t && s.pcs[u].Private() ==> s.pcs[u].p != s.pcs[t].ct.addr
  }

  ghost predicate NextSound(s: Queue, s': Queue) {
    exists t, p, v, enq :: t in s.pcs && Step(s, t, p, v, enq, s') && Fresh(s, t) && Unshared(s, t)
  }

  ghost predicate Run(tr: seq<Queue>) {
    && tr != [] && Init(tr[0])
    && (forall i :: 0 <= i < |tr| - 1 ==> NextSound(tr[i], tr[i + 1]))
  }

  /** What the stamps are for: fewer than 2^17 exchanges of a word succeed while an attempt holds its copy. */
  ghost predicate Bounded(s: Queue) {
    && (forall t :: t in s.pcs && s.pcs[t].HasTail() ==> s.tpos < s.pcs[t].tv + STAMPS)
    && (forall t :: t in s.pcs && s.pcs[t].HasHead() ==> s.hpos < s.pcs[t].hv + STAMPS)
  }

  ghost predicate NextUnshared(s: Queue, s': Queue) {
    exists t, p, v, enq :: t in s.pcs && Step(s, t, p, v, enq, s') && Unshared(s, t)
  }

  ghost predicate StampedRun(tr: seq<Queue>) {
    && tr != [] && Init(tr[0])
    && (forall i :: 0 <= i < |tr| - 1 ==> NextUnshared(tr[i], tr[i + 1]))
    && (forall i :: 0 <= i < |tr| ==> Bounded(tr[i]))
  }

  // ----- the invariant -----

  ghost predicate ValueAt(data: map<Address, Value>, hist: seq<Address>, vals: seq<Value>, i: int)
    requires 0 < i < |hist| == |vals| + 1
  {
    hist[i] in data && data[hist[i]] == vals[i - 1]
  }

  ghost predicate Positions(s: Queue) {
    && s.hpos <= s.tpos < |s.hist|
    && |s.hist| == |s.vals| + 1
    && s.head == Word(s.hpos % STAMPS, s.hist[s.hpos])
    && s.tail == Word(s.tpos % STAMPS, s.hist[s.tpos])
  }

  /** The live part of the history is a list without repetition whose links and values are in memory. */
  ghost predicate Shape(s: Queue) {
    && Positions(s)
    && NULL !in s.hist
    && (forall i, j :: s.hpos <= i < j < |s.hist| ==> s.hist[i] != s.hist[j])
    && (forall i :: s.hpos <= i < |s.hist| ==> Treiber.LinkAt(s.next, s.hist, i))
    && (forall i :: s.hpos < i < |s.hist| ==> ValueAt(s.data, s.hist, s.vals, i))
  }

  ghost predicate TailOk(s: Queue, pc: Pc) {
    && (pc.HasTail() ==> pc.tv <= s.tpos < |s.hist| && pc.ct == Word(pc.tv % STAMPS, s.hist[pc.tv]))
    && (pc.AtTailNode() ==> pc.ct.addr in s.next && pc.ct.addr != pc.p)
    && ((pc.EnqHelp? || pc.DeqHelp?) && pc.tv == s.tpos ==> pc.tv + 1 < |s.hist| && pc.nx == s.hist[pc.tv + 1])
    && ((pc.EnqCount? || pc.EnqSwing?) && pc.tv == s.tpos ==> pc.tv + 1 < |s.hist| && pc.p == s.hist[pc.tv + 1])
  }

  ghost predicate HeadOk(s: Queue, pc: Pc) {
    && (pc.HasHead() ==> pc.hv <= s.hpos < |s.hist| && pc.ch == Word(pc.hv % STAMPS, s.hist[pc.hv]))
    && (pc.DeqTailNext? || pc.DeqHelp? ==> pc.hv <= pc.tv)
    && (pc.DeqNext? || pc.DeqData? || pc.DeqCas? ==> pc.hv < s.tpos)
    && (pc.DeqData? || pc.DeqCas? ==> pc.nx in s.data)
    && ((pc.DeqData? || pc.DeqCas?) && pc.hv == s.hpos ==> pc.hv + 1 < |s.hist| && pc.nx == s.hist[pc.hv + 1])
    && (pc.DeqCas? && pc.hv == s.hpos ==> pc.hv < |s.vals| && pc.d == s.vals[pc.hv])
  }

  ghost predicate HoldOk(s: Queue, pc: Pc) {
    && (pc.Private() || pc.DeqFree? ==> pc.p != NULL)
    && (pc.Private() ==> pc.p in s.next && s.next[pc.p] == NULL && pc.p in s.data)
    && (pc.Private() && !pc.EnqData? ==> s.data[pc.p] == pc.v)
  }

  ghost predicate Local(s: Queue, pc: Pc) { TailOk(s, pc) && HeadOk(s, pc) && HoldOk(s, pc) }

  ghost predicate Owners(s: Queue) {
    && s.hpos <= |s.hist|
    && s.owner.Keys == s.next.Keys == s.data.Keys
    && (forall p :: p in s.next ==> s.next[p] == NULL || s.next[p] in s.next)
    && Unique(s.pcs, Held, s.owner, s.hist[s.hpos..])
  }

  /** The owner is a call that has not linked its node yet. */
  ghost predicate IsPrivate(s: Queue, o: Owner) { o.Call? && o.t in s.pcs && s.pcs[o.t].Private() }

  /** A null link is that of the last node or of a node not yet linked, never that of a freed one. */
  ghost predicate Ends(s: Queue) {
    forall p :: p in s.next && s.next[p] == NULL ==>
      p in s.owner && (s.owner[p] == Listed || IsPrivate(s, s.owner[p]))
  }

  ghost predicate Gate(s: Queue) {
    && s.count == s.counted - s.passed - Count(s.pcs, Refused)
    && s.counted + Count(s.pcs, Uncounted) == |s.vals|
    && s.hpos + Count(s.pcs, PastGate) == s.passed
    && s.passed <= s.counted
  }

  ghost predicate InOrder(s: Queue) {
    s.hpos <= |s.vals| && Replay(Fifo, s.log) == Some(s.vals[s.hpos..])
  }

  ghost predicate Core(s: Queue) {
    Shape(s) && Owners(s) && Ends(s) && forall t :: t in s.pcs ==> Local(s, s.pcs[t])
  }

  ghost predicate Inv(s: Queue) { Core(s) && Gate(s) && InOrder(s) }

  lemma InitInv(s: Queue)
    requires Init(s)
    ensures Inv(s)
  {
    CountZero(s.pcs, Refused);
    CountZero(s.pcs, Uncounted);
    CountZero(s.pcs, PastGate);
  }

  // ----- what each kind of step keeps -----

  /** The exchange of a word wins exactly when its position is unchanged. */
  lemma WinMeansSamePosition(w: Word, pos: nat, copy: Word, v: nat, hist: seq<Address>)
    requires v <= pos < |hist| && pos < v + STAMPS
    requires w == Word(pos % STAMPS, hist[pos]) && copy == Word(v % STAMPS, hist[v])
    ensures w == copy <==> pos == v
  {
    StampTellsVersion(v, pos);
  }

  /** The memory and positions that the threads' local knowledge speaks about are the same. */
  ghost predicate SameMemory(s: Queue, s': Queue) {
    && s'.head == s.head && s'.tail == s.tail && s'.next == s.next && s'.data == s.data
    && s'.hist == s.hist && s'.vals == s.vals && s'.hpos == s.hpos && s'.tpos == s.tpos
  }

  lemma NodeWritten(s: Queue, s': Queue, p: Address, pc: Pc)
    requires Local(s, pc) && Shape(s)
    requires SameMemory(s, s'.(next := s.next, data := s.data))
    requires s'.next == s.next[p := NULL] && p in s'.data && s'.data == s.data[p := s'.data[p]]
    requires Held(pc) != p
    ensures Local(s', pc)
  {}

  lemma DataWritten(s: Queue, s': Queue, p: Address, pc: Pc)
    requires Local(s, pc)
    requires SameMemory(s, s'.(data := s.data)) && p in s'.data && s'.data == s.data[p := s'.data[p]]
    requires Held(pc) != p
    ensures Local(s', pc)
  {}

  lemma NodeLinked(s: Queue, s': Queue, last: Address, p: Address, v: Value, pc: Pc)
    requires Local(s, pc) && Shape(s) && last == s.hist[|s.hist| - 1]
    requires SameMemory(s, s'.(next := s.next, hist := s.hist, vals := s.vals))
    requires s'.next == s.next[last := p] && s'.hist == s.hist + [p] && s'.vals == s.vals + [v]
    requires Held(pc) != last
    ensures Local(s', pc)
  {}

  lemma TailSwung(s: Queue, s': Queue, pc: Pc)
    requires Local(s, pc) && s.tpos + 1 < |s.hist|
    requires SameMemory(s, s'.(tail := s.tail, tpos := s.tpos)) && s'.tpos == s.tpos + 1
    ensures Local(s', pc)
  {}

  lemma HeadTaken(s: Queue, s': Queue, pc: Pc)
    requires Local(s, pc) && s.hpos + 1 < |s.hist|
    requires SameMemory(s, s'.(head := s.head, hpos := s.hpos)) && s'.hpos == s.hpos + 1
    ensures Local(s', pc)
  {}

  lemma LinkedShape(s: Queue, s': Queue, p: Address, v: Value)
    requires Shape(s)
    requires SameMemory(s, s'.(next := s.next, hist := s.hist, vals := s.vals))
    requires s'.next == s.next[s.hist[|s.hist| - 1] := p] && s'.hist == s.hist + [p] && s'.vals == s.vals + [v]
    requires p != NULL && p in s.next && s.next[p] == NULL && p in s.data && s.data[p] == v
    requires p !in s.hist[s.hpos..]
    ensures Shape(s')
  {
    forall i | s.hpos <= i < |s.hist| ensures s.hist[i] != p {
      assert s.hist[i] == s.hist[s.hpos..][i - s.hpos];
    }
    forall i | s'.hpos <= i < |s'.hist| ensures Treiber.LinkAt(s'.next, s'.hist, i) {
      assert i < |s.hist| ==> Treiber.LinkAt(s.next, s.hist, i);
    }
    forall i | s'.hpos < i < |s'.hist| ensures ValueAt(s'.data, s'.hist, s'.vals, i) {
      assert i < |s.hist| ==> ValueAt(s.data, s.hist, s.vals, i);
    }
  }

  lemma WrittenShape(s: Queue, s': Queue, p: Address)
    requires Shape(s) && p !in s.hist[s.hpos..]
    requires SameMemory(s, s'.(next := s.next, data := s.data))
    requires s'.next == s.next || s'.next == s.next[p := NULL]
    requires p in s'.data && s'.data == s.data[p := s'.data[p]]
    ensures Shape(s')
  {
    forall i | s.hpos <= i < |s.hist| ensures s.hist[i] != p {
      assert s.hist[i] == s.hist[s.hpos..][i - s.hpos];
    }
    forall i | s'.hpos <= i < |s'.hist| ensures Treiber.LinkAt(s'.next, s'.hist, i) {
      assert Treiber.LinkAt(s.next, s.hist, i);
    }
    forall i | s'.hpos < i < |s'.hist| ensures ValueAt(s'.data, s'.hist, s'.vals, i) {
      assert ValueAt(s.data, s.hist, s.vals, i);
    }
  }

  lemma SwungShape(s: Queue, s': Queue)
    requires Shape(s) && s.tpos + 1 < |s.hist|
    requires SameMemory(s, s'.(tail := s.tail, tpos := s.tpos)) && s'.tpos == s.tpos + 1
    requires s'.tail == s.tail.Bump(s.hist[s.tpos + 1])
    ensures Shape(s')
  {}

  lemma TakenShape(s: Queue, s': Queue)
    requires Shape(s) && s.hpos + 1 <= s.tpos
    requires SameMemory(s, s'.(head := s.head, hpos := s.hpos)) && s'.hpos == s.hpos + 1
    requires s'.head == s.head.Bump(s.hist[s.hpos + 1])
    ensures Shape(s')
  {}

  // ----- the steps -----

  lemma AllocKeeps(s: Queue, t: nat, p: Address, x: Value, v: Value, s': Queue)
    requires Shape(s) && Owners(s) && t in s.pcs && Held(s.pcs[t]) == NULL
    requires p != NULL && (p in s.owner ==> s.owner[p] == Client)
    requires s' == s.Go(t, EnqData(p, x)).Give(p, Call(t)).(next := s.next[p := NULL], data := s.data[p := v])
    ensures Shape(s') && Owners(s')
  {
    assert p !in s.hist[s.hpos..];
    WrittenShape(s, s', p);
    AllocOwners(s, t, p, x, v, s');
  }

  lemma AllocOwners(s: Queue, t: nat, p: Address, x: Value, v: Value, s': Queue)
    requires Owners(s) && t in s.pcs && Held(s.pcs[t]) == NULL && p != NULL && (p in s.owner ==> s.owner[p] == Client)
    requires s' == s.Go(t, EnqData(p, x)).Give(p, Call(t)).(next := s.next[p := NULL], data := s.data[p := v])
    ensures Owners(s')
  {
    var live := s.hist[s.hpos..];
    Passing(s.pcs, Held, s.owner, live, t, s'.pcs[t], p, Call(t), live);
  }

  lemma DataKeeps(s: Queue, t: nat, q: Address, x: Value, s': Queue)
    requires Shape(s) && Owners(s) && t in s.pcs && s.pcs[t] == EnqData(q, x) && q != NULL
    requires s' == s.Go(t, EnqRead(q, x)).(data := s.data[q := x])
    ensures Shape(s') && Owners(s')
  {
    var live := s.hist[s.hpos..];
    assert Held(s.pcs[t]) == q && q !in live;
    WrittenShape(s, s', q);
    Staying(s.pcs, Held, s.owner, live, t, s'.pcs[t]);
  }

  /** A link exchange that wins on a node no call holds privately writes behind the last node. */
  lemma LinksLast(s: Queue, t: nat)
    requires t in s.pcs && Shape(s) && Owners(s) && Ends(s) && TailOk(s, s.pcs[t]) && Links(s, s.pcs[t])
    requires Unshared(s, t)
    ensures var pc := s.pcs[t];
      pc.ct.addr == s.hist[|s.hist| - 1] && (pc.tv == s.tpos ==> pc.tv == |s.hist| - 1)
  {
    var q := s.pcs[t].ct.addr;
    assert s.next[q] == NULL;
    NullIsListed(s, t, q);
    assert q in s.hist[s.hpos..];
    OnlyLastIsNull(s, q);
    assert Treiber.LinkAt(s.next, s.hist, s.tpos);
  }

  lemma NullIsListed(s: Queue, t: nat, q: Address)
    requires Ends(s) && q in s.next && s.next[q] == NULL && t in s.pcs
    requires s.hpos <= |s.hist| && Unique(s.pcs, Held, s.owner, s.hist[s.hpos..])
    requires forall u :: u in s.pcs && s.pcs[u].Private() ==> s.pcs[u].p != q
    ensures q in s.hist[s.hpos..]
  {
    assert s.owner[q].Call? ==> Held(s.pcs[s.owner[q].t]) == q;
  }

  lemma OnlyLastIsNull(s: Queue, q: Address)
    requires Shape(s) && q in s.hist[s.hpos..] && q in s.next && s.next[q] == NULL
    ensures q == s.hist[|s.hist| - 1]
  {
    var i :| s.hpos <= i < |s.hist| && s.hist[i] == q;
    assert Treiber.LinkAt(s.next, s.hist, i);
  }

  lemma LinkKeepsOwners(s: Queue, t: nat, pc: Pc, s': Queue)
    requires Owners(s) && t in s.pcs && s.pcs[t] == pc && pc.EnqLink? && pc.p != NULL
    requires s.hpos < |s.hist| && pc.ct.addr == s.hist[|s.hist| - 1]
    requires s' == s.Go(t, EnqCount(pc.p, pc.ct, pc.tv)).LinkLast(pc.ct.addr, pc.p, pc.v)
    ensures Owners(s') && pc.p !in s.hist[s.hpos..]
  {
    var live := s.hist[s.hpos..];
    assert Held(pc) == pc.p && pc.p in s.owner && pc.p !in live;
    assert pc.ct.addr in s.owner by {
      assert pc.ct.addr == live[|live| - 1];
    }
    LinkOwners(s.pcs, s.owner, live, t, pc);
    assert s'.hist[s'.hpos..] == live + [pc.p];
  }

  lemma LinkOwners(pcs: map<nat, Pc>, owner: map<Address, Owner>, live: seq<Address>, t: nat, pc: Pc)
    requires Unique(pcs, Held, owner, live) && t in pcs && pcs[t] == pc && pc.EnqLink? && pc.p != NULL
    ensures Unique(pcs[t := EnqCount(pc.p, pc.ct, pc.tv)], Held, owner[pc.p := Listed], live + [pc.p])
  {
    assert Held(pc) == pc.p;
    Passing(pcs, Held, owner, live, t, EnqCount(pc.p, pc.ct, pc.tv), pc.p, Listed, live + [pc.p]);
  }

  lemma LinkKeeps(s: Queue, t: nat, pc: Pc, s': Queue)
    requires Shape(s) && Owners(s) && t in s.pcs && s.pcs[t] == pc && pc.EnqLink? && HoldOk(s, pc)
    requires pc.ct.addr == s.hist[|s.hist| - 1]
    requires s' == s.Go(t, EnqCount(pc.p, pc.ct, pc.tv)).LinkLast(pc.ct.addr, pc.p, pc.v)
    ensures Shape(s') && Owners(s')
  {
    LinkKeepsOwners(s, t, pc, s');
    LinkedShape(s, s', pc.p, pc.v);
  }

  lemma SwingKeeps(s: Queue, t: nat, pc': Pc, nx: Address, s': Queue)
    requires Shape(s) && Owners(s) && t in s.pcs && Held(pc') == Held(s.pcs[t])
    requires s.tpos + 1 < |s.hist| && nx == s.hist[s.tpos + 1]
    requires s' == s.(tail := s.tail.Bump(nx), tpos := s.tpos + 1, pcs := s.pcs[t := pc'])
    ensures Shape(s') && Owners(s')
  {
    SwungShape(s, s');
    Staying(s.pcs, Held, s.owner, s.hist[s.hpos..], t, pc');
  }

  lemma TakeKeeps(s: Queue, t: nat, nx: Address, d: Value, s': Queue)
    requires Shape(s) && Owners(s) && t in s.pcs && Held(s.pcs[t]) == NULL
    requires s.hpos < s.tpos && nx == s.hist[s.hpos + 1]
    requires s' == s.Go(t, DeqFree(s.head.addr, d)).TakeHead(t, s.head, nx, d)
    ensures Shape(s') && Owners(s')
  {
    var live, q := s.hist[s.hpos..], s.head.addr;
    TakenShape(s, s');
    assert live == [q] + s'.hist[s'.hpos..];
    assert q in live && q != NULL;
    forall r ensures r in s'.hist[s'.hpos..] <==> r != q && r in live {
      if r in s'.hist[s'.hpos..] {
        var i :| s'.hpos <= i < |s.hist| && s.hist[i] == r;
      }
    }
    Passing(s.pcs, Held, s.owner, live, t, s'.pcs[t], q, Call(t), s'.hist[s'.hpos..]);
  }

  lemma FreeKeeps(s: Queue, t: nat, q: Address, d: Value, s': Queue)
    requires Shape(s) && Owners(s) && t in s.pcs && s.pcs[t] == DeqFree(q, d) && q != NULL
    requires s' == s.Go(t, DeqDone(d)).Give(q, Client)
    ensures Shape(s') && Owners(s')
  {
    assert Held(s.pcs[t]) == q;
    Passing(s.pcs, Held, s.owner, s.hist[s.hpos..], t, s'.pcs[t], q, Client, s.hist[s.hpos..]);
  }

  lemma StillKeeps(s: Queue, t: nat, s': Queue)
    requires Shape(s) && Owners(s) && t in s.pcs && t in s'.pcs && s'.pcs == s.pcs[t := s'.pcs[t]]
    requires SameMemory(s, s') && s'.owner == s.owner && Held(s'.pcs[t]) == Held(s.pcs[t])
    ensures Shape(s') && Owners(s')
  {
    Staying(s.pcs, Held, s.owner, s.hist[s.hpos..], t, s'.pcs[t]);
  }

  // ----- what the moving thread itself knows after its step -----

  lemma OwnPlain(s: Queue, t: nat, p: Address, v: Value, enq: bool, s': Queue)
    requires t in s.pcs && Step(s, t, p, v, enq, s') && Local(s, s.pcs[t]) && Positions(s)
    requires !s.pcs[t].HasHead() && !s.pcs[t].Private() && !s.pcs[t].EnqCount?
    ensures t in s'.pcs && Local(s', s'.pcs[t])
  {}

  lemma OwnPrivate(s: Queue, t: nat, p: Address, v: Value, enq: bool, s': Queue)
    requires t in s.pcs && Step(s, t, p, v, enq, s') && HoldOk(s, s.pcs[t])
    requires s.pcs[t].EnqData? || s.pcs[t].EnqHelp?
    ensures t in s'.pcs && Local(s', s'.pcs[t])
  {}

  lemma OwnTail(s: Queue, t: nat, p: Address, v: Value, enq: bool, s': Queue)
    requires t in s.pcs && Step(s, t, p, v, enq, s') && Local(s, s.pcs[t]) && Positions(s)
    requires s.pcs[t].EnqRead? || s.pcs[t].EnqNext? || s.pcs[t].EnqCount?
    requires Treiber.LinkAt(s.next, s.hist, s.tpos) && (s.pcs[t].EnqRead? ==> s.pcs[t].p != s.hist[s.tpos])
    ensures t in s'.pcs && Local(s', s'.pcs[t])
  {}

  lemma OwnLink(s: Queue, t: nat, p: Address, v: Value, enq: bool, s': Queue)
    requires t in s.pcs && Step(s, t, p, v, enq, s') && Local(s, s.pcs[t]) && Shape(s)
    requires s.pcs[t].EnqLink?
    requires Links(s, s.pcs[t]) && s.pcs[t].tv == s.tpos ==> s.tpos == |s.hist| - 1
    ensures t in s'.pcs && Local(s', s'.pcs[t])
  {}

  lemma OwnTailTest(s: Queue, t: nat, p: Address, v: Value, enq: bool, s': Queue)
    requires t in s.pcs && Step(s, t, p, v, enq, s') && Local(s, s.pcs[t]) && Shape(s)
    requires s.pcs[t].DeqTail? || s.pcs[t].DeqTailNext?
    ensures t in s'.pcs && Local(s', s'.pcs[t])
  {
    assert Treiber.LinkAt(s.next, s.hist, s.tpos);
  }

  lemma OwnHelp(s: Queue, t: nat, p: Address, v: Value, enq: bool, s': Queue)
    requires t in s.pcs && Step(s, t, p, v, enq, s') && Local(s, s.pcs[t]) && Positions(s)
    requires s.pcs[t].DeqHelp?
    ensures t in s'.pcs && Local(s', s'.pcs[t])
  {}

  lemma OwnHeadRead(s: Queue, t: nat, p: Address, v: Value, enq: bool, s': Queue)
    requires t in s.pcs && Step(s, t, p, v, enq, s') && Local(s, s.pcs[t]) && Shape(s)
    requires s.pcs[t].DeqNext? || s.pcs[t].DeqData? || s.pcs[t].DeqCas?
    requires forall q :: q in s.next ==> s.next[q] == NULL || s.next[q] in s.data
    ensures t in s'.pcs && Local(s', s'.pcs[t])
  {
    var pc := s.pcs[t];
    if pc.DeqNext? && pc.hv == s.hpos {
      assert Treiber.LinkAt(s.next, s.hist, pc.hv);
    } else if pc.DeqData? && pc.hv == s.hpos {
      assert ValueAt(s.data, s.hist, s.vals, pc.hv + 1);
    }
  }

  // ----- putting the steps together -----

  /** The step leaves the list, the words and the owners alone. */
  predicate Quiet(s: Queue, pc: Pc) {
    !pc.EnqAlloc? && !pc.EnqData? && !pc.DeqFree? && !Links(s, pc) && !Swings(s, pc) && !Takes(s, pc)
  }

  lemma QuietMemory(s: Queue, t: nat, pc: Pc, p: Address, v: Value)
    requires Quiet(s, pc)
    ensures SameMemory(s, Do(s, t, pc, p, v)) && Do(s, t, pc, p, v).owner == s.owner && Do(s, t, pc, p, v).pcs == s.pcs
  {}

  lemma QuietHeld(s: Queue, pc: Pc, p: Address, v: Value, enq: bool)
    requires Quiet(s, pc)
    ensures Held(NextPc(s, pc, p, v, enq)) == Held(pc)
  {}

  lemma QuietFrame(s: Queue, t: nat, p: Address, v: Value, enq: bool, s': Queue)
    requires t in s.pcs && Step(s, t, p, v, enq, s') && Quiet(s, s.pcs[t])
    ensures t in s'.pcs && s'.pcs == s.pcs[t := s'.pcs[t]] && SameMemory(s, s') && s'.owner == s.owner
    ensures Held(s'.pcs[t]) == Held(s.pcs[t])
  {
    QuietMemory(s, t, s.pcs[t], p, v);
    QuietHeld(s, s.pcs[t], p, v, enq);
  }

  lemma LogFrame(s: Queue, t: nat, p: Address, v: Value, enq: bool, s': Queue)
    requires t in s.pcs && Step(s, t, p, v, enq, s')
    ensures t in s'.pcs && s'.pcs == s.pcs[t := s'.pcs[t]]
    ensures !Links(s, s.pcs[t]) ==> s'.vals == s.vals
    ensures !Takes(s, s.pcs[t]) ==> s'.hpos == s.hpos
    ensures !Links(s, s.pcs[t]) && !Takes(s, s.pcs[t]) ==> s'.log == s.log
  {
    LogOf(s, t, s.pcs[t], p, v);
  }

  lemma LogOf(s: Queue, t: nat, pc: Pc, p: Address, v: Value)
    ensures Do(s, t, pc, p, v).pcs == s.pcs
    ensures !Links(s, pc) ==> Do(s, t, pc, p, v).vals == s.vals
    ensures !Takes(s, pc) ==> Do(s, t, pc, p, v).hpos == s.hpos
    ensures !Links(s, pc) && !Takes(s, pc) ==> Do(s, t, pc, p, v).log == s.log
  {}

  lemma CountersOf(s: Queue, t: nat, pc: Pc, p: Address, v: Value)
    ensures var s' := Do(s, t, pc, p, v);
      && s'.counted == s.counted + One(pc.EnqCount?)
      && s'.passed == s.passed + One(pc.DeqGate? && s.count >= 1)
      && s'.count == s.count + One(pc.EnqCount?) - One(pc.DeqGate?) + One(pc.DeqBack?)
  {}

  lemma PositionsOf(s: Queue, t: nat, pc: Pc, p: Address, v: Value)
    ensures var s' := Do(s, t, pc, p, v);
      |s'.vals| == |s.vals| + One(Links(s, pc)) && s'.hpos == s.hpos + One(Takes(s, pc)) && s'.pcs == s.pcs
  {}

  lemma ClassesOf(s: Queue, pc: Pc, p: Address, v: Value, enq: bool)
    ensures var pc' := NextPc(s, pc, p, v, enq);
      && (Refused(pc') <==> pc.DeqGate? && s.count < 1)
      && (Uncounted(pc') <==> Links(s, pc))
      && (PastGate(pc') <==> (PastGate(pc) && !Takes(s, pc)) || (pc.DeqGate? && s.count >= 1))
  {}

  lemma StepGate(s: Queue, t: nat, p: Address, v: Value, enq: bool, s': Queue)
    requires Gate(s) && t in s.pcs && Step(s, t, p, v, enq, s')
    ensures Gate(s')
  {
    var pc := s.pcs[t];
    CountersOf(s, t, pc, p, v);
    PositionsOf(s, t, pc, p, v);
    ClassesOf(s, pc, p, v, enq);
    CountStep(s.pcs, t, s'.pcs[t], Refused);
    CountStep(s.pcs, t, s'.pcs[t], Uncounted);
    CountStep(s.pcs, t, s'.pcs[t], PastGate);
  }

  lemma StepInOrder(s: Queue, t: nat, p: Address, v: Value, enq: bool, s': Queue)
    requires InOrder(s) && t in s.pcs && Step(s, t, p, v, enq, s')
    requires Takes(s, s.pcs[t]) ==> s.hpos < |s.vals| && s.pcs[t].d == s.vals[s.hpos]
    ensures InOrder(s')
  {
    var pc := s.pcs[t];
    LogFrame(s, t, p, v, enq, s');
    if Links(s, pc) {
      PutInOrder(s.log, s.vals, s.hpos, pc.v);
    } else if Takes(s, pc) {
      GotInOrder(s.log, s.vals, s.hpos, pc.d);
    }
  }

  lemma PutInOrder(log: seq<Event>, vals: seq<Value>, hpos: nat, v: Value)
    requires hpos <= |vals| && Replay(Fifo, log) == Some(vals[hpos..])
    ensures Replay(Fifo, log + [Put(v)]) == Some((vals + [v])[hpos..])
  {
    ReplayOneMore(Fifo, log, Put(v));
    assert (vals + [v])[hpos..] == vals[hpos..] + [v];
  }

  lemma GotInOrder(log: seq<Event>, vals: seq<Value>, hpos: nat, v: Value)
    requires hpos < |vals| && Replay(Fifo, log) == Some(vals[hpos..]) && vals[hpos] == v
    ensures Replay(Fifo, log + [Got(v)]) == Some(vals[hpos + 1..])
  {
    ReplayOneMore(Fifo, log, Got(v));
  }

  /** What the first hypothesis means for the history. */
  lemma FreshSwing(s: Queue, t: nat)
    requires Shape(s) && t in s.pcs && Swings(s, s.pcs[t])
    ensures Fresh(s, t) <==> s.tpos + 1 < |s.hist| && Swung(s.pcs[t]) == s.hist[s.tpos + 1]
  {
    assert Treiber.LinkAt(s.next, s.hist, s.tpos);
    assert s.tpos + 1 < |s.hist| ==> s.hist[s.tpos + 1] in s.hist;
  }

  lemma FreshTake(s: Queue, t: nat)
    requires Shape(s) && t in s.pcs && Takes(s, s.pcs[t])
    ensures Fresh(s, t) <==> s.hpos < s.tpos && s.pcs[t].nx == s.hist[s.hpos + 1] && s.pcs[t].d == s.vals[s.hpos]
  {
    assert Treiber.LinkAt(s.next, s.hist, s.hpos);
    if s.hpos < s.tpos {
      assert ValueAt(s.data, s.hist, s.vals, s.hpos + 1);
      assert s.hist[s.hpos + 1] in s.hist;
    }
  }

  lemma SwingShape(s: Queue, t: nat, p: Address, v: Value, enq: bool, s': Queue)
    requires Shape(s) && Owners(s) && t in s.pcs && TailOk(s, s.pcs[t]) && Step(s, t, p, v, enq, s')
    requires Swings(s, s.pcs[t]) && s.tpos + 1 < |s.hist| && Swung(s.pcs[t]) == s.hist[s.tpos + 1]
    ensures Shape(s') && Owners(s')
  {
    SwingOf(s, t, s.pcs[t], p, v, enq);
    SwingKeeps(s, t, s'.pcs[t], Swung(s.pcs[t]), s');
  }

  lemma SwingOf(s: Queue, t: nat, pc: Pc, p: Address, v: Value, enq: bool)
    requires Swings(s, pc)
    ensures Do(s, t, pc, p, v) == s.(tail := s.tail.Bump(Swung(pc)), tpos := s.tpos + 1)
    ensures Held(NextPc(s, pc, p, v, enq)) == Held(pc)
  {}

  lemma TakeShape(s: Queue, t: nat, p: Address, v: Value, enq: bool, s': Queue)
    requires Shape(s) && Owners(s) && t in s.pcs && HeadOk(s, s.pcs[t]) && Step(s, t, p, v, enq, s')
    requires Takes(s, s.pcs[t]) && s.hpos < s.tpos && s.pcs[t].nx == s.hist[s.hpos + 1]
    ensures Shape(s') && Owners(s')
  {
    TakeKeeps(s, t, s.pcs[t].nx, s.pcs[t].d, s');
  }

  lemma StepShape(s: Queue, t: nat, p: Address, v: Value, enq: bool, s': Queue)
    requires Ends(s) && t in s.pcs && Fresh(s, t) && Unshared(s, t)
    requires Shape(s) && Owners(s) && Local(s, s.pcs[t]) && Step(s, t, p, v, enq, s')
    ensures Shape(s') && Owners(s')
  {
    var pc := s.pcs[t];
    if Quiet(s, pc) {
      QuietFrame(s, t, p, v, enq, s');
      StillKeeps(s, t, s');
    } else if Swings(s, pc) {
      FreshSwing(s, t);
      SwingShape(s, t, p, v, enq, s');
    } else if Takes(s, pc) {
      FreshTake(s, t);
      TakeShape(s, t, p, v, enq, s');
    } else {
      if Links(s, pc) {
        LinksLast(s, t);
      }
      WriteShape(s, t, p, v, enq, s');
    }
  }

  /** The steps that write a node or give one away. */
  lemma WriteShape(s: Queue, t: nat, p: Address, v: Value, enq: bool, s': Queue)
    requires Shape(s) && Owners(s) && t in s.pcs && HoldOk(s, s.pcs[t]) && Step(s, t, p, v, enq, s')
    requires s.pcs[t].EnqAlloc? || s.pcs[t].EnqData? || s.pcs[t].DeqFree? || Links(s, s.pcs[t])
    requires Links(s, s.pcs[t]) ==> s.pcs[t].ct.addr == s.hist[|s.hist| - 1]
    ensures Shape(s') && Owners(s')
  {
    var pc := s.pcs[t];
    if pc.EnqAlloc? {
      AllocKeeps(s, t, p, pc.v, v, s');
    } else if pc.EnqData? {
      DataKeeps(s, t, pc.p, pc.v, s');
    } else if pc.DeqFree? {
      FreeKeeps(s, t, pc.p, pc.d, s');
    } else {
      LinkKeeps(s, t, pc, s');
    }
  }

  lemma OthersWrite(s: Queue, t: nat, p: Address, v: Value, enq: bool, s': Queue, u: nat)
    requires Shape(s) && Owners(s)
    requires t in s.pcs && u in s.pcs && u != t && Local(s, s.pcs[t]) && Local(s, s.pcs[u]) && Step(s, t, p, v, enq, s')
    requires s.pcs[t].EnqAlloc? || s.pcs[t].EnqData?
    ensures u in s'.pcs && Local(s', s'.pcs[u])
  {
    var pc, other := s.pcs[t], s.pcs[u];
    if pc.EnqAlloc? {
      assert s'.pcs[t].Private() && s'.pcs[t].p == p && s'.pcs[u] == other;
      NodeWritten(s, s', p, other);
    } else {
      assert Held(pc) == pc.p != Held(other);
      DataWritten(s, s', pc.p, other);
    }
  }

  lemma LastIsNotHeld(s: Queue, u: nat)
    requires s.hpos < |s.hist| && NULL !in s.hist && Unique(s.pcs, Held, s.owner, s.hist[s.hpos..]) && u in s.pcs
    ensures Held(s.pcs[u]) != s.hist[|s.hist| - 1]
  {
    var live := s.hist[s.hpos..];
    assert s.hist[|s.hist| - 1] == live[|live| - 1];
  }

  lemma OthersLink(s: Queue, t: nat, p: Address, v: Value, enq: bool, s': Queue, u: nat)
    requires Shape(s) && Owners(s)
    requires t in s.pcs && u in s.pcs && u != t && Local(s, s.pcs[t]) && Local(s, s.pcs[u]) && Step(s, t, p, v, enq, s')
    requires Links(s, s.pcs[t]) && s.pcs[t].ct.addr == s.hist[|s.hist| - 1]
    ensures u in s'.pcs && Local(s', s'.pcs[u])
  {
    var pc, other := s.pcs[t], s.pcs[u];
    LastIsNotHeld(s, u);
    NodeLinked(s, s', pc.ct.addr, pc.p, pc.v, other);
  }

  lemma OthersSwing(s: Queue, t: nat, p: Address, v: Value, enq: bool, s': Queue, u: nat)
    requires t in s.pcs && u in s.pcs && u != t && TailOk(s, s.pcs[t]) && Local(s, s.pcs[u])
    requires Step(s, t, p, v, enq, s')
    requires Swings(s, s.pcs[t]) && s.tpos + 1 < |s.hist|
    ensures u in s'.pcs && Local(s', s'.pcs[u])
  {
    TailSwung(s, s', s.pcs[u]);
  }

  lemma OthersTake(s: Queue, t: nat, p: Address, v: Value, enq: bool, s': Queue, u: nat)
    requires t in s.pcs && u in s.pcs && u != t && HeadOk(s, s.pcs[t]) && Local(s, s.pcs[u])
    requires Step(s, t, p, v, enq, s')
    requires Takes(s, s.pcs[t]) && s.hpos + 1 < |s.hist|
    ensures u in s'.pcs && Local(s', s'.pcs[u])
  {
    HeadTaken(s, s', s.pcs[u]);
  }

  lemma SameMemoryLocal(s: Queue, s': Queue, pc: Pc)
    requires Local(s, pc) && SameMemory(s, s')
    ensures Local(s', pc)
  {}

  lemma StepOthers(s: Queue, t: nat, p: Address, v: Value, enq: bool, s': Queue, u: nat)
    requires Shape(s) && Owners(s) && Ends(s)
    requires t in s.pcs && Fresh(s, t) && Unshared(s, t) && u in s.pcs && u != t && Local(s, s.pcs[t])
    requires Local(s, s.pcs[u]) && Step(s, t, p, v, enq, s')
    ensures u in s'.pcs && Local(s', s'.pcs[u])
  {
    var pc := s.pcs[t];
    if Quiet(s, pc) {
      QuietFrame(s, t, p, v, enq, s');
      SameMemoryLocal(s, s', s.pcs[u]);
    } else if pc.EnqAlloc? || pc.EnqData? {
      OthersWrite(s, t, p, v, enq, s', u);
    } else if Links(s, pc) {
      LinksLast(s, t);
      OthersLink(s, t, p, v, enq, s', u);
    } else if Swings(s, pc) {
      FreshSwing(s, t);
      OthersSwing(s, t, p, v, enq, s', u);
    } else if Takes(s, pc) {
      FreshTake(s, t);
      OthersTake(s, t, p, v, enq, s', u);
    } else {
      SameMemoryLocal(s, s', s.pcs[u]);
    }
  }

  lemma TailIsNotHeld(s: Queue, t: nat)
    requires Positions(s) && Owners(s) && t in s.pcs && NULL !in s.hist
    ensures Held(s.pcs[t]) != s.hist[s.tpos]
  {
    assert s.hist[s.tpos] == s.hist[s.hpos..][s.tpos - s.hpos];
  }

  lemma StepOwn(s: Queue, t: nat, p: Address, v: Value, enq: bool, s': Queue)
    requires Shape(s) && Owners(s) && Ends(s)
    requires t in s.pcs && Unshared(s, t) && Local(s, s.pcs[t]) && Step(s, t, p, v, enq, s')
    ensures t in s'.pcs && Local(s', s'.pcs[t])
  {
    var pc := s.pcs[t];
    if pc.EnqLink? {
      if Links(s, pc) {
        LinksLast(s, t);
      }
      OwnLink(s, t, p, v, enq, s');
    } else if pc.EnqData? || pc.EnqHelp? {
      OwnPrivate(s, t, p, v, enq, s');
    } else if pc.EnqRead? || pc.EnqNext? || pc.EnqCount? {
      assert Treiber.LinkAt(s.next, s.hist, s.tpos);
      TailIsNotHeld(s, t);
      OwnTail(s, t, p, v, enq, s');
    } else if pc.DeqHelp? {
      OwnHelp(s, t, p, v, enq, s');
    } else if pc.DeqTail? || pc.DeqTailNext? {
      OwnTailTest(s, t, p, v, enq, s');
    } else if pc.DeqNext? || pc.DeqData? || pc.DeqCas? {
      OwnHeadRead(s, t, p, v, enq, s');
    } else {
      OwnPlain(s, t, p, v, enq, s');
    }
  }

  lemma PrivateFrame(s: Queue, pc: Pc, p: Address, v: Value, enq: bool)
    ensures NextPc(s, pc, p, v, enq).Private() <==> pc.EnqAlloc? || (pc.Private() && !Links(s, pc))
  {}

  /** Steps that do not give a node away. */
  lemma EndsStay(s: Queue, t: nat, s': Queue)
    requires Ends(s) && t in s.pcs && t in s'.pcs && s'.pcs == s.pcs[t := s'.pcs[t]] && s'.next == s.next
    requires s'.owner == s.owner
    requires s.pcs[t].Private() ==> s'.pcs[t].Private()
    ensures Ends(s')
  {}

  /** The head node that is taken has a successor, and so has a node that is freed. */
  lemma EndsGiven(s: Queue, t: nat, s': Queue, q: Address)
    requires Ends(s) && t in s.pcs && t in s'.pcs && s'.pcs == s.pcs[t := s'.pcs[t]] && s'.next == s.next
    requires !s.pcs[t].Private() && q in s'.owner && s'.owner == s.owner[q := s'.owner[q]] && q in s.next
    requires s.next[q] != NULL
    ensures Ends(s')
  {}

  lemma StepEnds(s: Queue, t: nat, p: Address, v: Value, enq: bool, s': Queue)
    requires Shape(s) && Owners(s) && Ends(s) && t in s.pcs && Local(s, s.pcs[t]) && Step(s, t, p, v, enq, s')
    requires Fresh(s, t)
    ensures Ends(s')
  {
    var pc := s.pcs[t];
    if Takes(s, pc) {
      FreshTake(s, t);
      EndsTaken(s, t, p, v, enq, s');
    } else if pc.DeqFree? {
      assert Held(pc) == pc.p;
      EndsFreed(s, t, p, v, enq, s');
    } else if pc.EnqAlloc? || Links(s, pc) {
      EndsWritten(s, t, p, v, enq, s');
    } else {
      PrivateFrame(s, pc, p, v, enq);
      LogOf(s, t, pc, p, v);
      LinksFrame(s, t, pc, p, v);
      EndsStay(s, t, s');
    }
  }

  lemma EndsTaken(s: Queue, t: nat, p: Address, v: Value, enq: bool, s': Queue)
    requires Positions(s) && Treiber.LinkAt(s.next, s.hist, s.hpos) && NULL !in s.hist && Ends(s)
    requires t in s.pcs && Step(s, t, p, v, enq, s') && Takes(s, s.pcs[t]) && s.hpos < s.tpos
    ensures Ends(s')
  {
    assert s.hist[s.hpos + 1] in s.hist;
    EndsGiven(s, t, s', s.pcs[t].ch.addr);
  }

  lemma EndsFreed(s: Queue, t: nat, p: Address, v: Value, enq: bool, s': Queue)
    requires Ends(s) && t in s.pcs && s.pcs[t].DeqFree? && Step(s, t, p, v, enq, s')
    requires s.pcs[t].p in s.owner && s.owner[s.pcs[t].p] == Call(t) && s.pcs[t].p in s.next
    ensures Ends(s')
  {
    EndsGiven(s, t, s', s.pcs[t].p);
  }

  lemma LinksFrame(s: Queue, t: nat, pc: Pc, p: Address, v: Value)
    requires !pc.EnqAlloc? && !Links(s, pc) && !Takes(s, pc) && !pc.DeqFree?
    ensures Do(s, t, pc, p, v).next == s.next && Do(s, t, pc, p, v).owner == s.owner
  {}

  lemma EndsWritten(s: Queue, t: nat, p: Address, v: Value, enq: bool, s': Queue)
    requires Owners(s) && Ends(s) && t in s.pcs && HoldOk(s, s.pcs[t]) && Step(s, t, p, v, enq, s')
    requires s.pcs[t].EnqAlloc? || Links(s, s.pcs[t])
    ensures Ends(s')
  {
    var pc := s.pcs[t];
    assert Held(pc) == if Links(s, pc) then pc.p else NULL;
    forall q | q in s'.next && s'.next[q] == NULL
      ensures q in s'.owner
      ensures (s'.owner[q] == Listed || IsPrivate(s', s'.owner[q]))
    {
      if q != Held(pc) && q != p && s.owner[q].Call? {
        assert Held(s.pcs[s.owner[q].t]) == q;
      }
    }
  }

  lemma StepInv(s: Queue, s': Queue)
    requires Inv(s) && NextSound(s, s')
    ensures Inv(s')
  {
    var t, p, v, enq :| t in s.pcs && Step(s, t, p, v, enq, s') && Fresh(s, t) && Unshared(s, t);
    assert Local(s, s.pcs[t]);
    StepShape(s, t, p, v, enq, s');
    StepEnds(s, t, p, v, enq, s');
    LogFrame(s, t, p, v, enq, s');
    forall u | u in s'.pcs ensures Local(s', s'.pcs[u]) {
      if u == t { StepOwn(s, t, p, v, enq, s'); } else { StepOthers(s, t, p, v, enq, s', u); }
    }
    StepGate(s, t, p, v, enq, s');
    if Takes(s, s.pcs[t]) {
      FreshTake(s, t);
    }
    StepInOrder(s, t, p, v, enq, s');
  }

  // ----- results -----

  lemma {:induction false} RunInv(tr: seq<Queue>, n: nat)
    requires Run(tr) && n < |tr|
    ensures Inv(tr[n])
  {
    if n == 0 {
      InitInv(tr[0]);
    } else {
      RunInv(tr, n - 1);
      InvStep(tr, n);
    }
  }

  lemma InvStep(tr: seq<Queue>, n: nat)
    requires Run(tr) && 0 < n < |tr| && Inv(tr[n - 1])
    ensures Inv(tr[n])
  {
    assert NextSound(tr[n - 1], tr[n - 1 + 1]);
    StepInv(tr[n - 1], tr[n]);
  }

  /** Following `next` from the head word's node visits `nodes`, all different, and ends at null; behind
      the first, they carry `contents`. */
  ghost predicate InMemory(s: Queue, nodes: seq<Address>, contents: seq<Value>) {
    && |nodes| == |contents| + 1 && nodes[0] == s.head.addr
    && (forall i, j :: 0 <= i < j < |nodes| ==> nodes[i] != nodes[j])
    && (forall i :: 0 <= i < |nodes| ==> Treiber.LinkAt(s.next, nodes, i))
    && (forall i :: 0 < i < |nodes| ==> ValueAt(s.data, nodes, contents, i))
  }

  /** The queue is first-in first-out in every run: replaying the calls in the order they took effect
      gives exactly the values in memory behind the head, so none is lost, repeated or reordered. */
  lemma FirstInFirstOut(tr: seq<Queue>, n: nat)
    requires Run(tr) && n < |tr|
    ensures tr[n].hpos <= |tr[n].hist| - 1 == |tr[n].vals|
    ensures InMemory(tr[n], tr[n].hist[tr[n].hpos..], tr[n].vals[tr[n].hpos..])
    ensures Replay(Fifo, tr[n].log) == Some(tr[n].vals[tr[n].hpos..])
    ensures AllPut(tr[n].log) == AllGot(tr[n].log) + tr[n].vals[tr[n].hpos..]
  {
    RunInv(tr, n);
    ShapeInMemory(tr[n]);
    NothingLost(tr[n].log);
  }

  lemma ShapeInMemory(s: Queue)
    requires Shape(s)
    ensures s.hpos <= |s.vals| && InMemory(s, s.hist[s.hpos..], s.vals[s.hpos..])
  {
    var nodes, contents := s.hist[s.hpos..], s.vals[s.hpos..];
    forall i | 0 <= i < |nodes| ensures Treiber.LinkAt(s.next, nodes, i) {
      assert Treiber.LinkAt(s.next, s.hist, s.hpos + i);
    }
    forall i | 0 < i < |nodes| ensures ValueAt(s.data, nodes, contents, i) {
      assert ValueAt(s.data, s.hist, s.vals, s.hpos + i);
    }
  }

  /** The second hypothesis is exact: a winning link leaves the new node in memory where the order of the calls puts
      it if and only if no other call holds the node linked behind privately. */
  lemma LinkInOrderExactlyWhen(s: Queue, t: nat, p: Address, v: Value, enq: bool, s': Queue)
    requires Inv(s) && t in s.pcs && Step(s, t, p, v, enq, s') && Links(s, s.pcs[t])
    ensures s'.hpos <= |s'.hist| && s'.hpos <= |s'.vals|
    ensures InMemory(s', s'.hist[s'.hpos..], s'.vals[s'.hpos..]) <==> Unshared(s, t)
  {
    assert Local(s, s.pcs[t]);
    if Unshared(s, t) {
      StepShape(s, t, p, v, enq, s');
      ShapeInMemory(s');
    } else {
      var u :| u in s.pcs && u != t && s.pcs[u].Private() && s.pcs[u].p == s.pcs[t].ct.addr;
      assert Local(s, s.pcs[u]);
      LinkedAside(s, t, u, p, v, enq, s');
    }
  }

  lemma LinkedAside(s: Queue, t: nat, u: nat, p: Address, v: Value, enq: bool, s': Queue)
    requires Shape(s) && Owners(s) && t in s.pcs && u in s.pcs && HoldOk(s, s.pcs[t]) && HoldOk(s, s.pcs[u])
    requires Step(s, t, p, v, enq, s') && Links(s, s.pcs[t]) && s.pcs[u].Private() && s.pcs[u].p == s.pcs[t].ct.addr
    ensures s'.hpos <= |s'.hist| && s'.hpos <= |s'.vals|
    ensures !InMemory(s', s'.hist[s'.hpos..], s'.vals[s'.hpos..])
  {
    var live, nodes, last := s.hist[s.hpos..], s'.hist[s'.hpos..], s.hist[|s.hist| - 1];
    assert Held(s.pcs[u]) == s.pcs[t].ct.addr && last == live[|live| - 1];
    assert Treiber.LinkAt(s.next, s.hist, |s.hist| - 1);
    assert nodes == live + [s.pcs[t].p];
    assert !Treiber.LinkAt(s'.next, nodes, |live| - 1);
  }

  /** What the queue looks like from outside. */
  ghost function Contents(s: Queue): seq<Value>
    requires s.hpos <= |s.vals|
  {
    s.vals[s.hpos..]
  }

  /** Step by step the queue is a sequence and a counter: the link exchange appends, the head exchange takes the first
      value, the increment behind the link counts, the gate uncounts and a refusal takes that back; all else is
      invisible. */
  lemma StepSimulates(s: Queue, t: nat, p: Address, v: Value, enq: bool, s': Queue)
    requires Inv(s) && t in s.pcs && Step(s, t, p, v, enq, s') && Fresh(s, t) && Unshared(s, t)
    ensures Inv(s')
    ensures Contents(s') == if Links(s, s.pcs[t]) then Contents(s) + [s.pcs[t].v]
                            else if Takes(s, s.pcs[t]) then Contents(s)[1..] else Contents(s)
    ensures Takes(s, s.pcs[t]) ==> Contents(s) != [] && Contents(s)[0] == s.pcs[t].d
    ensures s'.count == s.count + One(s.pcs[t].EnqCount?) - One(s.pcs[t].DeqGate?) + One(s.pcs[t].DeqBack?)
    ensures s.pcs[t].DeqGate? ==> (s'.pcs[t].DeqBack? <==> s.count < 1)
  {
    assert NextSound(s, s');
    StepInv(s, s');
    if Takes(s, s.pcs[t]) {
      FreshTake(s, t);
    }
    StepContents(s, t, p, v, enq, s');
    CountersOf(s, t, s.pcs[t], p, v);
    ClassesOf(s, s.pcs[t], p, v, enq);
  }

  lemma StepContents(s: Queue, t: nat, p: Address, v: Value, enq: bool, s': Queue)
    requires s.hpos <= |s.vals| && t in s.pcs && Step(s, t, p, v, enq, s')
    requires Takes(s, s.pcs[t]) ==> s.hpos < |s.vals| && s.pcs[t].d == s.vals[s.hpos]
    ensures s'.hpos <= |s'.vals|
    ensures Contents(s') == if Links(s, s.pcs[t]) then Contents(s) + [s.pcs[t].v]
                            else if Takes(s, s.pcs[t]) then Contents(s)[1..] else Contents(s)
    ensures Takes(s, s.pcs[t]) ==> Contents(s) != [] && Contents(s)[0] == s.pcs[t].d
  {
    LogFrame(s, t, p, v, enq, s');
  }

  /** The first hypothesis is exact, too: an exchange of the tail or head word keeps words, memory and order in
      agreement if and only if it installs the successor that the word's node still has, with the value that it still
      carries and the tail ahead. */
  lemma MoveInOrderExactlyWhen(s: Queue, t: nat, p: Address, v: Value, enq: bool, s': Queue)
    requires Inv(s) && t in s.pcs && Step(s, t, p, v, enq, s') && (Swings(s, s.pcs[t]) || Takes(s, s.pcs[t]))
    ensures Shape(s') && InOrder(s') <==> Fresh(s, t)
  {
    assert Local(s, s.pcs[t]);
    if Fresh(s, t) {
      StepShape(s, t, p, v, enq, s');
      if Takes(s, s.pcs[t]) {
        FreshTake(s, t);
      }
      StepInOrder(s, t, p, v, enq, s');
    } else if Swings(s, s.pcs[t]) {
      FreshSwing(s, t);
      SwingOf(s, t, s.pcs[t], p, v, enq);
    } else {
      FreshTake(s, t);
      StaleTake(s, t, p, v, enq, s');
    }
  }

  lemma StaleTake(s: Queue, t: nat, p: Address, v: Value, enq: bool, s': Queue)
    requires Shape(s) && InOrder(s) && t in s.pcs && Step(s, t, p, v, enq, s') && Takes(s, s.pcs[t])
    requires !(s.hpos < s.tpos && s.pcs[t].nx == s.hist[s.hpos + 1] && s.pcs[t].d == s.vals[s.hpos])
    ensures !(Shape(s') && InOrder(s'))
  {
    var d := s.pcs[t].d;
    ReplayOneMore(Fifo, s.log, Got(d));
    assert s.hpos < |s.vals| ==> s.vals[s.hpos..][0] == s.vals[s.hpos];
  }

  lemma StampedIsFresh(s: Queue, t: nat)
    requires Shape(s) && Bounded(s) && t in s.pcs && Local(s, s.pcs[t])
    ensures Fresh(s, t)
  {
    var pc := s.pcs[t];
    if Swings(s, pc) {
      WinMeansSamePosition(s.tail, s.tpos, pc.ct, pc.tv, s.hist);
      FreshSwing(s, t);
    } else if Takes(s, pc) {
      WinMeansSamePosition(s.head, s.hpos, pc.ch, pc.hv, s.hist);
      FreshTake(s, t);
    }
  }

  lemma StampedStep(s: Queue, s': Queue)
    requires Inv(s) && Bounded(s) && NextUnshared(s, s')
    ensures NextSound(s, s')
  {
    var t, p, v, enq :| t in s.pcs && Step(s, t, p, v, enq, s') && Unshared(s, t);
    assert Local(s, s.pcs[t]);
    StampedIsFresh(s, t);
  }

  lemma {:induction false} StampedInv(tr: seq<Queue>, n: nat)
    requires StampedRun(tr) && n < |tr|
    ensures Inv(tr[n])
  {
    if n == 0 {
      InitInv(tr[0]);
    } else {
      StampedInv(tr, n - 1);
      StampedNext(tr, n);
    }
  }

  lemma StampedNext(tr: seq<Queue>, n: nat)
    requires StampedRun(tr) && 0 < n < |tr| && Inv(tr[n - 1])
    ensures NextSound(tr[n - 1], tr[n]) && Inv(tr[n])
  {
    assert NextUnshared(tr[n - 1], tr[n - 1 + 1]);
    StampedStep(tr[n - 1], tr[n]);
    StepInv(tr[n - 1], tr[n]);
  }

  /** The stamps ensure the first hypothesis as long as fewer than 2^17 exchanges of a word succeed during one
      attempt. */
  lemma StampedRunIsRun(tr: seq<Queue>)
    requires StampedRun(tr)
    ensures Run(tr)
  {
    forall i | 0 <= i < |tr| - 1 ensures NextSound(tr[i], tr[i + 1]) {
      StampedInv(tr, i);
      StampedNext(tr, i + 1);
    }
  }

  /** The two stamps count positions in lockstep, head never passes tail and tail never the last node, and the whole
      words are equal exactly when the positions are. */
  lemma StampsInLockstep(tr: seq<Queue>, n: nat)
    requires Run(tr) && n < |tr|
    ensures tr[n].head.stamp == tr[n].hpos % STAMPS && tr[n].tail.stamp == tr[n].tpos % STAMPS
    ensures tr[n].hpos <= tr[n].tpos <= |tr[n].vals|
    ensures tr[n].head == tr[n].tail <==> tr[n].hpos == tr[n].tpos
  {
    RunInv(tr, n);
  }

  /** The test of `Dequeue` compares words read at different moments. While the copied head is still
      current it is exact; and whenever it fails, the tail was ahead of the copied head. */
  lemma TailTest(tr: seq<Queue>, n: nat, t: nat)
    requires Run(tr) && n < |tr| && t in tr[n].pcs && tr[n].pcs[t].DeqTail?
    ensures tr[n].pcs[t].hv == tr[n].hpos ==> (tr[n].pcs[t].ch == tr[n].tail <==> tr[n].hpos == tr[n].tpos)
    ensures tr[n].pcs[t].ch != tr[n].tail ==> tr[n].pcs[t].hv < tr[n].tpos
  {
    RunInv(tr, n);
    assert Local(tr[n], tr[n].pcs[t]);
  }

  /** Items dequeued, calls past the gate, counted items and linked items, in this order; so a call past
      the gate always has an item behind the head. */
  lemma GateOrder(tr: seq<Queue>, n: nat)
    requires Run(tr) && n < |tr|
    ensures tr[n].hpos <= tr[n].passed <= tr[n].counted <= |tr[n].vals|
    ensures (exists t :: t in tr[n].pcs && PastGate(tr[n].pcs[t])) ==> tr[n].hpos < |tr[n].vals|
  {
    RunInv(tr, n);
    CountZero(tr[n].pcs, PastGate);
  }

  /** `Dequeue` is refused exactly when the counted items that no call has claimed are no more than the
      other calls just then being refused. */
  lemma RefusedExactlyWhen(tr: seq<Queue>, n: nat)
    requires Run(tr) && n < |tr|
    ensures tr[n].count - 1 < 0 <==> tr[n].counted - tr[n].passed <= Count(tr[n].pcs, Refused)
  {
    RunInv(tr, n);
  }

  /** With one consumer at a time a refusal means that every counted item was already taken. */
  lemma SingleConsumerRefusal(tr: seq<Queue>, n: nat, t: nat)
    requires Run(tr) && n < |tr| && t in tr[n].pcs && tr[n].pcs[t].DeqGate? && tr[n].count - 1 < 0
    requires forall u :: u in tr[n].pcs && u != t ==> !Refused(tr[n].pcs[u]) && !PastGate(tr[n].pcs[u])
    ensures tr[n].hpos == tr[n].counted
  {
    RunInv(tr, n);
    CountZero(tr[n].pcs, Refused);
    CountZero(tr[n].pcs, PastGate);
  }
}
