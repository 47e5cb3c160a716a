/** `LFObjectPool`: a free list popped by `Alloc` and pushed by `Free`, as a transition system.

    A step is one shared read, store, compare-exchange or counter update of one thread; purely local
    computation is merged into the step before it. Any number of threads, sequential consistency. */
module ObjectPool {
  import opened Stamps
  import opened Tally
  import Treiber
  import opened Ownership

  datatype Pc =
    | Idle
    | AllocRead
    | AllocNext(copy: Word, v: nat)
    | AllocCas(copy: Word, v: nat, succ: Address)
    | AllocUse(p: Address)
    | GrowCapacity
    | GrowUse
    | GrowNew
    | FreeRead(p: Address)
    | FreeLink(p: Address, copy: Word, v: nat)
    | FreeCas(p: Address, copy: Word, v: nat)
    | FreeUse
  {
    predicate Copied() { AllocNext? || AllocCas? || FreeLink? || FreeCas? }

  }

  /** The node only this call can reach. */
  function Held(pc: Pc): Address {
    if pc.AllocUse? || pc.FreeRead? || pc.FreeLink? || pc.FreeCas? then pc.p else NULL
  }

  /** Between the capacity increment and the creation of the node it counts. */
  predicate IsGrowing(pc: Pc) { pc.GrowUse? || pc.GrowNew? }

  /** Counted as a use although no client holds the object. */
  predicate IsCounted(pc: Pc) { pc.GrowNew? || pc.FreeRead? || pc.FreeLink? || pc.FreeCas? || pc.FreeUse? }

  /** The keys of `next` are all nodes ever created. `ver`, `chain` and `owner` are history: the code
      stores none of them. */
  datatype Pool = Pool(
    top: Word,
    next: map<Address, Address>,
    capacity: int,
    useCount: int,
    pcs: map<nat, Pc>,
    ver: nat,
    chain: seq<Address>,
    owner: map<Address, Owner>)
  {
    ghost function Go(t: nat, pc: Pc): Pool { this.(pcs := pcs[t := pc]) }

    ghost function Give(p: Address, o: Owner): Pool { this.(owner := owner[p := o]) }

    predicate IsOut(p: Address) { p in owner && owner[p] == Client }
  }

  /** The constructor: `nodes` created in advance and pushed one after another, stamp zero. */
  ghost predicate Init(s: Pool, nodes: seq<Address>) {
    && Treiber.Linked(s.top, s.next, 0, nodes)
    && s.next.Keys == Treiber.Nodes(nodes)
    && s.chain == nodes && s.ver == 0
    && s.owner == (map p | p in s.next :: Listed)
    && s.capacity == |nodes| && s.useCount == 0
    && forall t :: t in s.pcs ==> s.pcs[t] == Idle
  }

  /** `LFObjectPool(node_num, use_ctor)`, where `new` yields the addresses `news`, establishes `Init`: the last node
      created is on top and every one of them is free. */
  method Construct(news: seq<Address>) returns (s: Pool)
    requires NULL !in news && Treiber.Distinct(news)
    ensures Init(s, s.chain) && Treiber.Nodes(s.chain) == Treiber.Nodes(news)
    ensures |s.chain| == |news| && forall k :: 0 <= k < |news| ==> s.chain[k] == news[|news| - 1 - k]
  {
    var top, next, chain: seq<Address> := NULL, map[], [];
    for i := 0 to |news|
      invariant top == Treiber.First(chain) && Treiber.Linked(Word(0, top), next, 0, chain)
      invariant |chain| == i && forall k :: 0 <= k < i ==> chain[k] == news[i - 1 - k]
      invariant next.Keys == Treiber.Nodes(chain) == Treiber.Nodes(news[..i])
    {
      assert news[i] !in chain;
      Treiber.FirstLink(next, chain, news[i]);
      assert news[..i + 1] == news[..i] + [news[i]];
      next := next[news[i] := top];
      top, chain := news[i], [news[i]] + chain;
    }
    assert news[..|news|] == news;
    s := Pool(Word(0, top), next, |news|, 0, map[], 0, chain, map p | p in next :: Listed);
  }

  /** Where the thread is after its step at `pc`. An idle thread calls `Alloc`, or `Free` of object `p`. */
  ghost function NextPc(s: Pool, pc: Pc, p: Address, alloc: bool): Pc {
    match pc
    case Idle => if alloc then AllocRead else FreeRead(p)
    case AllocRead => if s.top.addr == NULL then GrowCapacity else AllocNext(s.top, s.ver)
    case AllocNext(copy, v) => AllocCas(copy, v, Treiber.Load(s.next, copy.addr))
    case AllocCas(copy, _, _) => if s.top == copy then AllocUse(copy.addr) else AllocRead
    case AllocUse(_) => Idle
    case GrowCapacity => GrowUse
    case GrowUse => GrowNew
    case GrowNew => Idle
    case FreeRead(q) => FreeLink(q, s.top, s.ver)
    case FreeLink(q, copy, v) => FreeCas(q, copy, v)
    case FreeCas(q, copy, _) => if s.top == copy then FreeUse else FreeRead(q)
    case FreeUse => Idle
  }

  /** What the step of thread `t` at `pc` does; `p` is the object it frees or the address a new node gets. */
  ghost function Do(s: Pool, t: nat, pc: Pc, p: Address, alloc: bool): Pool {
    match pc
    case Idle => if alloc then s else s.Give(p, Call(t))
    case AllocCas(copy, _, succ) =>
      if s.top == copy then
        s.Give(copy.addr, Call(t)).(top := copy.Bump(succ), ver := s.ver + 1, chain := Treiber.Rest(s.chain))
      else s
    case AllocUse(q) => s.Give(q, Client).(useCount := s.useCount + 1)
    case GrowCapacity => s.(capacity := s.capacity + 1)
    case GrowUse => s.(useCount := s.useCount + 1)
    case GrowNew => s.Give(p, Client).(next := s.next[p := NULL])
    case FreeLink(q, copy, _) => s.(next := s.next[q := copy.addr])
    case FreeCas(q, copy, _) =>
      if s.top == copy then
        s.Give(q, Listed).(top := copy.Bump(q), ver := s.ver + 1, chain := [q] + s.chain)
      else s
    case FreeUse => s.(useCount := s.useCount - 1)
    case _ => s
  }

  /** One step of thread `t`. A client frees only an object it was given; a new node has a new address. */
  ghost predicate Step(s: Pool, t: nat, p: Address, alloc: bool, s': Pool)
    requires t in s.pcs
  {
    && (s.pcs[t].Idle? && !alloc ==> s.IsOut(p))
    && (s.pcs[t].GrowNew? ==> p != NULL && p !in s.next)
    && s' == Do(s, t, s.pcs[t], p, alloc).Go(t, NextPc(s, s.pcs[t], p, alloc))
  }

  ghost predicate Next(s: Pool, s': Pool) {
    exists t, p, alloc :: t in s.pcs && Step(s, t, p, alloc, s')
  }

  /** The one hypothesis, about the step of thread `t`: an `Alloc` whose exchange wins has read the successor that the
      top node still has. */
  ghost predicate Fresh(s: Pool, t: nat)
    requires t in s.pcs
  {
    s.pcs[t].AllocCas? && Wins(s, s.pcs[t]) ==> s.pcs[t].succ == Treiber.Load(s.next, s.top.addr)
  }

  ghost predicate Wins(s: Pool, pc: Pc) { (pc.AllocCas? || pc.FreeCas?) && s.top == pc.copy }

  ghost predicate NextFresh(s: Pool, s': Pool) {
    exists t, p, alloc :: t in s.pcs && Step(s, t, p, alloc, s') && Fresh(s, t)
  }

  ghost predicate Run(tr: seq<Pool>, nodes: seq<Address>) {
    && tr != [] && Init(tr[0], nodes)
    && (forall i :: 0 <= i < |tr| - 1 ==> NextFresh(tr[i], tr[i + 1]))
  }

  /** What the stamp is for: fewer than 2^17 exchanges succeed while an attempt holds its copy. */
  ghost predicate Bounded(s: Pool) {
    forall t :: t in s.pcs && s.pcs[t].Copied() ==> s.ver < s.pcs[t].v + STAMPS
  }

  ghost predicate BoundedRun(tr: seq<Pool>, nodes: seq<Address>) {
    && tr != [] && Init(tr[0], nodes)
    && (forall i :: 0 <= i < |tr| - 1 ==> Next(tr[i], tr[i + 1]))
    && (forall i :: 0 <= i < |tr| ==> Bounded(tr[i]))
  }

  // ----- the invariant -----

  ghost predicate CopyOk(s: Pool, pc: Pc) {
    && (pc.Copied() ==> Treiber.ReadAt(s.top, s.ver, pc.copy, pc.v))
    && ((pc.AllocNext? || pc.AllocCas?) ==> pc.copy.addr in s.next && pc.copy.addr != NULL)
    && (pc.AllocCas? && pc.v == s.ver ==> pc.succ == Treiber.Load(s.next, pc.copy.addr))
    && (pc.FreeCas? ==> pc.p in s.next && s.next[pc.p] == pc.copy.addr)
    && (pc.AllocUse? || pc.FreeRead? || pc.FreeLink? || pc.FreeCas? ==> pc.p != NULL)
  }

  ghost predicate ListInv(s: Pool) {
    && Treiber.Linked(s.top, s.next, s.ver, s.chain)
    && forall t :: t in s.pcs ==> CopyOk(s, s.pcs[t])
  }

  ghost predicate OwnerInv(s: Pool) {
    && s.owner.Keys == s.next.Keys
    && Unique(s.pcs, Held, s.owner, s.chain)
  }

  ghost predicate CountInv(s: Pool) {
    && s.capacity == |s.next| + Count(s.pcs, IsGrowing)
    && s.useCount == Count(s.owner, IsClient) + Count(s.pcs, IsCounted)
  }

  ghost predicate Inv(s: Pool) { ListInv(s) && OwnerInv(s) && CountInv(s) }

  lemma InitInv(s: Pool, nodes: seq<Address>)
    requires Init(s, nodes)
    ensures Inv(s)
  {
    CountZero(s.pcs, IsGrowing);
    CountZero(s.pcs, IsCounted);
    CountZero(s.owner, IsClient);
    Treiber.DistinctSize(nodes);
    assert |s.next| == |s.next.Keys|;
    forall p ensures p in s.chain <==> p in s.owner && s.owner[p] == Listed {
      assert p in s.chain <==> p in Treiber.Nodes(nodes);
    }
  }

  lemma DoFrame(s: Pool, t: nat, pc: Pc, p: Address, alloc: bool)
    ensures var s' := Do(s, t, pc, p, alloc);
      && s'.pcs == s.pcs
      && (pc.GrowNew? || pc.FreeLink? || s'.next == s.next)
      && if Wins(s, pc) then s'.ver == s.ver + 1 else s'.top == s.top && s'.ver == s.ver && s'.chain == s.chain
  {}

  /** A step moves one thread, and writes links only where it holds or creates the node. */
  lemma StepFrame(s: Pool, t: nat, p: Address, alloc: bool, s': Pool)
    requires t in s.pcs && Step(s, t, p, alloc, s')
    ensures t in s'.pcs && s'.pcs == s.pcs[t := s'.pcs[t]]
    ensures s.pcs[t].GrowNew? || s.pcs[t].FreeLink? || s'.next == s.next
    ensures if Wins(s, s.pcs[t]) then s'.ver == s.ver + 1 else s'.top == s.top && s'.ver == s.ver && s'.chain == s.chain
  {
    DoFrame(s, t, s.pcs[t], p, alloc);
  }

  lemma WinLinked(s: Pool, t: nat, pc: Pc, p: Address, alloc: bool)
    requires pc.AllocCas? || (pc.FreeCas? && pc.p !in s.chain)
    requires Treiber.Linked(s.top, s.next, s.ver, s.chain) && CopyOk(s, pc) && s.top == pc.copy
    requires pc.AllocCas? ==> pc.succ == Treiber.Load(s.next, s.top.addr)
    ensures var s' := Do(s, t, pc, p, alloc); Treiber.Linked(s'.top, s'.next, s'.ver, s'.chain)
  {
    if pc.AllocCas? {
      Treiber.PopKeepsLinked(s.top, s.next, s.ver, s.chain);
    } else {
      Treiber.PushKeepsLinked(s.top, s.next, s.ver, s.chain, pc.p);
    }
  }

  lemma StepLinked(s: Pool, t: nat, p: Address, alloc: bool, s': Pool)
    requires ListInv(s) && OwnerInv(s) && t in s.pcs && Step(s, t, p, alloc, s') && Fresh(s, t)
    ensures Treiber.Linked(s'.top, s'.next, s'.ver, s'.chain)
  {
    var pc := s.pcs[t];
    assert CopyOk(s, pc);
    if Wins(s, pc) {
      WinLinked(s, t, pc, p, alloc);
    } else if pc.FreeLink? {
      Treiber.WriteOutsideKeepsLinked(s.top, s.next, s.ver, s.chain, pc.p, pc.copy.addr);
    } else if pc.GrowNew? {
      Treiber.WriteOutsideKeepsLinked(s.top, s.next, s.ver, s.chain, p, NULL);
    } else {
      StepFrame(s, t, p, alloc, s');
    }
  }

  /** What the other threads copied stays what they copied. */
  lemma OtherCopy(s: Pool, t: nat, p: Address, alloc: bool, s': Pool, u: nat)
    requires ListInv(s) && OwnerInv(s) && t in s.pcs && u in s.pcs && u != t && Step(s, t, p, alloc, s')
    ensures u in s'.pcs && CopyOk(s', s'.pcs[u])
  {
    StepFrame(s, t, p, alloc, s');
    var pc := s.pcs[u];
    assert CopyOk(s, pc);
    if s.pcs[t].FreeLink? {
      assert pc.FreeCas? ==> Held(pc) != Held(s.pcs[t]);
      if pc.AllocCas? && pc.v == s.ver {
        assert pc.copy.addr == s.chain[0];
      }
    }
  }

  lemma OwnCopy(s: Pool, t: nat, p: Address, alloc: bool, s': Pool)
    requires t in s.pcs && Step(s, t, p, alloc, s') && CopyOk(s, s.pcs[t]) && s.top.stamp == s.ver % STAMPS
    requires s.top.addr != NULL ==> s.top.addr in s.next
    requires NULL !in s.owner
    ensures t in s'.pcs && CopyOk(s', s'.pcs[t])
  {}

  lemma WinOwner(s: Pool, t: nat, p: Address, alloc: bool, s': Pool)
    requires ListInv(s) && OwnerInv(s) && t in s.pcs && Step(s, t, p, alloc, s')
    requires Wins(s, s.pcs[t])
    ensures OwnerInv(s')
  {
    StepFrame(s, t, p, alloc, s');
    match s.pcs[t]
    case AllocCas(copy, _, _) =>
      assert s.chain == [copy.addr] + s'.chain;
      assert copy.addr in s.chain;
      Passing(s.pcs, Held, s.owner, s.chain, t, s'.pcs[t], copy.addr, Call(t), s'.chain);
    case FreeCas(q, copy, _) =>
      Passing(s.pcs, Held, s.owner, s.chain, t, s'.pcs[t], q, Listed, s'.chain);
  }

  lemma StepOwner(s: Pool, t: nat, p: Address, alloc: bool, s': Pool)
    requires ListInv(s) && OwnerInv(s) && t in s.pcs && Step(s, t, p, alloc, s')
    ensures OwnerInv(s')
  {
    StepFrame(s, t, p, alloc, s');
    assert CopyOk(s, s.pcs[t]);
    var pc, pc' := s.pcs[t], s'.pcs[t];
    if Wins(s, pc) {
      WinOwner(s, t, p, alloc, s');
    } else if pc'.FreeRead? && pc.Idle? {
      Passing(s.pcs, Held, s.owner, s.chain, t, pc', p, Call(t), s.chain);
    } else if pc.AllocUse? {
      Passing(s.pcs, Held, s.owner, s.chain, t, pc', pc.p, Client, s.chain);
    } else if pc.GrowNew? {
      Passing(s.pcs, Held, s.owner, s.chain, t, pc', p, Client, s.chain);
    } else {
      Staying(s.pcs, Held, s.owner, s.chain, t, pc');
    }
  }

  lemma CapacityOf(s: Pool, t: nat, pc: Pc, p: Address, alloc: bool)
    ensures Do(s, t, pc, p, alloc).capacity == s.capacity + One(pc.GrowCapacity?)
    ensures IsGrowing(NextPc(s, pc, p, alloc)) <==> pc.GrowCapacity? || pc.GrowUse?
  {}

  lemma NodesOf(s: Pool, t: nat, pc: Pc, p: Address, alloc: bool)
    requires (pc.FreeLink? ==> pc.p in s.next) && (pc.GrowNew? ==> p !in s.next)
    ensures |Do(s, t, pc, p, alloc).next| == |s.next| + One(pc.GrowNew?)
  {
    if pc.GrowNew? {
      MapSizes(s.next, p, NULL);
    } else if pc.FreeLink? {
      MapSizes(s.next, pc.p, pc.copy.addr);
    } else {
      DoFrame(s, t, pc, p, alloc);
    }
  }

  lemma StepCapacity(s: Pool, t: nat, p: Address, alloc: bool, s': Pool)
    requires t in s.pcs && Step(s, t, p, alloc, s')
    requires s.pcs[t].FreeLink? ==> s.pcs[t].p in s.next
    requires s.capacity == |s.next| + Count(s.pcs, IsGrowing)
    ensures s'.capacity == |s'.next| + Count(s'.pcs, IsGrowing)
  {
    StepFrame(s, t, p, alloc, s');
    CountStep(s.pcs, t, s'.pcs[t], IsGrowing);
    CapacityOf(s, t, s.pcs[t], p, alloc);
    NodesOf(s, t, s.pcs[t], p, alloc);
  }

  lemma StepUse(s: Pool, t: nat, p: Address, alloc: bool, s': Pool)
    requires CountInv(s) && ListInv(s) && OwnerInv(s) && t in s.pcs && Step(s, t, p, alloc, s')
    ensures s'.useCount == Count(s'.owner, IsClient) + Count(s'.pcs, IsCounted)
  {
    StepFrame(s, t, p, alloc, s');
    var pc := s'.pcs[t];
    CountStep(s.pcs, t, pc, IsCounted);
    match s.pcs[t]
    case Idle =>
      if pc.FreeRead? {
        CountStep(s.owner, p, Call(t), IsClient);
      }
    case AllocCas(copy, _, _) =>
      if s.top == copy {
        assert s.chain[0] in s.chain;
        CountStep(s.owner, copy.addr, Call(t), IsClient);
      }
    case AllocUse(q) =>
      assert CopyOk(s, s.pcs[t]);
      CountStep(s.owner, q, Client, IsClient);
    case GrowNew =>
      CountNew(s.owner, p, Client, IsClient);
    case FreeCas(q, _, _) =>
      assert CopyOk(s, s.pcs[t]);
      CountStep(s.owner, q, Listed, IsClient);
    case _ =>
  }

  lemma StepInv(s: Pool, s': Pool)
    requires Inv(s) && NextFresh(s, s')
    ensures Inv(s')
  {
    var t, p, alloc :| t in s.pcs && Step(s, t, p, alloc, s') && Fresh(s, t);
    StepLinked(s, t, p, alloc, s');
    StepFrame(s, t, p, alloc, s');
    assert CopyOk(s, s.pcs[t]) && (s.chain != [] ==> s.chain[0] in s.chain);
    forall u | u in s'.pcs ensures CopyOk(s', s'.pcs[u]) {
      if u == t { OwnCopy(s, t, p, alloc, s'); } else { OtherCopy(s, t, p, alloc, s', u); }
    }
    StepOwner(s, t, p, alloc, s');
    StepCapacity(s, t, p, alloc, s');
    StepUse(s, t, p, alloc, s');
  }

  // ----- results -----

  lemma {:induction false} RunInv(tr: seq<Pool>, nodes: seq<Address>, n: nat)
    requires Run(tr, nodes) && n < |tr|
    ensures Inv(tr[n])
  {
    if n == 0 {
      InitInv(tr[0], nodes);
    } else {
      RunInv(tr, nodes, n - 1);
      assert NextFresh(tr[n - 1], tr[n - 1 + 1]);
      StepInv(tr[n - 1], tr[n]);
    }
  }

  /** The hypothesis is exact: the exchange of an `Alloc` leaves the rest of the list, and nothing else, reachable
      from the top if and only if the successor it installs is the one that the top node still has. */
  lemma AllocKeepsListExactlyWhen(s: Pool, t: nat, p: Address, alloc: bool, s': Pool)
    requires Inv(s) && t in s.pcs && Step(s, t, p, alloc, s') && s.pcs[t].AllocCas? && Wins(s, s.pcs[t])
    ensures s'.chain == Treiber.Rest(s.chain)
    ensures Treiber.Linked(s'.top, s'.next, s'.ver, s'.chain) <==> Fresh(s, t)
  {
    assert CopyOk(s, s.pcs[t]);
    if Fresh(s, t) {
      StepLinked(s, t, p, alloc, s');
    }
    assert Treiber.LinkAt(s.next, s.chain, 0);
  }

  /** The stamp ensures it as long as fewer than 2^17 exchanges succeed during one attempt. */
  lemma BoundedIsFresh(s: Pool, t: nat)
    requires ListInv(s) && Bounded(s) && t in s.pcs
    ensures Fresh(s, t)
  {
    var pc := s.pcs[t];
    assert CopyOk(s, pc);
    if pc.AllocCas? {
      Treiber.WinMeansUnchanged(s.top, s.next, s.ver, s.chain, pc.copy, pc.v);
    }
  }

  lemma {:induction false} BoundedInv(tr: seq<Pool>, nodes: seq<Address>, n: nat)
    requires BoundedRun(tr, nodes) && n < |tr|
    ensures Inv(tr[n])
  {
    if n == 0 {
      InitInv(tr[0], nodes);
    } else {
      BoundedInv(tr, nodes, n - 1);
      BoundedStep(tr[n - 1], tr[n - 1 + 1]);
      StepInv(tr[n - 1], tr[n]);
    }
  }

  lemma BoundedStep(s: Pool, s': Pool)
    requires ListInv(s) && Bounded(s) && Next(s, s')
    ensures NextFresh(s, s')
  {
    var t, p, alloc :| t in s.pcs && Step(s, t, p, alloc, s');
    BoundedIsFresh(s, t);
  }

  /** So every run within the bound is one of those that the claims are about. */
  lemma BoundedRunIsRun(tr: seq<Pool>, nodes: seq<Address>)
    requires BoundedRun(tr, nodes)
    ensures Run(tr, nodes)
  {
    forall i | 0 <= i < |tr| - 1 ensures NextFresh(tr[i], tr[i + 1]) {
      BoundedInv(tr, nodes, i);
      BoundedStep(tr[i], tr[i + 1]);
    }
  }

  /** In every state of every run the free list is acyclic, and a node is on it, handed out, or held by
      one call, never two of these and never by two calls. */
  lemma UniqueOwnership(tr: seq<Pool>, nodes: seq<Address>, n: nat, p: Address)
    requires Run(tr, nodes) && n < |tr| && p in tr[n].next
    ensures Treiber.Linked(tr[n].top, tr[n].next, tr[n].ver, tr[n].chain)
    ensures p in tr[n].chain ==> !tr[n].IsOut(p)
    ensures p in tr[n].chain || tr[n].IsOut(p) ==> forall t :: t in tr[n].pcs ==> Held(tr[n].pcs[t]) != p
    ensures forall t, u :: t in tr[n].pcs && u in tr[n].pcs && Held(tr[n].pcs[t]) == p == Held(tr[n].pcs[u]) ==> t == u
    ensures p in tr[n].chain || tr[n].IsOut(p) || exists t :: t in tr[n].pcs && Held(tr[n].pcs[t]) == p
  {
    RunInv(tr, nodes, n);
    OneOwner(tr[n].pcs, Held, tr[n].owner, tr[n].chain, p);
  }

  /** A winning `Alloc` takes the current top, which nobody else has, and installs its true successor. */
  lemma WinningAlloc(tr: seq<Pool>, nodes: seq<Address>, n: nat, t: nat, p: Address, alloc: bool)
    requires Run(tr, nodes) && n + 1 < |tr| && t in tr[n].pcs && Step(tr[n], t, p, alloc, tr[n + 1]) && Fresh(tr[n], t)
    requires tr[n].pcs[t].AllocCas? && tr[n].top == tr[n].pcs[t].copy
    ensures tr[n].chain == [tr[n].pcs[t].copy.addr] + tr[n + 1].chain
    ensures tr[n].pcs[t].succ == Treiber.First(tr[n + 1].chain)
    ensures !tr[n].IsOut(tr[n].pcs[t].copy.addr)
  {
    var s, s' := tr[n], tr[n + 1];
    RunInv(tr, nodes, n);
    StepLinked(s, t, p, alloc, s');
    assert s.chain[0] in s.chain;
  }

  /** What clients rely on: the object that a returning `Alloc` hands out was on nobody's hands, neither a client's nor
      another call's, and is on no list. */
  lemma HandsOutUnowned(s: Pool, t: nat, p: Address, alloc: bool, s': Pool, q: Address)
    requires Inv(s) && t in s.pcs && Step(s, t, p, alloc, s') && !s.IsOut(q) && s'.IsOut(q)
    ensures s.pcs[t] == AllocUse(q) || (s.pcs[t].GrowNew? && q == p && q !in s.next)
    ensures q !in s.chain && forall u :: u in s.pcs && u != t ==> Held(s.pcs[u]) != q
  {
    assert CopyOk(s, s.pcs[t]);
    assert forall u :: u in s.pcs ==> CopyOk(s, s.pcs[u]);
    assert s.pcs[t].AllocUse? ==> Held(s.pcs[t]) == s.pcs[t].p;
  }

  /** Whenever no call is in progress, the capacity is the free objects plus the objects in use. */
  lemma AtRest(tr: seq<Pool>, nodes: seq<Address>, n: nat)
    requires Run(tr, nodes) && n < |tr| && forall t :: t in tr[n].pcs ==> tr[n].pcs[t] == Idle
    ensures tr[n].capacity == |tr[n].chain| + tr[n].useCount
    ensures tr[n].useCount == |set p | p in tr[n].owner && tr[n].IsOut(p)|
  {
    var s := tr[n];
    RunInv(tr, nodes, n);
    CountZero(s.pcs, IsGrowing);
    CountZero(s.pcs, IsCounted);
    assert (set p | p in s.owner && s.IsOut(p)) == At(s.owner, IsClient);
    FreeOrOut(s.next, s.chain, s.owner);
  }

  /** If no call holds a node, each is on the list or out. */
  lemma FreeOrOut(next: map<Address, Address>, chain: seq<Address>, owner: map<Address, Owner>)
    requires owner.Keys == next.Keys && Treiber.Distinct(chain)
    requires forall p :: p in chain <==> p in owner && owner[p] == Listed
    requires forall p :: p in owner ==> !owner[p].Call?
    ensures |next| == |chain| + Count(owner, IsClient)
  {
    var out := At(owner, IsClient);
    assert next.Keys == Treiber.Nodes(chain) + out && Treiber.Nodes(chain) !! out;
    Treiber.DistinctSize(chain);
    assert |next| == |next.Keys|;
  }
}
