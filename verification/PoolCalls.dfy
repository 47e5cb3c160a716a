/** `LFObjectPool` call by call: an observer of the pool's runs notes which objects a call handed out and which it put
    on the free list. */
module PoolCalls {
  import opened Stamps
  import opened Ownership
  import opened ObjectPool

  datatype Request = NoCall | Alloc | Free(p: Address)

  /** The latest call of a thread, the objects its steps handed out, and those its steps put on the list. */
  datatype Record = Record(call: Request, handed: set<Address>, listed: set<Address>)

  type Owners = map<Address, Owner>

  /** The nodes that have owner `o` after a step and did not before. */
  ghost function Newly(o: Owner, owner: Owners, owner': Owners): set<Address> {
    set q | q in owner' && owner'[q] == o && !(q in owner && owner[q] == o)
  }

  /** How the step of thread `t` from `s` to `s'` changes the record `r` of that thread. An idle thread calls. */
  ghost function Noted(r: Record, s: Pool, t: nat, p: Address, alloc: bool, s': Pool): Record
    requires t in s.pcs
  {
    var handed, listed := Newly(Client, s.owner, s'.owner), Newly(Listed, s.owner, s'.owner);
    if s.pcs[t].Idle? then Record(if alloc then Alloc else Free(p), handed, listed)
    else Record(r.call, r.handed + handed, r.listed + listed)
  }

  datatype Observed = Observed(q: Pool, records: map<nat, Record>)

  ghost predicate Moves(o: Observed, t: nat, p: Address, alloc: bool, o': Observed)
    requires t in o.q.pcs
  {
    && Step(o.q, t, p, alloc, o'.q) && Fresh(o.q, t)
    && t in o.records && o'.records == o.records[t := Noted(o.records[t], o.q, t, p, alloc, o'.q)]
  }

  ghost predicate NextObserved(o: Observed, o': Observed) {
    exists t, p, alloc :: t in o.q.pcs && Moves(o, t, p, alloc, o')
  }

  ghost predicate ObservedRun(tr: seq<Observed>, nodes: seq<Address>) {
    && tr != [] && Init(tr[0].q, nodes) && tr[0].records.Keys == tr[0].q.pcs.Keys
    && (forall t :: t in tr[0].records ==> tr[0].records[t] == Record(NoCall, {}, {}))
    && (forall i :: 0 <= i < |tr| - 1 ==> NextObserved(tr[i], tr[i + 1]))
  }

  /** An `Alloc` that has returned handed out one object and listed none; a `Free` listed its argument only. */
  ghost predicate Fulfilled(r: Record) {
    match r.call
    case NoCall => r.handed == {} && r.listed == {}
    case Alloc => (exists q :: r.handed == {q}) && r.listed == {}
    case Free(p) => r.handed == {} && r.listed == {p}
  }

  ghost predicate OnRecord(pc: Pc, r: Record) {
    match pc
    case Idle => Fulfilled(r)
    case FreeRead(p) => r == Record(Free(p), {}, {})
    case FreeLink(p, _, _) => r == Record(Free(p), {}, {})
    case FreeCas(p, _, _) => r == Record(Free(p), {}, {})
    case FreeUse => r.call.Free? && r == Record(r.call, {}, {r.call.p})
    case _ => r == Record(Alloc, {}, {})
  }

  lemma NewlyGiven(owner: Owners, q: Address, to: Owner, o: Owner)
    ensures Newly(o, owner, owner[q := to]) == if to == o && !(q in owner && owner[q] == o) then {q} else {}
    ensures Newly(o, owner, owner) == {}
  {}

  /** The node that a step gives to a new owner, if any. */
  ghost function Given(s: Pool, pc: Pc, p: Address, alloc: bool): Address {
    match pc
    case Idle => if alloc then NULL else p
    case AllocCas(copy, _, _) => if Wins(s, pc) then copy.addr else NULL
    case AllocUse(q) => q
    case GrowNew => p
    case FreeCas(q, _, _) => if Wins(s, pc) then q else NULL
    case _ => NULL
  }

  function To(pc: Pc, t: nat): Owner {
    if pc.FreeCas? then Listed else if pc.AllocUse? || pc.GrowNew? then Client else Call(t)
  }

  lemma OwnerOf(s: Pool, t: nat, pc: Pc, p: Address, alloc: bool)
    requires (pc.Idle? && !alloc) || pc.GrowNew? ==> p != NULL
    requires pc.AllocUse? || pc.FreeCas? ==> pc.p != NULL
    requires pc.AllocCas? ==> pc.copy.addr != NULL
    ensures var q := Given(s, pc, p, alloc);
      Do(s, t, pc, p, alloc).owner == if q == NULL then s.owner else s.owner[q := To(pc, t)]
  {}

  /** Which objects change hands in a step. */
  ghost function Handed(pc: Pc, p: Address): set<Address> {
    if pc.AllocUse? then {pc.p} else if pc.GrowNew? then {p} else {}
  }

  ghost function Relisted(s: Pool, pc: Pc): set<Address> { if pc.FreeCas? && Wins(s, pc) then {pc.p} else {} }

  lemma NewlyOf(s: Pool, t: nat, p: Address, alloc: bool, s': Pool)
    requires t in s.pcs && Step(s, t, p, alloc, s') && NULL !in s.owner && s.owner.Keys == s.next.Keys
    requires CopyOk(s, s.pcs[t])
    requires var q := Held(s.pcs[t]); q != NULL ==> q in s.owner && s.owner[q] == Call(t)
    ensures Newly(Client, s.owner, s'.owner) == Handed(s.pcs[t], p)
    ensures Newly(Listed, s.owner, s'.owner) == Relisted(s, s.pcs[t])
  {
    var pc := s.pcs[t];
    OwnerOf(s, t, pc, p, alloc);
    var q := Given(s, pc, p, alloc);
    NewlyGiven(s.owner, q, To(pc, t), Client);
    NewlyGiven(s.owner, q, To(pc, t), Listed);
  }

  lemma StaysOnRecord(s: Pool, pc: Pc, p: Address, alloc: bool, r: Record)
    requires OnRecord(pc, r)
    ensures var handed, listed := Handed(pc, p), Relisted(s, pc);
      OnRecord(NextPc(s, pc, p, alloc),
               if pc.Idle? then Record(if alloc then Alloc else Free(p), handed, listed)
               else Record(r.call, r.handed + handed, r.listed + listed))
  {
    if pc.AllocUse? || pc.GrowNew? {
      assert {} + Handed(pc, p) == {if pc.AllocUse? then pc.p else p};
    }
  }

  ghost predicate Recorded(o: Observed) {
    && Inv(o.q) && o.records.Keys == o.q.pcs.Keys
    && forall t :: t in o.q.pcs ==> OnRecord(o.q.pcs[t], o.records[t])
  }

  lemma NextRecorded(o: Observed, o': Observed)
    requires Recorded(o) && NextObserved(o, o')
    ensures Recorded(o')
  {
    var t, p, alloc :| t in o.q.pcs && Moves(o, t, p, alloc, o');
    assert NextFresh(o.q, o'.q);
    StepInv(o.q, o'.q);
    StepFrame(o.q, t, p, alloc, o'.q);
    HoldsItsOwn(o.q, t);
    NewlyOf(o.q, t, p, alloc, o'.q);
    StaysOnRecord(o.q, o.q.pcs[t], p, alloc, o.records[t]);
    Assembled(o, t, o');
  }

  lemma HoldsItsOwn(s: Pool, t: nat)
    requires Inv(s) && t in s.pcs
    ensures NULL !in s.owner && s.owner.Keys == s.next.Keys && CopyOk(s, s.pcs[t])
    ensures var q := Held(s.pcs[t]); q != NULL ==> q in s.owner && s.owner[q] == Call(t)
  {}

  lemma Assembled(o: Observed, t: nat, o': Observed)
    requires Recorded(o) && t in o.q.pcs && t in o'.q.pcs && o'.q.pcs == o.q.pcs[t := o'.q.pcs[t]] && Inv(o'.q)
    requires t in o'.records && o'.records == o.records[t := o'.records[t]] && OnRecord(o'.q.pcs[t], o'.records[t])
    ensures Recorded(o')
  {}

  lemma {:induction false} RunRecorded(tr: seq<Observed>, nodes: seq<Address>, n: nat)
    requires ObservedRun(tr, nodes) && n < |tr|
    ensures Recorded(tr[n])
  {
    if n == 0 {
      InitInv(tr[0].q, nodes);
    } else {
      RunRecorded(tr, nodes, n - 1);
      assert NextObserved(tr[n - 1], tr[n - 1 + 1]);
      NextRecorded(tr[n - 1], tr[n]);
    }
  }

  /** Whenever a thread is idle, its latest call is fulfilled: an `Alloc` has handed out exactly one object, a `Free`
      has put exactly its argument on the free list. */
  lemma CallsAreFulfilled(tr: seq<Observed>, nodes: seq<Address>, n: nat, t: nat)
    requires ObservedRun(tr, nodes) && n < |tr| && t in tr[n].q.pcs && tr[n].q.pcs[t].Idle?
    ensures t in tr[n].records && Fulfilled(tr[n].records[t])
  {
    RunRecorded(tr, nodes, n);
  }
}
