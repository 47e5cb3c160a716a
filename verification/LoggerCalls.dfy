/** `LogAsync` call by call: an observer of the ring's runs notes every message handed to the logger and what became of
    it. */
module LoggerCalls {
  import opened Tally
  import opened LoggerRing

  datatype Fate = Claimed(m: Message) | Lost(m: Message)

  datatype Call = NoCall | Log(m: Message)

  /** The latest call of a producer and what its steps did with messages. */
  datatype Record = Record(call: Call, fates: seq<Fate>)

  ghost function Fates(x: Ring, y: Ring): seq<Fate> {
    (if |x.claims| < |y.claims| then [Claimed(y.claims[|x.claims|])] else [])
    + if |x.lost| < |y.lost| then [Lost(y.lost[|x.lost|])] else []
  }

  /** How the step of producer `a` changes its record. An idle one calls, with message `m`. */
  ghost function Noted(r: Record, s: System, a: nat, m: Message, s': System): Record
    requires a in s.pcs
  {
    if s.pcs[a].Idle? then Record(Log(m), Fates(s.x, s'.x)) else Record(r.call, r.fates + Fates(s.x, s'.x))
  }

  /** `handed` is every message handed to `LogAsync`, in the order of the calls. */
  datatype Observed = Observed(s: System, records: map<nat, Record>, handed: seq<Message>)

  ghost predicate Moves(o: Observed, a: nat, m: Message, weak: bool, o': Observed)
    requires a in o.s.pcs
  {
    && |o.s.x.slots| == RING_BUFFER_SIZE && Produces(o.s, a, m, weak, o'.s) && Roomy(o.s.x, o.s.pcs[a], weak)
    && a in o.records && o'.records == o.records[a := Noted(o.records[a], o.s, a, m, o'.s)]
    && o'.handed == if o.s.pcs[a].Idle? then o.handed + [m] else o.handed
  }

  ghost predicate Consumes(o: Observed, o': Observed) {
    |o.s.x.slots| == RING_BUFFER_SIZE && o' == o.(s := o.s.(x := Consume(o.s.x)))
  }

  ghost predicate NextObserved(o: Observed, o': Observed) {
    Consumes(o, o') || exists a, m, weak :: a in o.s.pcs && Moves(o, a, m, weak, o')
  }

  ghost predicate ObservedRun(tr: seq<Observed>) {
    && tr != [] && Init(tr[0].s) && tr[0].records.Keys == tr[0].s.pcs.Keys && tr[0].handed == []
    && (forall a :: a in tr[0].records ==> tr[0].records[a] == Record(NoCall, []))
    && (forall i :: 0 <= i < |tr| - 1 ==> NextObserved(tr[i], tr[i + 1]))
  }

  /** A call that has returned has claimed a slot for its message or lost it, once. */
  predicate Fulfilled(r: Record) {
    match r.call
    case NoCall => r.fates == []
    case Log(m) => r.fates == [Claimed(m)] || r.fates == [Lost(m)]
  }

  predicate OnRecord(pc: Pc, r: Record) {
    match pc
    case Idle => Fulfilled(r)
    case LoadWrite(m) => r == Record(Log(m), [])
    case LoadRead(m, _, _) => r == Record(Log(m), [])
    case Cas(m, _, _, _) => r == Record(Log(m), [])
    case Fill(m, _, _) => r == Record(Log(m), [Claimed(m)])
    case Publish(m, _, _) => r == Record(Log(m), [Claimed(m)])
  }

  /** A call that still carries message `m`: it has neither claimed a slot for it nor lost it. */
  ghost function Carries(m: Message): Pc -> bool {
    (pc: Pc) => (pc.LoadWrite? || pc.LoadRead? || pc.Cas?) && pc.m == m
  }

  ghost function Times(ms: seq<Message>, m: Message): nat { multiset(ms)[m] }

  /** Every message handed in is claimed, lost or still carried by its call. */
  ghost predicate Kept(o: Observed) {
    forall m :: Times(o.handed, m) == Times(o.s.x.claims, m) + Times(o.s.x.lost, m) + Count(o.s.pcs, Carries(m))
  }

  ghost predicate Recorded(o: Observed) {
    && o.records.Keys == o.s.pcs.Keys && Kept(o)
    && forall a :: a in o.s.pcs ==> OnRecord(o.s.pcs[a], o.records[a])
  }

  lemma FatesOf(x: Ring, pc: Pc, weak: bool)
    requires |x.slots| == RING_BUFFER_SIZE
    ensures var y := NextRing(pc, x, weak);
      && y.claims == x.claims + (if Claims(pc, x, weak) then [pc.m] else [])
      && y.lost == x.lost + if pc.LoadRead? && LooksFull(pc.cw, x.read) then [pc.m] else []
  {}

  lemma StaysOnRecord(s: System, a: nat, m: Message, weak: bool, s': System, r: Record)
    requires a in s.pcs && |s.x.slots| == RING_BUFFER_SIZE && Produces(s, a, m, weak, s') && OnRecord(s.pcs[a], r)
    ensures OnRecord(s'.pcs[a], Noted(r, s, a, m, s'))
  {
    FatesOf(s.x, s.pcs[a], weak);
  }

  lemma StaysKept(o: Observed, a: nat, m: Message, weak: bool, o': Observed, k: Message)
    requires a in o.s.pcs && Moves(o, a, m, weak, o')
    requires Times(o.handed, k) == Times(o.s.x.claims, k) + Times(o.s.x.lost, k) + Count(o.s.pcs, Carries(k))
    ensures Times(o'.handed, k) == Times(o'.s.x.claims, k) + Times(o'.s.x.lost, k) + Count(o'.s.pcs, Carries(k))
  {
    FatesOf(o.s.x, o.s.pcs[a], weak);
    CountStep(o.s.pcs, a, o'.s.pcs[a], Carries(k));
  }

  lemma NextRecorded(o: Observed, o': Observed)
    requires Recorded(o) && NextObserved(o, o')
    ensures Recorded(o')
  {
    if !Consumes(o, o') {
      var a, m, weak :| a in o.s.pcs && Moves(o, a, m, weak, o');
      StaysOnRecord(o.s, a, m, weak, o'.s, o.records[a]);
      forall k
        ensures Times(o'.handed, k) == Times(o'.s.x.claims, k) + Times(o'.s.x.lost, k) + Count(o'.s.pcs, Carries(k))
      {
        StaysKept(o, a, m, weak, o', k);
      }
    }
  }

  lemma {:induction false} RunRecorded(tr: seq<Observed>, n: nat)
    requires ObservedRun(tr) && n < |tr|
    ensures Recorded(tr[n])
  {
    if n == 0 {
      forall m ensures Count(tr[0].s.pcs, Carries(m)) == 0 {
        CountZero(tr[0].s.pcs, Carries(m));
      }
    } else {
      RunRecorded(tr, n - 1);
      assert NextObserved(tr[n - 1], tr[n - 1 + 1]);
      NextRecorded(tr[n - 1], tr[n]);
    }
  }

  // ----- results -----

  /** Whenever a producer is idle, its latest call has claimed a slot for exactly its message, or has lost exactly its
      message at the full test. */
  lemma CallsAreFulfilled(tr: seq<Observed>, n: nat, a: nat)
    requires ObservedRun(tr) && n < |tr| && a in tr[n].s.pcs && tr[n].s.pcs[a].Idle?
    ensures a in tr[n].records && Fulfilled(tr[n].records[a])
  {
    RunRecorded(tr, n);
  }

  /** No message vanishes: those handed in are, each as often, the claimed ones, the lost ones and the ones that a
      call in progress still carries; with no call in progress, the claimed and the lost ones. */
  lemma NothingVanishes(tr: seq<Observed>, n: nat, m: Message)
    requires ObservedRun(tr) && n < |tr|
    ensures multiset(tr[n].handed)[m] ==
      multiset(tr[n].s.x.claims)[m] + multiset(tr[n].s.x.lost)[m] + Count(tr[n].s.pcs, Carries(m))
    ensures (forall a :: a in tr[n].s.pcs ==> tr[n].s.pcs[a] == Idle) ==>
      multiset(tr[n].handed)[m] == multiset(tr[n].s.x.claims)[m] + multiset(tr[n].s.x.lost)[m]
  {
    RunRecorded(tr, n);
    assert Times(tr[n].handed, m) ==
      Times(tr[n].s.x.claims, m) + Times(tr[n].s.x.lost, m) + Count(tr[n].s.pcs, Carries(m));
    CountZero(tr[n].s.pcs, Carries(m));
  }
}
