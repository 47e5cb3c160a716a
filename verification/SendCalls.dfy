/** The send protocol call by call: an observer of a session's runs notes what callers asked for, what they found, and
    whether anybody disconnected the session. */
module SendCalls {
  import opened Tally
  import opened SessionSend

  datatype Call = NoCall | SendPacket(p: Packet) | Completion | Disconnection

  /** The latest call of an agent: the packets its steps appended to the queue, whether it found a pending disconnect
      when it checked for one, the size of the queue it found while it held the flag, whether its filling loop found
      the queue empty, and how many batches it posted. */
  datatype Record = Record(call: Call, appended: seq<Packet>, pending: bool, size: int, drained: bool, batches: nat)

  /** `disconnected`: a call of `Disconnect` by the application has begun. `overflowed`: a call found more than 200
      packets. */
  datatype Observed = Observed(s: System, records: map<nat, Record>, disconnected: bool, overflowed: bool)

  function CallOf(c: Choice): Call {
    match c
    case Send(p) => SendPacket(p)
    case Complete => Completion
    case Drop => Disconnection
  }

  ghost function Appended(x: Sender, y: Sender): seq<Packet> {
    if |x.hist| <= |y.hist| then y.hist[|x.hist|..] else []
  }

  /** How the step of agent `a` changes its record. An idle agent calls, as `c` says. */
  ghost function Noted(r: Record, s: System, a: nat, c: Choice, s': System): Record
    requires a in s.pcs
  {
    var pc, x := s.pcs[a], s.x;
    if pc.Idle? then Record(CallOf(c), Appended(x, s'.x), false, 0, false, 0)
    else Record(r.call, r.appended + Appended(x, s'.x),
                if pc.SendCheck? then x.pending else r.pending,
                if pc.Size? then x.count else r.size,
                if pc.Fill? then x.count <= 0 else r.drained,
                r.batches + if |s'.x.posted| > |x.posted| then 1 else 0)
  }

  ghost predicate Acts(o: Observed, a: nat, c: Choice, o': Observed)
    requires a in o.s.pcs
  {
    && Step(o.s, a, c, o'.s) && a in o.records
    && o'.records == o.records[a := Noted(o.records[a], o.s, a, c, o'.s)]
    && o'.disconnected == (o.disconnected || (o.s.pcs[a].Idle? && c.Drop?))
    && o'.overflowed == (o.overflowed || (o.s.pcs[a].Size? && o.s.x.count > MAX_SEND_MSG))
  }

  ghost predicate NextObserved(o: Observed, o': Observed) {
    exists a, c :: a in o.s.pcs && Acts(o, a, c, o')
  }

  ghost predicate ObservedRun(tr: seq<Observed>) {
    && tr != [] && Init(tr[0].s) && tr[0].records.Keys == tr[0].s.pcs.Keys && !tr[0].disconnected && !tr[0].overflowed
    && (forall a :: a in tr[0].records ==> tr[0].records[a] == Record(NoCall, [], false, 0, false, 0))
    && (forall i :: 0 <= i < |tr| - 1 ==> NextObserved(tr[i], tr[i + 1]))
  }

  /** A `SendPacket` that has returned has appended exactly its packet, or nothing after it found a disconnect
      pending; no other call appends. */
  predicate Fulfilled(r: Record) {
    match r.call
    case SendPacket(p) => r.appended == [p] || (r.appended == [] && r.pending)
    case _ => r.appended == []
  }

  predicate OnRecord(pc: Pc, r: Record) {
    match pc
    case SendCheck(p) => r.call == SendPacket(p) && r.appended == []
    case SendLink(p) => r.call == SendPacket(p) && r.appended == []
    case SendCount => r.call.SendPacket? && r.appended == [r.call.p]
    case Disconnect => r.call == Disconnection && r.appended == []
    case Idle => Fulfilled(r)
    case _ => Fulfilled(r) && r.call != Disconnection && r.call != NoCall
  }

  /** The size found while holding the flag decides between posting a batch and giving up, and the filling loop ends
      full or with the queue empty. */
  predicate Decides(pc: Pc, r: Record) {
    match pc
    case Idle => r.batches == if 1 <= r.size <= MAX_SEND_MSG then 1 else 0
    case Fill(_) => 1 <= r.size <= MAX_SEND_MSG && r.batches == 0
    case Take(_) => 1 <= r.size <= MAX_SEND_MSG && r.batches == 0
    case Commit(i) => 1 <= r.size <= MAX_SEND_MSG && r.batches == 0 && (i == MAX_SEND_MSG || r.drained)
    case Post(i) => 1 <= r.size <= MAX_SEND_MSG && r.batches == 0 && (i == MAX_SEND_MSG || r.drained)
    case Overflow => r.size > MAX_SEND_MSG && r.batches == 0
    case _ => r.size == 0 && r.batches == 0
  }

  ghost predicate Recorded(o: Observed) {
    && o.records.Keys == o.s.pcs.Keys
    && (forall a :: a in o.s.pcs ==> OnRecord(o.s.pcs[a], o.records[a]) && Decides(o.s.pcs[a], o.records[a]))
    && (forall a :: a in o.s.pcs && o.s.pcs[a].Overflow? ==> o.overflowed)
    && (forall a :: a in o.s.pcs && o.s.pcs[a].Disconnect? ==> o.disconnected)
    && (o.s.x.pending ==> o.disconnected || o.overflowed)
    && (forall a :: a in o.s.pcs && o.s.pcs[a].Idle? && o.records[a].call == Disconnection ==> o.s.x.pending)
  }

  lemma HistOf(x: Sender, pc: Pc, a: nat, c: Choice)
    ensures NextSender(pc, x, a, c).hist == x.hist + if pc.SendLink? then [pc.p] else []
    ensures NextSender(pc, x, a, c).pending == (x.pending || pc.Overflow? || pc.Disconnect?)
  {}

  lemma PostsOne(x: Sender, pc: Pc, a: nat, c: Choice)
    ensures |NextSender(pc, x, a, c).posted| == |x.posted| + if pc.Post? then 1 else 0
  {}

  lemma StaysOnRecord(s: System, a: nat, c: Choice, s': System, r: Record)
    requires a in s.pcs && Step(s, a, c, s') && OnRecord(s.pcs[a], r) && Decides(s.pcs[a], r)
    requires s.pcs[a].Owns() ==> ArrOk(s.x, s.pcs[a])
    ensures OnRecord(s'.pcs[a], Noted(r, s, a, c, s')) && Decides(s'.pcs[a], Noted(r, s, a, c, s'))
    ensures s'.pcs[a].Overflow? ==> s.pcs[a].Size? && s.x.count > MAX_SEND_MSG
    ensures s'.pcs[a].Disconnect? ==> s.pcs[a].Idle? && c.Drop?
    ensures s'.pcs[a].Idle? && r.call == Disconnection ==> s'.x.pending
  {
    HistOf(s.x, s.pcs[a], a, c);
    PostsOne(s.x, s.pcs[a], a, c);
  }

  lemma StepRecorded(o: Observed, a: nat, c: Choice, o': Observed)
    requires Recorded(o) && a in o.s.pcs && Acts(o, a, c, o') && (o.s.pcs[a].Owns() ==> ArrOk(o.s.x, o.s.pcs[a]))
    ensures Recorded(o')
  {
    StaysOnRecord(o.s, a, c, o'.s, o.records[a]);
    HistOf(o.s.x, o.s.pcs[a], a, c);
    forall b | b in o'.s.pcs ensures OnRecord(o'.s.pcs[b], o'.records[b]) && Decides(o'.s.pcs[b], o'.records[b]) {
      if b != a {
        assert OnRecord(o.s.pcs[b], o.records[b]) && Decides(o.s.pcs[b], o.records[b]);
      }
    }
  }

  lemma NextRecorded(o: Observed, o': Observed)
    requires Recorded(o) && Inv(o.s) && NextObserved(o, o')
    ensures Recorded(o')
  {
    var a, c :| a in o.s.pcs && Acts(o, a, c, o');
    StepRecorded(o, a, c, o');
  }

  lemma NextHolds(o: Observed, o': Observed)
    requires Inv(o.s) && NextObserved(o, o')
    ensures Inv(o'.s)
  {
    assert Next(o.s, o'.s);
    StepInv(o.s, o'.s);
  }

  lemma {:induction false} RunRecorded(tr: seq<Observed>, n: nat)
    requires ObservedRun(tr) && n < |tr|
    ensures Recorded(tr[n]) && Inv(tr[n].s)
  {
    if n == 0 {
      InitInv(tr[0].s);
    } else {
      RunRecorded(tr, n - 1);
      assert NextObserved(tr[n - 1], tr[n - 1 + 1]);
      NextRecorded(tr[n - 1], tr[n]);
      NextHolds(tr[n - 1], tr[n]);
    }
  }

  // ----- results -----

  /** Whenever an agent is idle, its latest call is fulfilled: a `SendPacket` has appended exactly its packet, or
      nothing after it found a disconnect pending; no other call appends anything. */
  lemma CallsAreFulfilled(tr: seq<Observed>, n: nat, a: nat)
    requires ObservedRun(tr) && n < |tr| && a in tr[n].s.pcs && tr[n].s.pcs[a].Idle?
    ensures a in tr[n].records && Fulfilled(tr[n].records[a])
  {
    RunRecorded(tr, n);
    assert OnRecord(tr[n].s.pcs[a], tr[n].records[a]);
  }

  /** A session is disconnected only because the application asked for it or because a sender found more than 200
      packets. */
  lemma DisconnectedForAReason(tr: seq<Observed>, n: nat)
    requires ObservedRun(tr) && n < |tr|
    ensures tr[n].s.x.pending ==> tr[n].disconnected || tr[n].overflowed
  {
    RunRecorded(tr, n);
  }

  /** And a `Disconnect` that has returned leaves it so. */
  lemma DisconnectStays(tr: seq<Observed>, n: nat, a: nat)
    requires ObservedRun(tr) && n < |tr| && a in tr[n].s.pcs && tr[n].s.pcs[a].Idle?
    requires a in tr[n].records && tr[n].records[a].call == Disconnection
    ensures tr[n].s.x.pending
  {
    RunRecorded(tr, n);
  }

  /** A sender that, holding the flag, found 1 to 200 packets posts exactly one batch before it returns, full or
      leaving the queue counted empty; one that found more posts none, and one that never looked posts none. */
  lemma SizeDecides(tr: seq<Observed>, n: nat, a: nat)
    requires ObservedRun(tr) && n < |tr| && a in tr[n].s.pcs
    ensures a in tr[n].records
    ensures tr[n].s.pcs[a].Idle? ==>
      tr[n].records[a].batches == if 1 <= tr[n].records[a].size <= MAX_SEND_MSG then 1 else 0
    ensures tr[n].s.pcs[a].Overflow? ==> tr[n].records[a].size > MAX_SEND_MSG
    ensures tr[n].s.pcs[a].Post? ==>
      && 1 <= |tr[n].s.x.arr| == tr[n].s.x.batch <= MAX_SEND_MSG && tr[n].records[a].size <= MAX_SEND_MSG
      && (|tr[n].s.x.arr| == MAX_SEND_MSG || tr[n].records[a].drained)
  {
    RunRecorded(tr, n);
    assert OnRecord(tr[n].s.pcs[a], tr[n].records[a]) && Decides(tr[n].s.pcs[a], tr[n].records[a]);
  }

  /** So, unless the application disconnected it or more than 200 packets were waiting, whenever no call is in
      progress a queue that is not empty has a send in flight. */
  lemma AlwaysInFlight(tr: seq<Observed>, n: nat)
    requires ObservedRun(tr) && n < |tr| && !tr[n].disconnected && !tr[n].overflowed
    requires tr[n].s.x.items != [] && forall a :: a in tr[n].s.pcs ==> tr[n].s.pcs[a] == Idle
    ensures tr[n].s.x.holder == Flight
  {
    RunRecorded(tr, n);
    CountZero(tr[n].s.pcs, Counting);
  }
}
