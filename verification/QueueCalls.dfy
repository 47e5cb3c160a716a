/** `LFQueue` call by call: an observer of the queue's runs notes what each thread asked for, what its steps did to the
    queue, and what the call handed back. */
module QueueCalls {
  import opened Stamps
  import opened Reference
  import opened LockFreeQueue

  datatype Call = NoCall | Enqueue(v: Value) | Dequeue

  datatype Result = Pending | Done | Value(v: Value) | Refused

  /** The latest call of a thread: what it asked for, the events it caused, the count it found at the gate, and its
      result. */
  datatype Record = Record(call: Call, events: seq<Event>, found: int, result: Result)

  /** What the caller gets when its thread becomes idle. */
  function ResultOf(pc: Pc): Result {
    match pc
    case DeqDone(d) => Value(d)
    case DeqBack => Refused
    case _ => Done
  }

  ghost function NewEvents(s: Queue, s': Queue): seq<Event> {
    if |s.log| <= |s'.log| then s'.log[|s.log|..] else []
  }

  /** How the step of thread `t` from `s` to `s'` changes the record `r` of that thread. An idle thread calls. */
  ghost function Noted(r: Record, s: Queue, t: nat, v: Value, enq: bool, s': Queue): Record
    requires t in s.pcs && t in s'.pcs
  {
    if s.pcs[t].Idle? then Record(if enq then Enqueue(v) else Dequeue, [], 0, Pending)
    else Record(r.call, r.events + NewEvents(s, s'), if s.pcs[t].DeqGate? then s.count else r.found,
                if s'.pcs[t].Idle? then ResultOf(s.pcs[t]) else Pending)
  }

  datatype Observed = Observed(q: Queue, records: map<nat, Record>)

  ghost predicate NextObserved(o: Observed, o': Observed) {
    exists t, p, v, enq :: t in o.q.pcs && Moves(o, t, p, v, enq, o')
  }

  ghost predicate Moves(o: Observed, t: nat, p: Address, v: Value, enq: bool, o': Observed)
    requires t in o.q.pcs
  {
    && Step(o.q, t, p, v, enq, o'.q) && Fresh(o.q, t) && Unshared(o.q, t)
    && t in o.records && t in o'.q.pcs && o'.records == o.records[t := Noted(o.records[t], o.q, t, v, enq, o'.q)]
  }

  ghost predicate ObservedRun(tr: seq<Observed>) {
    && tr != [] && Init(tr[0].q) && tr[0].records.Keys == tr[0].q.pcs.Keys
    && (forall t :: t in tr[0].records ==> tr[0].records[t] == Record(NoCall, [], 0, Done))
    && (forall i :: 0 <= i < |tr| - 1 ==> NextObserved(tr[i], tr[i + 1]))
  }

  /** A call that has returned did what it was asked for, once, and handed back what it took out. */
  predicate Fulfilled(r: Record) {
    match r.call
    case NoCall => r.events == []
    case Enqueue(v) => r.events == [Put(v)] && r.result == Done
    case Dequeue =>
      || (|r.events| == 1 && r.events[0].Got? && r.result == Value(r.events[0].v))
      || (r.events == [] && r.result == Refused && r.found < 1)
  }

  /** What the record says while the thread is at `pc`. */
  predicate OnRecord(pc: Pc, r: Record) {
    match pc
    case Idle => Fulfilled(r)
    case EnqAlloc(v) => r.call == Enqueue(v) && r.events == []
    case EnqData(_, v) => r.call == Enqueue(v) && r.events == []
    case EnqRead(_, v) => r.call == Enqueue(v) && r.events == []
    case EnqNext(_, v, _, _) => r.call == Enqueue(v) && r.events == []
    case EnqLink(_, v, _, _) => r.call == Enqueue(v) && r.events == []
    case EnqHelp(_, v, _, _, _) => r.call == Enqueue(v) && r.events == []
    case EnqCount(_, _, _) => r.call.Enqueue? && r.events == [Put(r.call.v)]
    case EnqSwing(_, _, _) => r.call.Enqueue? && r.events == [Put(r.call.v)]
    case DeqBack => r.call == Dequeue && r.events == [] && r.found < 1
    case DeqFree(_, d) => r.call == Dequeue && r.events == [Got(d)]
    case DeqDone(d) => r.call == Dequeue && r.events == [Got(d)]
    case _ => r.call == Dequeue && r.events == []
  }

  lemma EventsOf(s: Queue, t: nat, pc: Pc, p: Address, v: Value)
    ensures Do(s, t, pc, p, v).log ==
      s.log + if Links(s, pc) then [Put(pc.v)] else if Takes(s, pc) then [Got(pc.d)] else []
  {}

  lemma StaysOnRecord(s: Queue, t: nat, p: Address, v: Value, enq: bool, s': Queue, r: Record)
    requires t in s.pcs && Step(s, t, p, v, enq, s') && OnRecord(s.pcs[t], r)
    ensures t in s'.pcs && OnRecord(s'.pcs[t], Noted(r, s, t, v, enq, s'))
  {
    EventsOf(s, t, s.pcs[t], p, v);
  }

  ghost predicate Recorded(o: Observed) {
    o.records.Keys == o.q.pcs.Keys && forall t :: t in o.q.pcs ==> OnRecord(o.q.pcs[t], o.records[t])
  }

  lemma StepRecorded(o: Observed, t: nat, p: Address, v: Value, enq: bool, o': Observed)
    requires Recorded(o) && t in o.q.pcs && Moves(o, t, p, v, enq, o')
    ensures Recorded(o')
  {
    LogFrame(o.q, t, p, v, enq, o'.q);
    StaysOnRecord(o.q, t, p, v, enq, o'.q, o.records[t]);
  }

  lemma {:induction false} RunRecorded(tr: seq<Observed>, n: nat)
    requires ObservedRun(tr) && n < |tr|
    ensures Recorded(tr[n])
  {
    if n > 0 {
      RunRecorded(tr, n - 1);
      assert NextObserved(tr[n - 1], tr[n - 1 + 1]);
      var t, p, v, enq :| t in tr[n - 1].q.pcs && Moves(tr[n - 1], t, p, v, enq, tr[n]);
      StepRecorded(tr[n - 1], t, p, v, enq, tr[n]);
    }
  }

  lemma {:induction false} QueueHolds(tr: seq<Observed>, n: nat)
    requires ObservedRun(tr) && n < |tr|
    ensures Inv(tr[n].q)
  {
    if n == 0 {
      InitInv(tr[0].q);
    } else {
      QueueHolds(tr, n - 1);
      assert NextObserved(tr[n - 1], tr[n - 1 + 1]);
      var t, p, v, enq :| t in tr[n - 1].q.pcs && Moves(tr[n - 1], t, p, v, enq, tr[n]);
      assert NextSound(tr[n - 1].q, tr[n].q);
      StepInv(tr[n - 1].q, tr[n].q);
    }
  }

  // ----- results -----

  /** Whenever a thread is idle, its latest call is fulfilled: an `Enqueue` has put exactly its argument into the
      queue; a `Dequeue` has taken out exactly one value, the first one at that moment, and handed back that value, or
      it has taken none, after it found no counted item at the gate. */
  lemma CallsAreFulfilled(tr: seq<Observed>, n: nat, t: nat)
    requires ObservedRun(tr) && n < |tr| && t in tr[n].q.pcs && tr[n].q.pcs[t].Idle?
    ensures t in tr[n].records && Fulfilled(tr[n].records[t])
    ensures Replay(Fifo, tr[n].q.log).Some?
  {
    RunRecorded(tr, n);
    QueueHolds(tr, n);
  }

  /** At each step, what the queue's log gains is an event of the call that makes the step: the argument of an
      `Enqueue`, or the value at the front, which its `Dequeue` will hand back. */
  lemma EventsBelongToCalls(tr: seq<Observed>, n: nat, t: nat, p: Address, v: Value, enq: bool)
    requires ObservedRun(tr) && n + 1 < |tr| && t in tr[n].q.pcs && Moves(tr[n], t, p, v, enq, tr[n + 1])
    ensures tr[n].q.hpos <= |tr[n].q.vals| && tr[n + 1].q.hpos <= |tr[n + 1].q.vals| && t in tr[n].records
    ensures var s, s', r := tr[n].q, tr[n + 1].q, tr[n].records[t];
      || s'.log == s.log
      || (r.call.Enqueue? && s'.log == s.log + [Put(r.call.v)] && Contents(s') == Contents(s) + [r.call.v])
      || (r.call == Dequeue && Contents(s) != [] && s'.log == s.log + [Got(Contents(s)[0])]
            && Contents(s') == Contents(s)[1..])
  {
    RunRecorded(tr, n);
    QueueHolds(tr, n);
    EventsOf(tr[n].q, t, tr[n].q.pcs[t], p, v);
    StepSimulates(tr[n].q, t, p, v, enq, tr[n + 1].q);
  }
}
