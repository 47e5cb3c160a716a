/** `LFStack` call by call: an observer of the stack's runs notes what each thread asked for, what its steps did to the
    stack, and what the call handed back. */
module StackCalls {
  import opened Stamps
  import opened Reference
  import opened LockFreeStack

  datatype Call = NoCall | Push(v: Value) | Pop

  datatype Result = Pending | Done | Value(v: Value) | Empty

  /** The latest call of a thread: what it asked for, the events it caused, and its result. */
  datatype Record = Record(call: Call, events: seq<Event>, result: Result)

  /** What the caller gets when its thread becomes idle. */
  function ResultOf(pc: Pc): Result {
    match pc
    case PopDone(v, _) => Value(v)
    case PopRead => Empty
    case _ => Done
  }

  ghost function NewEvents(s: Stack, s': Stack): seq<Event> {
    if |s.log| <= |s'.log| then s'.log[|s.log|..] else []
  }

  /** How the step of thread `t` from `s` to `s'` changes the record `r` of that thread. An idle thread calls. */
  ghost function Noted(r: Record, s: Stack, t: nat, v: Value, push: bool, s': Stack): Record
    requires t in s.pcs && t in s'.pcs
  {
    if s.pcs[t].Idle? then Record(if push then Push(v) else Pop, [], Pending)
    else Record(r.call, r.events + NewEvents(s, s'), if s'.pcs[t].Idle? then ResultOf(s.pcs[t]) else Pending)
  }

  datatype Observed = Observed(q: Stack, records: map<nat, Record>)

  ghost predicate Moves(o: Observed, t: nat, p: Address, v: Value, push: bool, o': Observed)
    requires t in o.q.pcs
  {
    && Step(o.q, t, p, v, push, o'.q) && Fresh(o.q, t)
    && t in o.records && t in o'.q.pcs && o'.records == o.records[t := Noted(o.records[t], o.q, t, v, push, o'.q)]
  }

  ghost predicate NextObserved(o: Observed, o': Observed) {
    exists t, p, v, push :: t in o.q.pcs && Moves(o, t, p, v, push, o')
  }

  ghost predicate ObservedRun(tr: seq<Observed>) {
    && tr != [] && Init(tr[0].q) && tr[0].records.Keys == tr[0].q.pcs.Keys
    && (forall t :: t in tr[0].records ==> tr[0].records[t] == Record(NoCall, [], Done))
    && (forall i :: 0 <= i < |tr| - 1 ==> NextObserved(tr[i], tr[i + 1]))
  }

  /** A call that has returned did what it was asked for, once, and handed back what it took out. */
  predicate Fulfilled(r: Record) {
    match r.call
    case NoCall => r.events == []
    case Push(v) => r.events == [Put(v)] && r.result == Done
    case Pop =>
      || (|r.events| == 1 && r.events[0].Got? && r.result == Value(r.events[0].v))
      || (r.events == [WasEmpty] && r.result == Empty)
  }

  /** What the record says while the thread is at `pc`. */
  predicate OnRecord(pc: Pc, r: Record) {
    match pc
    case Idle => Fulfilled(r)
    case PushAlloc(v) => r.call == Push(v) && r.events == []
    case PushSet(_, v) => r.call == Push(v) && r.events == []
    case PushData(_, v) => r.call == Push(v) && r.events == []
    case PushRead(_, v) => r.call == Push(v) && r.events == []
    case PushLink(_, v, _, _) => r.call == Push(v) && r.events == []
    case PushCas(_, v, _, _) => r.call == Push(v) && r.events == []
    case PushCount => r.call.Push? && r.events == [Put(r.call.v)]
    case PopCount(_, got) => r.call == Pop && r.events == [Got(got)]
    case PopData(_, got) => r.call == Pop && r.events == [Got(got)]
    case PopFree(_, _, got) => r.call == Pop && r.events == [Got(got)]
    case PopDone(_, got) => r.call == Pop && r.events == [Got(got)]
    case _ => r.call == Pop && r.events == []
  }

  lemma EventsOf(s: Stack, t: nat, pc: Pc, p: Address, v: Value)
    ensures Do(s, t, pc, p, v).log == s.log +
      if Wins(s, pc) && pc.PushCas? then [Put(pc.v)] else if Wins(s, pc) then [Got(DataAt(s, pc.copy.addr))]
      else if pc.PopRead? && s.top.addr == Stamps.NULL then [WasEmpty] else []
  {}

  lemma StaysOnRecord(s: Stack, t: nat, p: Address, v: Value, push: bool, s': Stack, r: Record)
    requires t in s.pcs && Step(s, t, p, v, push, s') && OnRecord(s.pcs[t], r) && HoldOk(s, s.pcs[t])
    ensures t in s'.pcs && OnRecord(s'.pcs[t], Noted(r, s, t, v, push, s'))
  {
    EventsOf(s, t, s.pcs[t], p, v);
  }

  ghost predicate Recorded(o: Observed) {
    && Inv(o.q) && o.records.Keys == o.q.pcs.Keys
    && forall t :: t in o.q.pcs ==> OnRecord(o.q.pcs[t], o.records[t])
  }

  lemma StepRecorded(o: Observed, t: nat, p: Address, v: Value, push: bool, o': Observed)
    requires Recorded(o) && t in o.q.pcs && Moves(o, t, p, v, push, o')
    ensures Recorded(o')
  {
    assert NextFresh(o.q, o'.q);
    StepInv(o.q, o'.q);
    StepFrame(o.q, t, p, v, push, o'.q);
    assert HoldOk(o.q, o.q.pcs[t]);
    StaysOnRecord(o.q, t, p, v, push, o'.q, o.records[t]);
  }

  lemma {:induction false} RunRecorded(tr: seq<Observed>, n: nat)
    requires ObservedRun(tr) && n < |tr|
    ensures Recorded(tr[n])
  {
    if n == 0 {
      InitInv(tr[0].q);
    } else {
      RunRecorded(tr, n - 1);
      assert NextObserved(tr[n - 1], tr[n - 1 + 1]);
      NextRecorded(tr[n - 1], tr[n]);
    }
  }

  lemma NextRecorded(o: Observed, o': Observed)
    requires Recorded(o) && NextObserved(o, o')
    ensures Recorded(o')
  {
    var t, p, v, push :| t in o.q.pcs && Moves(o, t, p, v, push, o');
    StepRecorded(o, t, p, v, push, o');
  }

  // ----- results -----

  /** Whenever a thread is idle, its latest call is fulfilled: a `Push` has put exactly its argument on the stack; a
      `Pop` has taken exactly one value, the top one at that moment, and handed back that value, or it found the stack
      empty. */
  lemma CallsAreFulfilled(tr: seq<Observed>, n: nat, t: nat)
    requires ObservedRun(tr) && n < |tr| && t in tr[n].q.pcs && tr[n].q.pcs[t].Idle?
    ensures t in tr[n].records && Fulfilled(tr[n].records[t])
    ensures Replay(Lifo, tr[n].q.log) == Some(tr[n].q.vals)
  {
    RunRecorded(tr, n);
  }

  /** At each step, what the stack's log gains is an event of the call that makes the step: the argument of a `Push`,
      the value on top, or the emptiness. */
  lemma EventsBelongToCalls(tr: seq<Observed>, n: nat, t: nat, p: Address, v: Value, push: bool)
    requires ObservedRun(tr) && n + 1 < |tr| && t in tr[n].q.pcs && Moves(tr[n], t, p, v, push, tr[n + 1])
    ensures t in tr[n].records
    ensures var s, s', r := tr[n].q, tr[n + 1].q, tr[n].records[t];
      || (s'.log == s.log && s'.vals == s.vals)
      || (r.call.Push? && s'.log == s.log + [Put(r.call.v)] && s'.vals == [r.call.v] + s.vals)
      || (r.call == Pop && s.vals != [] && s'.log == s.log + [Got(s.vals[0])] && s'.vals == s.vals[1..])
      || (r.call == Pop && s.vals == [] && s'.log == s.log + [WasEmpty] && s'.vals == [])
  {
    RunRecorded(tr, n);
    RunRecorded(tr, n + 1);
    var s, s' := tr[n].q, tr[n + 1].q;
    EventsOf(s, t, s.pcs[t], p, v);
    StepFrame(s, t, p, v, push, s');
    if s'.log != s.log {
      LastEvent(s.log, s'.log[|s.log|], s.vals, s'.vals);
    }
  }

  lemma LastEvent(log: seq<Event>, e: Event, vals: seq<Value>, vals': seq<Value>)
    requires Replay(Lifo, log) == Some(vals) && Replay(Lifo, log + [e]) == Some(vals')
    ensures e.Put? ==> vals' == [e.v] + vals
    ensures e.Got? ==> vals != [] && vals[0] == e.v && vals' == vals[1..]
    ensures e.WasEmpty? ==> vals == vals' == []
  {
    ReplayOneMore(Lifo, log, e);
  }
}
