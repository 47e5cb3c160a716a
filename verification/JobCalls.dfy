/** `PostJob` call by call, and what running jobs asked for: an observer of the scheduler's runs notes the arguments and
    results of posts, and the last thread and the mark that an object's jobs set. */
module JobCalls {
  import opened JobScheduler

  datatype Call = NoCall | Post(o: ObjId, job: Job)

  datatype Result = Pending | Accepted | Rejected

  /** The latest post of a caller: the jobs its steps appended to the object it names, whether it found the object
      marked, and its result. */
  datatype Record = Record(call: Call, appended: seq<Job>, marked: bool, result: Result)

  /** The thread that the latest `SetJobThread` of the object's jobs named, and whether one called `MarkForDelete`. */
  datatype Asked = Asked(thread: Thread, mark: bool)

  datatype Observed = Observed(s: System, records: map<nat, Record>, asked: map<ObjId, Asked>)

  ghost function Appended(s: System, s': System, o: ObjId): seq<Job> {
    if o in s.objs && o in s'.objs && |s.objs[o].hist| <= |s'.objs[o].hist|
    then s'.objs[o].hist[|s.objs[o].hist|..] else []
  }

  /** How the step of agent `t` with choice `c` changes its record. An idle caller posts. */
  ghost function Noted(r: Record, s: System, t: nat, c: Choice, s': System): Record
    requires t in s.pcs && t in s'.pcs
  {
    var pc := s.pcs[t];
    if pc.Idle? then (if c.Post? then Record(Call.Post(c.o, c.job), [], false, Pending) else r)
    else if r.call.NoCall? then r
    else Record(r.call, r.appended + Appended(s, s', r.call.o),
                if pc.PostCheck? && r.call.o in s.objs then s.objs[r.call.o].marked else r.marked,
                if !s'.pcs[t].Idle? then Pending else if pc.PostCheck? then Rejected else Accepted)
  }

  /** What a running job asks for with its choice. */
  ghost function Asks(asked: map<ObjId, Asked>, pc: Pc, c: Choice): map<ObjId, Asked> {
    if !pc.FlushRun? || pc.o !in asked then asked
    else if c.SetThread? then asked[pc.o := asked[pc.o].(thread := c.th)]
    else if c.Mark? then asked[pc.o := asked[pc.o].(mark := true)] else asked
  }

  ghost predicate Acts(o: Observed, t: nat, c: Choice, o': Observed)
    requires t in o.s.pcs
  {
    && Step(o.s, t, c, o'.s) && t in o.records && t in o'.s.pcs
    && o'.records == o.records[t := Noted(o.records[t], o.s, t, c, o'.s)]
    && o'.asked == Asks(o.asked, o.s.pcs[t], c)
  }

  ghost predicate NextObserved(o: Observed, o': Observed) {
    exists t, c :: t in o.s.pcs && Acts(o, t, c, o')
  }

  ghost predicate ObservedRun(tr: seq<Observed>) {
    && tr != [] && Init(tr[0].s) && tr[0].records.Keys == tr[0].s.pcs.Keys
    && (forall t :: t in tr[0].records ==> tr[0].records[t] == Record(NoCall, [], false, Accepted))
    && tr[0].asked == (map o | o in tr[0].s.objs :: Asked(tr[0].s.objs[o].thread, false))
    && (forall i :: 0 <= i < |tr| - 1 ==> NextObserved(tr[i], tr[i + 1]))
  }

  /** A post that has returned true appended exactly its job; one that returned false appended nothing and had found the
      object marked. */
  predicate Fulfilled(r: Record) {
    match r.call
    case NoCall => r.appended == []
    case Post(_, job) =>
      || (r.result == Accepted && r.appended == [job])
      || (r.result == Rejected && r.appended == [] && r.marked)
  }

  predicate OnRecord(pc: Pc, r: Record) {
    match pc
    case Idle => Fulfilled(r)
    case PostCheck(o, job) => r.call == Call.Post(o, job) && r.appended == []
    case PostLink(o, job) => r.call == Call.Post(o, job) && r.appended == []
    case PostCount(o) => r.call.Post? && r.call.o == o && r.appended == [r.call.job]
    case PostCas(o) => r.call.Post? && r.call.o == o && r.appended == [r.call.job]
    case Enq(o, flush) => if flush then r == Record(NoCall, [], false, Accepted)
                          else r.call.Post? && r.call.o == o && r.appended == [r.call.job]
    case Append(o, _, flush) => if flush then r == Record(NoCall, [], false, Accepted)
                                else r.call.Post? && r.call.o == o && r.appended == [r.call.job]
    case _ => r == Record(NoCall, [], false, Accepted)
  }

  /** Job threads make no calls of their own. */
  ghost predicate Recorded(o: Observed) {
    && o.records.Keys == o.s.pcs.Keys && o.s.queues.Keys <= o.s.pcs.Keys
    && (forall t :: t in o.s.pcs && !o.s.pcs[t].Idle? ==> (o.s.pcs[t].Flushes() <==> t in o.s.queues))
    && (forall t :: t in o.s.pcs ==> OnRecord(o.s.pcs[t], o.records[t]))
    && (forall t :: t in o.s.queues ==> o.records[t] == Record(NoCall, [], false, Accepted))
  }

  ghost predicate Obeyed(o: Observed) {
    && o.asked.Keys == o.s.objs.Keys
    && forall x :: x in o.s.objs ==> o.s.objs[x].thread == o.asked[x].thread && o.s.objs[x].marked == o.asked[x].mark
  }

  lemma HistOf(pc: Pc, x: Obj, t: nat, c: Choice)
    requires !pc.Idle?
    ensures NextObj(pc, x, t, c).hist == x.hist + if pc.PostLink? then [pc.job] else []
  {}

  lemma StaysOnRecord(s: System, t: nat, c: Choice, s': System, r: Record)
    requires t in s.pcs && Step(s, t, c, s') && OnRecord(s.pcs[t], r)
    requires t in s.queues ==> r == Record(NoCall, [], false, Accepted)
    requires !s.pcs[t].Idle? ==> (s.pcs[t].Flushes() <==> t in s.queues)
    ensures t in s'.pcs && OnRecord(s'.pcs[t], Noted(r, s, t, c, s'))
    ensures t in s.queues ==> Noted(r, s, t, c, s') == r
    ensures !s'.pcs[t].Idle? ==> (s'.pcs[t].Flushes() <==> t in s.queues)
  {
    var pc := s.pcs[t];
    if !pc.Idle? {
      HistOf(pc, s.objs[pc.o], t, c);
    }
  }

  lemma NextRecorded(o: Observed, o': Observed)
    requires Recorded(o) && NextObserved(o, o')
    ensures Recorded(o')
  {
    var t, c :| t in o.s.pcs && Acts(o, t, c, o');
    StaysOnRecord(o.s, t, c, o'.s, o.records[t]);
    OthersFrame(o.s, t, c, o'.s);
    Assembled(o, t, o');
  }

  lemma Assembled(o: Observed, t: nat, o': Observed)
    requires Recorded(o) && t in o.s.pcs && o'.s.pcs.Keys == o.s.pcs.Keys && o'.s.queues.Keys == o.s.queues.Keys
    requires forall u :: u in o.s.pcs && u != t ==> o'.s.pcs[u] == o.s.pcs[u]
    requires t in o'.records && o'.records == o.records[t := o'.records[t]] && OnRecord(o'.s.pcs[t], o'.records[t])
    requires t in o.s.queues ==> o'.records[t] == o.records[t]
    requires !o'.s.pcs[t].Idle? ==> (o'.s.pcs[t].Flushes() <==> t in o.s.queues)
    ensures Recorded(o')
  {}

  lemma OthersFrame(s: System, t: nat, c: Choice, s': System)
    requires t in s.pcs && Step(s, t, c, s')
    ensures s'.pcs.Keys == s.pcs.Keys && forall u :: u in s.pcs && u != t ==> s'.pcs[u] == s.pcs[u]
    ensures s'.queues.Keys == s.queues.Keys
  {}

  lemma AskedOf(pc: Pc, x: Obj, t: nat, c: Choice)
    requires !pc.Idle?
    ensures var y := NextObj(pc, x, t, c);
      && y.thread == (if pc.FlushRun? && c.SetThread? then c.th else x.thread)
      && y.marked == (x.marked || (pc.FlushRun? && c.Mark?))
  {}

  lemma NextObeyed(o: Observed, o': Observed)
    requires Obeyed(o) && NextObserved(o, o')
    ensures Obeyed(o')
  {
    var t, c :| t in o.s.pcs && Acts(o, t, c, o');
    var pc := o.s.pcs[t];
    if !pc.Idle? {
      AskedOf(pc, o.s.objs[pc.o], t, c);
    } else {
      IdleFrame(o.s, t, c, o'.s);
    }
  }

  lemma IdleFrame(s: System, t: nat, c: Choice, s': System)
    requires t in s.pcs && s.pcs[t].Idle? && Step(s, t, c, s')
    ensures s'.objs.Keys == s.objs.Keys
    ensures forall o :: o in s.objs ==> s'.objs[o].thread == s.objs[o].thread && s'.objs[o].marked == s.objs[o].marked
  {}

  lemma {:induction false} RunRecorded(tr: seq<Observed>, n: nat)
    requires ObservedRun(tr) && n < |tr|
    ensures Recorded(tr[n]) && Obeyed(tr[n])
  {
    if n > 0 {
      RunRecorded(tr, n - 1);
      assert NextObserved(tr[n - 1], tr[n - 1 + 1]);
      NextRecorded(tr[n - 1], tr[n]);
      NextObeyed(tr[n - 1], tr[n]);
    }
  }

  // ----- results -----

  /** Whenever a caller is idle, its latest `PostJob` is fulfilled: it returned true and has appended exactly its job
      to the object's queue, or it returned false, has appended nothing, and had found the object marked. */
  lemma PostsAreFulfilled(tr: seq<Observed>, n: nat, t: nat)
    requires ObservedRun(tr) && n < |tr| && t in tr[n].s.pcs && tr[n].s.pcs[t].Idle?
    ensures t in tr[n].records && Fulfilled(tr[n].records[t])
  {
    RunRecorded(tr, n);
  }

  /** An object's history grows only by posts for it: at each step it stays, or gains the job that the stepping caller
      was asked to post there. */
  lemma JobsComeFromPosts(tr: seq<Observed>, n: nat, t: nat, c: Choice, o: ObjId)
    requires ObservedRun(tr) && n + 1 < |tr| && t in tr[n].s.pcs && Acts(tr[n], t, c, tr[n + 1]) && o in tr[n].s.objs
    ensures o in tr[n + 1].s.objs && t in tr[n].records
    ensures var hist, hist', r := tr[n].s.objs[o].hist, tr[n + 1].s.objs[o].hist, tr[n].records[t];
      hist' == hist || (r.call.Post? && r.call.o == o && r.appended == [] && hist' == hist + [r.call.job])
  {
    RunRecorded(tr, n);
    var pc := tr[n].s.pcs[t];
    if !pc.Idle? {
      HistOf(pc, tr[n].s.objs[pc.o], t, c);
    }
  }

  /** An object names the thread that its jobs last set, and is marked exactly when one of them marked it. */
  lemma JobsAreObeyed(tr: seq<Observed>, n: nat, o: ObjId)
    requires ObservedRun(tr) && n < |tr| && o in tr[n].s.objs
    ensures o in tr[n].asked
    ensures tr[n].s.objs[o].thread == tr[n].asked[o].thread && tr[n].s.objs[o].marked == tr[n].asked[o].mark
  {
    RunRecorded(tr, n);
  }
}
