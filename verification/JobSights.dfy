/** The scheduler by what its callers and threads saw: an observer of its runs notes whether a post came after the mark,
    and whether a drainer saw its object without or with counted jobs. */
module JobSights {
  import opened JobScheduler

  /** Of an agent's latest call: whether its object was marked when it was made; whether it has seen the object
      without a job to take since it last started one; whether it has seen counted jobs since it last put the flag
      down. */
  datatype Sight = Sight(late: bool, empty: bool, work: bool)

  ghost function Seen(v: Sight, x: Obj, y: Obj): Sight {
    Sight(v.late, if |x.started| < |y.started| then false else v.empty || x.count < 1 || x.items == [],
          if x.processing && !y.processing then false else v.work || x.count > 0)
  }

  ghost function FirstSight(s: System, c: Choice): Sight {
    Sight(c.Post? && c.o in s.objs && s.objs[c.o].marked, false, false)
  }

  datatype Observed = Observed(s: System, sights: map<nat, Sight>)

  ghost predicate Acts(o: Observed, t: nat, c: Choice, o': Observed)
    requires t in o.s.pcs
  {
    var pc := o.s.pcs[t];
    && Step(o.s, t, c, o'.s) && t in o.sights
    && (pc.Idle? ==> o'.sights == o.sights[t := FirstSight(o.s, c)])
    && (!pc.Idle? && pc.o in o.s.objs && pc.o in o'.s.objs ==>
         o'.sights == o.sights[t := Seen(o.sights[t], o.s.objs[pc.o], o'.s.objs[pc.o])])
  }

  ghost predicate NextObserved(o: Observed, o': Observed) {
    exists t, c :: t in o.s.pcs && Acts(o, t, c, o')
  }

  ghost predicate ObservedRun(tr: seq<Observed>) {
    && tr != [] && Init(tr[0].s) && tr[0].sights.Keys == tr[0].s.pcs.Keys
    && (forall t :: t in tr[0].sights ==> tr[0].sights[t] == Sight(false, false, false))
    && (forall i :: 0 <= i < |tr| - 1 ==> NextObserved(tr[i], tr[i + 1]))
  }

  /** What an agent's program point says about what it saw; job threads flush and callers post. */
  ghost predicate Saw(objs: map<ObjId, Obj>, serves: bool, pc: Pc, v: Sight) {
    pc.Idle? || (
      && pc.o in objs && (pc.Flushes() <==> serves)
      && (v.late ==> pc.PostCheck? && objs[pc.o].marked)
      && (pc.FlushBack? || pc.FlushStore? ==> v.empty)
      && (pc.FlushCas? ==> v.work))
  }

  ghost predicate Watched(o: Observed) {
    && o.sights.Keys == o.s.pcs.Keys
    && forall t :: t in o.s.pcs ==> Saw(o.s.objs, t in o.s.queues, o.s.pcs[t], o.sights[t])
  }

  ghost predicate Marks(objs: map<ObjId, Obj>, objs': map<ObjId, Obj>) {
    forall o :: o in objs ==> o in objs' && (objs[o].marked ==> objs'[o].marked)
  }

  lemma StillSaw(pc: Pc, x: Obj, t: nat, c: Choice, v: Sight)
    requires !pc.Idle? && (v.late ==> pc.PostCheck? && x.marked) && (pc.FlushCas? ==> v.work)
    requires pc.FlushBack? || pc.FlushStore? ==> v.empty
    ensures var pc', y := NextPc(pc, x, c), NextObj(pc, x, t, c);
      var v' := Seen(v, x, y);
      && (x.marked ==> y.marked)
      && (!pc'.Idle? ==>
           && pc'.o == pc.o && pc'.Flushes() == pc.Flushes() && (v'.late ==> pc'.PostCheck?)
           && (pc'.FlushCas? ==> v'.work) && (pc'.FlushBack? || pc'.FlushStore? ==> v'.empty))
  {}

  lemma StepSaw(o: Observed, t: nat, c: Choice, o': Observed)
    requires t in o.s.pcs && t in o.sights && Saw(o.s.objs, t in o.s.queues, o.s.pcs[t], o.sights[t])
    requires Acts(o, t, c, o')
    ensures t in o'.s.pcs && t in o'.sights && Saw(o'.s.objs, t in o.s.queues, o'.s.pcs[t], o'.sights[t])
    ensures Marks(o.s.objs, o'.s.objs)
  {
    var pc := o.s.pcs[t];
    if !pc.Idle? {
      StillSaw(pc, o.s.objs[pc.o], t, c, o.sights[t]);
    }
  }

  lemma OthersFrame(o: Observed, t: nat, c: Choice, o': Observed)
    requires t in o.s.pcs && Acts(o, t, c, o')
    ensures t in o'.s.pcs && o'.s.pcs == o.s.pcs[t := o'.s.pcs[t]]
    ensures t in o'.sights && o'.sights == o.sights[t := o'.sights[t]] && o'.s.queues.Keys == o.s.queues.Keys
  {}

  /** What a step does to the flag of an object, and to its history. */
  lemma FlagOf(s: System, t: nat, c: Choice, s': System, o: ObjId)
    requires t in s.pcs && Step(s, t, c, s') && o in s.objs
    ensures o in s'.objs
    ensures s.objs[o].processing && !s'.objs[o].processing ==> s.pcs[t] == FlushStore(o)
    ensures !s.objs[o].processing && s'.objs[o].processing ==> s.pcs[t] == FlushCas(o) || s.pcs[t] == PostCas(o)
    ensures s'.objs[o].hist != s.objs[o].hist ==> s.pcs[t].PostLink?
  {}

  lemma NextWatched(o: Observed, o': Observed)
    requires Watched(o) && NextObserved(o, o')
    ensures Watched(o')
  {
    var t, c :| t in o.s.pcs && Acts(o, t, c, o');
    StepSaw(o, t, c, o');
    OthersFrame(o, t, c, o');
    forall u | u in o'.s.pcs ensures Saw(o'.s.objs, u in o'.s.queues, o'.s.pcs[u], o'.sights[u]) {
      if u != t {
        assert Saw(o.s.objs, u in o.s.queues, o.s.pcs[u], o.sights[u]);
      }
    }
  }

  lemma {:induction false} RunWatched(tr: seq<Observed>, n: nat)
    requires ObservedRun(tr) && n < |tr|
    ensures Watched(tr[n])
  {
    if n > 0 {
      RunWatched(tr, n - 1);
      assert NextObserved(tr[n - 1], tr[n - 1 + 1]);
      NextWatched(tr[n - 1], tr[n]);
    }
  }

  // ----- results -----

  /** A `PostJob` made after the mark appends no job to any object. */
  lemma NothingPostedAfterMark(tr: seq<Observed>, n: nat, t: nat, c: Choice, o: ObjId)
    requires ObservedRun(tr) && n + 1 < |tr| && t in tr[n].s.pcs && Acts(tr[n], t, c, tr[n + 1]) && o in tr[n].s.objs
    requires t in tr[n].sights && tr[n].sights[t].late
    ensures o in tr[n + 1].s.objs && tr[n + 1].s.objs[o].hist == tr[n].s.objs[o].hist
  {
    FlagOf(tr[n].s, t, c, tr[n + 1].s, o);
    RunWatched(tr, n);
    assert Saw(tr[n].s.objs, t in tr[n].s.queues, tr[n].s.pcs[t], tr[n].sights[t]);
  }

  /** The flag of an object is put down only by a thread that, since the last job it started, has seen nothing left to
      take: a flush that neither moves nor deletes its object drains it. */
  lemma LetsGoWhenEmpty(tr: seq<Observed>, n: nat, t: nat, c: Choice, o: ObjId)
    requires ObservedRun(tr) && n + 1 < |tr| && t in tr[n].s.pcs && Acts(tr[n], t, c, tr[n + 1])
    requires o in tr[n].s.objs && o in tr[n + 1].s.objs
    requires tr[n].s.objs[o].processing && !tr[n + 1].s.objs[o].processing
    ensures t in tr[n].s.queues && t in tr[n].sights && tr[n].sights[t].empty
  {
    FlagOf(tr[n].s, t, c, tr[n + 1].s, o);
    RunWatched(tr, n);
    assert Saw(tr[n].s.objs, t in tr[n].s.queues, tr[n].s.pcs[t], tr[n].sights[t]);
  }

  /** The flag of an object is raised only by a caller that has posted a job, or by a thread that has seen counted jobs
      since it put the flag down: no object is scheduled for nothing. */
  lemma RaisedForAJob(tr: seq<Observed>, n: nat, t: nat, c: Choice, o: ObjId)
    requires ObservedRun(tr) && n + 1 < |tr| && t in tr[n].s.pcs && Acts(tr[n], t, c, tr[n + 1])
    requires o in tr[n].s.objs && o in tr[n + 1].s.objs && t in tr[n].s.queues
    requires !tr[n].s.objs[o].processing && tr[n + 1].s.objs[o].processing
    ensures t in tr[n].sights && tr[n].sights[t].work
  {
    FlagOf(tr[n].s, t, c, tr[n + 1].s, o);
    RunWatched(tr, n);
    assert Saw(tr[n].s.objs, t in tr[n].s.queues, tr[n].s.pcs[t], tr[n].sights[t]);
  }
}
