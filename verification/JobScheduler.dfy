/** `JobObject` and `JobThread`: objects with their own job queues, scheduled on job threads by a
    `processing` flag, migrating between threads in the middle of a flush.

    A step is one shared access of one agent. Agents whose number is a key of `queues` are job threads;
    the others stand for every caller of `PostJob`, a job that posts while it runs included, since its
    posting steps interleave with all others like those of any caller. A job queue is used through what
    `LockFreeQueue.StepSimulates` states: appending and counting are two steps. Only the holder of the flag takes, so
    passing the gate and taking are one step; a refusal at the gate undoes its decrement in a second one. The jobs of an
    object may change its thread and mark it for deletion. */
module JobScheduler {
  import opened Tally
  import opened Runs

  type ObjId = nat
  type Thread = nat
  type Job = int

  /** Where the right to run an object's jobs is (history). */
  datatype Holder = Nobody | Posting(a: nat) | Queued(th: Thread) | Draining(a: nat) | Gone

  datatype Start = Start(job: Job, on: Thread, named: Thread)

  /** `hist` is every job appended, `started` every job started, `moved` whether a job ever changed the
      thread, `deleted` how often the object was deleted; these and `holder` are history. */
  datatype Obj = Obj(
    items: seq<Job>,
    count: int,
    processing: bool,
    marked: bool,
    thread: Thread,
    hist: seq<Job>,
    started: seq<Start>,
    moved: bool,
    deleted: nat,
    holder: Holder)

  datatype Pc =
    | Idle
    | PostCheck(o: ObjId, job: Job)
    | PostLink(o: ObjId, job: Job)
    | PostCount(o: ObjId)
    | PostCas(o: ObjId)
    | Enq(o: ObjId, flush: bool)
    | Append(o: ObjId, th: Thread, flush: bool)
    | FlushCheck(o: ObjId)
    | FlushOld(o: ObjId)
    | FlushNext(o: ObjId, was: Thread)
    | FlushStart(o: ObjId, was: Thread, job: Job)
    | FlushRun(o: ObjId, was: Thread)
    | FlushMarked(o: ObjId, was: Thread)
    | FlushMoved(o: ObjId, was: Thread)
    | FlushBack(o: ObjId)
    | FlushStore(o: ObjId)
    | FlushRecheck(o: ObjId)
    | FlushCas(o: ObjId)
    | AfterFlush(o: ObjId)
    | Delete(o: ObjId)
  {
    predicate About(x: ObjId) { !Idle? && o == x }

    /** Between winning the flag (or leaving for a new thread) and being appended to a thread queue. */
    predicate Hands() { Enq? || Append? }

    predicate Drains() {
      FlushCheck? || FlushOld? || FlushNext? || FlushStart? || FlushRun? || FlushMarked? || FlushMoved? || FlushBack?
      || FlushStore?
    }

    predicate Leaves() { AfterFlush? || Delete? }

    /** Will look at the count or the flag again before it leaves. */
    predicate Wakes() { PostCas? || FlushRecheck? || FlushCas? }

    predicate Posts() { PostCheck? || PostLink? || PostCount? || PostCas? || (Hands() && !flush) }

    predicate Flushes() { !Idle? && !Posts() }
  }

  datatype System = System(objs: map<ObjId, Obj>, queues: map<Thread, seq<ObjId>>, pcs: map<nat, Pc>) {
    ghost function Go(t: nat, pc: Pc): System { this.(pcs := pcs[t := pc]) }

    ghost function Set(o: ObjId, obj: Obj): System { this.(objs := objs[o := obj]) }
  }

  ghost predicate Init(s: System) {
    && s.queues.Keys <= s.pcs.Keys
    && (forall a :: a in s.pcs ==> s.pcs[a] == Idle)
    && (forall th :: th in s.queues ==> s.queues[th] == [])
    && (forall o :: o in s.objs ==> s.objs[o].thread in s.queues)
    && (forall o :: o in s.objs ==> s.objs[o] == Obj([], 0, false, false, s.objs[o].thread, [], [], false, 0, Nobody))
  }

  /** What a caller or a job may choose. */
  datatype Choice = Post(o: ObjId, job: Job) | Serve | SetThread(th: Thread) | Mark | Return

  ghost predicate Step(s: System, t: nat, c: Choice, s': System)
    requires t in s.pcs
  {
    var pc := s.pcs[t];
    if pc.Idle? then
      || (c.Post? && t !in s.queues && c.o in s.objs && s' == s.Go(t, PostCheck(c.o, c.job)))
      || (c.Serve? && t in s.queues && s.queues[t] != [] && s.queues[t][0] in s.objs
            && var o := s.queues[t][0];
               s' == s.Go(t, FlushCheck(o)).Set(o, s.objs[o].(holder := Draining(t)))
                       .(queues := s.queues[t := s.queues[t][1..]]))
    else
      && pc.o in s.objs && Enabled(s, pc, s.objs[pc.o], c)
      && s' == System(s.objs[pc.o := NextObj(pc, s.objs[pc.o], t, c)],
                      if pc.Append? then s.queues[pc.th := s.queues[pc.th] + [pc.o]] else s.queues,
                      s.pcs[t := NextPc(pc, s.objs[pc.o], c)])
  }

  ghost predicate Enabled(s: System, pc: Pc, x: Obj, c: Choice) {
    && (pc.Append? ==> pc.th in s.queues)
    && (pc.FlushRun? ==> (c.SetThread? && c.th in s.queues) || c.Mark? || c.Return?)
  }

  /** Where the agent is after its step at `pc`, given the object it is about. */
  ghost function NextPc(pc: Pc, x: Obj, c: Choice): Pc
    requires !pc.Idle?
  {
    match pc
    case PostCheck(o, job) => if x.marked then Idle else PostLink(o, job)
    case PostLink(o, job) => PostCount(o)
    case PostCount(o) => PostCas(o)
    case PostCas(o) => if x.processing then Idle else Enq(o, false)
    case Enq(o, flush) => Append(o, x.thread, flush)
    case Append(o, _, flush) => if flush then AfterFlush(o) else Idle
    case FlushCheck(o) => if x.marked then AfterFlush(o) else FlushOld(o)
    case FlushOld(o) => FlushNext(o, x.thread)
    case FlushNext(o, was) => if x.count < 1 || x.items == [] then FlushBack(o) else FlushStart(o, was, x.items[0])
    case FlushBack(o) => FlushStore(o)
    case FlushStart(o, was, _) => FlushRun(o, was)
    case FlushRun(o, was) => if c.Return? then FlushMarked(o, was) else pc
    case FlushMarked(o, was) => if x.marked then AfterFlush(o) else FlushMoved(o, was)
    case FlushMoved(o, was) => if x.thread != was then Enq(o, true) else FlushNext(o, was)
    case FlushStore(o) => FlushRecheck(o)
    case FlushRecheck(o) => if x.count > 0 then FlushCas(o) else AfterFlush(o)
    case FlushCas(o) => if x.processing then AfterFlush(o) else Enq(o, true)
    case AfterFlush(o) => if x.marked then Delete(o) else Idle
    case Delete(o) => Idle
  }

  /** What the step at `pc` by agent `t` does to the object it is about. */
  ghost function NextObj(pc: Pc, x: Obj, t: nat, c: Choice): Obj
    requires !pc.Idle?
  {
    match pc
    case PostLink(_, job) => x.(items := x.items + [job], hist := x.hist + [job])
    case PostCount(_) => x.(count := x.count + 1)
    case PostCas(_) => if x.processing then x else x.(processing := true, holder := Posting(t))
    case Append(_, th, _) => x.(holder := Queued(th))
    case FlushNext(_, _) =>
      x.(count := x.count - 1, items := if x.count < 1 || x.items == [] then x.items else x.items[1..])
    case FlushBack(_) => x.(count := x.count + 1)
    case FlushStart(_, _, job) => x.(started := x.started + [Start(job, t, x.thread)])
    case FlushRun(_, _) =>
      if c.SetThread? then x.(thread := c.th, moved := x.moved || c.th != x.thread)
      else if c.Mark? then x.(marked := true) else x
    case FlushMoved(_, was) => if x.thread != was then x.(holder := Posting(t)) else x
    case FlushStore(_) => x.(processing := false, holder := Nobody)
    case FlushCas(_) => if x.processing then x else x.(processing := true, holder := Posting(t))
    case Delete(_) => x.(deleted := x.deleted + 1, holder := Gone)
    case _ => x
  }

  ghost predicate Next(s: System, s': System) {
    exists t, c :: t in s.pcs && Step(s, t, c, s')
  }

  ghost predicate Run(tr: seq<System>) {
    && tr != [] && Init(tr[0])
    && (forall i :: 0 <= i < |tr| - 1 ==> Next(tr[i], tr[i + 1]))
  }

  // ----- the invariant, object by object -----

  ghost predicate AgentOk(s: System, o: ObjId, x: Obj, a: nat, pc: Pc) {
    && (pc.Hands() ==> x.holder == Posting(a))
    && (pc.Drains() ==> x.holder == Draining(a))
  }

  /** The flag is set exactly while somebody holds the right, and every place that can hold it agrees. */
  ghost predicate Token(s: System, o: ObjId)
    requires o in s.objs
  {
    var x := s.objs[o];
    && (x.processing <==> x.holder != Nobody)
    && (forall a :: a in s.pcs && s.pcs[a].About(o) ==> AgentOk(s, o, x, a, s.pcs[a]))
    && (x.holder.Posting? ==> x.holder.a in s.pcs && s.pcs[x.holder.a].About(o) && s.pcs[x.holder.a].Hands())
    && (x.holder.Draining? ==> x.holder.a in s.pcs && s.pcs[x.holder.a].About(o))
    && (x.holder.Draining? ==> s.pcs[x.holder.a].Drains() || (s.pcs[x.holder.a].Leaves() && x.marked))
  }

  ghost predicate Entries(s: System, o: ObjId)
    requires o in s.objs
  {
    var x := s.objs[o];
    && (forall th :: th in s.queues ==> multiset(s.queues[th])[o] == One(x.holder == Queued(th)))
    && (x.holder.Queued? ==> x.holder.th in s.queues && x.holder.th == x.thread)
  }

  ghost predicate PlaceOk(s: System, x: Obj, a: nat, pc: Pc) {
    && (pc.FlushCheck? || pc.FlushOld? || pc.FlushBack? || pc.FlushStore? ==> x.thread == a)
    && (pc.FlushNext? || pc.FlushStart? ==> pc.was == x.thread == a)
    && (pc.FlushRun? || pc.FlushMarked? || pc.FlushMoved? ==> pc.was == a)
    && (pc.Append? ==> pc.th == x.thread)
    && (pc.Flushes() && !x.moved ==> x.thread == a)
  }

  /** A drainer works on the thread the object names, unless its own job has just changed that. */
  ghost predicate Place(s: System, o: ObjId)
    requires o in s.objs
  {
    && s.objs[o].thread in s.queues
    && forall a :: a in s.pcs && s.pcs[a].About(o) ==> PlaceOk(s, s.objs[o], a, s.pcs[a])
  }

  function Jobs(started: seq<Start>): seq<Job> {
    seq(|started|, i requires 0 <= i < |started| => started[i].job)
  }

  /** The job taken from the queue and not yet started. */
  ghost function InHand(s: System, x: Obj): seq<Job> {
    if x.holder.Draining? && x.holder.a in s.pcs && s.pcs[x.holder.a].FlushStart? then [s.pcs[x.holder.a].job] else []
  }

  ghost predicate Order(s: System, o: ObjId)
    requires o in s.objs
  {
    var x := s.objs[o];
    && Jobs(x.started) + InHand(s, x) + x.items == x.hist
    && forall i :: 0 <= i < |x.started| ==> x.started[i].on == x.started[i].named
  }

  ghost function Counting(o: ObjId): Pc -> bool { (pc: Pc) => (pc.PostCount? || pc.FlushBack?) && pc.o == o }

  ghost predicate Counted(s: System, o: ObjId)
    requires o in s.objs
  {
    s.objs[o].count + Count(s.pcs, Counting(o)) == |s.objs[o].items|
  }

  /** No lost wakeup: counted jobs with the flag down are somebody's business. */
  ghost predicate Wake(s: System, o: ObjId)
    requires o in s.objs
  {
    s.objs[o].count > 0 && !s.objs[o].processing ==> exists a :: a in s.pcs && s.pcs[a].Wakes() && s.pcs[a].o == o
  }

  /** A marked object is on its way out: its last drainer runs no further job and it is queued nowhere. */
  ghost predicate Ending(s: System, o: ObjId)
    requires o in s.objs
  {
    var x := s.objs[o];
    && (x.marked ==> x.holder == Gone || (x.holder.Draining? && x.holder.a in s.pcs && var pc := s.pcs[x.holder.a];
          pc.FlushRun? || pc.FlushMarked? || pc.Leaves()))
    && (x.holder == Gone <==> x.deleted > 0)
    && (!x.moved ==> x.deleted <= 1)
    && (!x.moved && x.marked ==> forall a :: a in s.pcs && s.pcs[a].About(o) && s.pcs[a].Flushes() ==>
         x.holder == Draining(a))
  }

  ghost predicate Deaths(s: System, o: ObjId)
    requires o in s.objs
  {
    && (s.objs[o].deleted > 0 ==> s.objs[o].marked)
    && (forall a :: a in s.pcs && s.pcs[a].Delete? && s.pcs[a].o == o ==> s.objs[o].marked)
  }

  /** Not yet deleted, or never moved: the objects about which the scheduler guarantees everything. */
  predicate Sound(x: Obj) { x.deleted == 0 || !x.moved }

  ghost predicate ObjInv(s: System, o: ObjId)
    requires o in s.objs
  {
    && Deaths(s, o)
    && (Sound(s.objs[o]) ==>
          Token(s, o) && Entries(s, o) && Place(s, o) && Order(s, o) && Counted(s, o) && Wake(s, o) && Ending(s, o))
  }

  ghost predicate Sorts(s: System) {
    && s.queues.Keys <= s.pcs.Keys
    && (forall a :: a in s.pcs && !s.pcs[a].Idle? ==> s.pcs[a].o in s.objs)
    && (forall a :: a in s.pcs && !s.pcs[a].Idle? ==> (s.pcs[a].Flushes() <==> a in s.queues))
    && (forall th, i :: th in s.queues && 0 <= i < |s.queues[th]| ==> s.queues[th][i] in s.objs)
  }

  ghost predicate Inv(s: System) {
    Sorts(s) && forall o :: o in s.objs ==> ObjInv(s, o)
  }

  lemma InitInv(s: System)
    requires Init(s)
    ensures Inv(s)
  {
    forall o | o in s.objs ensures ObjInv(s, o) {
      CountZero(s.pcs, Counting(o));
    }
  }

  // ----- a step is about one object -----

  /** Objects the step is not about keep their invariant. */
  lemma OtherObject(s: System, t: nat, pc: Pc, s': System, o: ObjId)
    requires o in s.objs && ObjInv(s, o) && o in s'.objs && s'.objs[o] == s.objs[o]
    requires t in s.pcs && s'.pcs == s.pcs[t := pc] && !s.pcs[t].About(o) && !pc.About(o)
    requires s'.queues.Keys == s.queues.Keys
    requires forall th :: th in s.queues ==> multiset(s'.queues[th])[o] == multiset(s.queues[th])[o]
    ensures ObjInv(s', o)
  {
    CountStep(s.pcs, t, pc, Counting(o));
    var x := s.objs[o];
    if Sound(x) && x.count > 0 && !x.processing {
      var a :| a in s.pcs && s.pcs[a].Wakes() && s.pcs[a].o == o;
      assert s'.pcs[a] == s.pcs[a];
    }
  }

  /** Agent `t` makes its step about object `x` named `o`, from `pc` to `pc'`, leaving the object as `y`. */
  ghost predicate Moves(s: System, t: nat, c: Choice, s': System, o: ObjId, x: Obj, y: Obj, pc: Pc, pc': Pc) {
    && t in s.pcs && o in s.objs && s.objs[o] == x && s.pcs[t] == pc && pc.About(o) && Enabled(s, pc, x, c)
    && y == NextObj(pc, x, t, c) && pc' == NextPc(pc, x, c)
    && s'.objs == s.objs[o := y] && s'.pcs == s.pcs[t := pc']
    && s'.queues == (if pc.Append? then s.queues[pc.th := s.queues[pc.th] + [o]] else s.queues)
    && Sound(x) && Sound(y)
  }

  /** The steps at which the right to run changes hands. */
  predicate Passes(pc: Pc, x: Obj) {
    || ((pc.PostCas? || pc.FlushCas?) && !x.processing) || pc.Append? || pc.FlushStore? || pc.Delete?
    || (pc.FlushMoved? && x.thread != pc.was)
  }

  lemma HolderFrame(pc: Pc, x: Obj, t: nat, c: Choice)
    requires !pc.Idle? && !Passes(pc, x)
    ensures NextObj(pc, x, t, c).holder == x.holder && NextObj(pc, x, t, c).processing == x.processing
    ensures NextObj(pc, x, t, c).deleted == x.deleted
  {}

  lemma StageFrame(pc: Pc, x: Obj, c: Choice)
    requires !pc.Idle? && !Passes(pc, x)
    ensures NextPc(pc, x, c).Hands() <==> pc.Hands()
    ensures NextPc(pc, x, c).Drains() ==> pc.Drains()
    ensures pc.Drains() && !NextPc(pc, x, c).Drains() ==> NextPc(pc, x, c).Leaves() && x.marked
    ensures pc.Leaves() && x.marked ==> NextPc(pc, x, c).Leaves()
  {}

  lemma ThreadFrame(pc: Pc, x: Obj, t: nat, c: Choice)
    requires !pc.Idle?
    ensures var y := NextObj(pc, x, t, c);
      && (!pc.FlushRun? ==> y.thread == x.thread && y.moved == x.moved && y.marked == x.marked)
      && (x.moved || y.thread != x.thread ==> y.moved) && (x.marked ==> y.marked)
    ensures var pc' := NextPc(pc, x, c);
      (pc'.Idle? || pc'.o == pc.o) && (pc'.Idle? || (pc'.Flushes() <==> pc.Flushes()))
  {}

  lemma TokenStays(s: System, t: nat, c: Choice, s': System, o: ObjId, x: Obj, y: Obj, pc: Pc, pc': Pc)
    requires Moves(s, t, c, s', o, x, y, pc, pc') && Token(s, o) && !Passes(pc, x)
    ensures Token(s', o)
  {
    HolderFrame(pc, x, t, c);
    StageFrame(pc, x, c);
    ThreadFrame(pc, x, t, c);
    assert AgentOk(s, o, x, t, pc);
  }

  lemma TokenPasses(s: System, t: nat, c: Choice, s': System, o: ObjId, x: Obj, y: Obj, pc: Pc, pc': Pc)
    requires Moves(s, t, c, s', o, x, y, pc, pc') && Token(s, o) && Ending(s, o) && Deaths(s, o) && Passes(pc, x)
    ensures Token(s', o)
  {
    assert AgentOk(s, o, x, t, pc);
    assert x.holder == Nobody || x.holder == Posting(t) || x.holder == Draining(t);
  }

  lemma StepEntries(s: System, t: nat, c: Choice, s': System, o: ObjId, x: Obj, y: Obj, pc: Pc, pc': Pc)
    requires Moves(s, t, c, s', o, x, y, pc, pc') && Token(s, o) && Entries(s, o) && Place(s, o)
    requires Ending(s, o) && Deaths(s, o)
    ensures Entries(s', o)
  {
    ThreadFrame(pc, x, t, c);
    assert AgentOk(s, o, x, t, pc) && PlaceOk(s, x, t, pc);
    if !Passes(pc, x) {
      HolderFrame(pc, x, t, c);
      StageFrame(pc, x, c);
    } else if pc.Append? {
      assert s'.queues[pc.th] == s.queues[pc.th] + [o];
    }
  }

  lemma StepPlace(s: System, t: nat, c: Choice, s': System, o: ObjId, x: Obj, y: Obj, pc: Pc, pc': Pc)
    requires Moves(s, t, c, s', o, x, y, pc, pc') && Token(s, o) && Place(s, o)
    ensures Place(s', o)
  {
    ThreadFrame(pc, x, t, c);
    assert AgentOk(s, o, x, t, pc) && PlaceOk(s, x, t, pc);
    forall a | a in s'.pcs && s'.pcs[a].About(o) ensures PlaceOk(s', y, a, s'.pcs[a]) {
      if a != t {
        assert PlaceOk(s, x, a, s.pcs[a]) && AgentOk(s, o, x, a, s.pcs[a]);
      }
    }
  }

  lemma JobsOneMore(started: seq<Start>, st: Start)
    ensures Jobs(started + [st]) == Jobs(started) + [st.job]
  {}

  lemma HandFrame(s: System, t: nat, c: Choice, s': System, o: ObjId, x: Obj, y: Obj, pc: Pc, pc': Pc)
    requires Moves(s, t, c, s', o, x, y, pc, pc') && Token(s, o) && Ending(s, o) && Deaths(s, o)
    ensures InHand(s, x) == if pc.FlushStart? then [pc.job] else if pc.FlushNext? then [] else InHand(s', y)
    ensures InHand(s', y) == if pc'.FlushStart? then [pc'.job] else if pc.FlushStart? then [] else InHand(s, x)
  {
    assert AgentOk(s, o, x, t, pc);
    if !Passes(pc, x) {
      HolderFrame(pc, x, t, c);
      StageFrame(pc, x, c);
    }
  }

  lemma JobsFrame(pc: Pc, x: Obj, t: nat, c: Choice)
    requires !pc.Idle?
    ensures var y := NextObj(pc, x, t, c);
      && (!pc.FlushStart? ==> y.started == x.started)
      && (if pc.PostLink? then y.items == x.items + [pc.job] && y.hist == x.hist + [pc.job] else y.hist == x.hist)
      && (!pc.PostLink? && !pc.FlushNext? ==> y.items == x.items)
  {}

  lemma StepOrder(s: System, t: nat, c: Choice, s': System, o: ObjId, x: Obj, y: Obj, pc: Pc, pc': Pc)
    requires Moves(s, t, c, s', o, x, y, pc, pc') && Token(s, o) && Place(s, o) && Order(s, o) && Ending(s, o)
    requires Deaths(s, o)
    ensures Order(s', o)
  {
    assert PlaceOk(s, x, t, pc);
    HandFrame(s, t, c, s', o, x, y, pc, pc');
    JobsFrame(pc, x, t, c);
    if pc.FlushStart? {
      JobsOneMore(x.started, Start(pc.job, t, x.thread));
    } else if pc.FlushNext? && x.count >= 1 && x.items != [] {
      assert x.items == [x.items[0]] + y.items;
    } else if pc.PostLink? {
      assert Jobs(x.started) + InHand(s, x) + y.items == x.hist + [pc.job];
    }
  }

  lemma StepCounted(s: System, t: nat, c: Choice, s': System, o: ObjId, x: Obj, y: Obj, pc: Pc, pc': Pc)
    requires Moves(s, t, c, s', o, x, y, pc, pc') && Counted(s, o)
    ensures Counted(s', o)
  {
    CountStep(s.pcs, t, pc', Counting(o));
    assert Counting(o)(pc) == (pc.PostCount? || pc.FlushBack?);
    assert Counting(o)(pc') == (pc.PostLink? || (pc.FlushNext? && (x.count < 1 || x.items == [])));
  }

  lemma StepWake(s: System, t: nat, c: Choice, s': System, o: ObjId, x: Obj, y: Obj, pc: Pc, pc': Pc)
    requires Moves(s, t, c, s', o, x, y, pc, pc') && Token(s, o) && Wake(s, o)
    ensures Wake(s', o)
  {
    assert AgentOk(s, o, x, t, pc);
    if y.count > 0 && !y.processing {
      if pc'.Wakes() {
        assert s'.pcs[t] == pc';
      } else {
        assert x.count > 0 && !x.processing && !pc.Wakes();
        var a :| a in s.pcs && s.pcs[a].Wakes() && s.pcs[a].o == o;
        assert s'.pcs[a] == s.pcs[a];
      }
    }
  }

  lemma StepDeaths(s: System, t: nat, c: Choice, s': System, o: ObjId, x: Obj, pc: Pc)
    requires t in s.pcs && s.pcs[t] == pc && pc.About(o) && o in s.objs && s.objs[o] == x && Deaths(s, o)
    requires s'.objs == s.objs[o := NextObj(pc, x, t, c)] && s'.pcs == s.pcs[t := NextPc(pc, x, c)]
    ensures Deaths(s', o)
  {
    ThreadFrame(pc, x, t, c);
  }

  lemma StepEnding(s: System, t: nat, c: Choice, s': System, o: ObjId, x: Obj, y: Obj, pc: Pc, pc': Pc)
    requires Moves(s, t, c, s', o, x, y, pc, pc') && Token(s, o) && Place(s, o) && Ending(s, o) && Deaths(s, o)
    ensures Ending(s', o)
  {
    ThreadFrame(pc, x, t, c);
    assert AgentOk(s, o, x, t, pc) && PlaceOk(s, x, t, pc);
    if !Passes(pc, x) {
      HolderFrame(pc, x, t, c);
      StageFrame(pc, x, c);
    }
    if !y.moved && y.marked {
      forall a | a in s'.pcs && s'.pcs[a].About(o) && s'.pcs[a].Flushes() ensures y.holder == Draining(a) {
        if a != t {
          assert PlaceOk(s, x, a, s.pcs[a]);
        }
      }
    }
  }

  // ----- a job thread takes the next object from its queue -----

  ghost predicate Serves(s: System, t: nat, s': System, o: ObjId) {
    && t in s.pcs && s.pcs[t].Idle? && t in s.queues && s.queues[t] != [] && s.queues[t][0] == o && o in s.objs
    && s' == s.Go(t, FlushCheck(o)).Set(o, s.objs[o].(holder := Draining(t)))
              .(queues := s.queues[t := s.queues[t][1..]])
  }

  lemma ServedEntry(s: System, t: nat, s': System, o: ObjId)
    requires Serves(s, t, s', o) && Entries(s, o)
    ensures s.objs[o].holder == Queued(t) && s.objs[o].thread == t && Entries(s', o)
  {
    assert s.queues[t] == [o] + s'.queues[t];
    assert multiset(s.queues[t])[o] == 1 + multiset(s'.queues[t])[o];
  }

  lemma ServedObject(s: System, t: nat, s': System, o: ObjId)
    requires Serves(s, t, s', o) && ObjInv(s, o) && Sound(s.objs[o])
    ensures ObjInv(s', o)
  {
    ServedEntry(s, t, s', o);
    CountStep(s.pcs, t, FlushCheck(o), Counting(o));
    assert s'.pcs[t] == FlushCheck(o);
    assert forall a :: a in s.pcs && s.pcs[a].About(o) ==>
      AgentOk(s, o, s.objs[o], a, s.pcs[a]) && PlaceOk(s, s.objs[o], a, s.pcs[a]);
  }

  // ----- putting the steps together -----

  lemma PostStarts(s: System, t: nat, o: ObjId, job: Job, s': System)
    requires t in s.pcs && s.pcs[t].Idle? && o in s.objs && s' == s.Go(t, PostCheck(o, job)) && ObjInv(s, o)
    ensures ObjInv(s', o)
  {
    var x := s.objs[o];
    CountStep(s.pcs, t, PostCheck(o, job), Counting(o));
    assert s'.pcs[t] == PostCheck(o, job);
    if Sound(x) {
      if x.count > 0 && !x.processing {
        var a :| a in s.pcs && s.pcs[a].Wakes() && s.pcs[a].o == o;
        assert s'.pcs[a] == s.pcs[a];
      }
      assert InHand(s', x) == InHand(s, x);
    }
  }

  lemma SubjectStep(s: System, t: nat, c: Choice, s': System)
    requires t in s.pcs && !s.pcs[t].Idle? && Step(s, t, c, s') && ObjInv(s, s.pcs[t].o)
    ensures s.pcs[t].o in s'.objs && ObjInv(s', s.pcs[t].o)
  {
    var pc := s.pcs[t];
    var o := pc.o;
    var x := s.objs[o];
    var y, pc' := NextObj(pc, x, t, c), NextPc(pc, x, c);
    StepDeaths(s, t, c, s', o, x, pc);
    if Sound(y) {
      assert Sound(x);
      assert Moves(s, t, c, s', o, x, y, pc, pc');
      if Passes(pc, x) {
        TokenPasses(s, t, c, s', o, x, y, pc, pc');
      } else {
        TokenStays(s, t, c, s', o, x, y, pc, pc');
      }
      StepEntries(s, t, c, s', o, x, y, pc, pc');
      StepPlace(s, t, c, s', o, x, y, pc, pc');
      StepOrder(s, t, c, s', o, x, y, pc, pc');
      StepCounted(s, t, c, s', o, x, y, pc, pc');
      StepWake(s, t, c, s', o, x, y, pc, pc');
      StepEnding(s, t, c, s', o, x, y, pc, pc');
    }
  }

  lemma StepSorts(s: System, t: nat, c: Choice, s': System)
    requires Sorts(s) && t in s.pcs && Step(s, t, c, s')
    ensures Sorts(s')
  {
    var pc := s.pcs[t];
    if !pc.Idle? {
      ThreadFrame(pc, s.objs[pc.o], t, c);
    }
  }

  lemma StepInv(s: System, s': System)
    requires Inv(s) && Next(s, s')
    ensures Inv(s')
  {
    var t, c :| t in s.pcs && Step(s, t, c, s');
    StepSorts(s, t, c, s');
    var pc := s.pcs[t];
    var subject := if !pc.Idle? then pc.o else if c.Post? then c.o else s.queues[t][0];
    forall o | o in s'.objs ensures ObjInv(s', o) {
      assert o in s.objs && ObjInv(s, o);
      if o != subject {
        AsideFrame(s, t, c, s', o);
        OtherObject(s, t, s'.pcs[t], s', o);
      } else if !pc.Idle? {
        SubjectStep(s, t, c, s');
      } else if c.Post? {
        PostStarts(s, t, o, c.job, s');
      } else if Sound(s.objs[o]) {
        ServedObject(s, t, s', o);
      }
    }
  }

  lemma AsideFrame(s: System, t: nat, c: Choice, s': System, o: ObjId)
    requires Sorts(s) && t in s.pcs && Step(s, t, c, s') && o in s.objs
    requires if !s.pcs[t].Idle? then o != s.pcs[t].o else if c.Post? then o != c.o else o != s.queues[t][0]
    ensures o in s'.objs && s'.objs[o] == s.objs[o] && t in s'.pcs && s'.pcs == s.pcs[t := s'.pcs[t]]
    ensures !s'.pcs[t].About(o)
    ensures s'.queues.Keys == s.queues.Keys
    ensures forall th :: th in s.queues ==> multiset(s'.queues[th])[o] == multiset(s.queues[th])[o]
  {
    var pc := s.pcs[t];
    if !pc.Idle? {
      ThreadFrame(pc, s.objs[pc.o], t, c);
    } else if c.Serve? {
      assert s.queues[t] == [s.queues[t][0]] + s.queues[t][1..];
    }
  }

  // ----- results -----

  lemma {:induction false} RunInv(tr: seq<System>, n: nat)
    requires Run(tr) && n < |tr|
    ensures Inv(tr[n])
  {
    if n == 0 {
      InitInv(tr[0]);
    } else {
      RunInv(tr, n - 1);
      assert Next(tr[n - 1], tr[n - 1 + 1]);
      StepInv(tr[n - 1], tr[n]);
    }
  }

  ghost function EntrySet(s: System, o: ObjId): set<(Thread, nat)> {
    set th: Thread, i: nat | th in s.queues && i < |s.queues[th]| && s.queues[th][i] == o :: (th, i)
  }

  ghost function DrainSet(s: System, o: ObjId): set<nat> {
    set a | a in s.pcs && s.pcs[a].About(o) && s.pcs[a].Drains()
  }

  ghost function HandSet(s: System, o: ObjId): set<nat> {
    set a | a in s.pcs && s.pcs[a].About(o) && s.pcs[a].Hands()
  }

  lemma OccursOnce(q: seq<ObjId>, o: ObjId, i: nat, j: nat)
    requires multiset(q)[o] == 1 && i < j < |q| && q[i] == o
    ensures q[j] != o
  {
    assert q == q[..i] + [q[i]] + q[i + 1..];
    assert q[j] == q[i + 1..][j - i - 1];
  }

  lemma QueuedEntry(s: System, o: ObjId, th: Thread) returns (i: nat)
    requires o in s.objs && Entries(s, o) && s.objs[o].holder == Queued(th)
    ensures i < |s.queues[th]| && s.queues[th][i] == o && EntrySet(s, o) == {(th, i)}
  {
    assert o in multiset(s.queues[th]);
    i :| 0 <= i < |s.queues[th]| && s.queues[th][i] == o;
    forall u, j | u in s.queues && 0 <= j < |s.queues[u]| && s.queues[u][j] == o ensures u == th && j == i {
      assert o in multiset(s.queues[u]);
      if j < i { OccursOnce(s.queues[th], o, j, i); }
      if i < j { OccursOnce(s.queues[th], o, i, j); }
    }
  }

  lemma NoEntry(s: System, o: ObjId)
    requires o in s.objs && Entries(s, o) && !s.objs[o].holder.Queued?
    ensures EntrySet(s, o) == {}
  {
    forall u, j | u in s.queues && 0 <= j < |s.queues[u]| ensures s.queues[u][j] != o {
      assert s.queues[u][j] in multiset(s.queues[u]);
    }
  }

  /** Scheduling token: until it is marked, an object's entries in all thread queues, the threads draining
      it, and the callers about to append it, together number one if the flag is set and none otherwise. */
  lemma SchedulingToken(tr: seq<System>, n: nat, o: ObjId)
    requires Run(tr) && n < |tr| && o in tr[n].objs && !tr[n].objs[o].marked
    ensures |EntrySet(tr[n], o)| + |DrainSet(tr[n], o)| + |HandSet(tr[n], o)| == One(tr[n].objs[o].processing)
  {
    RunInv(tr, n);
    var s := tr[n];
    var x := s.objs[o];
    assert ObjInv(s, o);
    if x.holder.Queued? {
      var i := QueuedEntry(s, o, x.holder.th);
    } else {
      NoEntry(s, o);
    }
    assert DrainSet(s, o) == if x.holder.Draining? then {x.holder.a} else {};
    assert HandSet(s, o) == if x.holder.Posting? then {x.holder.a} else {};
  }

  /** No two threads ever run jobs of one object at once, marked or not, until it is deleted. */
  lemma OneRunner(tr: seq<System>, n: nat, o: ObjId, a: nat, b: nat)
    requires Run(tr) && n < |tr| && o in tr[n].objs && tr[n].objs[o].deleted == 0
    requires a in tr[n].pcs && tr[n].pcs[a].About(o) && tr[n].pcs[a].Drains()
    requires b in tr[n].pcs && tr[n].pcs[b].About(o) && tr[n].pcs[b].Drains()
    ensures a == b
  {
    RunInv(tr, n);
    assert ObjInv(tr[n], o);
    assert AgentOk(tr[n], o, tr[n].objs[o], a, tr[n].pcs[a]) && AgentOk(tr[n], o, tr[n].objs[o], b, tr[n].pcs[b]);
  }

  /** No lost wakeup: an unmarked object with counted jobs and the flag down has a poster before its
      exchange or a flusher before the end of its re-check. */
  lemma NoLostWakeup(tr: seq<System>, n: nat, o: ObjId)
    requires Run(tr) && n < |tr| && o in tr[n].objs && !tr[n].objs[o].marked
    requires tr[n].objs[o].count > 0 && !tr[n].objs[o].processing
    ensures exists a :: a in tr[n].pcs && tr[n].pcs[a].Wakes() && tr[n].pcs[a].o == o
  {
    RunInv(tr, n);
    assert ObjInv(tr[n], o);
  }

  /** So whenever no call is about the object, a non-empty unmarked object is waiting, exactly once, in the
      queue of the thread it names. */
  lemma WaitingWhenQuiet(tr: seq<System>, n: nat, o: ObjId)
    requires Run(tr) && n < |tr| && o in tr[n].objs && !tr[n].objs[o].marked
    requires tr[n].objs[o].items != [] && forall a :: a in tr[n].pcs ==> !tr[n].pcs[a].About(o)
    ensures exists i :: EntrySet(tr[n], o) == {(tr[n].objs[o].thread, i)}
  {
    RunInv(tr, n);
    var s := tr[n];
    assert ObjInv(s, o);
    CountZero(s.pcs, Counting(o));
    assert s.objs[o].holder.Queued?;
    var i := QueuedEntry(s, o, s.objs[o].thread);
  }

  /** Order across migration: for any number of thread changes, the jobs started are a prefix of the jobs
      posted, so each runs at most once and in order; nothing between them and the queue is lost; and each
      started on the thread that the object named at that moment. */
  lemma OrderAcrossMigration(tr: seq<System>, n: nat, o: ObjId)
    requires Run(tr) && n < |tr| && o in tr[n].objs && tr[n].objs[o].deleted == 0
    ensures Jobs(tr[n].objs[o].started) <= tr[n].objs[o].hist
    ensures |Jobs(tr[n].objs[o].started)| + |tr[n].objs[o].items| <= |tr[n].objs[o].hist|
              <= |Jobs(tr[n].objs[o].started)| + 1 + |tr[n].objs[o].items|
    ensures (forall a :: a in tr[n].pcs && tr[n].pcs[a].About(o) ==> !tr[n].pcs[a].FlushStart?)
              ==> Jobs(tr[n].objs[o].started) + tr[n].objs[o].items == tr[n].objs[o].hist
    ensures forall i :: 0 <= i < |tr[n].objs[o].started| ==>
      tr[n].objs[o].started[i].on == tr[n].objs[o].started[i].named
  {
    RunInv(tr, n);
    assert ObjInv(tr[n], o);
    var x := tr[n].objs[o];
    assert Jobs(x.started) + InHand(tr[n], x) + x.items == x.hist;
    assert InHand(tr[n], x) == [] ==> Jobs(x.started) + [] == Jobs(x.started);
  }

  /** After the mark nothing of the object runs again: no job starts, the flag stays set, and it is in no
      thread queue and will be in none. */
  lemma NothingAfterMark(tr: seq<System>, n: nat, o: ObjId)
    requires Run(tr) && n + 1 < |tr| && o in tr[n].objs && tr[n].objs[o].marked && tr[n].objs[o].deleted == 0
    ensures o in tr[n + 1].objs && tr[n + 1].objs[o].marked
    ensures tr[n + 1].objs[o].started == tr[n].objs[o].started
    ensures tr[n].objs[o].processing && EntrySet(tr[n], o) == {}
  {
    RunInv(tr, n);
    var s, s' := tr[n], tr[n + 1];
    assert ObjInv(s, o);
    NoEntry(s, o);
    var t, c :| t in s.pcs && Step(s, t, c, s');
    if !s.pcs[t].Idle? && s.pcs[t].o == o {
      assert AgentOk(s, o, s.objs[o], t, s.pcs[t]);
      JobsFrame(s.pcs[t], s.objs[o], t, c);
      ThreadFrame(s.pcs[t], s.objs[o], t, c);
    }
  }

  // ----- how often a marked object is deleted -----

  /** In a call of `Flush` for the object, or between it and the look at the mark behind it. */
  ghost function Flushing(o: ObjId): Pc -> bool { (pc: Pc) => pc.About(o) && pc.Flushes() }

  /** A marked object is queued nowhere and about to be queued nowhere, and no flush of it will take another job. */
  ghost predicate Dying(s: System, o: ObjId) {
    && o in s.objs && s.objs[o].marked && s.objs[o].processing
    && (forall th :: th in s.queues ==> multiset(s.queues[th])[o] == 0)
    && (forall a :: a in s.pcs && s.pcs[a].About(o) ==> LastSteps(s.pcs[a]))
  }

  predicate LastSteps(pc: Pc) { !pc.Hands() && (pc.Drains() ==> pc.FlushRun? || pc.FlushMarked?) }

  lemma MarkedIsDying(s: System, o: ObjId)
    requires o in s.objs && ObjInv(s, o) && s.objs[o].marked && s.objs[o].deleted == 0
    ensures Dying(s, o)
  {
    forall a | a in s.pcs && s.pcs[a].About(o) ensures LastSteps(s.pcs[a]) {
      assert AgentOk(s, o, s.objs[o], a, s.pcs[a]);
    }
  }

  lemma DyingSubject(pc: Pc, x: Obj, t: nat, c: Choice)
    requires !pc.Idle? && x.marked && x.processing && LastSteps(pc)
    ensures var y, pc' := NextObj(pc, x, t, c), NextPc(pc, x, c);
      && y.marked && y.processing && LastSteps(pc') && (pc'.Idle? || pc'.o == pc.o)
      && y.deleted + One(!pc'.Idle? && pc'.Flushes()) == x.deleted + One(pc.Flushes())
  {}

  lemma DyingStep(s: System, s': System, o: ObjId)
    requires Sorts(s) && Dying(s, o) && Next(s, s')
    ensures Sorts(s') && Dying(s', o)
    ensures s'.objs[o].deleted + Count(s'.pcs, Flushing(o)) == s.objs[o].deleted + Count(s.pcs, Flushing(o))
  {
    var t, c :| t in s.pcs && Step(s, t, c, s');
    StepSorts(s, t, c, s');
    if !s.pcs[t].Idle? && s.pcs[t].o == o {
      DyingAbout(s, t, c, s', o);
    } else if s.pcs[t].Idle? && c.Post? && c.o == o {
      assert s'.pcs == s.pcs[t := PostCheck(o, c.job)];
    } else {
      DyingAside(s, t, c, s', o);
    }
    CountStep(s.pcs, t, s'.pcs[t], Flushing(o));
  }

  lemma DyingAbout(s: System, t: nat, c: Choice, s': System, o: ObjId)
    requires Dying(s, o) && t in s.pcs && Step(s, t, c, s') && s.pcs[t].About(o)
    ensures t in s'.pcs && s'.pcs == s.pcs[t := s'.pcs[t]] && LastSteps(s'.pcs[t]) && s'.queues == s.queues
    ensures o in s'.objs && s'.objs[o].marked && s'.objs[o].processing
    ensures s'.objs[o].deleted + One(Flushing(o)(s'.pcs[t])) == s.objs[o].deleted + One(Flushing(o)(s.pcs[t]))
  {
    DyingSubject(s.pcs[t], s.objs[o], t, c);
  }

  lemma DyingAside(s: System, t: nat, c: Choice, s': System, o: ObjId)
    requires Sorts(s) && Dying(s, o) && t in s.pcs && Step(s, t, c, s')
    requires if !s.pcs[t].Idle? then s.pcs[t].o != o else c.Post? ==> c.o != o
    ensures t in s'.pcs && s'.pcs == s.pcs[t := s'.pcs[t]] && !s'.pcs[t].About(o)
    ensures o in s'.objs && s'.objs[o] == s.objs[o] && forall th :: th in s'.queues ==> multiset(s'.queues[th])[o] == 0
  {
    assert s.pcs[t].Idle? && c.Serve? ==> s.queues[t][0] in multiset(s.queues[t]);
    AsideFrame(s, t, c, s', o);
  }

  /** Every flush that an object is in when it is marked deletes it once: deletions plus flushes left stay the same. */
  lemma DeletionsAreFlushes(tr: seq<System>, m: nat, n: nat, o: ObjId)
    requires Run(tr) && m <= n < |tr| && o in tr[m].objs && tr[m].objs[o].marked && tr[m].objs[o].deleted == 0
    ensures o in tr[n].objs && tr[n].objs[o].marked
    ensures tr[n].objs[o].deleted + Count(tr[n].pcs, Flushing(o)) == Count(tr[m].pcs, Flushing(o))
  {
    DyingFrom(tr, m, o);
    var next := (s: System, s': System) => Next(s, s');
    var good := DyingWith(o, Count(tr[m].pcs, Flushing(o)));
    forall s, s' | next(s, s') && good(s) ensures good(s') {
      DyingStep(s, s', o);
    }
    assert Path(next, tr);
    Kept(next, good, tr, m, n);
  }

  ghost function DyingWith(o: ObjId, k: nat): System -> bool {
    (s: System) => Sorts(s) && Dying(s, o) && s.objs[o].deleted + Count(s.pcs, Flushing(o)) == k
  }

  lemma DyingFrom(tr: seq<System>, m: nat, o: ObjId)
    requires Run(tr) && m < |tr| && o in tr[m].objs && tr[m].objs[o].marked && tr[m].objs[o].deleted == 0
    ensures Sorts(tr[m]) && Dying(tr[m], o)
  {
    RunInv(tr, m);
    assert ObjInv(tr[m], o);
    MarkedIsDying(tr[m], o);
  }

  /** Exactly when an object is deleted once, whether it changed thread or not: when no flush of it is left, it has been
      deleted once if and only if exactly one thread was in a flush of it when it was marked. */
  lemma DeletedOnceExactlyWhen(tr: seq<System>, m: nat, n: nat, o: ObjId)
    requires Run(tr) && m <= n < |tr| && o in tr[m].objs && tr[m].objs[o].marked && tr[m].objs[o].deleted == 0
    requires forall a :: a in tr[n].pcs && tr[n].pcs[a].About(o) ==> !tr[n].pcs[a].Flushes()
    ensures o in tr[n].objs && tr[n].objs[o].deleted >= 1
    ensures tr[n].objs[o].deleted == 1 <==> Count(tr[m].pcs, Flushing(o)) == 1
  {
    DeletionsAreFlushes(tr, m, n, o);
    CountZero(tr[n].pcs, Flushing(o));
    RunInv(tr, m);
    assert ObjInv(tr[m], o);
    CountZero(tr[m].pcs, Flushing(o));
  }

  /** An object whose jobs never change its thread is in one flush at a time: it is deleted at most once, and once it
      is marked and no flush of it is in progress it has been deleted. */
  lemma DeletedOnce(tr: seq<System>, n: nat, o: ObjId)
    requires Run(tr) && n < |tr| && o in tr[n].objs && !tr[n].objs[o].moved
    ensures tr[n].objs[o].deleted <= 1
    ensures tr[n].objs[o].deleted == 1 ==> tr[n].objs[o].marked
    ensures (tr[n].objs[o].marked && forall a :: a in tr[n].pcs && tr[n].pcs[a].About(o) ==> !tr[n].pcs[a].Flushes())
              ==> tr[n].objs[o].deleted == 1
  {
    RunInv(tr, n);
    assert ObjInv(tr[n], o);
  }
}
