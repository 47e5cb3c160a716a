/** `GameObject`, `GameScene` and `GameObjectManager`: scene membership, scene threads and serial numbers.

    A step is one call that posts a job, or one whole job. Whole jobs are the right grain because of what
    `JobScheduler` establishes: the jobs of an object run one at a time, in the order posted, on the thread the
    object names, and none runs after the mark. `MoveToScene` posts two jobs in two steps. */
module GameWorld {
  import opened Tally

  type ObjId = nat
  type SceneId = nat
  type Thread = nat
  type Serial = nat

  datatype Maybe = None | Some(s: SceneId)

  /** The two jobs of `MoveToScene` (the second one also is the job that `Create` posts), those of `ExitScene`
      and `Destroy`, and any other. */
  datatype Job = Out(to: SceneId) | In(to: SceneId) | Exit | Destroy | Other(id: int)

  /** A caller of `MoveToScene` between its two posts. */
  datatype Caller = Free | Moving(o: ObjId, to: SceneId)

  /** The caller that has posted only the first job of a move (history). */
  datatype Half = Nobody | By(a: nat, to: SceneId)

  /** `m_sn`, `m_pScene`, `m_pJobThread`, the job queue, the mark. History: whether an `Enter` ran, the scene the
      object is on its way to, and a half-posted move. */
  datatype Obj = Obj(
    sn: Serial,
    scene: Maybe,
    thread: Thread,
    queue: seq<Job>,
    marked: bool,
    entered: bool,
    open: Maybe,
    half: Half)

  type Homes = map<SceneId, Thread>
  type Lists = map<SceneId, seq<ObjId>>

  /** An `Enter` or `Exit` of a scene and the thread that it ran on. */
  datatype Visit = Visit(scene: SceneId, on: Thread)

  datatype Order = Register(sn: Serial, o: ObjId) | Unregister(sn: Serial) | Forward(sn: Serial, id: int)

  /** The manager: its jobs in the order posted, how many have run, `m_objects`, `m_nextSN`; `owner` (history)
      names the object each serial number was generated for. */
  datatype Manager = Manager(
    posted: seq<Order>,
    ran: nat,
    table: map<Serial, ObjId>,
    nextSn: Serial,
    owner: map<Serial, ObjId>)

  datatype World = World(
    home: Homes,
    lists: Lists,
    objs: map<ObjId, Obj>,
    calls: map<nat, Caller>,
    visits: seq<Visit>,
    manager: Manager)

  ghost predicate Init(w: World) {
    && w.lists.Keys == w.home.Keys && (forall c :: c in w.lists ==> w.lists[c] == [])
    && w.objs == map[] && w.visits == []
    && (forall a :: a in w.calls ==> w.calls[a] == Free)
    && w.manager == Manager([], 0, map[], 1, map[])
  }

  // ----- what a job does -----

  /** `std::find` and `erase`: the first occurrence goes. */
  function Erase(list: seq<ObjId>, o: ObjId): seq<ObjId> {
    if list == [] then [] else if list[0] == o then list[1..] else [list[0]] + Erase(list[1..], o)
  }

  /** The scene whose `Exit` the job calls, and the one whose `Enter` it calls. */
  function Leaves(x: Obj, job: Job): Maybe {
    match job
    case Out(n) => if x.scene == Some(n) then None else x.scene
    case In(_) => None
    case Exit => x.scene
    case Destroy => x.scene
    case Other(_) => None
  }

  function Joins(job: Job): Maybe { if job.In? then Some(job.to) else None }

  function Lefts(lists: Lists, c: Maybe, o: ObjId): Lists {
    if c.Some? && c.s in lists then lists[c.s := Erase(lists[c.s], o)] else lists
  }

  function Joined(lists: Lists, c: Maybe, o: ObjId): Lists {
    if c.Some? && c.s in lists then lists[c.s := lists[c.s] + [o]] else lists
  }

  function NextObj(home: Homes, x: Obj, job: Job): Obj {
    match job
    case Out(n) =>
      if x.scene == Some(n) || n !in home then x.(open := Some(n))
      else x.(scene := None, thread := home[n], open := Some(n))
    case In(n) => x.(scene := Some(n), entered := true, open := None)
    case Exit => x.(scene := None)
    case Destroy => x.(scene := None, marked := true)
    case Other(_) => x
  }

  function Visits(x: Obj, job: Job): seq<Visit> {
    if Leaves(x, job).Some? then [Visit(Leaves(x, job).s, x.thread)]
    else if job.In? then [Visit(job.to, x.thread)] else []
  }

  function Orders(x: Obj, o: ObjId, job: Job): seq<Order> {
    if job.In? then [Register(x.sn, o)] else if job.Destroy? then [Unregister(x.sn)] else []
  }

  function Post(x: Obj, job: Job): Obj { if x.marked then x else x.(queue := x.queue + [job]) }

  // ----- the steps -----

  datatype Action =
    | Create(o: ObjId, c: SceneId)
    | MoveFirst(a: nat, o: ObjId, c: SceneId)
    | MoveSecond(a: nat)
    | Call(o: ObjId, job: Job)
    | RunJob(o: ObjId)
    | PostTo(sn: Serial, id: int)
    | RunOrder

  ghost function NewObj(w: World, c: SceneId): Obj
    requires c in w.home
  {
    Obj(w.manager.nextSn, Some(c), w.home[c], [In(c)], false, false, Some(c), Nobody)
  }

  function Ordered(m: Manager, orders: seq<Order>): Manager { m.(posted := m.posted + orders) }

  /** What an order does to `m_objects`. */
  function Obey(table: map<Serial, ObjId>, order: Order): map<Serial, ObjId> {
    match order
    case Register(sn, o) => table[sn := o]
    case Unregister(sn) => table - {sn}
    case Forward(_, _) => table
  }

  ghost predicate Step(w: World, e: Action, w': World) {
    match e
    case Create(o, c) =>
      && o !in w.objs && c in w.home
      && w' == w.(objs := w.objs[o := NewObj(w, c)],
                  manager := w.manager.(nextSn := w.manager.nextSn + 1,
                                        owner := w.manager.owner[w.manager.nextSn := o]))
    case MoveFirst(a, o, c) =>
      && o in w.objs && c in w.home && a in w.calls && w.calls[a] == Free
      && w' == w.(objs := w.objs[o := Post(w.objs[o], Out(c)).(half := By(a, c))], calls := w.calls[a := Moving(o, c)])
    case MoveSecond(a) =>
      && a in w.calls && w.calls[a].Moving? && w.calls[a].o in w.objs
      && w' == w.(objs := w.objs[w.calls[a].o := Post(w.objs[w.calls[a].o], In(w.calls[a].to)).(half := Nobody)],
                  calls := w.calls[a := Free])
    case Call(o, job) =>
      && o in w.objs && !job.Out? && !job.In?
      && w' == w.(objs := w.objs[o := Post(w.objs[o], job)])
    case RunJob(o) =>
      && o in w.objs && !w.objs[o].marked && w.objs[o].queue != []
      && w' == Ran(w, o)
    case PostTo(sn, id) =>
      w' == w.(manager := Ordered(w.manager, [Forward(sn, id)]))
    case RunOrder =>
      && w.manager.ran < |w.manager.posted|
      && var order := w.manager.posted[w.manager.ran];
         w' == w.(manager := w.manager.(ran := w.manager.ran + 1, table := Obey(w.manager.table, order)),
                  objs := Forwarded(w.objs, w.manager.table, order))
  }

  function Ran(w: World, o: ObjId): World
    requires o in w.objs && w.objs[o].queue != []
  {
    var x, job := w.objs[o].(queue := w.objs[o].queue[1..]), w.objs[o].queue[0];
    w.(objs := w.objs[o := NextObj(w.home, x, job)],
       lists := Joined(Lefts(w.lists, Leaves(x, job), o), Joins(job), o),
       visits := w.visits + Visits(x, job),
       manager := Ordered(w.manager, Orders(x, o, job)))
  }

  function Forwarded(objs: map<ObjId, Obj>, table: map<Serial, ObjId>, order: Order): map<ObjId, Obj> {
    if order.Forward? && order.sn in table && table[order.sn] in objs
    then objs[table[order.sn] := Post(objs[table[order.sn]], Other(order.id))] else objs
  }

  ghost predicate Next(w: World, w': World) { exists e :: Step(w, e, w') }

  ghost predicate Run(tr: seq<World>) {
    && tr != [] && Init(tr[0])
    && (forall i :: 0 <= i < |tr| - 1 ==> Next(tr[i], tr[i + 1]))
  }

  // ----- what every run keeps of the objects -----

  /** What a step does to each single object. */
  ghost predicate Became(w: World, e: Action, o: ObjId, x: Obj, y: Obj) {
    || y == x
    || (e.MoveFirst? && e.o == o && e.c in w.home && y == Post(x, Out(e.c)).(half := By(e.a, e.c)))
    || (e.MoveSecond? && e.a in w.calls && w.calls[e.a].Moving? && w.calls[e.a].o == o
          && y == Post(x, In(w.calls[e.a].to)).(half := Nobody))
    || (exists job: Job :: !job.Out? && !job.In? && y == Post(x, job))
    || (e == RunJob(o) && !x.marked && x.queue != [] && y == NextObj(w.home, x.(queue := x.queue[1..]), x.queue[0]))
  }

  lemma StepBecame(w: World, e: Action, w': World, o: ObjId)
    requires Step(w, e, w') && o in w.objs
    ensures o in w'.objs && Became(w, e, o, w.objs[o], w'.objs[o])
  {}

  lemma StepHome(w: World, e: Action, w': World)
    requires Step(w, e, w')
    ensures w'.home == w.home && w'.lists.Keys >= w.lists.Keys
    ensures w.lists.Keys == w.home.Keys ==> w'.lists.Keys == w.home.Keys
    ensures forall o :: o in w'.objs && o !in w.objs ==>
      e.Create? && e.o == o && e.c in w.home && w'.objs[o] == NewObj(w, e.c)
    ensures !e.RunJob? ==> w'.lists == w.lists && w'.visits == w.visits
  {}

  /** Scenes exist, an object that has not entered is about to enter the scene it was created for, and a marked one has
      left its scene. */
  ghost predicate Sane(home: Homes, x: Obj) {
    && (x.scene.Some? ==> x.scene.s in home)
    && (forall i :: 0 <= i < |x.queue| && (x.queue[i].Out? || x.queue[i].In?) ==> x.queue[i].to in home)
    && (!x.entered ==> !x.marked && x.scene.Some? && x.queue != [] && x.queue[0] == In(x.scene.s))
    && (x.marked ==> x.scene == None)
  }

  ghost predicate Inv(w: World) {
    && w.lists.Keys == w.home.Keys
    && (forall o :: o in w.objs ==> Sane(w.home, w.objs[o]))
    && (forall a :: a in w.calls && w.calls[a].Moving? ==> w.calls[a].o in w.objs && w.calls[a].to in w.home)
  }

  lemma BecameSane(w: World, e: Action, o: ObjId, x: Obj, y: Obj)
    requires Sane(w.home, x) && Became(w, e, o, x, y)
    requires forall a :: a in w.calls && w.calls[a].Moving? ==> w.calls[a].to in w.home
    ensures Sane(w.home, y)
  {}

  lemma StepInv(w: World, e: Action, w': World)
    requires Inv(w) && Step(w, e, w')
    ensures Inv(w')
  {
    StepHome(w, e, w');
    forall o | o in w'.objs ensures Sane(w'.home, w'.objs[o]) {
      if o in w.objs {
        StepBecame(w, e, w', o);
        BecameSane(w, e, o, w.objs[o], w'.objs[o]);
      }
    }
  }

  // ----- the manager -----

  function Replay(orders: seq<Order>): map<Serial, ObjId> {
    if orders == [] then map[] else Obey(Replay(orders[..|orders| - 1]), orders[|orders| - 1])
  }

  lemma ReplayMore(orders: seq<Order>, order: Order)
    ensures Replay(orders + [order]) == Obey(Replay(orders), order)
  {
    assert (orders + [order])[..|orders|] == orders;
  }

  /** An order speaks of the object the serial number was generated for, and an `Unregister` of a marked one. */
  ghost predicate OrderOk(m: Manager, objs: map<ObjId, Obj>, order: Order) {
    && (order.Register? ==> order.sn in m.owner && m.owner[order.sn] == order.o)
    && (order.Unregister? ==> order.sn in m.owner && m.owner[order.sn] in objs && objs[m.owner[order.sn]].marked)
  }

  /** No `Register` of a serial number follows its `Unregister`. */
  ghost predicate Sealed(posted: seq<Order>) {
    forall i, j :: 0 <= i < j < |posted| && posted[i].Unregister? && posted[j].Register? ==>
      posted[i].sn != posted[j].sn
  }

  ghost predicate Resolves(m: Manager, objs: map<ObjId, Obj>) {
    var all := Replay(m.posted);
    && (forall o :: o in objs && objs[o].entered && !objs[o].marked ==> objs[o].sn in all)
    && (forall sn :: sn in all ==> sn in m.owner && all[sn] == m.owner[sn])
    && (forall sn :: sn in all ==> all[sn] in objs && objs[all[sn]].entered && !objs[all[sn]].marked)
  }

  ghost predicate Serials(m: Manager, objs: map<ObjId, Obj>) {
    && (forall o :: o in objs ==> objs[o].sn in m.owner && m.owner[objs[o].sn] == o)
    && (forall sn :: sn in m.owner ==> sn < m.nextSn && m.owner[sn] in objs && objs[m.owner[sn]].sn == sn)
  }

  ghost predicate ManagerInv(w: World) {
    && Serials(w.manager, w.objs)
    && (forall i :: 0 <= i < |w.manager.posted| ==> OrderOk(w.manager, w.objs, w.manager.posted[i]))
    && Sealed(w.manager.posted)
    && Resolves(w.manager, w.objs)
    && w.manager.ran <= |w.manager.posted| && w.manager.table == Replay(w.manager.posted[..w.manager.ran])
  }

  /** What every step but the running of a job means for the manager. */
  ghost predicate Same(objs: map<ObjId, Obj>, objs': map<ObjId, Obj>) {
    && objs'.Keys == objs.Keys
    && forall o :: o in objs ==>
         objs'[o].sn == objs[o].sn && objs'[o].entered == objs[o].entered && objs'[o].marked == objs[o].marked
  }

  lemma CallsSame(w: World, e: Action, w': World)
    requires Step(w, e, w') && !e.RunJob? && !e.Create?
    ensures Same(w.objs, w'.objs) && w'.manager.owner == w.manager.owner && w'.manager.nextSn == w.manager.nextSn
  {}

  lemma SameKeeps(m: Manager, objs: map<ObjId, Obj>, m': Manager, objs': map<ObjId, Obj>)
    requires Same(objs, objs') && m'.owner == m.owner && m'.nextSn == m.nextSn && m'.posted == m.posted
    requires Serials(m, objs) && Resolves(m, objs)
    requires forall i :: 0 <= i < |m.posted| ==> OrderOk(m, objs, m.posted[i])
    ensures Serials(m', objs') && Resolves(m', objs')
    ensures forall i :: 0 <= i < |m.posted| ==> OrderOk(m', objs', m.posted[i])
  {
    forall i | 0 <= i < |m.posted| ensures OrderOk(m', objs', m.posted[i]) {
      assert OrderOk(m, objs, m.posted[i]);
    }
  }

  lemma CreateManager(w: World, o: ObjId, c: SceneId, w': World)
    requires ManagerInv(w) && Step(w, Create(o, c), w')
    ensures ManagerInv(w')
  {
    forall i | 0 <= i < |w.manager.posted| ensures OrderOk(w'.manager, w'.objs, w.manager.posted[i]) {
      assert OrderOk(w.manager, w.objs, w.manager.posted[i]);
    }
  }

  lemma PostToManager(w: World, sn: Serial, id: int, w': World)
    requires ManagerInv(w) && Step(w, PostTo(sn, id), w')
    ensures ManagerInv(w')
  {
    ReplayMore(w.manager.posted, Forward(sn, id));
    assert w'.manager.posted[..w.manager.ran] == w.manager.posted[..w.manager.ran];
  }

  lemma RunOrderManager(w: World, w': World)
    requires ManagerInv(w) && Step(w, RunOrder, w')
    ensures ManagerInv(w')
  {
    var m := w.manager;
    CallsSame(w, RunOrder, w');
    SameKeeps(m, w.objs, w'.manager, w'.objs);
    ReplayMore(m.posted[..m.ran], m.posted[m.ran]);
    assert m.posted[..m.ran] + [m.posted[m.ran]] == m.posted[..m.ran + 1];
  }

  /** Running a job: an `Enter` registers, a `Destroy` unregisters and marks. */
  lemma RanManager(w: World, o: ObjId)
    requires ManagerInv(w) && o in w.objs && !w.objs[o].marked && w.objs[o].queue != []
    ensures ManagerInv(Ran(w, o))
  {
    var w', x, job := Ran(w, o), w.objs[o], w.objs[o].queue[0];
    var m, m' := w.manager, w'.manager;
    JobFrame(w.home, x.(queue := x.queue[1..]), job);
    RanOrders(m, w.objs, o, x, job, w'.objs[o]);
    RanSealed(m.posted, m, w.objs, x, o, job);
    RanResolves(w, o, x, job, w');
    assert m'.posted[..m.ran] == m.posted[..m.ran];
  }

  lemma JobFrame(home: Homes, x: Obj, job: Job)
    ensures var y := NextObj(home, x, job);
      y.sn == x.sn && (y.marked <==> x.marked || job.Destroy?) && (y.entered <==> x.entered || job.In?)
  {}

  lemma RanOrders(m: Manager, objs: map<ObjId, Obj>, o: ObjId, x: Obj, job: Job, y: Obj)
    requires o in objs && x == objs[o] && y.sn == x.sn && (x.marked || job.Destroy? ==> y.marked) && Serials(m, objs)
    requires forall i :: 0 <= i < |m.posted| ==> OrderOk(m, objs, m.posted[i])
    ensures var m', objs' := Ordered(m, Orders(x, o, job)), objs[o := y];
      Serials(m', objs') && forall i :: 0 <= i < |m'.posted| ==> OrderOk(m', objs', m'.posted[i])
  {
    var m', objs' := Ordered(m, Orders(x, o, job)), objs[o := y];
    forall i | 0 <= i < |m'.posted| ensures OrderOk(m', objs', m'.posted[i]) {
      if i < |m.posted| {
        assert OrderOk(m, objs, m.posted[i]);
      }
    }
  }

  lemma RanSealed(posted: seq<Order>, m: Manager, objs: map<ObjId, Obj>, x: Obj, o: ObjId, job: Job)
    requires Sealed(posted) && o in objs && x == objs[o] && !x.marked && Serials(m, objs)
    requires forall i :: 0 <= i < |posted| ==> OrderOk(m, objs, posted[i])
    ensures Sealed(posted + Orders(x, o, job))
  {
    forall i | 0 <= i < |posted| && posted[i].Unregister? ensures posted[i].sn != x.sn {
      assert OrderOk(m, objs, posted[i]);
    }
  }

  lemma RanResolves(w: World, o: ObjId, x: Obj, job: Job, w': World)
    requires o in w.objs && x == w.objs[o] && !x.marked && x.queue != [] && job == x.queue[0] && w' == Ran(w, o)
    requires Resolves(w.manager, w.objs) && Serials(w.manager, w.objs)
    ensures Resolves(w'.manager, w'.objs)
  {
    JobFrame(w.home, x.(queue := x.queue[1..]), job);
    if job.In? {
      ReplayMore(w.manager.posted, Register(x.sn, o));
      RegisterResolves(w.manager, w.objs, o, w'.objs[o], w'.manager);
    } else if job.Destroy? {
      ReplayMore(w.manager.posted, Unregister(x.sn));
      UnregisterResolves(w.manager, w.objs, o, w'.objs[o], w'.manager);
    } else {
      assert w'.manager.posted == w.manager.posted;
    }
  }

  lemma RegisterResolves(m: Manager, objs: map<ObjId, Obj>, o: ObjId, y: Obj, m': Manager)
    requires o in objs && Resolves(m, objs) && Serials(m, objs) && y.sn == objs[o].sn && y.entered && !y.marked
    requires Replay(m'.posted) == Replay(m.posted)[y.sn := o] && m'.owner == m.owner
    ensures Resolves(m', objs[o := y])
  {}

  lemma UnregisterResolves(m: Manager, objs: map<ObjId, Obj>, o: ObjId, y: Obj, m': Manager)
    requires o in objs && Resolves(m, objs) && Serials(m, objs) && y.sn == objs[o].sn && y.marked
    requires Replay(m'.posted) == Replay(m.posted) - {y.sn} && m'.owner == m.owner
    ensures Resolves(m', objs[o := y])
  {}

  lemma StepManager(w: World, e: Action, w': World)
    requires ManagerInv(w) && Step(w, e, w')
    ensures ManagerInv(w')
  {
    match e
    case Create(o, c) => CreateManager(w, o, c, w');
    case RunJob(o) => RanManager(w, o);
    case PostTo(sn, id) => PostToManager(w, sn, id, w');
    case RunOrder => RunOrderManager(w, w');
    case _ =>
      CallsSame(w, e, w');
      SameKeeps(w.manager, w.objs, w'.manager, w'.objs);
  }

  // ----- results -----

  lemma {:induction false} RunInv(tr: seq<World>, n: nat)
    requires Run(tr) && n < |tr|
    ensures Inv(tr[n]) && ManagerInv(tr[n])
  {
    if n > 0 {
      RunInv(tr, n - 1);
      assert Next(tr[n - 1], tr[n - 1 + 1]);
      var e :| Step(tr[n - 1], e, tr[n]);
      StepInv(tr[n - 1], e, tr[n]);
      StepManager(tr[n - 1], e, tr[n]);
    }
  }

  lemma {:induction false} Unresolved(orders: seq<Order>, i: nat)
    requires Sealed(orders) && i < |orders| && orders[i].Unregister?
    ensures orders[i].sn !in Replay(orders)
  {
    var front := orders[..|orders| - 1];
    if i < |front| {
      assert front[i] == orders[i];
      Unresolved(front, i);
    }
  }

  /** Once an `Unregister` has run, its serial number never resolves again. */
  lemma NeverResolvesAgain(tr: seq<World>, n: nat, i: nat)
    requires Run(tr) && n < |tr| && i < tr[n].manager.ran <= |tr[n].manager.posted|
    requires tr[n].manager.posted[i].Unregister?
    ensures tr[n].manager.posted[i].sn !in tr[n].manager.table
  {
    RunInv(tr, n);
    Unresolved(tr[n].manager.posted[..tr[n].manager.ran], i);
  }

  /** When the manager has run all its jobs, its table names exactly the objects that have entered and are not
      marked, each by its own number. */
  lemma TableIsComplete(tr: seq<World>, n: nat, o: ObjId)
    requires Run(tr) && n < |tr| && tr[n].manager.ran == |tr[n].manager.posted| && o in tr[n].objs
    ensures (tr[n].objs[o].sn in tr[n].manager.table && tr[n].manager.table[tr[n].objs[o].sn] == o) <==>
            (tr[n].objs[o].entered && !tr[n].objs[o].marked)
    ensures tr[n].objs[o].sn in tr[n].manager.table ==> tr[n].manager.table[tr[n].objs[o].sn] == o
  {
    RunInv(tr, n);
    var m := tr[n].manager;
    assert m.posted[..m.ran] == m.posted;
  }

  /** A serial number resolves only to the object it was generated for. */
  lemma ForwardedToItsOwner(tr: seq<World>, n: nat, sn: Serial)
    requires Run(tr) && n < |tr| && sn in tr[n].manager.table
    ensures tr[n].manager.table[sn] in tr[n].objs && tr[n].objs[tr[n].manager.table[sn]].sn == sn
  {
    RunInv(tr, n);
    var m := tr[n].manager;
    Registered(m, tr[n].objs, m.ran, sn);
  }

  /** When the manager runs the job of `PostTo(sn, id)`, and `sn` resolves, the object that carries this number finds
      job `id` at the end of its queue unless it is marked. No other object changes, and none at all if `sn` does not
      resolve. */
  lemma ForwardDelivers(tr: seq<World>, n: nat, sn: Serial, id: int, o: ObjId)
    requires Run(tr) && n + 1 < |tr| && Step(tr[n], RunOrder, tr[n + 1]) && o in tr[n].objs
    requires tr[n].manager.posted[tr[n].manager.ran] == Forward(sn, id)
    ensures o in tr[n + 1].objs
    ensures var x, y := tr[n].objs[o], tr[n + 1].objs[o];
      && y == x.(queue := y.queue)
      && y.queue == x.queue + if x.sn == sn && sn in tr[n].manager.table && !x.marked then [Other(id)] else []
  {
    RunInv(tr, n);
    Delivers(tr[n], tr[n + 1], sn, id, o);
  }

  lemma Delivers(w: World, w': World, sn: Serial, id: int, o: ObjId)
    requires ManagerInv(w) && Step(w, RunOrder, w') && w.manager.posted[w.manager.ran] == Forward(sn, id) && o in w.objs
    ensures o in w'.objs && w'.objs[o] == w.objs[o].(queue := w'.objs[o].queue)
    ensures w'.objs[o].queue == w.objs[o].queue +
      if w.objs[o].sn == sn && sn in w.manager.table && !w.objs[o].marked then [Other(id)] else []
  {
    if sn in w.manager.table {
      Registered(w.manager, w.objs, w.manager.ran, sn);
    }
  }

  lemma {:induction false} Registered(m: Manager, objs: map<ObjId, Obj>, k: nat, sn: Serial)
    requires k <= |m.posted| && sn in Replay(m.posted[..k])
    requires forall i :: 0 <= i < |m.posted| ==> OrderOk(m, objs, m.posted[i])
    ensures sn in m.owner && Replay(m.posted[..k])[sn] == m.owner[sn]
  {
    if k > 0 {
      assert m.posted[..k][..k - 1] == m.posted[..k - 1];
      assert OrderOk(m, objs, m.posted[k - 1]);
      if sn in Replay(m.posted[..k - 1]) {
        Registered(m, objs, k - 1, sn);
      }
    }
  }
}
