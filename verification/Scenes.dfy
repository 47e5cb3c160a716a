/** Which scene lists an object, and on which thread scenes are entered and left: for each of the two, the exact
    condition at the one job that can fail. */
module Scenes {
  import opened Tally
  import opened GameWorld

  /** The job that object `o` runs next. */
  function NextJob(w: World, o: ObjId): Job
    requires o in w.objs && w.objs[o].queue != []
  {
    w.objs[o].queue[0]
  }

  ghost predicate CanRun(w: World, o: ObjId) { o in w.objs && !w.objs[o].marked && w.objs[o].queue != [] }

  /** The condition for membership: an object that has entered enters again only while it is in no scene. */
  ghost predicate Vacant(w: World, e: Action) {
    e.RunJob? && CanRun(w, e.o) && NextJob(w, e.o).In? && w.objs[e.o].entered ==> w.objs[e.o].scene == None
  }

  /** The condition for threads: an object enters a scene only while it names the thread of that scene. */
  ghost predicate AtHome(w: World, e: Action) {
    e.RunJob? && CanRun(w, e.o) && NextJob(w, e.o).In? ==>
      NextJob(w, e.o).to in w.home && w.objs[e.o].thread == w.home[NextJob(w, e.o).to]
  }

  ghost predicate NextVacant(w: World, w': World) { exists e :: Step(w, e, w') && Vacant(w, e) }

  ghost predicate RunVacant(tr: seq<World>) {
    && tr != [] && Init(tr[0])
    && (forall i :: 0 <= i < |tr| - 1 ==> NextVacant(tr[i], tr[i + 1]))
  }

  ghost predicate NextAtHome(w: World, w': World) { exists e :: Step(w, e, w') && AtHome(w, e) }

  ghost predicate RunAtHome(tr: seq<World>) {
    && tr != [] && Init(tr[0])
    && (forall i :: 0 <= i < |tr| - 1 ==> NextAtHome(tr[i], tr[i + 1]))
  }

  // ----- membership -----

  ghost function Times(lists: Lists, c: SceneId, o: ObjId): nat
    requires c in lists
  {
    multiset(lists[c])[o]
  }

  /** The object, once it has entered, is listed once by the scene it is in, and by no other. */
  ghost predicate MemberOk(lists: Lists, o: ObjId, x: Obj) {
    forall c :: c in lists ==> Times(lists, c, o) == One(x.entered && x.scene == Some(c))
  }

  ghost predicate Members(w: World) {
    && (forall o :: o in w.objs ==> MemberOk(w.lists, o, w.objs[o]))
    && (forall o, c :: o !in w.objs && c in w.lists ==> Times(w.lists, c, o) == 0)
  }

  ghost function Changed(n: nat, leave: Maybe, join: Maybe, c: SceneId, o: ObjId, p: ObjId): nat {
    if p != o then n else if join == Some(c) then n + 1 else if leave == Some(c) && n > 0 then n - 1 else n
  }

  lemma {:induction false} EraseCount(list: seq<ObjId>, o: ObjId, p: ObjId)
    ensures multiset(Erase(list, o))[p] ==
      if p == o && multiset(list)[o] > 0 then multiset(list)[p] - 1 else multiset(list)[p]
  {
    if list != [] {
      assert list == [list[0]] + list[1..];
      EraseCount(list[1..], o, p);
    }
  }

  /** What a job does to the counts of its object, and that it leaves those of the others alone. */
  lemma RanCounts(lists: Lists, leave: Maybe, join: Maybe, o: ObjId, c: SceneId, p: ObjId)
    requires c in lists && (leave == None || join == None)
    ensures c in Joined(Lefts(lists, leave, o), join, o)
    ensures Times(Joined(Lefts(lists, leave, o), join, o), c, p) == Changed(Times(lists, c, p), leave, join, c, o, p)
  {
    if leave == Some(c) {
      EraseCount(lists[c], o, p);
    }
  }

  ghost predicate Changes(lists: Lists, leave: Maybe, join: Maybe, o: ObjId, lists': Lists) {
    && lists'.Keys == lists.Keys
    && forall c, p :: c in lists ==> Times(lists', c, p) == Changed(Times(lists, c, p), leave, join, c, o, p)
  }

  lemma RanChanges(w: World, o: ObjId, x: Obj, job: Job)
    requires o in w.objs && x == w.objs[o] && x.queue != [] && job == x.queue[0]
    ensures Changes(w.lists, Leaves(x, job), Joins(job), o, Ran(w, o).lists)
  {
    forall c, p | c in w.lists
      ensures Times(Ran(w, o).lists, c, p) == Changed(Times(w.lists, c, p), Leaves(x, job), Joins(job), c, o, p)
    {
      RanCounts(w.lists, Leaves(x, job), Joins(job), o, c, p);
    }
  }

  lemma OthersStay(lists: Lists, leave: Maybe, join: Maybe, o: ObjId, lists': Lists, p: ObjId, x: Obj)
    requires Changes(lists, leave, join, o, lists') && p != o && MemberOk(lists, p, x)
    ensures MemberOk(lists', p, x)
  {}

  /** What its own job does to an object's membership. */
  lemma MoverExactlyWhen(home: Homes, lists: Lists, o: ObjId, lists': Lists, x: Obj, job: Job, y: Obj)
    requires Changes(lists, Leaves(x, job), Joins(job), o, lists') && MemberOk(lists, o, x) && lists.Keys == home.Keys
    requires Sane(home, x) && !x.marked && x.queue != [] && job == x.queue[0]
    requires y == NextObj(home, x.(queue := x.queue[1..]), job)
    ensures MemberOk(lists', o, y) <==> (job.In? && x.entered ==> x.scene == None)
  {
    if job.In? && x.entered && x.scene.Some? {
      assert Times(lists', x.scene.s, o) > 0 && Times(lists', job.to, o) > One(x.scene.s == job.to);
    }
  }

  /** Membership is kept by a job if and only if the job, should it enter an object that has entered before, finds it in
      no scene. */
  lemma JobKeepsMembersExactlyWhen(w: World, o: ObjId)
    requires Inv(w) && Members(w) && CanRun(w, o)
    ensures Members(Ran(w, o)) <==> Vacant(w, RunJob(o))
  {
    var w', x, job := Ran(w, o), w.objs[o], NextJob(w, o);
    RanChanges(w, o, x, job);
    MoverExactlyWhen(w.home, w.lists, o, w'.lists, x, job, w'.objs[o]);
    forall p | p in w'.objs && p != o ensures MemberOk(w'.lists, p, w'.objs[p]) {
      OthersStay(w.lists, Leaves(x, job), Joins(job), o, w'.lists, p, w.objs[p]);
    }
  }

  lemma PostsStay(w: World, e: Action, o: ObjId, x: Obj, y: Obj)
    requires Became(w, e, o, x, y) && !e.RunJob?
    ensures y.open == x.open && y.scene == x.scene && y.entered == x.entered
  {}

  lemma PostsMembers(w: World, w': World)
    requires Members(w) && w'.lists == w.lists
    requires forall o :: o in w.objs ==> o in w'.objs && MemberOk(w'.lists, o, w'.objs[o])
    requires forall o :: o in w'.objs && o !in w.objs ==> !w'.objs[o].entered
    ensures Members(w')
  {}

  /** No other step touches it. */
  lemma StepMembers(w: World, e: Action, w': World)
    requires Inv(w) && Members(w) && Step(w, e, w') && Vacant(w, e)
    ensures Members(w')
  {
    if e.RunJob? {
      JobKeepsMembersExactlyWhen(w, e.o);
    } else {
      StepHome(w, e, w');
      forall o | o in w.objs ensures o in w'.objs && MemberOk(w'.lists, o, w'.objs[o]) {
        StepBecame(w, e, w', o);
        PostsStay(w, e, o, w.objs[o], w'.objs[o]);
        assert MemberOk(w.lists, o, w.objs[o]);
      }
      PostsMembers(w, w');
    }
  }

  lemma {:induction false} RunMembers(tr: seq<World>, n: nat)
    requires RunVacant(tr) && n < |tr|
    ensures Inv(tr[n]) && Members(tr[n])
  {
    if n > 0 {
      RunMembers(tr, n - 1);
      assert NextVacant(tr[n - 1], tr[n - 1 + 1]);
      var e :| Step(tr[n - 1], e, tr[n]) && Vacant(tr[n - 1], e);
      StepMembers(tr[n - 1], e, tr[n]);
      StepInv(tr[n - 1], e, tr[n]);
    }
  }

  /** An object that has entered appears exactly once in the scene that its `m_pScene` names and in no other; one
      that names no scene appears in none. */
  lemma SceneMembership(tr: seq<World>, n: nat, o: ObjId, c: SceneId)
    requires RunVacant(tr) && n < |tr| && o in tr[n].objs && tr[n].objs[o].entered && c in tr[n].lists
    ensures multiset(tr[n].lists[c])[o] == One(tr[n].objs[o].scene == Some(c))
  {
    RunMembers(tr, n);
    assert MemberOk(tr[n].lists, o, tr[n].objs[o]);
  }

  /** A destroyed object, about to be deleted, is in no scene and no scene lists it. */
  lemma DestroyedIsNowhere(tr: seq<World>, n: nat, o: ObjId, c: SceneId)
    requires RunVacant(tr) && n < |tr| && o in tr[n].objs && tr[n].objs[o].marked && c in tr[n].lists
    ensures tr[n].objs[o].scene == None && o !in tr[n].lists[c]
  {
    RunMembers(tr, n);
    assert MemberOk(tr[n].lists, o, tr[n].objs[o]) && Sane(tr[n].home, tr[n].objs[o]);
    assert o !in multiset(tr[n].lists[c]);
  }

  /** How often a scene lists an object before and after a job of its own. */
  ghost predicate Outcome(job: Job, c: SceneId, before: nat, after: nat) {
    match job
    case In(to) => after == One(c == to)
    case Exit => after == 0
    case Destroy => after == 0
    case Out(to) => after == if c == to then before else 0
    case Other(_) => after == before
  }

  lemma ItsOutcome(x: Obj, job: Job, c: SceneId, o: ObjId, before: nat)
    requires before == One(x.entered && x.scene == Some(c)) && (job.In? && x.entered ==> x.scene == None)
    ensures Outcome(job, c, before, Changed(before, Leaves(x, job), Joins(job), c, o, o))
  {}

  /** What a job leaves behind, scene by scene: an entry lists its object there and nowhere else, an exit and a
      `Destroy` nowhere, the first job of a move at most in the scene moved to, and any other job where it was. Other
      objects stay where they are. */
  lemma JobOutcome(tr: seq<World>, n: nat, o: ObjId, c: SceneId, p: ObjId)
    requires RunVacant(tr) && n + 1 < |tr| && CanRun(tr[n], o) && tr[n + 1] == Ran(tr[n], o) && c in tr[n].lists
    requires Vacant(tr[n], RunJob(o))
    ensures c in tr[n + 1].lists
    ensures var before, after := multiset(tr[n].lists[c])[p], multiset(tr[n + 1].lists[c])[p];
      if p == o then Outcome(NextJob(tr[n], o), c, before, after) else after == before
  {
    var w, x, job := tr[n], tr[n].objs[o], NextJob(tr[n], o);
    RunMembers(tr, n);
    assert MemberOk(w.lists, o, x);
    RanCounts(w.lists, Leaves(x, job), Joins(job), o, c, p);
    ItsOutcome(x, job, c, o, Times(w.lists, c, o));
  }

  // ----- threads -----

  ghost predicate OnHome(home: Homes, v: Visit) { v.scene in home && v.on == home[v.scene] }

  /** An object in a scene names the scene's thread, and so does one created for it. */
  ghost predicate Homely(home: Homes, x: Obj) {
    x.scene.Some? ==> x.scene.s in home && x.thread == home[x.scene.s]
  }

  ghost predicate AllHome(w: World) {
    && (forall o :: o in w.objs ==> Homely(w.home, w.objs[o]))
    && (forall i :: 0 <= i < |w.visits| ==> OnHome(w.home, w.visits[i]))
  }

  lemma JobHomely(home: Homes, x: Obj, job: Job, y: Obj)
    requires Homely(home, x) && Sane(home, x) && x.queue != [] && job == x.queue[0]
    requires y == NextObj(home, x.(queue := x.queue[1..]), job)
    ensures Homely(home, y) <==> (job.In? ==> x.thread == home[job.to])
    ensures forall i :: 0 <= i < |Visits(x, job)| ==>
      (OnHome(home, Visits(x, job)[i]) <==> (job.In? ==> x.thread == home[job.to]))
  {}

  /** Every scene is entered and left on its own thread, and objects name the thread of the scene they are in, after a
      job if and only if the job, should it be an entry, runs while the object names the scene's thread. In particular
      an exit needs no condition. */
  lemma JobKeepsHomesExactlyWhen(w: World, o: ObjId)
    requires Inv(w) && AllHome(w) && CanRun(w, o)
    ensures AllHome(Ran(w, o)) <==> AtHome(w, RunJob(o))
  {
    var w', x, job := Ran(w, o), w.objs[o], NextJob(w, o);
    JobHomely(w.home, x, job, w'.objs[o]);
    var visits := Visits(x, job);
    assert w'.visits == w.visits + visits;
    assert forall i :: 0 <= i < |visits| ==> w'.visits[|w.visits| + i] == visits[i];
  }

  lemma PostsHomely(w: World, e: Action, o: ObjId, x: Obj, y: Obj)
    requires Became(w, e, o, x, y) && !e.RunJob? && Homely(w.home, x)
    ensures Homely(w.home, y)
  {}

  lemma StepHomes(w: World, e: Action, w': World)
    requires Inv(w) && AllHome(w) && Step(w, e, w') && AtHome(w, e)
    ensures AllHome(w')
  {
    if e.RunJob? {
      JobKeepsHomesExactlyWhen(w, e.o);
    } else {
      StepHome(w, e, w');
      forall o | o in w'.objs ensures Homely(w'.home, w'.objs[o]) {
        if o in w.objs {
          StepBecame(w, e, w', o);
          PostsHomely(w, e, o, w.objs[o], w'.objs[o]);
        }
      }
    }
  }

  lemma {:induction false} RunHomes(tr: seq<World>, n: nat)
    requires RunAtHome(tr) && n < |tr|
    ensures Inv(tr[n]) && AllHome(tr[n])
  {
    if n > 0 {
      RunHomes(tr, n - 1);
      assert NextAtHome(tr[n - 1], tr[n - 1 + 1]);
      var e :| Step(tr[n - 1], e, tr[n]) && AtHome(tr[n - 1], e);
      StepHomes(tr[n - 1], e, tr[n]);
      StepInv(tr[n - 1], e, tr[n]);
    }
  }

  /** Every `Enter` and `Exit` of a scene runs on that scene's own thread. */
  lemma ScenesOnTheirThreads(tr: seq<World>, n: nat, i: nat)
    requires RunAtHome(tr) && n < |tr| && i < |tr[n].visits|
    ensures tr[n].visits[i].scene in tr[n].home && tr[n].visits[i].on == tr[n].home[tr[n].visits[i].scene]
  {
    RunHomes(tr, n);
    assert OnHome(tr[n].home, tr[n].visits[i]);
  }

  /** Whatever step changes the list of a scene is a job that runs on that scene's thread, and is on record. */
  lemma ListsChangeAtHome(tr: seq<World>, n: nat, e: Action, c: SceneId)
    requires RunAtHome(tr) && n + 1 < |tr| && Step(tr[n], e, tr[n + 1]) && AtHome(tr[n], e)
    requires c in tr[n].lists && c in tr[n + 1].lists && tr[n + 1].lists[c] != tr[n].lists[c]
    ensures e.RunJob? && e.o in tr[n].objs && c in tr[n].home && tr[n].objs[e.o].thread == tr[n].home[c]
    ensures tr[n + 1].visits == tr[n].visits + [Visit(c, tr[n].home[c])]
  {
    RunHomes(tr, n);
    StepHome(tr[n], e, tr[n + 1]);
    assert Homely(tr[n].home, tr[n].objs[e.o]);
  }
}
