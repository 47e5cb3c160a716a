/** Moves: two conditions on callers under which scene membership and scene threads hold, what one move and what two
    moves at the same time do, and a run in which two moves leave an object in two scenes. */
module SceneMoves {
  import opened Tally
  import opened Runs
  import opened GameWorld
  import opened Scenes

  // ----- callers that keep moves apart -----

  /** Nobody starts to move an object while another call is between its two posts for it. */
  ghost predicate Apart(w: World, e: Action) {
    e.MoveFirst? && e.o in w.objs ==> w.objs[e.o].half == Nobody
  }

  /** No move targets the scene the object is in when its first job runs. */
  ghost predicate Elsewhere(w: World, e: Action) {
    e.RunJob? && CanRun(w, e.o) && NextJob(w, e.o).Out? ==> w.objs[e.o].scene != Some(NextJob(w, e.o).to)
  }

  ghost predicate NextApart(w: World, w': World) { exists e :: Step(w, e, w') && Apart(w, e) }

  ghost predicate RunApart(tr: seq<World>) {
    && tr != [] && Init(tr[0])
    && (forall i :: 0 <= i < |tr| - 1 ==> NextApart(tr[i], tr[i + 1]))
  }

  ghost predicate NextElsewhere(w: World, w': World) { exists e :: Step(w, e, w') && Apart(w, e) && Elsewhere(w, e) }

  ghost predicate RunElsewhere(tr: seq<World>) {
    && tr != [] && Init(tr[0])
    && (forall i :: 0 <= i < |tr| - 1 ==> NextElsewhere(tr[i], tr[i + 1]))
  }

  /** The move jobs of a queue come in pairs, the first of which may have run and the last half be missing. */
  ghost predicate Paired(home: Homes, q: seq<Job>, open: Maybe, half: Half) {
    if q == [] then open == (if half.By? then Some(half.to) else None) else
      match q[0]
      case Out(n) => open == None && n in home && Paired(home, q[1..], Some(n), half)
      case In(n) => open == Some(n) && Paired(home, q[1..], None, half)
      case _ => Paired(home, q[1..], open, half)
  }

  lemma {:induction false} PairedCall(home: Homes, q: seq<Job>, open: Maybe, half: Half, job: Job)
    requires Paired(home, q, open, half) && !job.Out? && !job.In?
    ensures Paired(home, q + [job], open, half)
  {
    if q == [] {
      assert (q + [job])[1..] == [];
    } else {
      assert (q + [job])[1..] == q[1..] + [job];
      PairedCall(home, q[1..], if q[0].Out? then Some(q[0].to) else if q[0].In? then None else open, half, job);
    }
  }

  lemma {:induction false} PairedFirst(home: Homes, q: seq<Job>, open: Maybe, a: nat, c: SceneId)
    requires Paired(home, q, open, Nobody) && c in home
    ensures Paired(home, q + [Out(c)], open, By(a, c))
  {
    if q == [] {
      assert (q + [Out(c)])[1..] == [];
    } else {
      assert (q + [Out(c)])[1..] == q[1..] + [Out(c)];
      PairedFirst(home, q[1..], if q[0].Out? then Some(q[0].to) else if q[0].In? then None else open, a, c);
    }
  }

  lemma {:induction false} PairedSecond(home: Homes, q: seq<Job>, open: Maybe, a: nat, c: SceneId)
    requires Paired(home, q, open, By(a, c))
    ensures Paired(home, q + [In(c)], open, Nobody)
  {
    if q == [] {
      assert (q + [In(c)])[1..] == [];
    } else {
      assert (q + [In(c)])[1..] == q[1..] + [In(c)];
      PairedSecond(home, q[1..], if q[0].Out? then Some(q[0].to) else if q[0].In? then None else open, a, c);
    }
  }

  ghost predicate ThreadOk(home: Homes, x: Obj) {
    && (x.open.Some? ==> x.open.s in home && x.thread == home[x.open.s])
    && (x.scene.Some? ==> x.scene.s in home && x.thread == home[x.scene.s])
    && (!x.marked ==> Paired(home, x.queue, x.open, x.half))
    && (!x.entered ==> !x.marked && x.scene == x.open && x.open.Some? && x.queue != [] && x.queue[0] == In(x.open.s))
  }

  lemma PostOk(home: Homes, x: Obj, job: Job)
    requires ThreadOk(home, x) && !job.Out? && !job.In?
    ensures ThreadOk(home, Post(x, job))
  {
    if !x.marked { PairedCall(home, x.queue, x.open, x.half, job); }
  }

  lemma FirstOk(home: Homes, x: Obj, a: nat, c: SceneId)
    requires ThreadOk(home, x) && x.half == Nobody && c in home
    ensures ThreadOk(home, Post(x, Out(c)).(half := By(a, c)))
  {
    if !x.marked { PairedFirst(home, x.queue, x.open, a, c); }
  }

  lemma SecondOk(home: Homes, x: Obj, a: nat, c: SceneId)
    requires ThreadOk(home, x) && x.half == By(a, c)
    ensures ThreadOk(home, Post(x, In(c)).(half := Nobody))
  {
    if !x.marked { PairedSecond(home, x.queue, x.open, a, c); }
  }

  lemma JobOk(home: Homes, x: Obj, y: Obj, job: Job)
    requires ThreadOk(home, x) && !x.marked && x.queue != [] && job == x.queue[0]
    requires y == NextObj(home, x.(queue := x.queue[1..]), job)
    ensures ThreadOk(home, y)
    ensures Leaves(x, job).Some? ==> Leaves(x, job).s in home && x.thread == home[Leaves(x, job).s]
    ensures job.In? ==> job.to in home && x.thread == home[job.to]
  {}

  /** The caller of a half-posted move is the only one between two posts for the object. */
  ghost predicate CallsOk(calls: map<nat, Caller>, o: ObjId, half: Half) {
    && (forall a :: a in calls && calls[a].Moving? && calls[a].o == o ==> half == By(a, calls[a].to))
    && (half.By? ==> half.a in calls && calls[half.a] == Moving(o, half.to))
  }

  ghost predicate ApartInv(w: World) {
    && (forall o :: o in w.objs ==> ThreadOk(w.home, w.objs[o]))
    && (forall o :: o in w.objs ==> CallsOk(w.calls, o, w.objs[o].half))
    && (forall a :: a in w.calls && w.calls[a].Moving? ==> w.calls[a].o in w.objs)
  }

  lemma StepCalls(w: World, e: Action, w': World)
    requires Step(w, e, w') && Apart(w, e)
    requires forall o :: o in w.objs ==> CallsOk(w.calls, o, w.objs[o].half)
    requires forall a :: a in w.calls && w.calls[a].Moving? ==> w.calls[a].o in w.objs
    ensures forall o :: o in w'.objs ==> CallsOk(w'.calls, o, w'.objs[o].half)
    ensures forall a :: a in w'.calls && w'.calls[a].Moving? ==> w'.calls[a].o in w'.objs
  {
    forall o | o in w'.objs ensures CallsOk(w'.calls, o, w'.objs[o].half) {
      assert o in w.objs ==> CallsOk(w.calls, o, w.objs[o].half);
    }
  }

  lemma NewOk(w: World, c: SceneId)
    requires c in w.home
    ensures ThreadOk(w.home, NewObj(w, c))
  {
    assert Paired(w.home, [In(c)][1..], None, Nobody);
  }

  lemma BecameOk(w: World, e: Action, o: ObjId, x: Obj, y: Obj)
    requires ThreadOk(w.home, x) && Became(w, e, o, x, y) && (e.MoveFirst? && e.o == o ==> x.half == Nobody)
    requires CallsOk(w.calls, o, x.half)
    ensures ThreadOk(w.home, y)
  {
    if y == x {
    } else if e.MoveFirst? && e.o == o && e.c in w.home && y == Post(x, Out(e.c)).(half := By(e.a, e.c)) {
      FirstOk(w.home, x, e.a, e.c);
    } else if e.MoveSecond? && e.a in w.calls && w.calls[e.a].Moving? && w.calls[e.a].o == o
        && y == Post(x, In(w.calls[e.a].to)).(half := Nobody) {
      SecondOk(w.home, x, e.a, w.calls[e.a].to);
    } else if e == RunJob(o) && !x.marked && x.queue != []
        && y == NextObj(w.home, x.(queue := x.queue[1..]), x.queue[0]) {
      JobOk(w.home, x, y, x.queue[0]);
    } else {
      var job: Job :| !job.Out? && !job.In? && y == Post(x, job);
      PostOk(w.home, x, job);
    }
  }

  lemma StepApart(w: World, e: Action, w': World)
    requires ApartInv(w) && Step(w, e, w') && Apart(w, e)
    ensures ApartInv(w') && AtHome(w, e)
  {
    StepHome(w, e, w');
    forall o | o in w'.objs ensures ThreadOk(w'.home, w'.objs[o]) {
      if o in w.objs {
        StepBecame(w, e, w', o);
        BecameOk(w, e, o, w.objs[o], w'.objs[o]);
      } else {
        NewOk(w, e.c);
      }
    }
    StepCalls(w, e, w');
    if e.RunJob? {
      JobOk(w.home, w.objs[e.o], w'.objs[e.o], NextJob(w, e.o));
    }
  }

  lemma {:induction false} ApartRunInv(tr: seq<World>, n: nat)
    requires RunApart(tr) && n < |tr|
    ensures ApartInv(tr[n])
  {
    if n > 0 {
      ApartRunInv(tr, n - 1);
      assert NextApart(tr[n - 1], tr[n - 1 + 1]);
      var e :| Step(tr[n - 1], e, tr[n]) && Apart(tr[n - 1], e);
      StepApart(tr[n - 1], e, tr[n]);
    }
  }

  /** Callers that keep moves apart ensure that scenes are entered and left on their own threads. */
  lemma ApartIsAtHome(tr: seq<World>)
    requires RunApart(tr)
    ensures RunAtHome(tr)
  {
    forall i | 0 <= i < |tr| - 1 ensures NextAtHome(tr[i], tr[i + 1]) {
      ApartRunInv(tr, i);
      assert NextApart(tr[i], tr[i + 1]);
      var e :| Step(tr[i], e, tr[i + 1]) && Apart(tr[i], e);
      StepApart(tr[i], e, tr[i + 1]);
    }
  }

  /** An object on its way to a scene has left the one it was in. */
  ghost predicate Between(x: Obj) { x.entered && x.open.Some? ==> x.scene == None }

  ghost predicate AllBetween(w: World) { forall o :: o in w.objs ==> Between(w.objs[o]) }

  lemma StepBetween(w: World, e: Action, w': World)
    requires ApartInv(w) && AllBetween(w) && Step(w, e, w') && Elsewhere(w, e)
    ensures AllBetween(w') && Vacant(w, e)
  {
    StepHome(w, e, w');
    forall o | o in w'.objs ensures Between(w'.objs[o]) {
      if o in w.objs {
        StepBecame(w, e, w', o);
        BecameBetween(w, e, o, w.objs[o], w'.objs[o]);
      }
    }
  }

  lemma BecameBetween(w: World, e: Action, o: ObjId, x: Obj, y: Obj)
    requires o in w.objs && w.objs[o] == x && ThreadOk(w.home, x) && Between(x) && Became(w, e, o, x, y)
    requires Elsewhere(w, e)
    ensures Between(y)
  {
    if e == RunJob(o) && !x.marked && x.queue != [] {
      assert CanRun(w, o) && NextJob(w, o) == x.queue[0];
    }
  }

  lemma {:induction false} BetweenRun(tr: seq<World>, n: nat)
    requires RunElsewhere(tr) && RunApart(tr) && n < |tr|
    ensures ApartInv(tr[n]) && AllBetween(tr[n])
  {
    ApartRunInv(tr, n);
    if n > 0 {
      BetweenRun(tr, n - 1);
      assert NextElsewhere(tr[n - 1], tr[n - 1 + 1]);
      var e :| Step(tr[n - 1], e, tr[n]) && Apart(tr[n - 1], e) && Elsewhere(tr[n - 1], e);
      StepBetween(tr[n - 1], e, tr[n]);
    }
  }

  /** Callers that keep moves apart and move only to different scenes ensure membership. */
  lemma ElsewhereIsVacant(tr: seq<World>)
    requires RunElsewhere(tr)
    ensures RunVacant(tr) && RunAtHome(tr)
  {
    forall i | 0 <= i < |tr| - 1 ensures NextApart(tr[i], tr[i + 1]) {
      assert NextElsewhere(tr[i], tr[i + 1]);
    }
    ApartIsAtHome(tr);
    forall i | 0 <= i < |tr| - 1 ensures NextVacant(tr[i], tr[i + 1]) {
      BetweenRun(tr, i);
      assert NextElsewhere(tr[i], tr[i + 1]);
      var e :| Step(tr[i], e, tr[i + 1]) && Apart(tr[i], e) && Elsewhere(tr[i], e);
      StepBetween(tr[i], e, tr[i + 1]);
    }
  }

  // ----- runs of an object's jobs -----

  ghost function Steps(): (World, World) -> bool { (w, w') => Next(w, w') }

  /** The next `k` jobs of the object have run. */
  function RanMany(w: World, o: ObjId, k: nat): World
    decreases k
  {
    if k == 0 || o !in w.objs || w.objs[o].queue == [] then w else RanMany(Ran(w, o), o, k - 1)
  }

  /** They can run one after another, as long as none of them is a `Destroy`. */
  lemma {:induction false} RanManyIsRun(good: World -> bool, w: World, o: ObjId, k: nat)
    requires Closed(Steps(), good) && good(w) && o in w.objs && !w.objs[o].marked && k <= |w.objs[o].queue|
    requires forall i :: 0 <= i < k ==> !w.objs[o].queue[i].Destroy?
    ensures good(RanMany(w, o, k))
    decreases k
  {
    if k > 0 {
      assert Step(w, RunJob(o), Ran(w, o));
      assert Steps()(w, Ran(w, o));
      RanManyIsRun(good, Ran(w, o), o, k - 1);
    }
  }

  lemma OneJob(w: World, o: ObjId, x: Obj, job: Job, rest: seq<Job>, c: SceneId)
    requires o in w.objs && w.objs[o] == x && x.queue == [job] + rest && c in w.lists
    ensures var w' := Ran(w, o);
      && o in w'.objs && w'.objs[o] == NextObj(w.home, x.(queue := rest), job) && w'.home == w.home
      && c in w'.lists && w'.visits == w.visits + Visits(x.(queue := rest), job)
      && Times(w'.lists, c, o) == Changed(Times(w.lists, c, o), Leaves(x, job), Joins(job), c, o, o)
  {
    assert x.queue[1..] == rest;
    RanCounts(w.lists, Leaves(x, job), Joins(job), o, c, o);
  }

  // ----- one move -----

  /** The object is in scene `n`, listed once, or in no scene and not listed there. */
  ghost predicate HereOrNowhere(w: World, o: ObjId, n: SceneId, here: bool) {
    && o in w.objs && n in w.lists
    && w.objs[o].entered && w.objs[o].scene == (if here then Some(n) else None) && Times(w.lists, n, o) == One(here)
  }

  /** Jobs between the two of a move: an `ExitScene` among them takes the object out. */
  lemma {:induction false} BetweenJobs(w: World, o: ObjId, n: SceneId, here: bool, mid: seq<Job>, rest: seq<Job>)
    requires HereOrNowhere(w, o, n, here) && w.objs[o].queue == mid + rest
    requires forall i :: 0 <= i < |mid| ==> mid[i].Exit? || mid[i].Other?
    ensures HereOrNowhere(RanMany(w, o, |mid|), o, n, here && Exit !in mid)
    ensures RanMany(w, o, |mid|).objs[o].queue == rest
    decreases |mid|
  {
    if mid == [] {
      assert mid + rest == rest;
    } else {
      var tail := mid[1..];
      assert mid + rest == [mid[0]] + (tail + rest);
      OneJob(w, o, w.objs[o], mid[0], tail + rest, n);
      BetweenJobs(Ran(w, o), o, n, here && !mid[0].Exit?, tail, rest);
      assert Exit in mid <==> mid[0].Exit? || Exit in tail;
    }
  }

  lemma {:induction false} OneMore(w: World, o: ObjId, k: nat)
    requires o in RanMany(w, o, k).objs && RanMany(w, o, k).objs[o].queue != []
    ensures RanMany(w, o, k + 1) == Ran(RanMany(w, o, k), o)
    decreases k
  {
    if k == 0 {
      assert RanMany(Ran(w, o), o, 0) == Ran(w, o);
    } else if o in w.objs && w.objs[o].queue != [] {
      OneMore(Ran(w, o), o, k - 1);
    }
  }

  lemma AfterOut(w: World, o: ObjId, n: SceneId, rest: seq<Job>)
    requires o in w.objs && w.objs[o].queue == [Out(n)] + rest && w.objs[o].entered
    requires n in w.lists && n in w.home && MemberOk(w.lists, o, w.objs[o])
    ensures HereOrNowhere(Ran(w, o), o, n, w.objs[o].scene == Some(n)) && Ran(w, o).objs[o].queue == rest
  {
    OneJob(w, o, w.objs[o], Out(n), rest, n);
  }

  lemma AfterIn(w: World, o: ObjId, n: SceneId, here: bool, rest: seq<Job>)
    requires HereOrNowhere(w, o, n, here) && w.objs[o].queue == [In(n)] + rest
    ensures n in Ran(w, o).lists && Times(Ran(w, o).lists, n, o) == 1 + One(here)
  {
    OneJob(w, o, w.objs[o], In(n), rest, n);
  }

  /** The two jobs of a move leave the object listed once by the target, unless it was there when the first one ran
      and no `ExitScene` ran between them: then it is listed twice. */
  lemma MoveListsOnceExactlyWhen(w: World, o: ObjId, n: SceneId, mid: seq<Job>, rest: seq<Job>)
    requires o in w.objs && w.objs[o].queue == [Out(n)] + (mid + ([In(n)] + rest)) && w.objs[o].entered
    requires n in w.lists && n in w.home && MemberOk(w.lists, o, w.objs[o])
    requires forall i :: 0 <= i < |mid| ==> mid[i].Exit? || mid[i].Other?
    ensures var w' := RanMany(w, o, |mid| + 2);
      n in w'.lists && Times(w'.lists, n, o) == if w.objs[o].scene == Some(n) && Exit !in mid then 2 else 1
  {
    var here, tail := w.objs[o].scene == Some(n), [In(n)] + rest;
    AfterOut(w, o, n, mid + tail);
    BetweenJobs(Ran(w, o), o, n, here, mid, tail);
    var w2 := RanMany(w, o, |mid| + 1);
    assert w2 == RanMany(Ran(w, o), o, |mid|);
    AfterIn(w2, o, n, here && Exit !in mid, rest);
    OneMore(w, o, |mid| + 1);
  }

  // ----- two moves at the same time -----

  /** The jobs of two moves, to `a` and to `b`, whose posts interleave; the calls finish in either order. */
  function Interleaved(a: SceneId, b: SceneId, swapped: bool): seq<Job> {
    [Out(a), Out(b)] + if swapped then [In(b), In(a)] else [In(a), In(b)]
  }

  /** After the first two of these jobs the object is in no scene, unless both moves target the scene it is in. */
  lemma BothOut(w: World, o: ObjId, a: SceneId, b: SceneId, ins: seq<Job>, c: SceneId)
    requires o in w.objs && w.objs[o].queue == [Out(a)] + ([Out(b)] + ins) && w.objs[o].entered
    requires a in w.home && b in w.home && c in w.lists && MemberOk(w.lists, o, w.objs[o])
    ensures var w2 := RanMany(w, o, 2);
      && o in w2.objs && w2.objs[o].queue == ins && w2.objs[o].entered && c in w2.lists && w2.home == w.home
      && w2.objs[o].scene == (if a == b && w.objs[o].scene == Some(a) then Some(a) else None)
      && Times(w2.lists, c, o) == One(a == b == c && w.objs[o].scene == Some(a))
      && (a != b ==> w2.objs[o].thread == w.home[b])
  {
    OneJob(w, o, w.objs[o], Out(a), [Out(b)] + ins, c);
    var w1 := Ran(w, o);
    OneJob(w1, o, w1.objs[o], Out(b), ins, c);
    assert RanMany(w1, o, 1) == RanMany(Ran(w1, o), o, 0) == Ran(w1, o);
  }

  /** An entry lists the object once more. */
  lemma BothIn(w: World, o: ObjId, p: SceneId, q: SceneId, rest: seq<Job>, c: SceneId)
    requires o in w.objs && w.objs[o].queue == [In(p)] + ([In(q)] + rest) && c in w.lists
    ensures var w2 := RanMany(w, o, 2);
      && c in w2.lists && Times(w2.lists, c, o) == Times(w.lists, c, o) + One(p == c) + One(q == c)
      && Visit(p, w.objs[o].thread) in w2.visits && Visit(q, w.objs[o].thread) in w2.visits
  {
    var x := w.objs[o];
    OneJob(w, o, x, In(p), [In(q)] + rest, c);
    var w1 := Ran(w, o);
    OneJob(w1, o, w1.objs[o], In(q), rest, c);
    assert RanMany(w1, o, 1) == RanMany(Ran(w1, o), o, 0) == Ran(w1, o);
    var last := Ran(w1, o).visits;
    assert last[|w.visits|] == Visit(p, x.thread) && last[|w.visits| + 1] == Visit(q, x.thread);
  }

  lemma {:induction false} Splits(w: World, o: ObjId, k: nat, j: nat)
    ensures RanMany(w, o, k + j) == RanMany(RanMany(w, o, k), o, j)
    decreases k
  {
    if k > 0 && o in w.objs && w.objs[o].queue != [] {
      Splits(Ran(w, o), o, k - 1, j);
    }
  }

  /** Two moves whose posts interleave, wherever the object was: to different scenes, they leave it in both, and the
      scene of the first one is entered on the thread of the second; to the same scene, they leave it there twice, and
      three times if it was there before. */
  lemma InterleavedMoves(w: World, o: ObjId, a: SceneId, b: SceneId, swapped: bool, rest: seq<Job>)
    requires o in w.objs && w.objs[o].queue == Interleaved(a, b, swapped) + rest && w.objs[o].entered
    requires a in w.home && b in w.home && w.lists.Keys == w.home.Keys && MemberOk(w.lists, o, w.objs[o])
    ensures var last := RanMany(w, o, 4);
      && a in last.lists && b in last.lists
      && (a != b ==> Times(last.lists, a, o) == Times(last.lists, b, o) == 1 && Visit(a, w.home[b]) in last.visits)
      && (a == b ==> Times(last.lists, a, o) == 2 + One(w.objs[o].scene == Some(a)))
  {
    var p, q := if swapped then b else a, if swapped then a else b;
    assert w.objs[o].queue == [Out(a)] + ([Out(b)] + ([In(p)] + ([In(q)] + rest)));
    FourJobs(w, o, a, b, p, q, rest, a);
    FourJobs(w, o, a, b, p, q, rest, b);
  }

  lemma FourJobs(w: World, o: ObjId, a: SceneId, b: SceneId, p: SceneId, q: SceneId, rest: seq<Job>, c: SceneId)
    requires o in w.objs && w.objs[o].queue == [Out(a)] + ([Out(b)] + ([In(p)] + ([In(q)] + rest))) && w.objs[o].entered
    requires a in w.home && b in w.home && c in w.lists && MemberOk(w.lists, o, w.objs[o])
    ensures var last := RanMany(w, o, 4);
      && c in last.lists
      && Times(last.lists, c, o) == One(a == b == c && w.objs[o].scene == Some(a)) + One(p == c) + One(q == c)
      && (a != b ==> Visit(p, w.home[b]) in last.visits && Visit(q, w.home[b]) in last.visits)
  {
    BothOut(w, o, a, b, [In(p)] + ([In(q)] + rest), c);
    BothIn(RanMany(w, o, 2), o, p, q, rest, c);
    Splits(w, o, 2, 2);
  }

  // ----- a run -----

  ghost function First(w: World, o: ObjId, c: nat, a: SceneId): World
    requires o in w.objs
  {
    w.(objs := w.objs[o := Post(w.objs[o], Out(a)).(half := By(c, a))], calls := w.calls[c := Moving(o, a)])
  }

  ghost function Second(w: World, o: ObjId, c: nat, a: SceneId): World
    requires o in w.objs
  {
    w.(objs := w.objs[o := Post(w.objs[o], In(a)).(half := Nobody)], calls := w.calls[c := Free])
  }

  /** Two callers that move an object at the same time can post their jobs so, in either order. */
  lemma MovesCanInterleave(good: World -> bool, w: World, o: ObjId, c: nat, d: nat, a: SceneId, b: SceneId,
                           swapped: bool)
    returns (w': World)
    requires Closed(Steps(), good) && good(w) && o in w.objs && !w.objs[o].marked && a in w.home && b in w.home
    requires c in w.calls && d in w.calls && c != d && w.calls[c] == Free == w.calls[d]
    ensures good(w') && w' == w.(objs := w'.objs, calls := w'.calls) && o in w'.objs
    ensures w'.objs[o] == w.objs[o].(queue := w.objs[o].queue + Interleaved(a, b, swapped), half := Nobody)
  {
    PostsFirst(good, w, o, c, a);
    var w1 := First(w, o, c, a);
    PostsFirst(good, w1, o, d, b);
    var w2 := First(w1, o, d, b);
    if swapped {
      PostsSecond(good, w2, o, d, b);
      PostsSecond(good, Second(w2, o, d, b), o, c, a);
      w' := Second(Second(w2, o, d, b), o, c, a);
    } else {
      PostsSecond(good, w2, o, c, a);
      PostsSecond(good, Second(w2, o, c, a), o, d, b);
      w' := Second(Second(w2, o, c, a), o, d, b);
    }
  }

  lemma PostsFirst(good: World -> bool, w: World, o: ObjId, c: nat, a: SceneId)
    requires Closed(Steps(), good) && good(w) && o in w.objs && a in w.home && c in w.calls && w.calls[c] == Free
    ensures good(First(w, o, c, a))
  {
    assert Step(w, MoveFirst(c, o, a), First(w, o, c, a));
    assert Steps()(w, First(w, o, c, a));
  }

  lemma PostsSecond(good: World -> bool, w: World, o: ObjId, c: nat, a: SceneId)
    requires Closed(Steps(), good) && good(w) && o in w.objs && c in w.calls && w.calls[c] == Moving(o, a)
    ensures good(Second(w, o, c, a))
  {
    assert Step(w, MoveSecond(c), Second(w, o, c, a));
    assert Steps()(w, Second(w, o, c, a));
  }

  /** Three scenes, each on a thread of its own, and two callers. */
  ghost function Start(): World {
    World(map[1 := 1, 2 := 2, 3 := 3], map[1 := [], 2 := [], 3 := []], map[], map[0 := Free, 1 := Free], [],
          Manager([], 0, map[], 1, map[]))
  }

  /** Object 0 is created in scene 3 and enters it. */
  lemma Enters(good: World -> bool) returns (w: World)
    requires Closed(Steps(), good) && good(Start())
    ensures good(w) && w.home == Start().home && w.lists.Keys == Start().home.Keys && w.calls == Start().calls
    ensures 0 in w.objs && !w.objs[0].marked && w.objs[0].entered && w.objs[0].queue == []
    ensures MemberOk(w.lists, 0, w.objs[0])
  {
    var m := Start().manager;
    var w1 := Start().(objs := map[0 := NewObj(Start(), 3)], manager := m.(nextSn := 2, owner := map[1 := 0]));
    assert Step(Start(), Create(0, 3), w1);
    assert Steps()(Start(), w1);
    w := Ran(w1, 0);
    assert Step(w1, RunJob(0), w);
    assert Steps()(w1, w);
  }

  /** There is a run at whose end an object is in two scenes, one of which it entered on the thread of the other. */
  lemma InTwoScenes() returns (tr: seq<World>)
    ensures Run(tr) && var w := tr[|tr| - 1];
      && 1 in w.lists && 2 in w.lists && 0 in w.lists[1] && 0 in w.lists[2]
      && w.home == map[1 := 1, 2 := 2, 3 := 3] && Visit(1, 2) in w.visits
  {
    var good := From(Steps(), Start());
    FromIsClosed(Steps(), Start());
    var last := UntilInTwoScenes(good);
    tr :| Path(Steps(), tr) && tr[0] == Start() && tr[|tr| - 1] == last;
  }

  lemma UntilInTwoScenes(good: World -> bool) returns (w: World)
    requires Closed(Steps(), good) && good(Start())
    ensures good(w) && 1 in w.lists && 2 in w.lists && 0 in w.lists[1] && 0 in w.lists[2]
    ensures w.home == map[1 := 1, 2 := 2, 3 := 3] && Visit(1, 2) in w.visits
  {
    w := Enters(good);
    w := MovesCanInterleave(good, w, 0, 0, 1, 1, 2, false);
    assert w.objs[0].queue == Interleaved(1, 2, false) + [];
    InterleavedMoves(w, 0, 1, 2, false, []);
    RanManyIsRun(good, w, 0, 4);
    HomeStays(w, 0, 4);
    w := RanMany(w, 0, 4);
    assert Times(w.lists, 1, 0) == Times(w.lists, 2, 0) == 1;
  }

  lemma {:induction false} HomeStays(w: World, o: ObjId, k: nat)
    ensures RanMany(w, o, k).home == w.home
    decreases k
  {
    if k > 0 && o in w.objs && w.objs[o].queue != [] {
      HomeStays(Ran(w, o), o, k - 1);
    }
  }
}
