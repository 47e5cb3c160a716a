/** Why "deleted once" is claimed only for objects that never change thread: `ProcessJobObjects` looks at the
    object again after `Flush` handed it to another thread. A run of one object, one caller (agent 0) and two
    job threads (agents 1 and 2) that ends with two deletions. */
module DoubleDelete {
  import opened Runs
  import opened JobScheduler

  ghost function Steps(): (System, System) -> bool { (s, s') => Next(s, s') }

  ghost function Small(x: Obj, q1: seq<ObjId>, q2: seq<ObjId>, ps: seq<Pc>): System {
    System(map[0 := x], map[1 := q1, 2 := q2], map a: nat | a < |ps| :: ps[a])
  }

  /** Agent `a` makes a step about the object that is no append. */
  lemma Go(good: System -> bool, x: Obj, q1: seq<ObjId>, q2: seq<ObjId>, ps: seq<Pc>, a: nat, c: Choice)
    returns (y: Obj, ps': seq<Pc>)
    requires Closed(Steps(), good)
    requires good(Small(x, q1, q2, ps)) && a < |ps| && ps[a].About(0) && !ps[a].Append?
    requires ps[a].FlushRun? ==> c == SetThread(2) || c == Mark || c == Return
    ensures y == NextObj(ps[a], x, a, c) && ps' == ps[a := NextPc(ps[a], x, c)]
    ensures good(Small(y, q1, q2, ps'))
  {
    y, ps' := NextObj(ps[a], x, a, c), ps[a := NextPc(ps[a], x, c)];
    var s, s' := Small(x, q1, q2, ps), Small(y, q1, q2, ps');
    assert s'.objs == s.objs[0 := y] && s'.pcs == s.pcs[a := ps'[a]];
    assert Step(s, a, c, s');
    assert Steps()(s, s');
  }

  /** The caller starts to post a job. */
  lemma Posts(good: System -> bool, x: Obj, q1: seq<ObjId>, q2: seq<ObjId>, ps: seq<Pc>, job: Job)
    returns (ps': seq<Pc>)
    requires Closed(Steps(), good)
    requires good(Small(x, q1, q2, ps)) && |ps| > 0 && ps[0].Idle?
    ensures ps' == ps[0 := PostCheck(0, job)] && good(Small(x, q1, q2, ps'))
  {
    ps' := ps[0 := PostCheck(0, job)];
    var s, s' := Small(x, q1, q2, ps), Small(x, q1, q2, ps');
    assert s'.pcs == s.pcs[0 := ps'[0]];
    assert Step(s, 0, Post(0, job), s');
    assert Steps()(s, s');
  }

  /** Agent `a` appends the object to the empty queue of thread `th`. */
  lemma Appends(good: System -> bool, x: Obj, th: Thread, ps: seq<Pc>, a: nat) returns (y: Obj, ps': seq<Pc>)
    requires Closed(Steps(), good)
    requires good(Small(x, [], [], ps)) && a < |ps| && ps[a].Append? && ps[a].o == 0 && ps[a].th == th && 1 <= th <= 2
    ensures y == x.(holder := Queued(th)) && ps' == ps[a := NextPc(ps[a], x, Return)]
    ensures good(Small(y, if th == 1 then [0] else [], if th == 2 then [0] else [], ps'))
  {
    y, ps' := x.(holder := Queued(th)), ps[a := NextPc(ps[a], x, Return)];
    var s, s' := Small(x, [], [], ps), Small(y, if th == 1 then [0] else [], if th == 2 then [0] else [], ps');
    assert s'.objs == s.objs[0 := y] && s'.pcs == s.pcs[a := ps'[a]];
    assert s.queues[th] + [0] == [0];
    assert s'.queues == s.queues[th := [0]];
    assert Step(s, a, Return, s');
    assert Steps()(s, s');
  }

  /** Thread `th` takes the object from its queue. */
  lemma Serves(good: System -> bool, x: Obj, th: Thread, ps: seq<Pc>) returns (y: Obj, ps': seq<Pc>)
    requires Closed(Steps(), good)
    requires 1 <= th <= 2 && th < |ps| && ps[th].Idle?
    requires good(Small(x, if th == 1 then [0] else [], if th == 2 then [0] else [], ps))
    ensures y == x.(holder := Draining(th)) && ps' == ps[th := FlushCheck(0)] && good(Small(y, [], [], ps'))
  {
    y, ps' := x.(holder := Draining(th)), ps[th := FlushCheck(0)];
    var s, s' := Small(x, if th == 1 then [0] else [], if th == 2 then [0] else [], ps), Small(y, [], [], ps');
    assert s'.objs == s.objs[0 := y] && s'.pcs == s.pcs[th := ps'[th]];
    assert s.queues[th][1..] == [];
    assert s'.queues == s.queues[th := []];
    assert Step(s, th, Serve, s');
    assert Steps()(s, s');
  }

  ghost function Beginning(): System {
    Small(Obj([], 0, false, false, 1, [], [], false, 0, Nobody), [], [], [Idle, Idle, Idle])
  }

  /** The object as the caller leaves it: two jobs posted, waiting for thread 1. */
  ghost function Waiting(): Obj { Obj([7, 8], 2, true, false, 1, [7, 8], [], false, 0, Queued(1)) }

  lemma CallerPostsTwice(good: System -> bool)
    requires Closed(Steps(), good) && good(Beginning())
    ensures good(Small(Waiting(), [0], [], [Idle, Idle, Idle]))
  {
    var x := Obj([], 0, false, false, 1, [], [], false, 0, Nobody);
    var ps := [Idle, Idle, Idle];
    ps := Posts(good, x, [], [], ps, 7);
    x, ps := Go(good, x, [], [], ps, 0, Return);
    x, ps := Go(good, x, [], [], ps, 0, Return);
    x, ps := Go(good, x, [], [], ps, 0, Return);
    x, ps := Go(good, x, [], [], ps, 0, Return);
    x, ps := Go(good, x, [], [], ps, 0, Return);
    x, ps := Appends(good, x, 1, ps, 0);
    assert ps == [Idle, Idle, Idle];
    ps := Posts(good, x, [0], [], ps, 8);
    x, ps := Go(good, x, [0], [], ps, 0, Return);
    x, ps := Go(good, x, [0], [], ps, 0, Return);
    x, ps := Go(good, x, [0], [], ps, 0, Return);
    x, ps := Go(good, x, [0], [], ps, 0, Return);
    assert ps == [Idle, Idle, Idle];
    assert x == Waiting();
  }

  /** Job 7 moved the object to thread 2; thread 1 has handed it on and will look at it once more. */
  ghost function HandedOn(): Obj {
    Obj([8], 1, true, false, 2, [7, 8], [Start(7, 1, 1)], true, 0, Queued(2))
  }

  lemma FirstThreadHandsOn(good: System -> bool)
    requires Closed(Steps(), good) && good(Beginning())
    ensures good(Small(HandedOn(), [], [0], [Idle, AfterFlush(0), Idle]))
  {
    CallerPostsTwice(good);
    var x, ps := Serves(good, Waiting(), 1, [Idle, Idle, Idle]);
    x, ps := Go(good, x, [], [], ps, 1, Return);
    x, ps := Go(good, x, [], [], ps, 1, Return);
    x, ps := Go(good, x, [], [], ps, 1, Return);
    x, ps := Go(good, x, [], [], ps, 1, Return);
    x, ps := Go(good, x, [], [], ps, 1, SetThread(2));
    x, ps := Go(good, x, [], [], ps, 1, Return);
    x, ps := Go(good, x, [], [], ps, 1, Return);
    x, ps := Go(good, x, [], [], ps, 1, Return);
    x, ps := Go(good, x, [], [], ps, 1, Return);
    x, ps := Appends(good, x, 2, ps, 1);
    assert ps == [Idle, AfterFlush(0), Idle];
    assert x == HandedOn();
  }

  /** Job 8 marked the object and thread 2 deleted it. */
  lemma SecondThreadDeletes(good: System -> bool) returns (x: Obj)
    requires Closed(Steps(), good) && good(Beginning())
    ensures good(Small(x, [], [], [Idle, AfterFlush(0), Idle])) && x.marked && x.deleted == 1
  {
    FirstThreadHandsOn(good);
    var ps;
    x, ps := Serves(good, HandedOn(), 2, [Idle, AfterFlush(0), Idle]);
    x, ps := Go(good, x, [], [], ps, 2, Return);
    x, ps := Go(good, x, [], [], ps, 2, Return);
    x, ps := Go(good, x, [], [], ps, 2, Return);
    x, ps := Go(good, x, [], [], ps, 2, Return);
    x, ps := Go(good, x, [], [], ps, 2, Mark);
    x, ps := Go(good, x, [], [], ps, 2, Return);
    x, ps := Go(good, x, [], [], ps, 2, Return);
    x, ps := Go(good, x, [], [], ps, 2, Return);
    x, ps := Go(good, x, [], [], ps, 2, Return);
    assert ps == [Idle, AfterFlush(0), Idle];
  }

  lemma BothDelete(good: System -> bool) returns (s: System)
    requires Closed(Steps(), good) && good(Beginning())
    ensures good(s) && 0 in s.objs && s.objs[0].deleted == 2
  {
    var x := SecondThreadDeletes(good);
    var ps := [Idle, AfterFlush(0), Idle];
    x, ps := Go(good, x, [], [], ps, 1, Return);
    x, ps := Go(good, x, [], [], ps, 1, Return);
    s := Small(x, [], [], ps);
  }

  /** There is a run in which an object that a job moved to another thread is deleted twice. */
  lemma MovedObjectDeletedTwice() returns (tr: seq<System>)
    ensures Run(tr) && 0 in tr[|tr| - 1].objs && tr[|tr| - 1].objs[0].deleted == 2
  {
    FromIsClosed(Steps(), Beginning());
    var last := BothDelete(From(Steps(), Beginning()));
    tr :| Path(Steps(), tr) && tr[0] == Beginning() && tr[|tr| - 1] == last;
  }
}
