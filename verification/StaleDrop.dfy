/** A message can be dropped although the ring is empty: `LogAsync` compares a write index and a read index that it
    loaded at different moments. A run of two producers, 0 and 1, and the consumer. */
module StaleDrop {
  import opened Runs
  import opened LoggerRing

  ghost function Steps(): (System, System) -> bool { (s, s') => Next(s, s') && Bounded(s') }

  ghost function Two(x: Ring, p: Pc, q: Pc): System { System(x, map[0 := p, 1 := q]) }

  lemma First(good: System -> bool, x: Ring, p: Pc, q: Pc, m: Message) returns (y: Ring, p': Pc)
    requires Closed(Steps(), good) && good(Two(x, p, q)) && |x.slots| == RING_BUFFER_SIZE && x.w <= 1
    ensures y == NextRing(p, x, false) && p' == NextPc(p, x, m, false) && good(Two(y, p', q))
  {
    y, p' := NextRing(p, x, false), NextPc(p, x, m, false);
    assert Two(y, p', q).pcs == Two(x, p, q).pcs[0 := p'];
    assert Produces(Two(x, p, q), 0, m, false, Two(y, p', q));
    assert Next(Two(x, p, q), Two(y, p', q));
    assert Steps()(Two(x, p, q), Two(y, p', q));
  }

  lemma Second(good: System -> bool, x: Ring, p: Pc, q: Pc, m: Message) returns (y: Ring, q': Pc)
    requires Closed(Steps(), good) && good(Two(x, p, q)) && |x.slots| == RING_BUFFER_SIZE && x.w <= 1
    ensures y == NextRing(q, x, false) && q' == NextPc(q, x, m, false) && good(Two(y, p, q'))
  {
    y, q' := NextRing(q, x, false), NextPc(q, x, m, false);
    assert Two(y, p, q').pcs == Two(x, p, q).pcs[1 := q'];
    assert Produces(Two(x, p, q), 1, m, false, Two(y, p, q'));
    assert Next(Two(x, p, q), Two(y, p, q'));
    assert Steps()(Two(x, p, q), Two(y, p, q'));
  }

  lemma Consumes(good: System -> bool, x: Ring, p: Pc, q: Pc) returns (y: Ring)
    requires Closed(Steps(), good) && good(Two(x, p, q)) && |x.slots| == RING_BUFFER_SIZE && x.w <= 1
    ensures y == Consume(x) && good(Two(y, p, q))
  {
    y := Consume(x);
    assert Next(Two(x, p, q), Two(y, p, q));
    assert Steps()(Two(x, p, q), Two(y, p, q));
  }

  /** Producer 1 claims and publishes message 8 while producer 0 stands between its two loads. */
  lemma SecondLogs(good: System -> bool, x: Ring) returns (y: Ring)
    requires Closed(Steps(), good) && good(Two(x, Idle, Idle)) && |x.slots| == RING_BUFFER_SIZE
    requires x == Ring(0, 0, x.slots, Load, 0, 0, [], [], [], [])
    ensures good(Two(y, LoadRead(7, 0, 0), Idle)) && |y.slots| == RING_BUFFER_SIZE && y.slots[0].valid
    ensures y == Ring(1, 0, y.slots, Load, 1, 0, [8], [true], [], [])
  {
    var p, q;
    y, p := First(good, x, Idle, Idle, 7);
    y, p := First(good, y, p, Idle, 7);
    y, q := Second(good, y, p, Idle, 8);
    y, q := Second(good, y, p, q, 8);
    y, q := Second(good, y, p, q, 8);
    y, q := Second(good, y, p, q, 8);
    y, q := Second(good, y, p, q, 8);
    y, q := Second(good, y, p, q, 8);
  }

  /** The consumer processes it, and producer 0 loads the read index. */
  lemma FirstDrops(good: System -> bool, x: Ring) returns (y: Ring)
    requires Closed(Steps(), good) && good(Two(x, LoadRead(7, 0, 0), Idle)) && |x.slots| == RING_BUFFER_SIZE
    requires x.slots[0].valid
    requires x == Ring(1, 0, x.slots, Load, 1, 0, [8], [true], [], [])
    ensures good(Two(y, Idle, Idle)) && y.w == y.r == 1 && y.lost == [7]
  {
    var p;
    y := Consumes(good, x, LoadRead(7, 0, 0), Idle);
    y := Consumes(good, y, LoadRead(7, 0, 0), Idle);
    y := Consumes(good, y, LoadRead(7, 0, 0), Idle);
    y := Consumes(good, y, LoadRead(7, 0, 0), Idle);
    y := Consumes(good, y, LoadRead(7, 0, 0), Idle);
    y, p := First(good, y, LoadRead(7, 0, 0), Idle, 7);
  }

  /** There is a run at whose end message 7 was dropped although only one message was ever claimed, and that one
      has been consumed. */
  lemma DroppedWhenEmpty() returns (tr: seq<System>)
    ensures Run(tr) && tr[|tr| - 1].x.lost == [7] && tr[|tr| - 1].x.w == tr[|tr| - 1].x.r == 1
  {
    var x := Ring(0, 0, seq(RING_BUFFER_SIZE, _ => Slot(0, false)), Load, 0, 0, [], [], [], []);
    var start := Two(x, Idle, Idle);
    FromIsClosed(Steps(), start);
    var y := SecondLogs(From(Steps(), start), x);
    y := FirstDrops(From(Steps(), start), y);
    tr :| Path(Steps(), tr) && tr[0] == start && tr[|tr| - 1] == Two(y, Idle, Idle);
    forall i | 0 <= i < |tr| ensures Bounded(tr[i]) {
      assert i > 0 ==> Steps()(tr[i - 1], tr[i - 1 + 1]);
    }
    BoundedRunIsRun(tr);
  }
}
