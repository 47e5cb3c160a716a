/** Why the queue needs its second hypothesis: the exchange of a `next` field compares with an unstamped null, so an
    `Enqueue` can win it on a node that was freed and that another `Enqueue` now prepares. A run of two threads, within
    the first hypothesis, at whose end the values of one thread's two calls are in the queue in the wrong order. */
module ReusedTailNode {
  import opened Runs
  import opened Stamps
  import opened Ownership
  import opened LockFreeQueue
  import opened Reference
  import Treiber

  /** A run that respects the bound on exchanges, but not the second hypothesis. */
  ghost predicate BoundedRun(tr: seq<Queue>) {
    && tr != [] && Init(tr[0])
    && (forall i :: 0 <= i < |tr| - 1 ==> Next(tr[i], tr[i + 1]))
    && (forall i :: 0 <= i < |tr| ==> Bounded(tr[i]))
  }

  ghost function Steps(): (Queue, Queue) -> bool { (s, s') => Next(s, s') && Bounded(s') }

  lemma PositionsGrow(s: Queue, t: nat, pc: Pc, p: Address, v: Value)
    ensures Do(s, t, pc, p, v).tpos <= s.tpos + 1 && Do(s, t, pc, p, v).hpos <= s.hpos + 1
  {}

  lemma Go(good: Queue -> bool, s: Queue, t: nat, p: Address, v: Value, enq: bool) returns (s': Queue)
    requires Closed(Steps(), good) && good(s) && t in s.pcs && s.tpos <= 2 && s.hpos <= 1
    requires s.pcs[t].EnqAlloc? ==> p != NULL && (p in s.owner ==> s.owner[p] == Client)
    ensures s' == Do(s, t, s.pcs[t], p, v).Go(t, NextPc(s, s.pcs[t], p, v, enq)) && good(s')
  {
    s' := Do(s, t, s.pcs[t], p, v).Go(t, NextPc(s, s.pcs[t], p, v, enq));
    PositionsGrow(s, t, s.pcs[t], p, v);
    assert Bounded(s');
    assert Step(s, t, p, v, enq, s');
    assert Steps()(s, s');
  }

  /** An `Enqueue` of thread `t` up to its link exchange: node `p` holds `v`, the tail node has no successor. */
  ghost function Prepared(s: Queue, t: nat, p: Address, v: Value): Queue {
    s.Give(p, Call(t)).(next := s.next[p := NULL], data := s.data[p := v],
                        pcs := s.pcs[t := EnqLink(p, v, s.tail, s.tpos)])
  }

  lemma Prepares(good: Queue -> bool, s: Queue, t: nat, p: Address, v: Value)
    requires Closed(Steps(), good) && good(s) && t in s.pcs && s.pcs[t].Idle? && s.tpos <= 2 && s.hpos <= 1
    requires p != NULL && (p in s.owner ==> s.owner[p] == Client) && Treiber.Load(s.next, s.tail.addr) == NULL
    ensures good(Prepared(s, t, p, v))
  {
    Allocates(good, s, t, p, v);
    var s' := Go(good, Allocated(s, t, p, v), t, p, v, true);
    s' := Go(good, s', t, p, v, true);
    assert s'.pcs == Prepared(s, t, p, v).pcs;
  }

  ghost function Allocated(s: Queue, t: nat, p: Address, v: Value): Queue {
    Prepared(s, t, p, v).(pcs := s.pcs[t := EnqRead(p, v)])
  }

  lemma Allocates(good: Queue -> bool, s: Queue, t: nat, p: Address, v: Value)
    requires Closed(Steps(), good) && good(s) && t in s.pcs && s.pcs[t].Idle? && s.tpos <= 2 && s.hpos <= 1
    requires p != NULL && (p in s.owner ==> s.owner[p] == Client)
    ensures good(Allocated(s, t, p, v))
  {
    var s' := Go(good, s, t, NULL, v, true);
    s' := Go(good, s', t, p, v, true);
    s' := Go(good, s', t, p, v, true);
    assert s'.data == Allocated(s, t, p, v).data;
    assert s'.pcs == Allocated(s, t, p, v).pcs;
  }

  /** The rest of an `Enqueue` whose link exchange wins. */
  ghost function Returned(s: Queue, t: nat, p: Address, v: Value, ct: Word): Queue {
    s.LinkLast(ct.addr, p, v).SwingTail(ct, p).(count := s.count + 1, counted := s.counted + 1, pcs := s.pcs[t := Idle])
  }

  lemma Returns(good: Queue -> bool, s: Queue, t: nat, p: Address, v: Value, ct: Word, tv: nat)
    requires Closed(Steps(), good) && good(s) && t in s.pcs && s.tpos <= 2 && s.hpos <= 1
    requires s.pcs[t] == EnqLink(p, v, ct, tv) && Links(s, s.pcs[t])
    ensures good(Returned(s, t, p, v, ct))
  {
    var linked := Go(good, s, t, NULL, 0, true);
    var s' := Counts(good, linked, t, p, ct, tv);
    assert s'.pcs == Returned(s, t, p, v, ct).pcs;
  }

  lemma Counts(good: Queue -> bool, s: Queue, t: nat, p: Address, ct: Word, tv: nat) returns (s': Queue)
    requires Closed(Steps(), good) && good(s) && t in s.pcs && s.tpos <= 2 && s.hpos <= 1
    requires s.pcs[t] == EnqCount(p, ct, tv)
    ensures s' == s.SwingTail(ct, p).(count := s.count + 1, counted := s.counted + 1, pcs := s.pcs[t := Idle])
    ensures good(s')
  {
    s' := Go(good, s, t, NULL, 0, true);
    s' := Go(good, s', t, NULL, 0, true);
    assert s'.pcs == s.pcs[t := Idle];
  }

  ghost function Start(): Queue {
    Queue(Word(0, 1), Word(0, 1), map[1 := NULL], map[1 := 0], 0, map[0 := Idle, 1 := Idle],
          [1], [], 0, 0, map[1 := Listed], [], 0, 0)
  }

  /** Both threads are about to link behind node 1: thread 0 its node 2 with 10, thread 1 its node 3 with 20. */
  ghost function BothPrepared(): Queue {
    Queue(Word(0, 1), Word(0, 1), map[1 := NULL, 2 := NULL, 3 := NULL], map[1 := 0, 2 := 10, 3 := 20], 0,
          map[0 := EnqLink(2, 10, Word(0, 1), 0), 1 := EnqLink(3, 20, Word(0, 1), 0)],
          [1], [], 0, 0, map[1 := Listed, 2 := Call(0), 3 := Call(1)], [], 0, 0)
  }

  lemma BothPrepare(good: Queue -> bool)
    requires Closed(Steps(), good) && good(Start())
    ensures good(BothPrepared())
  {
    Prepares(good, Start(), 0, 2, 10);
    Prepares(good, Prepared(Start(), 0, 2, 10), 1, 3, 20);
    var s := Prepared(Prepared(Start(), 0, 2, 10), 1, 3, 20);
    assert s.next == BothPrepared().next && s.data == BothPrepared().data && s.owner == BothPrepared().owner;
    assert s.pcs == BothPrepared().pcs;
  }

  /** Thread 1 has enqueued its 20 and returned. */
  ghost function OneInQueue(): Queue {
    Queue(Word(0, 1), Word(1, 3), map[1 := 3, 2 := NULL, 3 := NULL], map[1 := 0, 2 := 10, 3 := 20], 1,
          map[0 := EnqLink(2, 10, Word(0, 1), 0), 1 := Idle],
          [1, 3], [20], 0, 1, map[1 := Listed, 2 := Call(0), 3 := Listed], [Put(20)], 1, 0)
  }

  lemma SecondThreadEnqueues(good: Queue -> bool)
    requires Closed(Steps(), good) && good(BothPrepared())
    ensures good(OneInQueue())
  {
    Returns(good, BothPrepared(), 1, 3, 20, Word(0, 1), 0);
    var s := Returned(BothPrepared(), 1, 3, 20, Word(0, 1));
    assert s.next == OneInQueue().next && s.owner == OneInQueue().owner && s.pcs == OneInQueue().pcs;
    assert s.hist == [1, 3] && s.vals == [20] && s.log == [Put(20)];
  }

  /** Thread 1 dequeues: it is past the gate and has copied the head word. */
  ghost function PastTheGate(): Queue {
    OneInQueue().(count := 0, passed := 1, pcs := map[0 := EnqLink(2, 10, Word(0, 1), 0), 1 := DeqTail(Word(0, 1), 0)])
  }

  lemma SecondThreadPasses(good: Queue -> bool)
    requires Closed(Steps(), good) && good(OneInQueue())
    ensures good(PastTheGate())
  {
    var s := Go(good, OneInQueue(), 1, NULL, 0, false);
    s := Go(good, s, 1, NULL, 0, true);
    s := Go(good, s, 1, NULL, 0, true);
    assert s.pcs == PastTheGate().pcs;
  }

  /** Thread 1 has seen that the tail is ahead and is about to take the head. */
  ghost function AboutToTake(): Queue {
    PastTheGate().(pcs := map[0 := EnqLink(2, 10, Word(0, 1), 0), 1 := DeqCas(Word(0, 1), 0, 3, 20)])
  }

  lemma SecondThreadReads(good: Queue -> bool)
    requires Closed(Steps(), good) && good(PastTheGate())
    ensures good(AboutToTake())
  {
    var s := Go(good, PastTheGate(), 1, NULL, 0, true);
    s := Go(good, s, 1, NULL, 0, true);
    s := Go(good, s, 1, NULL, 0, true);
    assert s.pcs == AboutToTake().pcs;
  }

  /** Thread 1 has dequeued the 20; node 1 is back in the pool. */
  ghost function Emptied(): Queue {
    Queue(Word(1, 3), Word(1, 3), map[1 := 3, 2 := NULL, 3 := NULL], map[1 := 0, 2 := 10, 3 := 20], 0,
          map[0 := EnqLink(2, 10, Word(0, 1), 0), 1 := Idle],
          [1, 3], [20], 1, 1, map[1 := Client, 2 := Call(0), 3 := Listed], [Put(20), Got(20)], 1, 1)
  }

  ghost function Taken(): Queue {
    Emptied().Give(1, Call(1)).(pcs := map[0 := EnqLink(2, 10, Word(0, 1), 0), 1 := DeqFree(1, 20)])
  }

  lemma SecondThreadTakes(good: Queue -> bool)
    requires Closed(Steps(), good) && good(AboutToTake())
    ensures good(Taken())
  {
    var s := Go(good, AboutToTake(), 1, NULL, 0, true);
    assert s.owner == Taken().owner && s.log == Taken().log;
    assert s.pcs == Taken().pcs;
  }

  lemma SecondThreadFrees(good: Queue -> bool)
    requires Closed(Steps(), good) && good(Taken())
    ensures good(Emptied())
  {
    var s := Go(good, Taken(), 1, NULL, 0, true);
    s := Go(good, s, 1, NULL, 0, true);
    assert s.owner == Emptied().owner;
    assert s.pcs == Emptied().pcs;
  }

  /** Thread 1 prepares node 1 again, now for value 30, and thread 0 still wants to link behind it. */
  ghost function Reused(): Queue {
    Queue(Word(1, 3), Word(1, 3), map[1 := NULL, 2 := NULL, 3 := NULL], map[1 := 0, 2 := 10, 3 := 20], 0,
          map[0 := EnqLink(2, 10, Word(0, 1), 0), 1 := EnqData(1, 30)],
          [1, 3], [20], 1, 1, map[1 := Call(1), 2 := Call(0), 3 := Listed], [Put(20), Got(20)], 1, 1)
  }

  lemma SecondThreadReuses(good: Queue -> bool)
    requires Closed(Steps(), good) && good(Emptied())
    ensures good(Reused())
  {
    var s := Go(good, Emptied(), 1, NULL, 30, true);
    s := Go(good, s, 1, 1, 0, true);
    assert s.next == Reused().next && s.data == Reused().data && s.owner == Reused().owner;
    assert s.pcs == Reused().pcs;
  }

  /** Thread 0 has linked node 2 behind node 1 and its `Enqueue` of 10 has returned. */
  ghost function TenReturned(): Queue {
    Queue(Word(1, 3), Word(1, 3), map[1 := 2, 2 := NULL, 3 := NULL], map[1 := 0, 2 := 10, 3 := 20], 1,
          map[0 := Idle, 1 := EnqData(1, 30)], [1, 3, 2], [20, 10], 1, 1,
          map[1 := Call(1), 2 := Listed, 3 := Listed], [Put(20), Got(20), Put(10)], 2, 1)
  }

  lemma FirstThreadReturns(good: Queue -> bool)
    requires Closed(Steps(), good) && good(Reused())
    ensures good(TenReturned())
  {
    Returns(good, Reused(), 0, 2, 10, Word(0, 1), 0);
    var s := Returned(Reused(), 0, 2, 10, Word(0, 1));
    assert s == Reused().LinkLast(1, 2, 10).(count := 1, counted := 2, pcs := s.pcs);
    assert s.next == TenReturned().next && s.owner == TenReturned().owner && s.pcs == TenReturned().pcs;
    assert s.hist == TenReturned().hist && s.vals == TenReturned().vals && s.log == TenReturned().log;
  }

  /** The `Enqueue` of 40 by thread 0, in node 4, has returned. */
  ghost function FortyReturned(): Queue {
    Queue(Word(1, 3), Word(2, 4), map[1 := 2, 2 := NULL, 3 := 4, 4 := NULL], map[1 := 0, 2 := 10, 3 := 20, 4 := 40], 2,
          map[0 := Idle, 1 := EnqData(1, 30)], [1, 3, 2, 4], [20, 10, 40], 1, 2,
          map[1 := Call(1), 2 := Listed, 3 := Listed, 4 := Listed],
          [Put(20), Got(20), Put(10), Put(40)], 3, 1)
  }

  lemma FirstThreadEnqueuesAgain(good: Queue -> bool)
    requires Closed(Steps(), good) && good(TenReturned())
    ensures good(FortyReturned())
  {
    Prepares(good, TenReturned(), 0, 4, 40);
    Returns(good, Prepared(TenReturned(), 0, 4, 40), 0, 4, 40, Word(1, 3), 1);
    var s := Returned(Prepared(TenReturned(), 0, 4, 40), 0, 4, 40, Word(1, 3));
    assert s.next == FortyReturned().next && s.owner == FortyReturned().owner && s.pcs == FortyReturned().pcs;
    assert s.hist == FortyReturned().hist && s.vals == FortyReturned().vals && s.log == FortyReturned().log;
    assert s.data == FortyReturned().data;
  }

  /** Thread 1 is about to link node 1, with node 2 behind it, behind node 4. */
  ghost function ThirtyPrepared(): Queue {
    FortyReturned().(data := map[1 := 30, 2 := 10, 3 := 20, 4 := 40],
                     pcs := map[0 := Idle, 1 := EnqLink(1, 30, Word(2, 4), 2)])
  }

  lemma SecondThreadPrepares(good: Queue -> bool)
    requires Closed(Steps(), good) && good(FortyReturned())
    ensures good(ThirtyPrepared())
  {
    var s := Go(good, FortyReturned(), 1, NULL, 0, true);
    s := Go(good, s, 1, NULL, 0, true);
    s := Go(good, s, 1, NULL, 0, true);
    assert s.data == ThirtyPrepared().data;
    assert s.pcs == ThirtyPrepared().pcs;
  }

  /** All calls have returned. */
  ghost predicate Reordered(s: Queue) {
    && s.pcs == map[0 := Idle, 1 := Idle]
    && s.log == [Put(20), Got(20), Put(10), Put(40), Put(30)]
    && InMemory(s, [3, 4, 1, 2], [40, 30, 10])
  }

  lemma SecondThreadReturns(good: Queue -> bool) returns (s: Queue)
    requires Closed(Steps(), good) && good(ThirtyPrepared())
    ensures good(s) && Reordered(s)
  {
    Returns(good, ThirtyPrepared(), 1, 1, 30, Word(2, 4), 2);
    s := Returned(ThirtyPrepared(), 1, 1, 30, Word(2, 4));
    assert s.pcs == map[0 := Idle, 1 := Idle];
    assert s.next == map[1 := 2, 2 := NULL, 3 := 4, 4 := 1] && s.data == map[1 := 30, 2 := 10, 3 := 20, 4 := 40];
    ChainOfFour(s);
  }

  lemma ChainOfFour(s: Queue)
    requires s.next == map[1 := 2, 2 := NULL, 3 := 4, 4 := 1] && s.data == map[1 := 30, 2 := 10, 3 := 20, 4 := 40]
    requires s.head.addr == 3
    ensures InMemory(s, [3, 4, 1, 2], [40, 30, 10])
  {}

  lemma UntilTenReturned(good: Queue -> bool)
    requires Closed(Steps(), good) && good(Start())
    ensures good(TenReturned())
  {
    BothPrepare(good);
    SecondThreadEnqueues(good);
    SecondThreadPasses(good);
    SecondThreadReads(good);
    SecondThreadTakes(good);
    SecondThreadFrees(good);
    SecondThreadReuses(good);
    FirstThreadReturns(good);
  }

  lemma UntilReordered(good: Queue -> bool) returns (s: Queue)
    requires Closed(Steps(), good) && good(TenReturned())
    ensures good(s) && Reordered(s)
  {
    FirstThreadEnqueuesAgain(good);
    SecondThreadPrepares(good);
    s := SecondThreadReturns(good);
  }

  /** There is a run within the bound in which thread 0 returns from enqueuing 10 before anyone starts to enqueue 40,
      and yet, when all calls have returned, the queue holds 40, then 30, then 10. */
  lemma ReuseReordersCalls() returns (tr: seq<Queue>, i: nat)
    ensures BoundedRun(tr) && i < |tr| && Reordered(tr[|tr| - 1])
    ensures tr[i].log == [Put(20), Got(20), Put(10)] && tr[i].pcs == map[0 := Idle, 1 := EnqData(1, 30)]
  {
    FromIsClosed(Steps(), Start());
    UntilTenReturned(From(Steps(), Start()));
    FromIsClosed(Steps(), TenReturned());
    var last := UntilReordered(From(Steps(), TenReturned()));
    tr, i := Through(Steps(), Start(), TenReturned(), last);
    PathIsRun(tr);
  }

  lemma PathIsRun(tr: seq<Queue>)
    requires Path(Steps(), tr) && tr[0] == Start()
    ensures BoundedRun(tr)
  {
    forall i | 0 <= i < |tr| ensures Bounded(tr[i]) {
      assert i > 0 ==> Steps()(tr[i - 1], tr[i - 1 + 1]);
    }
  }
}
