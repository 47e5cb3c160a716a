/** `LFQueue` is lock-free: only the success of another call's exchange can make a call repeat an attempt, and a tail
    that trails costs an `Enqueue` one round of helping per position. */
module QueueProgress {
  import opened Stamps
  import opened Tally
  import opened Progress
  import opened Reference
  import opened LockFreeQueue
  import Treiber

  ghost predicate SoundBy(s: Queue, t: nat, s': Queue) {
    t in s.pcs && exists p, v, enq :: Step(s, t, p, v, enq, s') && Fresh(s, t) && Unshared(s, t)
  }

  /** A run in which `who` names the threads that take the steps. */
  ghost predicate ScheduledRun(tr: seq<Queue>, who: seq<nat>) {
    |tr| == |who| + 1 && Init(tr[0]) && forall k :: 0 <= k < |who| ==> SoundBy(tr[k], who[k], tr[k + 1])
  }

  /** How many positions the tail word trails behind the last node. */
  ghost function Lag(s: Queue): nat { if s.tpos < |s.hist| then |s.hist| - 1 - s.tpos else 0 }

  predicate Enqueues(pc: Pc) { pc.EnqAlloc? || pc.Private() || pc.EnqCount? || pc.EnqSwing? }

  /** The steps that a call at `pc` still needs as long as nobody else's exchange succeeds. */
  ghost function Left(s: Queue, pc: Pc): nat {
    match pc
    case Idle => 0
    case EnqAlloc(_) => Round(s) + 2
    case EnqData(_, _) => Round(s) + 1
    case EnqRead(_, _) => Round(s)
    case EnqNext(_, _, ct, _) => if Ended(s, ct) then 4 else if s.tail == ct then Round(s) - 1 else Round(s) + 2
    case EnqLink(_, _, ct, _) => if Ended(s, ct) then 3 else Round(s) + 1
    case EnqHelp(_, _, ct, _, _) => if s.tail == ct then Round(s) - 2 else Round(s) + 1
    case EnqCount(_, _, _) => 2
    case EnqSwing(_, _, _) => 1
    case DeqGate => 10
    case DeqBack => 1
    case DeqHead => 9
    case DeqTail(ch, _) => if s.head == ch then 8 else 15
    case DeqTailNext(ch, _, ct, _) => if s.head == ch == ct then 7 else 14
    case DeqHelp(ch, _, _, _, _) => if s.head == ch then 6 else 13
    case DeqNext(ch, _) => if s.head == ch then 5 else 12
    case DeqData(ch, _, _) => if s.head == ch then 4 else 11
    case DeqCas(ch, _, _, _) => if s.head == ch then 3 else 10
    case DeqFree(_, _) => 2
    case DeqDone(_) => 1
  }

  /** From reading the tail word: three steps for each position to help along, and five to link, count and swing. */
  ghost function Round(s: Queue): nat { 3 * Lag(s) + 5 }

  ghost predicate Ended(s: Queue, ct: Word) { Treiber.Load(s.next, ct.addr) == NULL }

  // ----- the call's own steps -----

  /** What a call needs to know: the tail node has a successor exactly if the tail trails, and past the gate so has the
      head node. */
  ghost predicate Guided(s: Queue, pc: Pc) {
    && (Ended(s, s.tail) <==> Lag(s) == 0)
    && (PastGate(pc) ==> !Ended(s, s.head))
    && (Swings(s, pc) ==> Lag(s) > 0)
  }

  lemma GuidedBy(s: Queue, t: nat)
    requires Inv(s) && t in s.pcs && Fresh(s, t)
    ensures Guided(s, s.pcs[t])
  {
    var pc := s.pcs[t];
    assert Treiber.LinkAt(s.next, s.hist, s.tpos) && Treiber.LinkAt(s.next, s.hist, s.hpos);
    if PastGate(pc) {
      CountZero(s.pcs, PastGate);
      assert s.hpos < |s.vals|;
    }
    assert forall i :: 0 <= i < |s.hist| ==> s.hist[i] != NULL;
  }

  lemma EnqueueLeft(s: Queue, t: nat, pc: Pc, p: Address, v: Value, enq: bool)
    requires Enqueues(pc) && Guided(s, pc)
    ensures Left(Do(s, t, pc, p, v), NextPc(s, pc, p, v, enq)) < Left(s, pc)
  {}

  lemma DequeueLeft(s: Queue, t: nat, pc: Pc, p: Address, v: Value, enq: bool)
    requires !Enqueues(pc) && !pc.Idle? && Guided(s, pc)
    ensures Left(Do(s, t, pc, p, v), NextPc(s, pc, p, v, enq)) < Left(s, pc)
  {}

  // ----- the steps of others -----

  /** Nobody's exchange succeeded. */
  ghost predicate Undisturbed(s: Queue, s': Queue) { s'.head == s.head && s'.tail == s.tail && s'.hist == s.hist }

  lemma UndisturbedMemory(s: Queue, u: nat, s': Queue)
    requires SoundBy(s, u, s') && Undisturbed(s, s')
    ensures u in s'.pcs && s'.pcs == s.pcs[u := s'.pcs[u]] && s'.tpos == s.tpos
    ensures forall a :: Treiber.Load(s'.next, a) == Treiber.Load(s.next, a) || Treiber.Load(s'.next, a) == NULL
  {
    var p, v, enq :| Step(s, u, p, v, enq, s');
    NextOf(s, u, s.pcs[u], p, v);
    LogFrame(s, u, p, v, enq, s');
  }

  lemma NextOf(s: Queue, u: nat, pc: Pc, p: Address, v: Value)
    ensures var s' := Do(s, u, pc, p, v);
      && (s'.hist == s.hist ==> s'.next == s.next || s'.next == s.next[p := NULL])
      && (s'.tail == s.tail ==> s'.tpos == s.tpos)
  {}

  lemma OthersLeft(s: Queue, s': Queue, pc: Pc)
    requires Undisturbed(s, s') && s'.tpos == s.tpos
    requires forall a :: Treiber.Load(s'.next, a) == Treiber.Load(s.next, a) || Treiber.Load(s'.next, a) == NULL
    ensures Left(s', pc) <= Left(s, pc)
  {}

  lemma StepLeft(s: Queue, u: nat, s': Queue, t: nat)
    requires Inv(s) && SoundBy(s, u, s') && t in s.pcs && !s.pcs[t].Idle? && (u != t ==> Undisturbed(s, s'))
    ensures t in s'.pcs && Left(s', s'.pcs[t]) + One(u == t) <= Left(s, s.pcs[t])
  {
    if u == t {
      OwnLeft(s, t, s');
    } else {
      UndisturbedMemory(s, u, s');
      OthersLeft(s, s', s.pcs[t]);
    }
  }

  lemma OwnLeft(s: Queue, t: nat, s': Queue)
    requires Inv(s) && SoundBy(s, t, s') && !s.pcs[t].Idle?
    ensures t in s'.pcs && Left(s', s'.pcs[t]) < Left(s, s.pcs[t])
  {
    GuidedBy(s, t);
    var p, v, enq :| Step(s, t, p, v, enq, s');
    MovesOn(s, t, s.pcs[t], p, v, enq);
  }

  lemma MovesOn(s: Queue, t: nat, pc: Pc, p: Address, v: Value, enq: bool)
    requires !pc.Idle? && Guided(s, pc)
    ensures var pc' := NextPc(s, pc, p, v, enq);
      Left(Do(s, t, pc, p, v).Go(t, pc'), pc') < Left(s, pc)
  {
    var pc' := NextPc(s, pc, p, v, enq);
    PlaceIsNotCounted(Do(s, t, pc, p, v), t, pc');
    if Enqueues(pc) {
      EnqueueLeft(s, t, pc, p, v, enq);
    } else {
      DequeueLeft(s, t, pc, p, v, enq);
    }
  }

  lemma PlaceIsNotCounted(s: Queue, t: nat, pc: Pc)
    ensures Left(s.Go(t, pc), pc) == Left(s, pc)
  {}

  lemma LeftAtMost(s: Queue, pc: Pc)
    ensures Left(s, pc) <= if Enqueues(pc) then 3 * Lag(s) + 7 else 15
  {}

  // ----- results -----

  lemma Scheduled(tr: seq<Queue>, who: seq<nat>, k: nat)
    requires ScheduledRun(tr, who) && k < |tr|
    ensures Inv(tr[k])
  {
    forall i | 0 <= i < |tr| - 1 ensures NextSound(tr[i], tr[i + 1]) {
      assert SoundBy(tr[i], who[i], tr[i + 1]);
    }
    RunInv(tr, k);
  }

  lemma OneLess(tr: seq<Queue>, who: seq<nat>, k: nat, t: nat)
    requires ScheduledRun(tr, who) && k < |who| && t in tr[k].pcs && !tr[k].pcs[t].Idle?
    requires who[k] != t ==> Undisturbed(tr[k], tr[k + 1])
    ensures t in tr[k + 1].pcs && Left(tr[k + 1], tr[k + 1].pcs[t]) + One(who[k] == t) <= Left(tr[k], tr[k].pcs[t])
  {
    Scheduled(tr, who, k);
    assert SoundBy(tr[k], who[k], tr[k + 1]);
    StepLeft(tr[k], who[k], tr[k + 1], t);
  }

  ghost predicate Calling(tr: seq<Queue>, who: seq<nat>, n: nat, m: nat, t: nat) {
    && n <= m < |tr| == |who| + 1 && t in tr[n].pcs
    && (forall k :: n <= k < m && t in tr[k].pcs ==> !tr[k].pcs[t].Idle?)
    && (forall k :: n <= k < m && who[k] != t ==> Undisturbed(tr[k], tr[k + 1]))
  }

  ghost function LeftOf(s: Queue, t: nat): nat { if t in s.pcs then Left(s, s.pcs[t]) else 0 }

  lemma {:induction false} StaysThere(tr: seq<Queue>, who: seq<nat>, n: nat, m: nat, t: nat)
    requires ScheduledRun(tr, who) && n <= m < |tr| && t in tr[n].pcs
    ensures t in tr[m].pcs
  {
    if n < m {
      StaysThere(tr, who, n, m - 1, t);
      assert SoundBy(tr[m - 1], who[m - 1], tr[m - 1 + 1]);
    }
  }

  lemma Falls(tr: seq<Queue>, who: seq<nat>, n: nat, m: nat, t: nat, k: nat)
    requires ScheduledRun(tr, who) && Calling(tr, who, n, m, t) && n <= k < m
    ensures LeftOf(tr[k + 1], t) + One(who[k] == t) <= LeftOf(tr[k], t)
  {
    StaysThere(tr, who, n, k, t);
    OneLess(tr, who, k, t);
  }

  ghost function Lefts(tr: seq<Queue>, t: nat): (left: seq<nat>)
    ensures |left| == |tr| && forall k :: 0 <= k < |tr| ==> left[k] == LeftOf(tr[k], t)
  {
    seq(|tr|, k requires 0 <= k < |tr| => LeftOf(tr[k], t))
  }

  lemma Falling(tr: seq<Queue>, who: seq<nat>, n: nat, m: nat, t: nat, left: seq<nat>)
    requires ScheduledRun(tr, who) && Calling(tr, who, n, m, t) && left == Lefts(tr, t)
    ensures forall k :: n <= k < m ==> left[k + 1] + One(who[k] == t) <= left[k]
  {
    forall k | n <= k < m ensures left[k + 1] + One(who[k] == t) <= left[k] {
      Falls(tr, who, n, m, t, k);
    }
  }

  /** In every stretch of a run that lies within one call of thread `t`, and in which no other thread's exchange succeeds:
      an `Enqueue` takes at most seven steps of its own and three for each position that the tail trails, and a
      `Dequeue` at most fifteen, whatever the other threads do otherwise. */
  lemma LockFree(tr: seq<Queue>, who: seq<nat>, n: nat, m: nat, t: nat)
    requires ScheduledRun(tr, who) && Calling(tr, who, n, m, t)
    ensures multiset(who[n..m])[t] <= if Enqueues(tr[n].pcs[t]) then 3 * Lag(tr[n]) + 7 else 15
  {
    var left := Lefts(tr, t);
    Falling(tr, who, n, m, t, left);
    CountdownBetween(who, t, left, n, m);
    LeftAtMost(tr[n], tr[n].pcs[t]);
  }
}
