/** How far the tail word of `LFQueue` trails the last node: by at most one as long as links are made behind the node
    that the tail word names. */
module QueueTail {
  import opened Stamps
  import opened Ownership
  import opened LockFreeQueue
  import opened Reference
  import Treiber

  /** The tail word names the last node or the one before it. */
  predicate Trails(s: Queue) { |s.hist| <= s.tpos + 2 }

  /** The link exchange of thread `t`, if it wins, wins on the node that the tail word names. */
  ghost predicate AtTail(s: Queue, t: nat)
    requires t in s.pcs
  {
    Links(s, s.pcs[t]) ==> s.tail.addr == s.pcs[t].ct.addr
  }

  lemma AtTailIsUnshared(s: Queue, t: nat)
    requires Shape(s) && Owners(s) && t in s.pcs && AtTail(s, t) && forall u :: u in s.pcs ==> HoldOk(s, s.pcs[u])
    ensures Unshared(s, t)
  {
    assert s.tail.addr == s.hist[s.hpos..][s.tpos - s.hpos];
    assert forall u :: u in s.pcs && s.pcs[u].Private() ==> HoldOk(s, s.pcs[u]) && Held(s.pcs[u]) == s.pcs[u].p;
  }

  /** What a winning link does to the distance: it stays at most one exactly when the link is behind the tail node. */
  lemma TrailsExactlyWhen(s: Queue, t: nat, p: Address, v: Value, enq: bool, s': Queue)
    requires Inv(s) && t in s.pcs && Unshared(s, t) && Step(s, t, p, v, enq, s') && Links(s, s.pcs[t])
    ensures Trails(s') <==> s.tail.addr == s.pcs[t].ct.addr
  {
    assert Local(s, s.pcs[t]);
    LinksLast(s, t);
    LengthOf(s, t, s.pcs[t], p, v);
    LastOnce(s);
  }

  /** The tail word names the last node exactly when it is at the last position. */
  lemma LastOnce(s: Queue)
    requires Shape(s)
    ensures s.tail.addr == s.hist[|s.hist| - 1] <==> s.tpos == |s.hist| - 1
  {}

  lemma LengthOf(s: Queue, t: nat, pc: Pc, p: Address, v: Value)
    ensures |Do(s, t, pc, p, v).hist| == |s.hist| + if Links(s, pc) then 1 else 0
    ensures Do(s, t, pc, p, v).tpos >= s.tpos && (Links(s, pc) ==> Do(s, t, pc, p, v).tpos == s.tpos)
  {}

  lemma StepTrails(s: Queue, t: nat, p: Address, v: Value, enq: bool, s': Queue)
    requires Inv(s) && Trails(s) && t in s.pcs && Step(s, t, p, v, enq, s') && AtTail(s, t)
    ensures Unshared(s, t) && Trails(s')
  {
    assert forall u :: u in s.pcs ==> Local(s, s.pcs[u]);
    AtTailIsUnshared(s, t);
    LengthOf(s, t, s.pcs[t], p, v);
    if Links(s, s.pcs[t]) {
      TrailsExactlyWhen(s, t, p, v, enq, s');
    }
  }

  // ----- a condition on the pool that ensures it -----

  /** The pool does not hand out a node that an `Enqueue` still uses as its tail node. */
  ghost predicate Spared(s: Queue) {
    forall t, u :: t in s.pcs && u in s.pcs && s.pcs[t].Private() && s.pcs[u].AtTailNode()
      ==> s.pcs[u].ct.addr != s.pcs[t].p
  }

  ghost predicate SparedRun(tr: seq<Queue>) {
    && tr != [] && Init(tr[0])
    && (forall i :: 0 <= i < |tr| - 1 ==> Next(tr[i], tr[i + 1]))
    && (forall i :: 0 <= i < |tr| ==> Bounded(tr[i]) && Spared(tr[i]))
  }

  /** Then the copied tail node stays at its position for good. */
  ghost predicate Chased(next: map<Address, Address>, hist: seq<Address>, pc: Pc) {
    pc.AtTailNode() ==>
      && pc.tv < |hist| && pc.ct.addr == hist[pc.tv] && Treiber.LinkAt(next, hist, pc.tv)
      && forall i :: pc.tv < i < |hist| ==> hist[i] != hist[pc.tv]
  }

  ghost predicate AllChased(s: Queue) { forall t :: t in s.pcs ==> Chased(s.next, s.hist, s.pcs[t]) }

  lemma ChasedIsAtTail(s: Queue, t: nat)
    requires t in s.pcs && Positions(s) && TailOk(s, s.pcs[t]) && Chased(s.next, s.hist, s.pcs[t]) && NULL !in s.hist
    ensures AtTail(s, t)
  {
    if Links(s, s.pcs[t]) {
      assert Treiber.LinkAt(s.next, s.hist, s.pcs[t].tv);
    }
  }

  lemma OwnChased(s: Queue, pc: Pc, p: Address, v: Value, enq: bool)
    requires Shape(s) && Chased(s.next, s.hist, pc) && !Links(s, pc) && !pc.EnqAlloc?
    ensures Chased(s.next, s.hist, NextPc(s, pc, p, v, enq))
  {
    assert Treiber.LinkAt(s.next, s.hist, s.tpos);
  }

  lemma MemoryOf(s: Queue, t: nat, pc: Pc, p: Address, v: Value)
    ensures var s' := Do(s, t, pc, p, v);
      if pc.EnqAlloc? then s'.next == s.next[p := NULL] && s'.hist == s.hist
      else if Links(s, pc) then s'.next == s.next[pc.ct.addr := pc.p] && s'.hist == s.hist + [pc.p]
      else s'.next == s.next && s'.hist == s.hist
  {}

  lemma ChasedWrite(next: map<Address, Address>, hist: seq<Address>, pc: Pc, p: Address)
    requires Chased(next, hist, pc) && (pc.AtTailNode() ==> pc.ct.addr != p)
    ensures Chased(next[p := NULL], hist, pc)
  {}

  lemma ChasedLink(next: map<Address, Address>, hist: seq<Address>, pc: Pc, p: Address)
    requires hist != [] && Chased(next, hist, pc) && (pc.AtTailNode() ==> pc.ct.addr != p)
    ensures Chased(next[hist[|hist| - 1] := p], hist + [p], pc)
  {
    if pc.AtTailNode() {
      assert Treiber.LinkAt(next[hist[|hist| - 1] := p], hist + [p], pc.tv);
    }
  }

  lemma StepChased(s: Queue, t: nat, p: Address, v: Value, enq: bool, s': Queue, u: nat)
    requires Shape(s) && AllChased(s) && Spared(s) && Spared(s') && t in s.pcs && u in s.pcs
    requires Step(s, t, p, v, enq, s')
    requires Links(s, s.pcs[t]) ==> s.pcs[t].ct.addr == s.hist[|s.hist| - 1]
    ensures u in s'.pcs && Chased(s'.next, s'.hist, s'.pcs[u])
  {
    var pc, other := s.pcs[t], s.pcs[u];
    MemoryOf(s, t, pc, p, v);
    LogOf(s, t, pc, p, v);
    assert Chased(s.next, s.hist, other);
    if u == t {
      if !pc.EnqAlloc? && !Links(s, pc) {
        OwnChased(s, pc, p, v, enq);
      }
    } else if pc.EnqAlloc? {
      assert s'.pcs[t] == EnqData(p, pc.v) && s'.pcs[u] == other;
      ChasedWrite(s.next, s.hist, other, p);
    } else if Links(s, pc) {
      assert pc.Private();
      ChasedLink(s.next, s.hist, other, pc.p);
    }
  }

  predicate Finishes(pc: Pc, at: nat) { (pc.EnqCount? || pc.EnqSwing?) && pc.tv == at }

  /** While the tail trails, the `Enqueue` that linked the last node is on its way to swing it. */
  ghost predicate Attended(s: Queue) {
    s.tpos + 1 < |s.hist| ==> exists t :: t in s.pcs && Finishes(s.pcs[t], s.tpos)
  }

  lemma FinishesOn(s: Queue, t: nat, pc: Pc, p: Address, v: Value, enq: bool)
    requires Finishes(pc, s.tpos) && Positions(s) && TailOk(s, pc)
    ensures Finishes(NextPc(s, pc, p, v, enq), s.tpos) || Do(s, t, pc, p, v).tpos == s.tpos + 1
  {}

  lemma StepAttended(s: Queue, t: nat, p: Address, v: Value, enq: bool, s': Queue)
    requires Shape(s) && t in s.pcs && TailOk(s, s.pcs[t]) && Trails(s) && Trails(s') && Attended(s)
    requires Step(s, t, p, v, enq, s') && Chased(s.next, s.hist, s.pcs[t])
    requires Links(s, s.pcs[t]) ==> s.pcs[t].ct.addr == s.hist[|s.hist| - 1]
    ensures Attended(s')
  {
    var pc := s.pcs[t];
    LengthOf(s, t, pc, p, v);
    LogFrame(s, t, p, v, enq, s');
    if Links(s, pc) {
      assert pc.tv == |s.hist| - 1 && s'.pcs[t] == EnqCount(pc.p, pc.ct, pc.tv);
    } else if s.tpos + 1 < |s.hist| {
      var u :| u in s.pcs && Finishes(s.pcs[u], s.tpos);
      if u == t {
        FinishesOn(s, t, pc, p, v, enq);
      } else {
        assert s'.pcs[u] == s.pcs[u];
      }
    }
  }

  lemma SparedStep(s: Queue, s': Queue)
    requires Inv(s) && Bounded(s) && Trails(s) && AllChased(s) && Spared(s) && Spared(s') && Next(s, s') && Attended(s)
    ensures NextSound(s, s') && Trails(s') && AllChased(s') && Attended(s')
  {
    var t, p, v, enq :| t in s.pcs && Step(s, t, p, v, enq, s');
    assert Local(s, s.pcs[t]);
    ChasedIsAtTail(s, t);
    StampedIsFresh(s, t);
    StepTrails(s, t, p, v, enq, s');
    if Links(s, s.pcs[t]) {
      LinksLast(s, t);
    }
    StepAttended(s, t, p, v, enq, s');
    LogOf(s, t, s.pcs[t], p, v);
    forall u | u in s'.pcs ensures Chased(s'.next, s'.hist, s'.pcs[u]) {
      StepChased(s, t, p, v, enq, s', u);
    }
  }

  lemma {:induction false} SparedInv(tr: seq<Queue>, n: nat)
    requires SparedRun(tr) && n < |tr|
    ensures Run(tr[..n + 1]) && Inv(tr[n]) && Trails(tr[n]) && AllChased(tr[n]) && Attended(tr[n])
  {
    if n == 0 {
      InitInv(tr[0]);
    } else {
      SparedInv(tr, n - 1);
      assert Next(tr[n - 1], tr[n - 1 + 1]);
      SparedStep(tr[n - 1], tr[n]);
      StepInv(tr[n - 1], tr[n]);
      RunGrows(tr, n);
    }
  }

  lemma RunGrows(tr: seq<Queue>, n: nat)
    requires SparedRun(tr) && 0 < n < |tr| && Run(tr[..n]) && NextSound(tr[n - 1], tr[n])
    ensures Run(tr[..n + 1])
  {
    var more := tr[..n + 1];
    forall i | 0 <= i < |more| - 1 ensures NextSound(more[i], more[i + 1]) {
      assert i < n - 1 ==> NextSound(tr[..n][i], tr[..n][i + 1]);
    }
  }

  /** If the pool does not hand out a node that an `Enqueue` still holds, the run is one of those that the queue's
      claims are about, and the tail trails the last node by at most one. */
  lemma TailTrailsByOne(tr: seq<Queue>, n: nat)
    requires SparedRun(tr) && n < |tr|
    ensures Run(tr[..n + 1])
    ensures tr[n].hpos <= tr[n].tpos <= |tr[n].vals| <= tr[n].tpos + 1
  {
    SparedInv(tr, n);
  }

  /** And it trails only while an `Enqueue` has yet to count its item or to swing the tail: with no call in progress the
      tail word names the last node. */
  lemma TailAtRest(tr: seq<Queue>, n: nat)
    requires SparedRun(tr) && n < |tr|
    ensures tr[n].tpos < |tr[n].vals| ==>
      exists t :: t in tr[n].pcs && (tr[n].pcs[t].EnqCount? || tr[n].pcs[t].EnqSwing?)
    ensures (forall t :: t in tr[n].pcs ==> tr[n].pcs[t].Idle?) ==>
      0 <= tr[n].tpos < |tr[n].hist| && tr[n].tail.addr == tr[n].hist[|tr[n].hist| - 1]
  {
    SparedInv(tr, n);
  }
}
