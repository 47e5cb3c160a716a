/** `LFObjectPool` is lock-free: only the success of another call's exchange can make a call repeat an attempt. */
module PoolProgress {
  import opened Stamps
  import opened Tally
  import opened Progress
  import opened ObjectPool

  ghost predicate StepBy(s: Pool, t: nat, s': Pool) {
    t in s.pcs && exists p, alloc :: Step(s, t, p, alloc, s')
  }

  /** A stretch of steps from any state; `who` names the threads that take them. */
  ghost predicate Stretch(tr: seq<Pool>, who: seq<nat>) {
    |tr| == |who| + 1 && forall k :: 0 <= k < |who| ==> StepBy(tr[k], who[k], tr[k + 1])
  }

  /** The steps that a call at `pc` still needs as long as nobody else changes the top word. */
  function Left(top: Word, pc: Pc): nat {
    match pc
    case Idle => 0
    case AllocRead => 4
    case AllocNext(copy, _) => if top == copy then 3 else 6
    case AllocCas(copy, _, _) => if top == copy then 2 else 5
    case AllocUse(_) => 1
    case GrowCapacity => 3
    case GrowUse => 2
    case GrowNew => 1
    case FreeRead(_) => 4
    case FreeLink(_, copy, _) => if top == copy then 3 else 6
    case FreeCas(_, copy, _) => if top == copy then 2 else 5
    case FreeUse => 1
  }

  lemma OwnLeft(s: Pool, pc: Pc, p: Address, alloc: bool, top: Word)
    requires !pc.Idle? && (top == s.top || Wins(s, pc))
    ensures Left(top, NextPc(s, pc, p, alloc)) < Left(s.top, pc)
  {}

  lemma StepLeft(s: Pool, u: nat, s': Pool, t: nat)
    requires StepBy(s, u, s') && t in s.pcs && !s.pcs[t].Idle? && (u != t ==> s'.top == s.top)
    ensures t in s'.pcs && Left(s'.top, s'.pcs[t]) + One(u == t) <= Left(s.top, s.pcs[t])
  {
    var p, alloc :| Step(s, u, p, alloc, s');
    StepFrame(s, u, p, alloc, s');
    if u == t {
      OwnLeft(s, s.pcs[t], p, alloc, s'.top);
    }
  }

  lemma {:induction false} StaysThere(tr: seq<Pool>, who: seq<nat>, k: nat, t: nat)
    requires Stretch(tr, who) && k < |tr| && t in tr[0].pcs
    ensures t in tr[k].pcs
  {
    if k > 0 {
      StaysThere(tr, who, k - 1, t);
      assert StepBy(tr[k - 1], who[k - 1], tr[k - 1 + 1]);
    }
  }

  /** A call takes at most six steps of its own before it returns, or before another thread's exchange succeeds,
      whatever the other threads do otherwise. */
  lemma LockFree(tr: seq<Pool>, who: seq<nat>, t: nat)
    requires Stretch(tr, who) && t in tr[0].pcs
    requires forall k :: 0 <= k < |who| && t in tr[k].pcs ==> !tr[k].pcs[t].Idle?
    requires forall k :: 0 <= k < |who| && who[k] != t ==> tr[k + 1].top == tr[k].top
    ensures multiset(who)[t] <= 6
  {
    forall k | 0 <= k < |tr| ensures t in tr[k].pcs {
      StaysThere(tr, who, k, t);
    }
    var left := seq(|tr|, k requires 0 <= k < |tr| => Left(tr[k].top, tr[k].pcs[t]));
    forall k | 0 <= k < |who| ensures left[k + 1] + One(who[k] == t) <= left[k] {
      StepLeft(tr[k], who[k], tr[k + 1], t);
    }
    Countdown(who, t, left);
  }
}
