/** `LFStack` is lock-free: only the success of another call's exchange can make a call repeat an attempt. */
module StackProgress {
  import opened Stamps
  import opened Tally
  import opened Reference
  import opened Progress
  import opened LockFreeStack

  ghost predicate StepBy(s: Stack, t: nat, s': Stack) {
    t in s.pcs && exists p, v, push :: Step(s, t, p, v, push, s')
  }

  /** A stretch of steps from any state; `who` names the threads that take them. */
  ghost predicate Stretch(tr: seq<Stack>, who: seq<nat>) {
    |tr| == |who| + 1 && forall k :: 0 <= k < |who| ==> StepBy(tr[k], who[k], tr[k + 1])
  }

  /** The steps that a call at `pc` still needs as long as nobody else changes the top word. */
  function Left(top: Word, pc: Pc): nat {
    match pc
    case Idle => 0
    case PushAlloc(_) => 7
    case PushSet(_, _) => 6
    case PushData(_, _) => 5
    case PushRead(_, _) => 4
    case PushLink(_, _, copy, _) => if top == copy then 3 else 6
    case PushCas(_, _, copy, _) => if top == copy then 2 else 5
    case PushCount => 1
    case PopRead => 7
    case PopNext(copy, _) => if top == copy then 6 else 9
    case PopCas(copy, _, _) => if top == copy then 5 else 8
    case PopCount(_, _) => 4
    case PopData(_, _) => 3
    case PopFree(_, _, _) => 2
    case PopDone(_, _) => 1
  }

  lemma OwnLeft(s: Stack, pc: Pc, p: Address, v: Value, push: bool, top: Word)
    requires !pc.Idle? && (top == s.top || Wins(s, pc))
    ensures Left(top, NextPc(s, pc, p, v, push)) < Left(s.top, pc)
  {}

  lemma StepLeft(s: Stack, u: nat, s': Stack, t: nat)
    requires StepBy(s, u, s') && t in s.pcs && !s.pcs[t].Idle? && (u != t ==> s'.top == s.top)
    ensures t in s'.pcs && Left(s'.top, s'.pcs[t]) + One(u == t) <= Left(s.top, s.pcs[t])
  {
    var p, v, push :| Step(s, u, p, v, push, s');
    StepFrame(s, u, p, v, push, s');
    if u == t {
      OwnLeft(s, s.pcs[t], p, v, push, s'.top);
    }
  }

  lemma {:induction false} StaysThere(tr: seq<Stack>, who: seq<nat>, k: nat, t: nat)
    requires Stretch(tr, who) && k < |tr| && t in tr[0].pcs
    ensures t in tr[k].pcs
  {
    if k > 0 {
      StaysThere(tr, who, k - 1, t);
      assert StepBy(tr[k - 1], who[k - 1], tr[k - 1 + 1]);
    }
  }

  /** A call takes at most nine steps of its own before it returns, or before another thread's exchange succeeds,
      whatever the other threads do otherwise. */
  lemma LockFree(tr: seq<Stack>, who: seq<nat>, t: nat)
    requires Stretch(tr, who) && t in tr[0].pcs
    requires forall k :: 0 <= k < |who| && t in tr[k].pcs ==> !tr[k].pcs[t].Idle?
    requires forall k :: 0 <= k < |who| && who[k] != t ==> tr[k + 1].top == tr[k].top
    ensures multiset(who)[t] <= 9
  {
    forall k | 0 <= k < |tr| ensures t in tr[k].pcs {
      StaysThere(tr, who, k, t);
    }
    var left := seq(|tr|, k requires 0 <= k < |tr| => Left(tr[k].top, tr[k].pcs[t]));
    forall k | 0 <= k < |who| ensures left[k + 1] + One(who[k] == t) <= left[k] {
      StepLeft(tr[k], who[k], tr[k + 1], t);
    }
    Countdown(who, t, left);
  }
}
