/** The scheduler is wait-free apart from the jobs it runs: no call and no flush waits for another thread. */
module JobProgress {
  import opened Tally
  import opened Progress
  import opened JobScheduler

  /** A step by `u`; the jobs that thread `t` runs return without calling the scheduler again. */
  ghost predicate StepBy(s: System, u: nat, t: nat, s': System) {
    u in s.pcs && exists c :: Step(s, u, c, s') && (u == t && s.pcs[u].FlushRun? ==> c.Return?)
  }

  /** A stretch of steps from any state; `who` names the agents that take them. */
  ghost predicate Stretch(tr: seq<System>, who: seq<nat>, t: nat) {
    |tr| == |who| + 1 && forall k :: 0 <= k < |who| ==> StepBy(tr[k], who[k], t, tr[k + 1])
  }

  /** The steps that an agent at `pc` still takes before it is idle or starts another job, at most. */
  function Left(pc: Pc): nat {
    match pc
    case Idle => 0
    case PostCheck(_, _) => 6
    case PostLink(_, _) => 5
    case PostCount(_) => 4
    case PostCas(_) => 3
    case Enq(_, flush) => if flush then 4 else 2
    case Append(_, _, flush) => if flush then 3 else 1
    case FlushCheck(_) => 11
    case FlushOld(_) => 10
    case FlushNext(_, _) => 9
    case FlushStart(_, _, _) => 0
    case FlushRun(_, _) => 12
    case FlushMarked(_, _) => 11
    case FlushMoved(_, _) => 10
    case FlushBack(_) => 8
    case FlushStore(_) => 7
    case FlushRecheck(_) => 6
    case FlushCas(_) => 5
    case AfterFlush(_) => 2
    case Delete(_) => 1
  }

  lemma OwnLeft(pc: Pc, x: Obj, c: Choice)
    requires !pc.Idle? && !pc.FlushStart? && (pc.FlushRun? ==> c.Return?)
    ensures Left(NextPc(pc, x, c)) < Left(pc)
  {}

  lemma StepLeft(s: System, u: nat, s': System, t: nat)
    requires StepBy(s, u, t, s') && t in s.pcs && !s.pcs[t].Idle? && (u == t ==> !s.pcs[t].FlushStart?)
    ensures t in s'.pcs && Left(s'.pcs[t]) + One(u == t) <= Left(s.pcs[t])
  {
    var c :| Step(s, u, c, s') && (u == t && s.pcs[u].FlushRun? ==> c.Return?);
    if u == t {
      OwnLeft(s.pcs[t], s.objs[s.pcs[t].o], c);
    }
  }

  lemma {:induction false} StaysThere(tr: seq<System>, who: seq<nat>, k: nat, t: nat)
    requires Stretch(tr, who, t) && k < |tr| && t in tr[0].pcs
    ensures t in tr[k].pcs
  {
    if k > 0 {
      StaysThere(tr, who, k - 1, t);
      assert StepBy(tr[k - 1], who[k - 1], t, tr[k - 1 + 1]);
    }
  }

  /** Whatever the other agents do, a `PostJob` returns after at most six steps of its own, and a thread that serves an
      object takes at most twelve before it starts the next job or is done with the object. */
  lemma WaitFree(tr: seq<System>, who: seq<nat>, t: nat)
    requires Stretch(tr, who, t) && t in tr[0].pcs
    requires forall k :: 0 <= k < |who| && t in tr[k].pcs ==> !tr[k].pcs[t].Idle?
    requires forall k :: 0 <= k < |who| && who[k] == t && t in tr[k].pcs ==> !tr[k].pcs[t].FlushStart?
    ensures multiset(who)[t] <= if tr[0].pcs[t].Posts() then 6 else 12
  {
    forall k | 0 <= k < |tr| ensures t in tr[k].pcs {
      StaysThere(tr, who, k, t);
    }
    var left := seq(|tr|, k requires 0 <= k < |tr| => Left(tr[k].pcs[t]));
    forall k | 0 <= k < |who| ensures left[k + 1] + One(who[k] == t) <= left[k] {
      StepLeft(tr[k], who[k], tr[k + 1], t);
    }
    Countdown(who, t, left);
  }
}
