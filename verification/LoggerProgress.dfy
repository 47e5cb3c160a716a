/** `LogAsync` is lock-free: only another producer's claim, or an exchange that fails for no reason, can make a call
    repeat an attempt. */
module LoggerProgress {
  import opened Tally
  import opened Progress
  import opened LoggerRing

  datatype Mover = Reader | Producer(a: nat)

  /** A step by `u`; the exchanges of producer `a` do not fail for no reason. */
  ghost predicate StepBy(s: System, u: Mover, a: nat, s': System) {
    && |s.x.slots| == RING_BUFFER_SIZE
    && if u.Reader? then s' == s.(x := Consume(s.x))
       else u.a in s.pcs && exists m, weak :: Produces(s, u.a, m, weak, s') && (u.a == a ==> !weak)
  }

  /** A stretch of steps from any state; `who` names those that take them. */
  ghost predicate Stretch(tr: seq<System>, who: seq<Mover>, a: nat) {
    |tr| == |who| + 1 && forall k :: 0 <= k < |who| ==> StepBy(tr[k], who[k], a, tr[k + 1])
  }

  /** The steps that a call at `pc` still needs as long as nobody else changes the write index. */
  function Left(write: nat, pc: Pc): nat {
    match pc
    case Idle => 0
    case LoadWrite(_) => 5
    case LoadRead(_, cw, _) => if write == cw then 4 else 7
    case Cas(_, cw, _, _) => if write == cw then 3 else 6
    case Fill(_, _, _) => 2
    case Publish(_, _, _) => 1
  }

  lemma StepLeft(s: System, u: Mover, s': System, a: nat)
    requires StepBy(s, u, a, s') && a in s.pcs && !s.pcs[a].Idle?
    requires u != Producer(a) ==> s'.x.write == s.x.write
    ensures a in s'.pcs && Left(s'.x.write, s'.pcs[a]) + One(u == Producer(a)) <= Left(s.x.write, s.pcs[a])
  {}

  lemma {:induction false} StaysThere(tr: seq<System>, who: seq<Mover>, k: nat, a: nat)
    requires Stretch(tr, who, a) && k < |tr| && a in tr[0].pcs
    ensures a in tr[k].pcs
  {
    if k > 0 {
      StaysThere(tr, who, k - 1, a);
      assert StepBy(tr[k - 1], who[k - 1], a, tr[k - 1 + 1]);
    }
  }

  /** A call takes at most seven steps of its own before it returns, or before another producer's claim succeeds,
      however full the ring and whatever the consumer does. */
  lemma LockFree(tr: seq<System>, who: seq<Mover>, a: nat)
    requires Stretch(tr, who, a) && a in tr[0].pcs
    requires forall k :: 0 <= k < |who| && a in tr[k].pcs ==> !tr[k].pcs[a].Idle?
    requires forall k :: 0 <= k < |who| && who[k] != Producer(a) ==> tr[k + 1].x.write == tr[k].x.write
    ensures multiset(who)[Producer(a)] <= 7
  {
    forall k | 0 <= k < |tr| ensures a in tr[k].pcs {
      StaysThere(tr, who, k, a);
    }
    var left := seq(|tr|, k requires 0 <= k < |tr| => Left(tr[k].x.write, tr[k].pcs[a]));
    forall k | 0 <= k < |who| ensures left[k + 1] + One(who[k] == Producer(a)) <= left[k] {
      StepLeft(tr[k], who[k], tr[k + 1], a);
    }
    Countdown(who, Producer(a), left);
  }
}
