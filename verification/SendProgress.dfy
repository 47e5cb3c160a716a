/** The send protocol spins for nothing: only a change of the queue's count by another call can make a call look
    again. */
module SendProgress {
  import opened Tally
  import opened Progress
  import opened SessionSend

  ghost predicate StepBy(s: System, a: nat, s': System) {
    a in s.pcs && exists c :: Step(s, a, c, s')
  }

  /** A stretch of steps from any state; `who` names the agents that take them. */
  ghost predicate Stretch(tr: seq<System>, who: seq<nat>) {
    |tr| == |who| + 1 && forall k :: 0 <= k < |who| ==> StepBy(tr[k], who[k], tr[k + 1])
  }

  /** From filling slot `i` of the batch: two steps a packet, and three to end the loop, to commit and to post. */
  function Filling(i: nat): nat { if i < MAX_SEND_MSG then 2 * (MAX_SEND_MSG - i) + 3 else 3 }

  /** From trying for the flag to the end of the call. */
  const ATTEMPT: nat := Filling(0) + 3

  function Again(x: Sender): nat { if x.count > 0 then ATTEMPT else 0 }

  /** The steps that a call at `pc` still needs as long as nobody else changes the count or the batch. */
  function Left(x: Sender, pc: Pc): nat {
    match pc
    case Idle => 0
    case SendCheck(_) => ATTEMPT + 3
    case SendLink(_) => ATTEMPT + 2
    case SendCount => ATTEMPT + 1
    case Try => ATTEMPT
    case Have => if x.count > 0 then Filling(0) + 2 else 3
    case Release => Again(x) + 2
    case Recheck => Again(x) + 1
    case Size => Filling(0) + 1
    case Overflow => 1
    case Fill(i) => Filling(i)
    case Take(i) => Filling(i + 1) + 1
    case Commit(_) => 2
    case Post(_) => 1
    case CompDelete(i) => Again(x) + (if i < x.batch then x.batch - i else 0) + 5
    case CompReset => Again(x) + 4
    case CompRelease => Again(x) + 3
    case CompCheck => Again(x) + 2
    case CompCount => Again(x) + 1
    case Disconnect => 1
  }

  lemma OwnLeft(x: Sender, pc: Pc, a: nat, c: Choice)
    requires !pc.Idle?
    ensures Left(NextSender(pc, x, a, c), NextPc(pc, x, c)) < Left(x, pc)
  {}

  lemma StepLeft(s: System, u: nat, s': System, a: nat)
    requires StepBy(s, u, s') && a in s.pcs && !s.pcs[a].Idle?
    requires u != a ==> s'.x.count == s.x.count && s'.x.batch == s.x.batch
    ensures a in s'.pcs && Left(s'.x, s'.pcs[a]) + One(u == a) <= Left(s.x, s.pcs[a])
  {
    var c :| Step(s, u, c, s');
    if u == a {
      OwnLeft(s.x, s.pcs[a], a, c);
    }
  }

  lemma {:induction false} StaysThere(tr: seq<System>, who: seq<nat>, k: nat, a: nat)
    requires Stretch(tr, who) && k < |tr| && a in tr[0].pcs
    ensures a in tr[k].pcs
  {
    if k > 0 {
      StaysThere(tr, who, k - 1, a);
      assert StepBy(tr[k - 1], who[k - 1], tr[k - 1 + 1]);
    }
  }

  lemma LeftAtMost(x: Sender, pc: Pc)
    ensures Left(x, pc) <= 411 + if pc.CompDelete? then x.batch else 0
  {}

  /** A call returns after at most 411 steps of its own, and one more for each packet of the batch that it frees, as
      long as no other call changes the count of the queue or the size of the batch meanwhile. */
  lemma Returns(tr: seq<System>, who: seq<nat>, a: nat)
    requires Stretch(tr, who) && a in tr[0].pcs
    requires forall k :: 0 <= k < |who| && a in tr[k].pcs ==> !tr[k].pcs[a].Idle?
    requires forall k :: 0 <= k < |who| && who[k] != a ==>
      tr[k + 1].x.count == tr[k].x.count && tr[k + 1].x.batch == tr[k].x.batch
    ensures multiset(who)[a] <= 411 + if tr[0].pcs[a].CompDelete? then tr[0].x.batch else 0
  {
    forall k | 0 <= k < |tr| ensures a in tr[k].pcs {
      StaysThere(tr, who, k, a);
    }
    var left := seq(|tr|, k requires 0 <= k < |tr| => Left(tr[k].x, tr[k].pcs[a]));
    forall k | 0 <= k < |who| ensures left[k + 1] + One(who[k] == a) <= left[k] {
      StepLeft(tr[k], who[k], tr[k + 1], a);
    }
    Countdown(who, a, left);
    LeftAtMost(tr[0].x, tr[0].pcs[a]);
  }
}
