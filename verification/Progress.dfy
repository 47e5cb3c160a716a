/** Counting down the steps that a call still needs. */
module Progress {
  import opened Tally

  /** If `left` falls with each step of `t` from `n` to `m` and grows with none, `t` takes no more of these steps than
      `left` was at first. */
  lemma {:induction false} CountdownBetween<T>(who: seq<T>, t: T, left: seq<nat>, n: nat, m: nat)
    requires n <= m <= |who| && |left| == |who| + 1
    requires forall k :: n <= k < m ==> left[k + 1] + One(who[k] == t) <= left[k]
    ensures multiset(who[n..m])[t] + left[m] <= left[n]
  {
    if n < m {
      assert who[n..m] == who[n..m - 1] + [who[m - 1]];
      CountdownBetween(who, t, left, n, m - 1);
    }
  }

  lemma Countdown<T>(who: seq<T>, t: T, left: seq<nat>)
    requires |left| == |who| + 1
    requires forall k :: 0 <= k < |who| ==> left[k + 1] + One(who[k] == t) <= left[k]
    ensures multiset(who)[t] + left[|who|] <= left[0]
  {
    CountdownBetween(who, t, left, 0, |who|);
    assert who[0..|who|] == who;
  }
}
