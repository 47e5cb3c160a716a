/** Runs of any transition system: how a particular run is put together step by step.

    A property that every step keeps (`Closed`) carries a proof from state to state; being reachable is one. */
module Runs {

  ghost predicate Path<S(!new)>(next: (S, S) -> bool, tr: seq<S>) {
    tr != [] && forall i :: 0 <= i < |tr| - 1 ==> next(tr[i], tr[i + 1])
  }

  ghost predicate Reaches<S(!new)>(next: (S, S) -> bool, start: S, s: S) {
    exists tr :: Path(next, tr) && tr[0] == start && tr[|tr| - 1] == s
  }

  ghost predicate Closed<S(!new)>(next: (S, S) -> bool, good: S -> bool) {
    forall s, s' :: next(s, s') && good(s) ==> good(s')
  }

  lemma PathGrows<S(!new)>(next: (S, S) -> bool, tr: seq<S>, s: S)
    requires Path(next, tr) && next(tr[|tr| - 1], s)
    ensures Path(next, tr + [s])
  {
    var more := tr + [s];
    forall i | 0 <= i < |more| - 1 ensures next(more[i], more[i + 1]) {
      assert i < |tr| - 1 ==> next(tr[i], tr[i + 1]);
    }
  }

  lemma ReachesNext<S(!new)>(next: (S, S) -> bool, start: S, s: S, s': S)
    requires Reaches(next, start, s) && next(s, s')
    ensures Reaches(next, start, s')
  {
    var tr :| Path(next, tr) && tr[0] == start && tr[|tr| - 1] == s;
    PathGrows(next, tr, s');
    assert (tr + [s'])[0] == start && (tr + [s'])[|tr + [s']| - 1] == s';
  }

  /** The property to carry along: reachable from `start`. */
  ghost function From<S(!new)>(next: (S, S) -> bool, start: S): S -> bool {
    s => Reaches(next, start, s)
  }

  lemma FromIsClosed<S(!new)>(next: (S, S) -> bool, start: S)
    ensures From(next, start)(start) && Closed(next, From(next, start))
  {
    var good := From(next, start);
    assert Path(next, [start]) && [start][0] == start && [start][|[start]| - 1] == start;
    forall s, s' | next(s, s') && good(s) ensures good(s') {
      ReachesNext(next, start, s, s');
    }
  }

  /** A path that passes through `mid` at position `i`. */
  lemma Through<S(!new)>(next: (S, S) -> bool, start: S, mid: S, end: S) returns (tr: seq<S>, i: nat)
    requires Reaches(next, start, mid) && Reaches(next, mid, end)
    ensures Path(next, tr) && tr[0] == start && tr[|tr| - 1] == end && i < |tr| && tr[i] == mid
  {
    var a :| Path(next, a) && a[0] == start && a[|a| - 1] == mid;
    var b :| Path(next, b) && b[0] == mid && b[|b| - 1] == end;
    tr, i := a + b[1..], |a| - 1;
    forall k | 0 <= k < |tr| - 1 ensures next(tr[k], tr[k + 1]) {
      if k < |a| - 1 {
        assert next(a[k], a[k + 1]);
      } else {
        assert next(b[k - (|a| - 1)], b[k - (|a| - 1) + 1]);
      }
    }
  }

  /** What every step keeps holds along a path once it holds. */
  lemma {:induction false} Kept<S(!new)>(next: (S, S) -> bool, good: S -> bool, tr: seq<S>, m: nat, n: nat)
    requires Path(next, tr) && Closed(next, good) && m <= n < |tr| && good(tr[m])
    ensures good(tr[n])
  {
    if n > m {
      Kept(next, good, tr, m, n - 1);
      assert next(tr[n - 1], tr[n - 1 + 1]);
    }
  }
}
