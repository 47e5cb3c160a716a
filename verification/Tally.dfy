/** Counting the threads that stand at a kind of program point. */
module Tally {

  ghost function At<P(!new)>(pcs: map<nat, P>, here: P -> bool): set<nat> {
    set t | t in pcs && here(pcs[t])
  }

  ghost function Count<P(!new)>(pcs: map<nat, P>, here: P -> bool): nat {
    |At(pcs, here)|
  }

  ghost function One(b: bool): nat { if b then 1 else 0 }

  /** One thread's move changes a count by what that thread contributes before and after. */
  lemma CountStep<P(!new)>(pcs: map<nat, P>, t: nat, p: P, here: P -> bool)
    requires t in pcs
    ensures Count(pcs[t := p], here) + One(here(pcs[t])) == Count(pcs, here) + One(here(p))
    ensures here(pcs[t]) ==> Count(pcs, here) >= 1
  {
    var before, after := At(pcs, here), At(pcs[t := p], here);
    var others := before - {t};
    assert after - {t} == others;
    assert here(pcs[t]) ==> before == others + {t};
    assert !here(pcs[t]) ==> before == others;
    assert here(p) ==> after == others + {t};
    assert !here(p) ==> after == others;
  }

  /** A newcomer changes a count by what it contributes. */
  lemma CountNew<P(!new)>(pcs: map<nat, P>, t: nat, p: P, here: P -> bool)
    requires t !in pcs
    ensures Count(pcs[t := p], here) == Count(pcs, here) + One(here(p))
  {
    assert At(pcs[t := p], here) == At(pcs, here) + if here(p) then {t} else {};
  }

  /** A count is zero exactly when nobody stands there. */
  lemma CountZero<P(!new)>(pcs: map<nat, P>, here: P -> bool)
    ensures Count(pcs, here) == 0 <==> forall t :: t in pcs ==> !here(pcs[t])
  {
    if Count(pcs, here) == 0 {
      forall t | t in pcs ensures !here(pcs[t]) {
        assert t !in At(pcs, here);
      }
    } else {
      var t :| t in At(pcs, here);
    }
  }

  /** What putting and removing one key does to the size of a map. */
  lemma MapSizes<K, V>(m: map<K, V>, k: K, v: V)
    ensures k !in m ==> |m[k := v]| == |m| + 1
    ensures k in m ==> |m[k := v]| == |m| && |m - {k}| == |m| - 1
  {
    assert |m| == |m.Keys| && |m[k := v]| == |m[k := v].Keys| && |m - {k}| == |(m - {k}).Keys|;
    assert m[k := v].Keys == m.Keys + {k} && (m - {k}).Keys == m.Keys - {k};
  }
}
