/** Sums over finite maps, used to total counts over batch rows, jobs and actions. */
module Sums {
  import opened Domain

  ghost function Sum(m: map<nat, nat>): nat
    decreases |m|
  {
    if m.Keys == {} then 0
    else
      var k := Pick(m.Keys);
      RemoveShrinks(m, k);
      m[k] + Sum(m - {k})
  }

  lemma RemoveShrinks(m: map<nat, nat>, k: nat)
    requires k in m
    ensures |m - {k}| < |m|
  {
    assert (m - {k}).Keys == m.Keys - {k};
    assert |(m - {k}).Keys| < |m.Keys|;
  }

  lemma {:induction false} SumRemove(m: map<nat, nat>, k: nat)
    requires k in m
    ensures Sum(m) == m[k] + Sum(m - {k})
    decreases |m|
  {
    var p := Pick(m.Keys);
    if p != k {
      RemoveShrinks(m, p);
      SumRemove(m - {p}, k);
      assert m - {p} - {k} == m - {k} - {p};
      RemoveShrinks(m, k);
      SumRemove(m - {k}, p);
    }
  }

  /** Setting one entry changes the sum by that entry's change. */
  lemma SumSet(m: map<nat, nat>, k: nat, v: nat)
    ensures Sum(m[k := v]) == Sum(m) - (if k in m then m[k] else 0) + v
  {
    SumRemove(m[k := v], k);
    if k in m {
      SumRemove(m, k);
      assert m[k := v] - {k} == m - {k};
    } else {
      assert m[k := v] - {k} == m;
    }
  }

  lemma SumDrop(m: map<nat, nat>, k: nat)
    ensures Sum(m - {k}) == Sum(m) - (if k in m then m[k] else 0)
  {
    if k in m {
      SumRemove(m, k);
    } else {
      assert m - {k} == m;
    }
  }

  lemma {:induction false} SumBounded(a: map<nat, nat>, b: map<nat, nat>)
    requires a.Keys == b.Keys && forall k :: k in a ==> a[k] <= b[k]
    ensures Sum(a) <= Sum(b)
    decreases |a|
  {
    if a.Keys != {} {
      var k := Pick(a.Keys);
      RemoveShrinks(a, k);
      SumRemove(a, k);
      SumRemove(b, k);
      SumBounded(a - {k}, b - {k});
    } else {
      assert b.Keys == {};
    }
  }
}
