/** Sums over finite maps, for byte accounting. */
module Sums {
  ghost function Sum(m: map<nat, nat>): nat {
    if m == map[] then 0
    else
      var k :| k in m;
      m[k] + Sum(m - {k})
  }

  /** The sum can be taken apart at any key. */
  lemma {:induction false} SumSplit(m: map<nat, nat>, k: nat)
    requires k in m
    ensures Sum(m) == m[k] + Sum(m - {k})
    decreases |m|
  {
    var j :| j in m && Sum(m) == m[j] + Sum(m - {j});
    if j != k {
      SumSplit(m - {j}, k);
      SumSplit(m - {k}, j);
      assert m - {j} - {k} == m - {k} - {j};
    }
  }

  lemma SumSet(m: map<nat, nat>, k: nat, v: nat)
    ensures Sum(m[k := v]) == Sum(m - {k}) + v
  {
    SumSplit(m[k := v], k);
    assert m[k := v] - {k} == m - {k};
  }

  lemma {:induction false} SumBelow(a: map<nat, nat>, b: map<nat, nat>)
    requires a.Keys == b.Keys && forall k :: k in a ==> a[k] <= b[k]
    ensures Sum(a) <= Sum(b)
    decreases |a|
  {
    if a == map[] {
      assert b == map[];
    } else {
      var k :| k in a;
      SumSplit(a, k);
      SumSplit(b, k);
      assert |a - {k}| < |a| by { assert (a - {k}).Keys == a.Keys - {k}; }
      SumBelow(a - {k}, b - {k});
    }
  }

  lemma {:induction false} SumBound(m: map<nat, nat>, bound: nat)
    requires forall k :: k in m ==> m[k] <= bound
    ensures Sum(m) <= |m| * bound
    decreases |m|
  {
    if m != map[] {
      var k :| k in m;
      var rest := m - {k};
      SumSplit(m, k);
      assert rest.Keys == m.Keys - {k};
      SumBound(rest, bound);
      AddOne(|rest|, bound);
    }
  }

  lemma AddOne(n: nat, bound: nat)
    ensures n * bound + bound == (n + 1) * bound
  {
  }
}
