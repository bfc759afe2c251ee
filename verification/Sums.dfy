/** Totals over the rows of a table. */
module Sums {

  /** The sum of all values of a table column. */
  ghost function Sum(m: map<nat, int>): int {
    if m == map[] then 0
    else var k :| k in m; m[k] + Sum(m - {k})
  }

  lemma {:induction false} SumRemove(m: map<nat, int>, k: nat)
    requires k in m
    ensures Sum(m) == m[k] + Sum(m - {k})
    decreases |m|
  {
    var j :| j in m && Sum(m) == m[j] + Sum(m - {j});
    if j != k {
      SumRemove(m - {j}, k);
      SumRemove(m - {k}, j);
      assert m - {j} - {k} == m - {k} - {j};
    }
  }

  /** Writing one row changes the total by the difference of the values. */
  lemma SumSet(m: map<nat, int>, k: nat, v: int)
    ensures Sum(m[k := v]) == Sum(m) - (if k in m then m[k] else 0) + v
  {
    SumRemove(m[k := v], k);
    assert m[k := v] - {k} == m - {k};
    if k in m {
      SumRemove(m, k);
    } else {
      assert m - {k} == m;
    }
  }

  /** Totals follow a pointwise bound. */
  lemma {:induction false} SumLe(m: map<nat, int>, n: map<nat, int>)
    requires m.Keys == n.Keys
    requires forall k :: k in m ==> m[k] <= n[k]
    ensures Sum(m) <= Sum(n)
    decreases |m|
  {
    if m == map[] {
      assert n == map[];
    } else {
      var k :| k in m;
      SumRemove(m, k);
      SumRemove(n, k);
      SumLe(m - {k}, n - {k});
    }
  }

  lemma {:induction false} SumAdd(m: map<nat, int>, n: map<nat, int>, both: map<nat, int>)
    requires m.Keys == n.Keys == both.Keys
    requires forall k :: k in m ==> both[k] == m[k] + n[k]
    ensures Sum(both) == Sum(m) + Sum(n)
    decreases |m|
  {
    if m == map[] {
      assert n == map[] && both == map[];
    } else {
      var k :| k in m;
      SumRemove(m, k);
      SumRemove(n, k);
      SumRemove(both, k);
      SumAdd(m - {k}, n - {k}, both - {k});
    }
  }
}
