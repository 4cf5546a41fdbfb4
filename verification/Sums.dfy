/** Sums over the values of a map. */
module Sums {
  /** The sum of f over the values of m. */
  ghost function SumBy<K(!new), V>(m: map<K, V>, f: V -> int): int
    decreases |m|
  {
    if m == map[] then 0
    else
      var k :| k in m;
      assert |m - {k}| < |m| by { assert (m - {k}).Keys == m.Keys - {k}; }
      f(m[k]) + SumBy(m - {k}, f)
  }

  lemma {:induction false} SumByRemove<K(!new), V>(m: map<K, V>, f: V -> int, k: K)
    requires k in m
    ensures SumBy(m, f) == f(m[k]) + SumBy(m - {k}, f)
    decreases |m|
  {
    var j :| j in m && SumBy(m, f) == f(m[j]) + SumBy(m - {j}, f);
    if j != k {
      assert (m - {j}).Keys == m.Keys - {j};
      SumByRemove(m - {j}, f, k);
      SumByRemove(m - {k}, f, j) by {
        assert (m - {k}).Keys == m.Keys - {k};
      }
      assert m - {j} - {k} == m - {k} - {j};
    }
  }

  lemma SumByUpdate<K(!new), V>(m: map<K, V>, f: V -> int, k: K, v: V)
    ensures SumBy(m[k := v], f) == SumBy(m, f) - (if k in m then f(m[k]) else 0) + f(v)
  {
    SumByRemove(m[k := v], f, k);
    assert m[k := v] - {k} == m - {k};
    if k in m {
      SumByRemove(m, f, k);
    } else {
      assert m - {k} == m;
    }
  }
}
