/** Sums over finite maps, independent of the order in which entries are visited. */
module Sums {
  ghost function Sum<K(!new), V(!new)>(m: map<K, V>, f: (K, V) -> int): int {
    if m == map[] then 0
    else
      var k :| k in m;
      f(k, m[k]) + Sum(m - {k}, f)
  }

  /** Any entry may be taken out first. */
  lemma {:induction false} SumOut<K(!new), V(!new)>(m: map<K, V>, f: (K, V) -> int, k: K)
    requires k in m
    ensures Sum(m, f) == f(k, m[k]) + Sum(m - {k}, f)
    decreases |m|
  {
    var x :| x in m && Sum(m, f) == f(x, m[x]) + Sum(m - {x}, f);
    if x != k {
      SumOut(m - {x}, f, k);
      SumOut(m - {k}, f, x);
      assert m - {x} - {k} == m - {k} - {x};
    }
  }

  /** Writing one entry changes the sum by the difference of that entry alone. */
  lemma SumWrite<K(!new), V(!new)>(m: map<K, V>, f: (K, V) -> int, k: K, v: V)
    ensures Sum(m[k := v], f) == Sum(m, f) - (if k in m then f(k, m[k]) else 0) + f(k, v)
  {
    SumOut(m[k := v], f, k);
    assert m[k := v] - {k} == m - {k};
    if k in m {
      SumOut(m, f, k);
    } else {
      assert m - {k} == m;
    }
  }

  /** A sum of non-negative terms covers any one of them, and any two. */
  lemma {:induction false} SumCovers<K(!new), V(!new)>(m: map<K, V>, f: (K, V) -> int)
    requires forall k :: k in m ==> f(k, m[k]) >= 0
    ensures Sum(m, f) >= 0
    ensures forall k :: k in m ==> f(k, m[k]) <= Sum(m, f)
    decreases |m|
  {
    forall k | k in m
      ensures f(k, m[k]) <= Sum(m, f)
    {
      SumOut(m, f, k);
      SumCovers(m - {k}, f);
    }
    if m != map[] {
      var k :| k in m;
    }
  }
}
