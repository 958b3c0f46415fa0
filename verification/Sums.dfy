/** Sums over finite maps: the ledgers behind every "covers what it owes". */
module Sums {

  ghost function Sum<K(!new), V(!new)>(m: map<K, V>, f: (K, V) -> int): int
    decreases |m|
  {
    if m == map[] then 0
    else
      var k :| k in m;
      f(k, m[k]) + Sum(m - {k}, f)
  }

  lemma {:induction false} SumRemove<K(!new), V(!new)>(m: map<K, V>, f: (K, V) -> int, k: K)
    requires k in m
    ensures Sum(m, f) == f(k, m[k]) + Sum(m - {k}, f)
    decreases |m|
  {
    var c :| c in m && Sum(m, f) == f(c, m[c]) + Sum(m - {c}, f);
    if c != k {
      var a, b := m - {c}, m - {k};
      SumRemove(a, f, k);
      SumRemove(b, f, c);
      assert a - {k} == b - {c};
    }
  }

  /** Writing one key moves the sum by the difference at that key. */
  lemma SumPut<K(!new), V(!new)>(m: map<K, V>, f: (K, V) -> int, k: K, v: V)
    ensures Sum(m[k := v], f) == Sum(m, f) + f(k, v) - (if k in m then f(k, m[k]) else 0)
  {
    var m' := m[k := v];
    SumRemove(m', f, k);
    if k in m {
      SumRemove(m, f, k);
      assert m' - {k} == m - {k};
    } else {
      assert m' - {k} == m;
    }
  }

  lemma {:induction false} SumBounds<K(!new), V(!new)>(m: map<K, V>, f: (K, V) -> int)
    requires forall k :: k in m ==> f(k, m[k]) >= 0
    ensures Sum(m, f) >= 0
    ensures forall k :: k in m ==> f(k, m[k]) <= Sum(m, f)
    decreases |m|
  {
    forall k | k in m
      ensures 0 <= f(k, m[k]) <= Sum(m, f)
    {
      SumRemove(m, f, k);
      SumBounds(m - {k}, f);
    }
  }

  /** Term by term no greater sums to no greater. */
  lemma {:induction false} SumLess<K(!new), V(!new)>(m: map<K, V>, f: (K, V) -> int, g: (K, V) -> int)
    requires forall k :: k in m ==> f(k, m[k]) <= g(k, m[k])
    ensures Sum(m, f) <= Sum(m, g)
    decreases |m|
  {
    if m != map[] {
      var k :| k in m;
      SumRemove(m, f, k);
      SumRemove(m, g, k);
      SumLess(m - {k}, f, g);
    }
  }

  /** Zero everywhere sums to zero. */
  lemma {:induction false} SumZero<K(!new), V(!new)>(m: map<K, V>, f: (K, V) -> int)
    requires forall k :: k in m ==> f(k, m[k]) == 0
    ensures Sum(m, f) == 0
    decreases |m|
  {
    if m != map[] {
      var k :| k in m;
      SumRemove(m, f, k);
      SumZero(m - {k}, f);
    }
  }
}
