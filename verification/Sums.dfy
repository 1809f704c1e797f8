/** Weighted sums over finite maps: the aggregates that the storage maps never hold explicitly. */
module Sums {

  ghost function SumBy<K(!new), V(!new)>(m: map<K, V>, w: (K, V) -> int): int
    decreases |m|
  {
    if m == map[] then 0 else
      assert m.Keys != {};
      var k :| k in m.Keys;
      assert |m - {k}| < |m| by { assert (m - {k}).Keys == m.Keys - {k}; }
      w(k, m[k]) + SumBy(m - {k}, w)
  }

  /** Any key may be split off, not only the one the definition happens to choose. */
  lemma {:induction false} SumBySplit<K(!new), V(!new)>(m: map<K, V>, w: (K, V) -> int, k: K)
    requires k in m
    ensures SumBy(m, w) == w(k, m[k]) + SumBy(m - {k}, w)
    decreases |m|
  {
    assert m.Keys != {};
    var c :| c in m.Keys && SumBy(m, w) == w(c, m[c]) + SumBy(m - {c}, w);
    if c != k {
      assert (m - {c}).Keys == m.Keys - {c} && (m - {k}).Keys == m.Keys - {k};
      SumBySplit(m - {c}, w, k);
      SumBySplit(m - {k}, w, c);
      assert m - {c} - {k} == m - {k} - {c};
    }
  }

  ghost function WeightAt<K(!new), V(!new)>(m: map<K, V>, w: (K, V) -> int, k: K): int {
    if k in m then w(k, m[k]) else 0
  }

  lemma SumByInsert<K(!new), V(!new)>(m: map<K, V>, w: (K, V) -> int, k: K, v: V)
    ensures SumBy(m[k := v], w) == SumBy(m, w) - WeightAt(m, w, k) + w(k, v)
  {
    SumByRemove(m, w, k);
    SumBySplit(m[k := v], w, k);
    assert m[k := v] - {k} == m - {k};
  }

  lemma SumByRemove<K(!new), V(!new)>(m: map<K, V>, w: (K, V) -> int, k: K)
    ensures SumBy(m - {k}, w) == SumBy(m, w) - WeightAt(m, w, k)
  {
    if k in m {
      SumBySplit(m, w, k);
    } else {
      assert m - {k} == m;
    }
  }

  lemma {:induction false} SumByNonNegative<K(!new), V(!new)>(m: map<K, V>, w: (K, V) -> int)
    requires forall k, v :: w(k, v) >= 0
    ensures SumBy(m, w) >= 0
    decreases |m|
  {
    if m != map[] {
      assert m.Keys != {};
      var k :| k in m.Keys;
      assert (m - {k}).Keys == m.Keys - {k};
      SumBySplit(m, w, k);
      SumByNonNegative(m - {k}, w);
    }
  }

  lemma SumByBoundsOne<K(!new), V(!new)>(m: map<K, V>, w: (K, V) -> int, k: K)
    requires forall k, v :: w(k, v) >= 0
    ensures 0 <= WeightAt(m, w, k) <= SumBy(m, w)
  {
    SumByRemove(m, w, k);
    SumByNonNegative(m - {k}, w);
  }

  /** With no negative weight, any two different keys together stay below the sum. */
  lemma SumByBoundsTwo<K(!new), V(!new)>(m: map<K, V>, w: (K, V) -> int, k: K, l: K)
    requires k != l
    requires forall k, v :: w(k, v) >= 0
    ensures 0 <= WeightAt(m, w, k) + WeightAt(m, w, l) <= SumBy(m, w)
  {
    SumByRemove(m, w, k);
    SumByRemove(m - {k}, w, l);
    SumByNonNegative(m - {k} - {l}, w);
  }

  lemma {:induction false} SumByZero<K(!new), V(!new)>(m: map<K, V>, w: (K, V) -> int)
    requires forall k :: k in m ==> w(k, m[k]) == 0
    ensures SumBy(m, w) == 0
    decreases |m|
  {
    if m != map[] {
      assert m.Keys != {};
      var k :| k in m.Keys;
      assert (m - {k}).Keys == m.Keys - {k};
      SumBySplit(m, w, k);
      SumByZero(m - {k}, w);
    }
  }
}
