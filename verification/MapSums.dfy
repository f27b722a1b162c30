/** Sums over the values of a finite map. */
module MapSums {

  ghost function Sum<K>(m: map<K, int>): int
    decreases |m|
  {
    if m == map[] then 0
    else
      var k :| k in m;
      m[k] + Sum(m - {k})
  }

  /** Any entry may be taken out first. */
  lemma {:induction false} Takes<K>(m: map<K, int>, k: K)
    requires k in m
    ensures Sum(m) == m[k] + Sum(m - {k})
    decreases |m|
  {
    var l :| l in m && Sum(m) == m[l] + Sum(m - {l});
    if l != k {
      Takes(m - {l}, k);
      Takes(m - {k}, l);
      assert m - {l} - {k} == m - {k} - {l};
    }
  }

  lemma Adds<K>(m: map<K, int>, k: K, v: int)
    requires k !in m
    ensures Sum(m[k := v]) == Sum(m) + v
  {
    Takes(m[k := v], k);
    assert m[k := v] - {k} == m;
  }

  lemma Replaces<K>(m: map<K, int>, k: K, v: int)
    requires k in m
    ensures Sum(m[k := v]) == Sum(m) - m[k] + v
  {
    Takes(m, k);
    Takes(m[k := v], k);
    assert m[k := v] - {k} == m - {k};
  }

  /** Growing entries, and new ones that are not negative, never lower the sum. */
  lemma {:induction false} Monotone<K>(m: map<K, int>, more: map<K, int>)
    requires forall k :: k in m ==> k in more && m[k] <= more[k]
    requires forall k :: k in more && k !in m ==> 0 <= more[k]
    ensures Sum(m) <= Sum(more)
    decreases |more|
  {
    if more == map[] {
      assert m == map[];
    } else {
      var k :| k in more;
      Takes(more, k);
      if k in m { Takes(m, k); } else { assert m - {k} == m; }
      Monotone(m - {k}, more - {k});
    }
  }

  lemma NotNegative<K>(m: map<K, int>)
    requires forall k :: k in m ==> 0 <= m[k]
    ensures 0 <= Sum(m)
  {
    Monotone(map[], m);
  }

  /** Sums add up entry by entry. */
  lemma {:induction false} Splits<K>(m: map<K, int>, a: map<K, int>, b: map<K, int>)
    requires m.Keys == a.Keys == b.Keys && forall k :: k in m ==> m[k] == a[k] + b[k]
    ensures Sum(m) == Sum(a) + Sum(b)
    decreases |m|
  {
    if m == map[] {
      assert a == map[] && b == map[];
    } else {
      var k :| k in m;
      Takes(m, k);
      Takes(a, k);
      Takes(b, k);
      Splits(m - {k}, a - {k}, b - {k});
    }
  }

  /** Leaving out zero entries does not change the sum. */
  lemma {:induction false} ZerosAddNothing<K>(m: map<K, int>, part: map<K, int>)
    requires forall k :: k in part ==> k in m && part[k] == m[k]
    requires forall k :: k in m && k !in part ==> m[k] == 0
    ensures Sum(m) == Sum(part)
    decreases |m|
  {
    if m == map[] {
      assert part == map[];
    } else {
      var k :| k in m;
      Takes(m, k);
      if k in part { Takes(part, k); }
      ZerosAddNothing(m - {k}, part - {k});
      if k !in part { assert part - {k} == part; }
    }
  }
}
