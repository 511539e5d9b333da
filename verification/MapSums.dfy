/** Sums over the entries of a map. */
module MapSums {

  ghost function Pick<K, V>(m: map<K, V>): (k: K)
    requires m != map[]
    ensures k in m
  {
    assert m.Keys != {};
    var k :| k in m;
    k
  }

  ghost function SumMap<K, V>(weight: V -> int, m: map<K, V>): int
    decreases |m|
  {
    if m == map[] then 0 else SumMap(weight, m - {Pick(m)}) + weight(m[Pick(m)])
  }

  /** The sum does not depend on the order in which entries are taken. */
  lemma {:induction false} SumPick<K, V>(weight: V -> int, m: map<K, V>, k: K)
    requires k in m
    ensures SumMap(weight, m) == SumMap(weight, m - {k}) + weight(m[k])
    decreases |m|
  {
    var j := Pick(m);
    if j != k {
      SumPick(weight, m - {j}, k);
      SumPick(weight, m - {k}, j);
      assert m - {j} - {k} == m - {k} - {j};
    }
  }

  /** What an entry weighed before, if it was there. */
  ghost function WeightAt<K, V>(weight: V -> int, m: map<K, V>, k: K): int {
    if k in m then weight(m[k]) else 0
  }

  lemma SumUpdate<K, V>(weight: V -> int, m: map<K, V>, k: K, v: V)
    ensures SumMap(weight, m[k := v]) == SumMap(weight, m) - WeightAt(weight, m, k) + weight(v)
  {
    SumPick(weight, m[k := v], k);
    assert m[k := v] - {k} == m - {k};
    if k in m {
      SumPick(weight, m, k);
    } else {
      assert m - {k} == m;
    }
  }

  /** A map with fewer and lighter entries has a smaller sum. */
  lemma {:induction false} SumMonotone<K, V>(weight: V -> int, a: map<K, V>, b: map<K, V>)
    requires forall k {:trigger b[k]} :: k in b ==> weight(b[k]) >= 0
    requires forall k {:trigger a[k]} :: k in a ==> k in b && weight(a[k]) <= weight(b[k])
    ensures SumMap(weight, a) <= SumMap(weight, b)
    decreases |b|
  {
    if b == map[] {
      assert a.Keys == {};
    } else {
      var k := Pick(b);
      SumMonotone(weight, a - {k}, b - {k});
      if k in a {
        SumPick(weight, a, k);
      } else {
        assert a - {k} == a;
      }
    }
  }
}
