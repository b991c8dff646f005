/** Sums over finite maps, and the sizes of finite sets. */
module MapSums {
  ghost function Sum<K>(m: map<K, int>): int
    decreases |m|
  {
    if m == map[] then 0
    else
      var k :| k in m;
      m[k] + Sum(m - {k})
  }

  /** The sum does not depend on the order of summation. */
  lemma {:induction false} SumWithout<K>(m: map<K, int>, k: K)
    requires k in m
    ensures Sum(m) == m[k] + Sum(m - {k})
    decreases |m|
  {
    var j :| j in m && Sum(m) == m[j] + Sum(m - {j});
    if j != k {
      SumWithout(m - {j}, k);
      SumWithout(m - {k}, j);
      assert m - {j} - {k} == m - {k} - {j};
    }
  }

  lemma SumUpdate<K>(m: map<K, int>, k: K, v: int)
    ensures Sum(m[k := v]) == Sum(m) + v - if k in m then m[k] else 0
  {
    SumWithout(m[k := v], k);
    if k in m {
      SumWithout(m, k);
      assert m[k := v] - {k} == m - {k};
    } else {
      assert m[k := v] - {k} == m;
    }
  }

  lemma CardUnion(a: set<int>, b: set<int>)
    ensures |a + b| == |a| + |b| - |a * b|
    ensures |a + b| >= |a| && (b <= a <==> |a + b| == |a|)
  {
    assert a + b == a + (b - a);
    assert b == (b - a) + (a * b);
    if b <= a { assert b - a == {}; }
    if |b - a| == 0 {
      forall x | x in b ensures x in a { assert x !in b - a; }
    }
  }

  lemma CardMinus(a: set<int>, b: set<int>)
    ensures |a - b| == |a| - |a * b|
  {
    assert a == (a - b) + (a * b);
  }
}
