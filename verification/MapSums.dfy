/** Sums of integers over the entries of a map. */
module MapSums {

  ghost function SumMap<V>(m: map<string, V>, f: V -> int): int
    decreases |m|
  {
    if m == map[] then 0
    else
      var k :| k in m;
      f(m[k]) + SumMap(m - {k}, f)
  }

  /** Any entry can be taken out first. */
  lemma {:induction false} SumTake<V>(m: map<string, V>, k: string, f: V -> int)
    requires k in m
    ensures SumMap(m, f) == f(m[k]) + SumMap(m - {k}, f)
    decreases |m|
  {
    var k' :| k' in m && SumMap(m, f) == f(m[k']) + SumMap(m - {k'}, f);
    if k' != k {
      SumTake(m - {k'}, k, f);
      SumTake(m - {k}, k', f);
      assert m - {k'} - {k} == m - {k} - {k'};
    }
  }

  lemma SumPut<V>(m: map<string, V>, k: string, v: V, f: V -> int)
    ensures SumMap(m[k := v], f) == SumMap(m, f) + f(v) - (if k in m then f(m[k]) else 0)
  {
    SumTake(m[k := v], k, f);
    if k in m {
      SumTake(m, k, f);
      assert m[k := v] - {k} == m - {k};
    } else {
      assert m[k := v] - {k} == m;
    }
  }

  /** Two maps over the same keys whose entries differ by g. */
  lemma {:induction false} SumDiffer<V>(m: map<string, V>, m': map<string, V>, f: V -> int, g: V -> int, h: V -> int)
    requires m.Keys == m'.Keys && forall k | k in m :: h(m'[k]) == f(m[k]) + g(m[k])
    ensures SumMap(m', h) == SumMap(m, f) + SumMap(m, g)
    decreases |m|
  {
    if m != map[] {
      var k :| k in m;
      SumTake(m, k, f);
      SumTake(m, k, g);
      SumTake(m', k, h);
      SumDiffer(m - {k}, m' - {k}, f, g, h);
    }
  }

  lemma {:induction false} SumNothing<V>(m: map<string, V>, f: V -> int)
    requires forall k | k in m :: f(m[k]) == 0
    ensures SumMap(m, f) == 0
    decreases |m|
  {
    if m != map[] {
      var k :| k in m;
      SumTake(m, k, f);
      SumNothing(m - {k}, f);
    }
  }

  lemma {:induction false} SumLe<V>(m: map<string, V>, f: V -> int, g: V -> int)
    requires forall k | k in m :: f(m[k]) <= g(m[k])
    ensures SumMap(m, f) <= SumMap(m, g)
    decreases |m|
  {
    if m != map[] {
      var k :| k in m;
      SumTake(m, k, f);
      SumTake(m, k, g);
      SumLe(m - {k}, f, g);
    }
  }
}
