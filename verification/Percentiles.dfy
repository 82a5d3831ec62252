/** The nearest-rank percentile of the reports (percentile in experimentation/internal/runner/runner.go). */
module Percentiles {
  import opened Perms
  import opened Sorting
  import opened Sums

  predicate Le(x: real, y: real) {
    x <= y
  }

  function Ceil(x: real): int {
    -(-x).Floor
  }

  /** The index read from the sorted values. */
  function Rank(n: nat, p: real): (i: nat)
    requires n > 0
    ensures i < n
  {
    var i := Ceil(p / 100.0 * n as real) - 1;
    if i < 0 then 0 else if i >= n then n - 1 else i
  }

  function Percentile(v: seq<real>, p: real): real {
    if v == [] then 0.0
    else
      assert |Sort(v, Le)| == |multiset(Sort(v, Le))| == |multiset(v)| == |v|;
      Sort(v, Le)[Rank(|v|, p)]
  }

  /** One for the values up to x. */
  function UpTo(x: real): real -> real {
    y => if y <= x then 1.0 else 0.0
  }

  /** How many of the values are at most x. */
  function CountUpTo(v: seq<real>, x: real): real {
    SumOf(v, UpTo(x))
  }

  /** Of two lists, the first all at most x. */
  lemma CountsFirst(s: seq<real>, t: seq<real>, x: real)
    requires forall y | y in s :: y <= x
    ensures CountUpTo(s + t, x) >= |s| as real
  {
    SumOfConcat(s, t, UpTo(x));
    SumOfConst(s, UpTo(x), 1.0);
    SumOfZero(t, UpTo(x));
  }

  /** Of two lists, the second all above x. */
  lemma CountsOnlyFirst(s: seq<real>, t: seq<real>, x: real)
    requires forall y | y in t :: y > x
    ensures CountUpTo(s + t, x) <= |s| as real
  {
    SumOfConcat(s, t, UpTo(x));
    SumOfMono(s, UpTo(x), (y: real) => 1.0);
    SumOfConst(s, (y: real) => 1.0, 1.0);
    SumOfConst(t, UpTo(x), 0.0);
  }

  lemma SortedCounts(s: seq<real>, k: nat, x: real)
    requires SortedBy(s, Le) && k < |s|
    ensures x >= s[k] ==> CountUpTo(s, x) >= (k + 1) as real
    ensures x < s[k] ==> CountUpTo(s, x) <= k as real
  {
    if x >= s[k] {
      var low, rest := s[..k + 1], s[k + 1..];
      assert s == low + rest;
      forall y | y in low ensures y <= x {
        assert Le(y, s[k]);
      }
      CountsFirst(low, rest, x);
    } else {
      var low, rest := s[..k], s[k..];
      assert s == low + rest;
      forall y | y in rest ensures y > x {
        assert Le(s[k], y);
      }
      CountsOnlyFirst(low, rest, x);
    }
  }

  lemma LeOrder()
    ensures TotalPreorder(Le)
  {
  }

  lemma RankBrackets(n: nat, p: real)
    requires n > 0 && 0.0 <= p <= 100.0
    ensures (Rank(n, p) + 1) as real >= Share(n, p)
    ensures Rank(n, p) > 0 ==> Rank(n, p) as real < Share(n, p)
  {
    var q, m := p / 100.0, n as real;
    assert q <= 1.0;
    ShareAtMost(q, m);
  }

  lemma ShareAtMost(q: real, m: real)
    requires q <= 1.0 && m >= 0.0
    ensures q * m <= m
  {
    assert (1.0 - q) * m >= 0.0;
  }

  /** The share of a sample of n that p percent is. */
  function Share(n: nat, p: real): real {
    p / 100.0 * n as real
  }

  lemma RankedValue(v: seq<real>, s: seq<real>, k: nat, share: real)
    requires multiset(s) == multiset(v) && SortedBy(s, Le) && k < |s|
    requires (k + 1) as real >= share && (k > 0 ==> k as real < share)
    ensures s[k] in v && CountUpTo(v, s[k]) >= share
    ensures forall x | x in v && CountUpTo(v, x) >= share :: s[k] <= x
  {
    PermFacts(s, v);
    SumOfPerm(s, v, UpTo(s[k]));
    SortedCounts(s, k, s[k]);
    forall x | x in v && CountUpTo(v, x) >= share ensures s[k] <= x {
      SumOfPerm(s, v, UpTo(x));
      SortedCounts(s, k, x);
      var i :| 0 <= i < |s| && s[i] == x;
      assert k == 0 && i > 0 ==> Le(s[0], s[i]);
    }
  }

  /** It is the smallest of the values with at least p percent of the values at or below it. */
  lemma NearestRank(v: seq<real>, p: real)
    requires v != [] && 0.0 <= p <= 100.0
    ensures Percentile(v, p) in v
    ensures CountUpTo(v, Percentile(v, p)) >= Share(|v|, p)
    ensures forall x | x in v && CountUpTo(v, x) >= Share(|v|, p) :: Percentile(v, p) <= x
  {
    var s := Sort(v, Le);
    LeOrder();
    SortSorted(v, Le);
    PermFacts(s, v);
    RankBrackets(|v|, p);
    RankedValue(v, s, Rank(|v|, p), Share(|v|, p));
  }

  lemma RankMonotone(n: nat, p: real, p': real)
    requires n > 0 && p <= p'
    ensures Rank(n, p) <= Rank(n, p')
  {
    ShareMonotone(p / 100.0, p' / 100.0, n as real);
    assert Share(n, p) <= Share(n, p');
    assert (-Share(n, p')).Floor <= (-Share(n, p)).Floor;
  }

  lemma ShareMonotone(q: real, q': real, m: real)
    requires q <= q' && m >= 0.0
    ensures q * m <= q' * m
  {
    assert (q' - q) * m >= 0.0;
  }

  lemma SortedAt(s: seq<real>, i: nat, j: nat)
    requires SortedBy(s, Le) && i <= j < |s|
    ensures s[i] <= s[j]
  {
    assert i < j ==> Le(s[i], s[j]);
  }

  /** So the reported p50, p95 and p99 are in order. */
  lemma PercentileMonotone(v: seq<real>, p: real, p': real)
    requires p <= p'
    ensures Percentile(v, p) <= Percentile(v, p')
  {
    if v != [] {
      LeOrder();
      SortSorted(v, Le);
      RankMonotone(|v|, p, p');
      PermFacts(Sort(v, Le), v);
      SortedAt(Sort(v, Le), Rank(|v|, p), Rank(|v|, p'));
    }
  }
}
