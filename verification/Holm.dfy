/**
 The Holm correction of the pairwise McNemar p-values (article2/scripts/analyze_e2_significance.py):
 sort in place, one pass that threads the previous adjusted value, one significance flag per test.
 */
module Holm {
  import opened Reals
  import opened Sorting
  import opened Perms

  datatype Test = Test(pair: string, raw: real)
  datatype Adjusted = Adjusted(test: Test, holm: real, significant: bool)

  predicate RawLe(x: Test, y: Test) {
    x.raw <= y.raw
  }

  /** A p-value times a number of tests. */
  function Scaled(n: int, p: real): real {
    n as real * p
  }

  lemma ScaledMono(n: int, m: int, p: real, q: real)
    requires 0 <= n <= m && 0.0 <= p <= q
    ensures Scaled(n, p) <= Scaled(m, q)
    ensures n == 1 ==> Scaled(n, p) == p
  {
    MulMono(n as real, m as real, p);
    MulMono(p, q, m as real);
  }

  /** The smallest p-value times the number of tests not yet passed, capped at one. */
  function Stage(ts: seq<Test>, i: nat): real
    requires i < |ts|
  {
    Min(1.0, Scaled(|ts| - i, ts[i].raw))
  }

  function Min(x: real, y: real): real {
    if x <= y then x else y
  }

  function Max(x: real, y: real): real {
    if x >= y then x else y
  }

  /** v is the largest of 0 and the stages up to i. */
  ghost predicate IsRunningMax(ts: seq<Test>, i: nat, v: real)
    requires i < |ts|
  {
    && v >= 0.0
    && (forall j | 0 <= j <= i :: Stage(ts, j) <= v)
    && (v == 0.0 || exists j :: 0 <= j <= i && Stage(ts, j) == v)
  }

  lemma RunningMaxStep(ts: seq<Test>, i: nat, prev: real, adj: real)
    requires i < |ts| && adj == Max(Stage(ts, i), prev)
    requires if i == 0 then prev == 0.0 else IsRunningMax(ts, i - 1, prev)
    ensures IsRunningMax(ts, i, adj)
  {
    assert adj == prev ==> adj == 0.0 || exists j :: 0 <= j <= i && Stage(ts, j) == adj;
  }

  predicate ProperP(t: Test) {
    0.0 <= t.raw <= 1.0
  }

  ghost predicate IsAdjusted(ts: seq<Test>, i: nat, a: Adjusted)
    requires i < |ts|
  {
    a.test == ts[i] && IsRunningMax(ts, i, a.holm) && a.significant == (a.holm < 0.05)
  }

  /** The Holm block of main: sort by raw p-value, then adjust each test in turn. */
  method Adjust(tests: seq<Test>) returns (r: seq<Adjusted>, ts: seq<Test>)
    ensures multiset(ts) == multiset(tests) && SortedBy(ts, RawLe)
    ensures |r| == |ts| == |tests|
    ensures forall i | 0 <= i < |ts| :: IsAdjusted(ts, i, r[i])
  {
    ts := Sort(tests, RawLe);
    SortSorted(tests, RawLe);
    PermFacts(ts, tests);
    r := AdjustSorted(ts);
  }

  /** The pass over the sorted tests, threading the previous adjusted value. */
  method AdjustSorted(ts: seq<Test>) returns (r: seq<Adjusted>)
    ensures |r| == |ts|
    ensures forall i | 0 <= i < |ts| :: IsAdjusted(ts, i, r[i])
  {
    var m := |ts|;
    var prev := 0.0;
    r := [];
    for i := 0 to m
      invariant |r| == i
      invariant forall j | 0 <= j < i :: IsAdjusted(ts, j, r[j])
      invariant if i == 0 then prev == 0.0 else IsRunningMax(ts, i - 1, prev)
    {
      var adj := Min(1.0, Scaled(m - i, ts[i].raw));
      adj := Max(adj, prev);
      RunningMaxStep(ts, i, prev, adj);
      prev := adj;
      r := r + [Adjusted(ts[i], adj, adj < 0.05)];
    }
  }

  // ---------- what the correction promises ----------

  /** Adjusted values never decrease along the sorted tests, and lie between the raw value and one. */
  lemma AdjustedRange(ts: seq<Test>, i: nat, v: real, j: nat, v': real)
    requires SortedBy(ts, RawLe) && forall t | t in ts :: ProperP(t)
    requires i <= j < |ts| && IsRunningMax(ts, i, v) && IsRunningMax(ts, j, v')
    ensures v <= v' && ts[i].raw <= v <= 1.0
    ensures i == j ==> v == v'
  {
    assert ts[i] in ts;
    ScaledMono(1, |ts| - i, ts[i].raw, ts[i].raw);
    assert Stage(ts, i) >= ts[i].raw;
  }

  /** A running maximum stays below a level at most one exactly when every scaled p-value up to it does. */
  lemma BelowLevel(ts: seq<Test>, i: nat, v: real, level: real)
    requires i < |ts| && IsRunningMax(ts, i, v) && 0.0 < level <= 1.0
    ensures v < level <==> forall j | 0 <= j <= i :: Scaled(|ts| - j, ts[j].raw) < level
  {
    if v < level {
      forall j | 0 <= j <= i ensures Scaled(|ts| - j, ts[j].raw) < level {
        assert Stage(ts, j) <= v;
      }
    }
  }

  /** The tests whose index is in s, each below level over the size of s: one Bonferroni test of s. */
  ghost predicate BonferroniRejects(ts: seq<Test>, s: set<nat>, level: real) {
    exists t :: t in s && t < |ts| && Scaled(|s|, ts[t].raw) < level
  }

  /**
   Holm's procedure is the closed test built from Bonferroni tests: a test is significant after the
   correction exactly when every set of tests containing it is rejected by its Bonferroni test. The
   right-hand side does not mention the order the tests were sorted in.
   */
  lemma HolmIsClosedTest(ts: seq<Test>, i: nat, v: real, level: real)
    requires SortedBy(ts, RawLe) && forall t | t in ts :: ProperP(t)
    requires i < |ts| && IsRunningMax(ts, i, v) && 0.0 < level <= 1.0
    ensures v < level
        <==> forall s: set<nat> | i in s && (forall t | t in s :: t < |ts|) :: BonferroniRejects(ts, s, level)
  {
    BelowLevel(ts, i, v, level);
    if v < level {
      forall s: set<nat> | i in s && (forall t | t in s :: t < |ts|) ensures BonferroniRejects(ts, s, level) {
        FirstOfSetRejected(ts, s, i, level);
      }
    } else {
      var j :| 0 <= j <= i && Scaled(|ts| - j, ts[j].raw) >= level;
      SuffixNotRejected(ts, j, level);
    }
  }

  function Suffix(j: nat, m: nat): (s: set<nat>)
    requires j <= m
    ensures forall t :: t in s <==> j <= t < m
    ensures |s| == m - j
    decreases m - j
  {
    if j == m then {} else
      var rest := Suffix(j + 1, m);
      assert j !in rest;
      {j} + rest
  }

  lemma SizeWithin(s: set<nat>, j: nat, m: nat)
    requires j <= m && forall t | t in s :: j <= t < m
    ensures |s| <= m - j
  {
    var all := Suffix(j, m);
    assert s <= all;
    SubsetSize(s, all);
  }

  lemma SubsetSize(s: set<nat>, t: set<nat>)
    requires s <= t
    ensures |s| <= |t|
  {
    assert t == s + (t - s);
  }

  lemma FirstOfSetRejected(ts: seq<Test>, s: set<nat>, i: nat, level: real)
    requires forall t | t in ts :: ProperP(t)
    requires i in s && forall t | t in s :: t < |ts|
    requires forall j | 0 <= j <= i :: Scaled(|ts| - j, ts[j].raw) < level
    ensures BonferroniRejects(ts, s, level)
  {
    var first := Least(s, i);
    SizeWithin(s, first, |ts|);
    assert ts[first] in ts;
    ScaledMono(|s|, |ts| - first, ts[first].raw, ts[first].raw);
  }

  lemma {:induction false} Least(s: set<nat>, i: nat) returns (first: nat)
    requires i in s
    ensures first in s && first <= i && forall t | t in s :: first <= t
    decreases i
  {
    if t :| t in s && t < i {
      first := Least(s, t);
    } else {
      first := i;
    }
  }

  lemma SuffixNotRejected(ts: seq<Test>, j: nat, level: real)
    requires SortedBy(ts, RawLe) && j < |ts| && ProperP(ts[j]) && Scaled(|ts| - j, ts[j].raw) >= level
    ensures !BonferroniRejects(ts, Suffix(j, |ts|), level)
  {
    var s := Suffix(j, |ts|);
    if t :| t in s && t < |ts| && Scaled(|s|, ts[t].raw) < level {
      assert j == t || RawLe(ts[j], ts[t]);
      ScaledMono(|ts| - j, |ts| - j, ts[j].raw, ts[t].raw);
    }
  }

  /**
   The family-wise guarantee, p-value by p-value: if any test of a set of true hypotheses becomes
   significant, the smallest p-value of that set was below the level over its size.
   */
  lemma FalseRejectionNeedsSmallP(ts: seq<Test>, trueNulls: set<nat>, i: nat, v: real, level: real)
    requires SortedBy(ts, RawLe) && forall t | t in ts :: ProperP(t)
    requires i in trueNulls && forall t | t in trueNulls :: t < |ts|
    requires IsRunningMax(ts, i, v) && 0.0 < level <= 1.0 && v < level
    ensures exists t :: t in trueNulls && t < |ts| && Scaled(|trueNulls|, ts[t].raw) < level
                     && forall u | u in trueNulls :: ts[t].raw <= ts[u].raw
  {
    BelowLevel(ts, i, v, level);
    var first := Least(trueNulls, i);
    SizeWithin(trueNulls, first, |ts|);
    assert ts[first] in ts;
    ScaledMono(|trueNulls|, |ts| - first, ts[first].raw, ts[first].raw);
    assert forall u | u in trueNulls :: first == u || RawLe(ts[first], ts[u]);
  }

  /** Holm rejects at least what Bonferroni does, and at most what the raw p-values do. */
  lemma BetweenBonferroniAndRaw(ts: seq<Test>, i: nat, v: real, level: real)
    requires SortedBy(ts, RawLe) && forall t | t in ts :: ProperP(t)
    requires i < |ts| && IsRunningMax(ts, i, v) && 0.0 < level <= 1.0
    ensures Scaled(|ts|, ts[i].raw) < level ==> v < level
    ensures v < level ==> ts[i].raw < level
  {
    BelowLevel(ts, i, v, level);
    AdjustedRange(ts, i, v, i, v);
    if Scaled(|ts|, ts[i].raw) < level {
      forall j | 0 <= j <= i ensures Scaled(|ts| - j, ts[j].raw) < level {
        assert ts[j] in ts && (j < i ==> RawLe(ts[j], ts[i]));
        ScaledMono(|ts| - j, |ts|, ts[j].raw, ts[i].raw);
      }
    }
  }
}
