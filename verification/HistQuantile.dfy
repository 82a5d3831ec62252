/** Quantiles of a Prometheus histogram by linear interpolation (article2/scripts/analyze_e8bis_overhead.py). */
module HistQuantile {
  import opened Reals
  import opened Sorting
  import opened Perms
  import opened Wrappers

  /** A bucket bound; the last bucket of a Prometheus histogram is bounded by +Inf. */
  datatype Bound = Finite(v: real) | Infinite

  /** A bucket: its upper bound and the cumulative count of the observations up to it. */
  datatype Bucket = Bucket(le: Bound, count: real)

  predicate BoundLe(x: Bucket, y: Bucket) {
    y.le.Infinite? || (x.le.Finite? && x.le.v <= y.le.v)
  }

  /** The items of a dictionary: no bound twice. */
  ghost predicate DistinctBounds(bs: seq<Bucket>) {
    forall i, j | 0 <= i < j < |bs| :: bs[i].le != bs[j].le
  }

  // ---------- the quantile, by the bucket that holds the target ----------

  /** The first bucket from i on whose count reaches the target. */
  function FirstReaching(items: seq<Bucket>, target: real, i: nat): (k: nat)
    requires i <= |items|
    ensures i <= k <= |items|
    ensures forall j | i <= j < k :: items[j].count < target
    ensures k < |items| ==> items[k].count >= target
    decreases |items| - i
  {
    if i == |items| || items[i].count >= target then i else FirstReaching(items, target, i + 1)
  }

  function LowerBound(items: seq<Bucket>, i: nat): real
    requires i <= |items|
  {
    if i == 0 || items[i - 1].le.Infinite? then 0.0 else items[i - 1].le.v
  }

  function CountBelow(items: seq<Bucket>, i: nat): real
    requires i <= |items|
  {
    if i == 0 then 0.0 else items[i - 1].count
  }

  /** Straight-line interpolation of the target between the counts at both ends of a bucket. */
  function Linear(lo: real, hi: real, below: real, count: real, target: real): real
    requires count != below
  {
    lo + (hi - lo) * (target - below) / (count - below)
  }

  function Target(q: real, total: real): real {
    q * total
  }

  /** The value at the target inside bucket i. */
  function Within(items: seq<Bucket>, i: nat, target: real): real
    requires i < |items|
  {
    var lo, below := LowerBound(items, i), CountBelow(items, i);
    if items[i].le.Infinite? then lo
    else if items[i].count == below then items[i].le.v
    else Linear(lo, items[i].le.v, below, items[i].count, target)
  }

  /** The value at the target, or the last bound when no bucket reaches it. */
  function AtOrLast(items: seq<Bucket>, target: real): Bound
    requires items != []
  {
    var i := FirstReaching(items, target, 0);
    if i < |items| then Finite(Within(items, i, target)) else items[|items| - 1].le
  }

  function Quantile(items: seq<Bucket>, q: real): Option<Bound> {
    if items == [] || items[|items| - 1].count <= 0.0 then None
    else Some(AtOrLast(items, Target(q, items[|items| - 1].count)))
  }

  /** hist_quantile: sort the dictionary by bound, then walk the buckets. */
  method HistQuantile(buckets: seq<Bucket>, q: real) returns (r: Option<Bound>)
    requires DistinctBounds(buckets)
    ensures r == Quantile(Sort(buckets, BoundLe), q)
    ensures StrictBounds(Sort(buckets, BoundLe))
  {
    SortedStrict(buckets);
    if buckets == [] {
      return None;
    }
    var items := Sort(buckets, BoundLe);
    PermFacts(items, buckets);
    var total := items[|items| - 1].count;
    if total <= 0.0 {
      return None;
    }
    var bound := Walk(items, Target(q, total));
    r := Some(bound);
  }

  /** The bucket loop, with the bound and count of the previous bucket. */
  method Walk(items: seq<Bucket>, target: real) returns (r: Bound)
    requires items != []
    ensures r == AtOrLast(items, target)
  {
    var prevLe, prevC := 0.0, 0.0;
    for i := 0 to |items|
      invariant forall j | 0 <= j < i :: items[j].count < target
      invariant prevLe == LowerBound(items, i) && prevC == CountBelow(items, i)
    {
      var b := items[i];
      if b.count >= target {
        FirstReachingIs(items, target, i);
        if b.le.Infinite? {
          return Finite(prevLe);
        }
        if b.count == prevC {
          return b.le;
        }
        return Finite(Linear(prevLe, b.le.v, prevC, b.count, target));
      }
      prevLe := if b.le.Finite? then b.le.v else 0.0;
      prevC := b.count;
    }
    r := items[|items| - 1].le;
  }

  lemma FirstReachingIs(items: seq<Bucket>, target: real, k: nat)
    requires k < |items| && items[k].count >= target
    requires forall j | 0 <= j < k :: items[j].count < target
    ensures FirstReaching(items, target, 0) == k
  {
    var f := FirstReaching(items, target, 0);
    assert f <= k;
  }

  /** Sorted by bound, strictly: only the last bound may be infinite. */
  ghost predicate StrictBounds(items: seq<Bucket>) {
    forall i, j | 0 <= i < j < |items| ::
      items[i].le.Finite? && (items[j].le.Finite? ==> items[i].le.v < items[j].le.v)
  }

  lemma SortedStrict(buckets: seq<Bucket>)
    requires DistinctBounds(buckets)
    ensures StrictBounds(Sort(buckets, BoundLe))
  {
    SortSorted(buckets, BoundLe);
    DistinctPermuted(buckets, Sort(buckets, BoundLe));
    SortedDistinctStrict(Sort(buckets, BoundLe));
  }

  lemma SortedDistinctStrict(items: seq<Bucket>)
    requires SortedBy(items, BoundLe) && DistinctBounds(items)
    ensures StrictBounds(items)
  {
    forall i, j | 0 <= i < j < |items|
      ensures items[i].le.Finite? && (items[j].le.Finite? ==> items[i].le.v < items[j].le.v)
    {
      assert BoundLe(items[i], items[j]) && items[i].le != items[j].le;
    }
  }

  lemma DistinctPermuted(a: seq<Bucket>, b: seq<Bucket>)
    requires DistinctBounds(a) && multiset(a) == multiset(b)
    ensures DistinctBounds(b)
  {
    PermFacts(a, b);
    DistinctPerm(a, b);
    forall i, j | 0 <= i < j < |b| ensures b[i].le != b[j].le {
      assert b[i] in a && b[j] in a;
      var k :| 0 <= k < |a| && a[k] == b[i];
      var l :| 0 <= l < |a| && a[l] == b[j];
    }
  }

  // ---------- what the quantile promises ----------

  /** Bucket deltas over a window, in order, with a positive last count; a counter reset may leave others smaller. */
  ghost predicate Counted(items: seq<Bucket>) {
    items != [] && items[|items| - 1].count > 0.0 && StrictBounds(items)
  }

  /** The first bound is a non-negative duration. */
  predicate NonNegativeBounds(items: seq<Bucket>)
    requires items != []
  {
    items[0].le.Infinite? || items[0].le.v >= 0.0
  }

  predicate Proportion(q: real) {
    0.0 <= q <= 1.0
  }

  function Total(items: seq<Bucket>): real
    requires items != []
  {
    items[|items| - 1].count
  }

  /** A proportion of the total is reached by some bucket. */
  lemma Reached(items: seq<Bucket>, target: real)
    requires Counted(items) && target <= Total(items)
    ensures FirstReaching(items, target, 0) < |items|
    ensures AtOrLast(items, target) == Finite(At(items, target))
  {
  }

  lemma TargetWithin(q: real, total: real)
    requires Proportion(q) && total > 0.0
    ensures 0.0 <= Target(q, total) <= total
  {
    MulMono(q, 1.0, total);
    MulNonNegative(q, total);
  }

  /** The value at a target no larger than the total. */
  function At(items: seq<Bucket>, target: real): real
    requires items != [] && FirstReaching(items, target, 0) < |items|
  {
    Within(items, FirstReaching(items, target, 0), target)
  }

  /** Interpolation stays between the ends, and undoes the share it was given. */
  lemma LinearWithin(lo: real, hi: real, below: real, count: real, target: real)
    requires below <= target <= count && below < count && lo <= hi
    ensures lo <= Linear(lo, hi, below, count, target) <= hi
    ensures Mul(Linear(lo, hi, below, count, target) - lo, count - below) == Mul(hi - lo, target - below)
  {
    var w, d := hi - lo, count - below;
    QuotientTimes(w * (target - below), d);
    MulNonNegative(w, target - below);
    DivMono(0.0, Mul(w, target - below), d);
    MulMono(target - below, d, w);
    DivBound(w * (target - below), d, w);
  }

  /** Interpolation inside one bucket is monotone in the target. */
  lemma LinearMono(lo: real, hi: real, below: real, count: real, s: real, t: real)
    requires below < count && lo <= hi && s <= t
    ensures Linear(lo, hi, below, count, s) <= Linear(lo, hi, below, count, t)
  {
    MulMono(s - below, t - below, hi - lo);
    DivMono((hi - lo) * (s - below), (hi - lo) * (t - below), count - below);
  }

  /** v is inside bucket i, where the interpolated cumulative count equals the target. */
  predicate InsideBucket(items: seq<Bucket>, i: nat, target: real, v: real)
    requires i < |items|
  {
    var lo, below := LowerBound(items, i), CountBelow(items, i);
    && below <= target <= items[i].count
    && lo <= v
    && (items[i].le.Infinite? ==> v == lo)
    && (items[i].le.Finite? ==>
          && v <= items[i].le.v
          && Mul(v - lo, items[i].count - below) == Mul(items[i].le.v - lo, target - below))
  }

  /**
   The quantile is finite, lies inside the bucket that holds the target (at its lower end when that
   bucket is the infinite one), and is where the interpolated cumulative count equals the target.
   */
  lemma QuantileInsideBucket(items: seq<Bucket>, q: real)
    requires Counted(items) && NonNegativeBounds(items) && Proportion(q)
    ensures Quantile(items, q).Some? && Quantile(items, q).value.Finite?
    ensures exists i | 0 <= i < |items| ::
              InsideBucket(items, i, Target(q, Total(items)), Quantile(items, q).value.v)
  {
    var target := Target(q, Total(items));
    TargetWithin(q, Total(items));
    Reached(items, target);
    var i := FirstReaching(items, target, 0);
    assert i > 0 ==> items[i - 1].count < target;
    EndsOrder(items, i);
    if items[i].le.Finite? && items[i].count != CountBelow(items, i) {
      LinearWithin(LowerBound(items, i), items[i].le.v, CountBelow(items, i), items[i].count, target);
    }
    assert InsideBucket(items, i, target, At(items, target));
  }

  lemma EndsOrder(items: seq<Bucket>, i: nat)
    requires Counted(items) && i < |items| && (i == 0 ==> NonNegativeBounds(items))
    ensures items[i].le.Finite? ==> LowerBound(items, i) <= items[i].le.v
  {
    if i > 0 {
      assert items[i - 1].le.Finite? && (items[i].le.Finite? ==> items[i - 1].le.v < items[i].le.v);
    }
  }

  /** The first bucket is harmless: its bound is not negative, or nothing was counted in it. */
  predicate FirstBucketOk(items: seq<Bucket>)
    requires items != []
  {
    NonNegativeBounds(items) || items[0].count <= 0.0
  }

  lemma BetweenEnds(items: seq<Bucket>, i: nat, target: real)
    requires Counted(items) && FirstBucketOk(items) && 0.0 <= target
    requires i < |items| && i == FirstReaching(items, target, 0)
    ensures i > 0 ==> LowerBound(items, i) <= Within(items, i, target)
    ensures items[i].le.Finite? ==> Within(items, i, target) <= items[i].le.v
  {
    assert i > 0 ==> items[i - 1].count < target;
    if items[i].le.Finite? && items[i].count != CountBelow(items, i) {
      EndsOrder(items, i);
      LinearWithin(LowerBound(items, i), items[i].le.v, CountBelow(items, i), items[i].count, target);
    } else if i > 0 {
      EndsOrder(items, i);
    }
  }

  lemma BoundsOrder(items: seq<Bucket>, i: nat, j: nat)
    requires StrictBounds(items) && i < j < |items|
    ensures items[i].le.Finite? && items[i].le.v <= LowerBound(items, j)
  {
    var last, next := items[j - 1].le, items[j].le;
    assert last.Finite?;
    if i < j - 1 {
      assert items[i].le.v < last.v;
    }
  }

  lemma TargetOrder(items: seq<Bucket>, s: real, t: real)
    requires Counted(items) && FirstBucketOk(items) && 0.0 <= s <= t <= Total(items)
    ensures FirstReaching(items, s, 0) < |items| && FirstReaching(items, t, 0) < |items|
    ensures At(items, s) <= At(items, t)
  {
    var i, j := FirstReaching(items, s, 0), FirstReaching(items, t, 0);
    assert i <= j;
    BetweenEnds(items, i, s);
    BetweenEnds(items, j, t);
    if i < j {
      BoundsOrder(items, i, j);
    } else if items[i].le.Finite? && items[i].count != CountBelow(items, i) {
      assert i > 0 ==> items[i - 1].count < s;
      EndsOrder(items, i);
      LinearMono(LowerBound(items, i), items[i].le.v, CountBelow(items, i), items[i].count, s, t);
    }
  }

  /** Monotone in the proportion, so the median is never above the 95th percentile ... */
  lemma QuantileMonotone(items: seq<Bucket>, p: real, q: real)
    requires Counted(items) && FirstBucketOk(items) && 0.0 <= p <= q <= 1.0
    ensures Quantile(items, p).Some? && Quantile(items, p).value.Finite?
    ensures Quantile(items, q).Some? && Quantile(items, q).value.Finite?
    ensures Quantile(items, p).value.v <= Quantile(items, q).value.v
  {
    TargetWithin(p, Total(items));
    TargetWithin(q, Total(items));
    MulMono(p, q, Total(items));
    TargetOrder(items, Target(p, Total(items)), Target(q, Total(items)));
  }

  /** ... and only then: with a counted first bucket below zero the zero quantile is zero and another is negative. */
  lemma NegativeBoundReverses(items: seq<Bucket>) returns (q: real)
    requires Counted(items) && !FirstBucketOk(items)
    ensures Proportion(q) && Quantile(items, 0.0) == Some(Finite(0.0))
    ensures Quantile(items, q).Some? && Quantile(items, q).value.Finite? && Quantile(items, q).value.v < 0.0
  {
    var total, first, le := Total(items), items[0].count, items[0].le.v;
    var target := if first < total then first else total;
    q := target / total;
    DivMono(0.0, target, total);
    DivBound(target, total, 1.0);
    QuotientTimes(target, total);
    assert Target(q, total) == target && Target(0.0, total) == 0.0;
    assert FirstReaching(items, 0.0, 0) == 0 && FirstReaching(items, target, 0) == 0;
    LinearEnds(le, first);
    LinearNegative(le, first, target);
  }

  lemma LinearNegative(hi: real, count: real, target: real)
    requires hi < 0.0 && 0.0 < target <= count
    ensures Linear(0.0, hi, 0.0, count, target) < 0.0
  {
    MulStrict(hi, 0.0, target);
    DivBound(Mul(hi, target), count, 0.0);
  }

  lemma LinearEnds(hi: real, count: real)
    requires count > 0.0
    ensures Linear(0.0, hi, 0.0, count, 0.0) == 0.0
    ensures Linear(0.0, hi, 0.0, count, count) == hi
  {
    QuotientIs(hi * count, count, hi);
    QuotientIs(hi * 0.0, count, 0.0);
  }

  lemma QuantileAt(items: seq<Bucket>, q: real, i: nat, target: real)
    requires items != [] && items[|items| - 1].count > 0.0 && i < |items|
    requires target == Target(q, items[|items| - 1].count) && items[i].count >= target
    requires forall j | 0 <= j < i :: items[j].count < target
    ensures Quantile(items, q) == Some(Finite(Within(items, i, target)))
  {
    hide Within, Target;
    FirstReachingIs(items, target, i);
  }

  lemma LinearTimes(lo: real, hi: real, below: real, count: real, target: real)
    requires count != below
    ensures Mul(Linear(lo, hi, below, count, target) - lo, count - below) == Mul(hi - lo, target - below)
  {
    QuotientTimes((hi - lo) * (target - below), count - below);
  }

  lemma WithinTimes(items: seq<Bucket>, i: nat, target: real)
    requires i < |items| && items[i].le.Finite? && items[i].count != CountBelow(items, i)
    ensures var lo, below := LowerBound(items, i), CountBelow(items, i);
      Mul(Within(items, i, target) - lo, items[i].count - below) == Mul(items[i].le.v - lo, target - below)
  {
    hide Mul, Linear;
    LinearTimes(LowerBound(items, i), items[i].le.v, CountBelow(items, i), items[i].count, target);
  }

  /** In the first bucket whose count reaches q of the total, the value divides the bounds as the target does the counts. */
  lemma QuantileInterpolates(items: seq<Bucket>, q: real, i: nat, target: real) returns (v: real)
    requires items != [] && items[|items| - 1].count > 0.0 && target == q * items[|items| - 1].count
    requires i < |items| && items[i].le.Finite? && items[i].count >= target
    requires forall j | 0 <= j < i :: items[j].count < target
    ensures Quantile(items, q) == Some(Finite(v))
    ensures var below, lo := if i == 0 then 0.0 else items[i - 1].count,
                             if i > 0 && items[i - 1].le.Finite? then items[i - 1].le.v else 0.0;
      if items[i].count == below then v == items[i].le.v
      else Mul(v - lo, items[i].count - below) == Mul(items[i].le.v - lo, target - below)
  {
    hide Mul, Linear;
    v := Within(items, i, target);
    QuantileAt(items, q, i, target);
    if items[i].count != CountBelow(items, i) { WithinTimes(items, i, target); }
  }
}
