/**
 The mean and the variance that the rank test of article1/scripts/analyze_all.py standardises by are those of U over
 all ways to split a pool of distinct values into two samples.
 */
module RankVariance {
  import opened MannWhitney
  import opened Reals
  import opened Sums
  import opened Wrappers

  // ---------- all splits ----------

  /** A split of a pool: whether each value goes to the first sample. */
  type Split = seq<bool>

  function FirstSize(m: Split): nat {
    if m == [] then 0 else FirstSize(m[..|m| - 1]) + if m[|m| - 1] then 1 else 0
  }

  function Extend(ms: seq<Split>, first: bool): (r: seq<Split>)
    ensures |r| == |ms|
  {
    seq(|ms|, i requires 0 <= i < |ms| => ms[i] + [first])
  }

  /** The splits of a pool of size values with n of them in the first sample, by whose sample holds the last value. */
  function Splits(size: nat, n: nat): seq<Split> {
    if size == 0 then (if n == 0 then [[]] else [])
    else (if n == 0 then [] else Extend(Splits(size - 1, n - 1), true)) + Extend(Splits(size - 1, n), false)
  }

  lemma InExtend(ms: seq<Split>, first: bool, m: Split)
    ensures m in Extend(ms, first) <==> m != [] && m[|m| - 1] == first && m[..|m| - 1] in ms
  {
    if m in Extend(ms, first) {
      var i :| 0 <= i < |ms| && Extend(ms, first)[i] == m;
      assert m[..|m| - 1] == ms[i];
    }
    if m != [] && m[|m| - 1] == first && m[..|m| - 1] in ms {
      var i :| 0 <= i < |ms| && ms[i] == m[..|m| - 1];
      assert Extend(ms, first)[i] == m;
    }
  }

  lemma InSplits(size: nat, n: nat, m: Split)
    requires size > 0
    ensures m in Splits(size, n) <==>
            m != [] && if m[|m| - 1] then n > 0 && m[..|m| - 1] in Splits(size - 1, n - 1)
                       else m[..|m| - 1] in Splits(size - 1, n)
  {
    InExtend(Splits(size - 1, n), false, m);
    if n > 0 { InExtend(Splits(size - 1, n - 1), true, m); }
  }

  predicate HasSizes(size: nat, n: int, m: Split) {
    |m| == size && FirstSize(m) == n
  }

  lemma SizesStep(size: nat, n: nat, m: Split)
    requires size > 0
    ensures HasSizes(size, n, m) <==> m != [] && HasSizes(size - 1, if m[|m| - 1] then n - 1 else n, m[..|m| - 1])
  {
  }

  lemma NoValues(n: nat, m: Split)
    ensures m in Splits(0, n) <==> HasSizes(0, n, m)
  {
  }

  /** They are exactly the splits with these sample sizes. */
  lemma {:induction false} SplitsAre(size: nat, n: nat, m: Split)
    ensures m in Splits(size, n) <==> HasSizes(size, n, m)
  {
    hide Splits;
    if size == 0 {
      NoValues(n, m);
    } else {
      InSplits(size, n, m);
      SizesStep(size, n, m);
      if m == [] {
      } else if !m[|m| - 1] {
        SplitsAre(size - 1, n, m[..|m| - 1]);
      } else if n > 0 {
        SplitsAre(size - 1, n - 1, m[..|m| - 1]);
      } else {
        NoNegative(m[..|m| - 1]);
      }
    }
  }

  lemma NoNegative(m: Split)
    ensures FirstSize(m) >= 0
  {
  }

  ghost predicate Distinct(ms: seq<Split>) {
    forall i, j | 0 <= i < j < |ms| :: ms[i] != ms[j]
  }

  lemma ExtendDistinct(ms: seq<Split>, first: bool)
    requires Distinct(ms)
    ensures Distinct(Extend(ms, first))
  {
    var r := Extend(ms, first);
    forall i, j | 0 <= i < j < |r| ensures r[i] != r[j] {
      assert r[i][..|r[i]| - 1] == ms[i] && r[j][..|r[j]| - 1] == ms[j];
    }
  }

  lemma AppendDistinct(with: seq<Split>, without: seq<Split>)
    requires Distinct(with) && Distinct(without) && forall m | m in with :: m !in without
    ensures Distinct(with + without)
  {
    var all := with + without;
    forall i, j | 0 <= i < j < |all| ensures all[i] != all[j] {
      if i < |with| <= j {
        assert with[i] in with && all[j] == without[j - |with|];
      }
    }
  }

  /** Each is listed once. */
  lemma {:induction false} SplitsDistinct(size: nat, n: nat)
    ensures Distinct(Splits(size, n))
  {
    if size > 0 {
      SplitsDistinct(size - 1, n);
      ExtendDistinct(Splits(size - 1, n), false);
      if n > 0 {
        SplitsDistinct(size - 1, n - 1);
        ExtendDistinct(Splits(size - 1, n - 1), true);
        JoinDistinct(Splits(size - 1, n - 1), Splits(size - 1, n));
      }
    }
  }

  lemma JoinDistinct(with: seq<Split>, without: seq<Split>)
    requires Distinct(Extend(with, true)) && Distinct(Extend(without, false))
    ensures Distinct(Extend(with, true) + Extend(without, false))
  {
    forall m | m in Extend(with, true) ensures m !in Extend(without, false) {
      InExtend(with, true, m);
      InExtend(without, false, m);
    }
    AppendDistinct(Extend(with, true), Extend(without, false));
  }

  // ---------- how many there are ----------

  function Ways(size: nat, n: nat): nat {
    if n == 0 then 1 else if size == 0 then 0 else Ways(size - 1, n - 1) + Ways(size - 1, n)
  }

  lemma {:induction false} SplitsCount(size: nat, n: nat)
    ensures |Splits(size, n)| == Ways(size, n)
    ensures n > size ==> Splits(size, n) == []
  {
    if size > 0 {
      SplitsCount(size - 1, n);
      if n > 0 { SplitsCount(size - 1, n - 1); }
    }
  }

  /** x times y, by adding. */
  function Times(x: nat, y: nat): nat {
    if x == 0 then 0 else y + Times(x - 1, y)
  }

  lemma {:induction false} TimesAdd(x: nat, y: nat, z: nat)
    ensures Times(x, y + z) == Times(x, y) + Times(x, z)
  {
    if x > 0 { TimesAdd(x - 1, y, z); }
  }

  lemma {:induction false} AddTimes(x: nat, z: nat, y: nat)
    ensures Times(x + z, y) == Times(x, y) + Times(z, y)
  {
    if x > 0 { AddTimes(x - 1, z, y); }
  }

  lemma {:induction false} TimesIs(x: nat, y: nat)
    ensures Times(x, y) == x * y
    ensures Times(x, y) as real == x as real * y as real
  {
    if x > 0 {
      TimesIs(x - 1, y);
      MulPred(x, y);
    }
    MulAsReal(x, y);
  }

  lemma {:induction false} TimesZero(x: nat)
    ensures Times(x, 0) == 0
  {
    if x > 0 { TimesZero(x - 1); }
  }

  lemma AbsorbStep(size: nat, n: nat, x: nat, y: nat, z: nat)
    requires 1 <= n <= size && Times(n, x) == Times(size - n, y) && Times(n - 1, y) == Times(size - n + 1, z)
    ensures Times(n, x + y) == Times(size - n + 1, y + z)
  {
    TimesAdd(n, x, y);
    AddTimes(size - n, n, y);
    TimesAdd(size - n + 1, y, z);
    AddTimes(size - n + 1, n - 1, y);
  }

  /** One sample larger by one: n times the splits into n equals the rest's size times the splits into n - 1. */
  lemma {:induction false} Absorb(size: nat, n: nat)
    requires 1 <= n <= size + 1
    ensures Times(n, Ways(size, n)) == Times(size - n + 1, Ways(size, n - 1))
  {
    if n > size {
      SplitsCount(size, n);
      TimesZero(n);
    } else {
      var z := if n > 1 then Ways(size - 1, n - 2) else 0;
      Absorb(size - 1, n);
      if n > 1 { Absorb(size - 1, n - 1); } else { TimesZero(size); }
      AbsorbStep(size, n, Ways(size - 1, n), Ways(size - 1, n - 1), z);
    }
  }

  // ---------- U of a split ----------

  predicate Increasing(pool: seq<real>) {
    forall i, j | 0 <= i < j < |pool| :: pool[i] < pool[j]
  }

  /** One of the samples a split makes of a pool. */
  function Sample(pool: seq<real>, m: Split, first: bool): seq<real> {
    if pool == [] || |m| != |pool| then []
    else
      var k := |pool| - 1;
      Sample(pool[..k], m[..k], first) + if m[k] == first then [pool[k]] else []
  }

  lemma {:induction false} SampleSizes(pool: seq<real>, m: Split)
    requires |m| == |pool|
    ensures |Sample(pool, m, true)| == FirstSize(m) && |Sample(pool, m, false)| == |pool| - FirstSize(m)
  {
    if pool != [] { SampleSizes(pool[..|pool| - 1], m[..|m| - 1]); }
  }

  lemma {:induction false} SampleWithin(pool: seq<real>, m: Split, first: bool, v: real)
    requires v in Sample(pool, m, first)
    ensures v in pool
  {
    var k := |pool| - 1;
    if v in Sample(pool[..k], m[..k], first) { SampleWithin(pool[..k], m[..k], first, v); }
  }

  /** A first sample with one value above the whole second one. */
  lemma HighestFirst(a: seq<real>, b: seq<real>, x: real)
    requires forall v | v in b :: v < x
    ensures U(a + [x], b) == U(a, b) + |b| as real
  {
    UIsHalfWins(a, b);
    UIsHalfWins(a + [x], b);
    SumOfSnoc(a, x, WinsOver(b));
    SumOfConst(b, Against(x), 1.0);
  }

  /** A second sample with one value above the whole first one. */
  lemma HighestSecond(a: seq<real>, b: seq<real>, x: real)
    requires forall v | v in a :: v < x
    ensures U(a, b + [x]) == U(a, b)
  {
    UIsHalfWins(a, b);
    UIsHalfWins(a, b + [x]);
    forall v | v in a ensures WinsOver(b + [x])(v) == WinsOver(b)(v) {
      SumOfSnoc(b, x, Against(v));
    }
    SumOfCong(a, WinsOver(b + [x]), WinsOver(b));
  }

  function UOf(pool: seq<real>, m: Split): real {
    U(Sample(pool, m, true), Sample(pool, m, false))
  }

  /** How far U of a split is from c. */
  function Deviation(pool: seq<real>, c: real): Split -> real {
    m => UOf(pool, m) - c
  }

  function Squared(f: Split -> real): Split -> real {
    m => f(m) * f(m)
  }

  /** The samples when the last value joins one of them. */
  lemma SampleJoins(pool: seq<real>, m: Split, first: bool)
    requires pool != [] && |m| == |pool| - 1
    ensures var init, x := pool[..|pool| - 1], pool[|pool| - 1];
      && Sample(pool, m + [first], first) == Sample(init, m, first) + [x]
      && Sample(pool, m + [first], !first) == Sample(init, m, !first)
  {
    assert (m + [first])[..|pool| - 1] == m;
    var other := Sample(pool[..|pool| - 1], m, !first);
    assert other + [] == other;
  }

  lemma LastIsHighest(pool: seq<real>, m: Split, first: bool)
    requires Increasing(pool) && pool != [] && |m| == |pool| - 1
    ensures var s := Sample(pool[..|pool| - 1], m, first); forall v | v in s :: v < pool[|pool| - 1]
  {
    var init, s := pool[..|pool| - 1], Sample(pool[..|pool| - 1], m, first);
    forall v | v in s ensures v < pool[|pool| - 1] {
      SampleWithin(init, m, first, v);
    }
  }

  /** The largest value joins the first sample, and beats all of the second, or joins the second and beats nobody. */
  lemma UJoins(pool: seq<real>, m: Split, first: bool)
    requires Increasing(pool) && pool != [] && |m| == |pool| - 1
    ensures UOf(pool, m + [first])
         == UOf(pool[..|pool| - 1], m) + if first then (|pool| - 1 - FirstSize(m)) as real else 0.0
  {
    var init, x := pool[..|pool| - 1], pool[|pool| - 1];
    SampleJoins(pool, m, first);
    LastIsHighest(pool, m, !first);
    if first {
      SampleSizes(init, m);
      HighestFirst(Sample(init, m, true), Sample(init, m, false), x);
    } else {
      HighestSecond(Sample(init, m, true), Sample(init, m, false), x);
    }
  }

  // ---------- sums over splits ----------

  lemma {:induction false} SumExtended(ms: seq<Split>, first: bool, f: Split -> real, g: Split -> real)
    requires forall m | m in ms :: f(m + [first]) == g(m)
    ensures SumOf(Extend(ms, first), f) == SumOf(ms, g)
  {
    if ms != [] {
      assert Extend(ms, first)[1..] == Extend(ms[1..], first) && ms[0] in ms;
      SumExtended(ms[1..], first, f, g);
    }
  }

  /** x added up k times. */
  function Repeat(x: real, k: nat): real {
    if k == 0 then 0.0 else x + Repeat(x, k - 1)
  }

  lemma {:induction false} RepeatIs(x: real, k: nat)
    ensures Repeat(x, k) == x * k as real
  {
    if k > 0 { RepeatIs(x, k - 1); }
  }

  lemma {:induction false} SumFlat(ms: seq<Split>, f: Split -> real, x: real)
    requires forall m | m in ms :: f(m) == x
    ensures SumOf(ms, f) == Repeat(x, |ms|)
  {
    if ms != [] { SumFlat(ms[1..], f, x); }
  }

  /** The sum of a shifted deviation. */
  lemma SumShifted(ms: seq<Split>, first: bool, f: Split -> real, d: Split -> real, c: real)
    requires forall m | m in ms :: f(m + [first]) == d(m) + c
    ensures SumOf(Extend(ms, first), f) == SumOf(ms, d) + Repeat(c, |ms|)
  {
    var flat, shifted := (m: Split) => c, (m: Split) => d(m) + c;
    SumExtended(ms, first, f, shifted);
    SumOfAdd(ms, d, flat, shifted);
    SumFlat(ms, flat, c);
  }

  lemma SquareShift(x: real, d: real, c: real)
    requires x == d + c
    ensures x * x == 2.0 * c * d + d * d + c * c
  {
  }

  function Scaled(d: Split -> real, c: real): Split -> real {
    m => c * d(m)
  }

  ghost predicate InThree(ms: seq<Split>, first: bool, q: Split -> real, s: Split -> real, g: Split -> real, e: real) {
    forall m | m in ms :: q(m + [first]) == s(m) + g(m) + e
  }

  lemma SquaresShift(ms: seq<Split>, first: bool, f: Split -> real, d: Split -> real, c: real, square: real)
    requires square == c * c && forall m | m in ms :: f(m + [first]) == d(m) + c
    ensures InThree(ms, first, Squared(f), Scaled(d, 2.0 * c), Squared(d), square)
  {
    forall m | m in ms ensures Squared(f)(m + [first]) == Scaled(d, 2.0 * c)(m) + Squared(d)(m) + square {
      SquareShift(f(m + [first]), d(m), c);
    }
  }

  lemma SumThree(ms: seq<Split>, first: bool, q: Split -> real, s: Split -> real, g: Split -> real, e: real)
    requires InThree(ms, first, q, s, g, e)
    ensures SumOf(Extend(ms, first), q) == SumOf(ms, s) + SumOf(ms, g) + Repeat(e, |ms|)
  {
    var flat, both, all := (m: Split) => e, (m: Split) => s(m) + g(m), (m: Split) => s(m) + g(m) + e;
    SumExtended(ms, first, q, all);
    SumOfAdd(ms, s, g, both);
    SumOfAdd(ms, both, flat, all);
    SumFlat(ms, flat, e);
  }

  lemma ScaledNothing(ms: seq<Split>, d: Split -> real, c: real)
    requires SumOf(ms, d) == 0.0
    ensures SumOf(ms, Scaled(d, c)) == 0.0
  {
    SumOfScale(ms, c, d, Scaled(d, c));
  }

  /** The sum of its square, when the deviations themselves add up to nothing. */
  lemma SumSquares(ms: seq<Split>, first: bool, f: Split -> real, d: Split -> real, c: real, square: real)
    requires SumOf(ms, d) == 0.0 && forall m | m in ms :: f(m + [first]) == d(m) + c
    requires square == c * c
    ensures SumOf(Extend(ms, first), Squared(f)) == SumOf(ms, Squared(d)) + Repeat(square, |ms|)
  {
    hide SumOf, Squared, Scaled, InThree;
    SquaresShift(ms, first, f, d, c, square);
    ScaledNothing(ms, d, 2.0 * c);
    SumThree(ms, first, Squared(f), Scaled(d, 2.0 * c), Squared(d), square);
  }

  // ---------- mean and variance ----------

  /** n k (n + k + 1) / 12. */
  function Spread(n: real, k: real): real {
    n * k * (n + k + 1.0) / 12.0
  }

  lemma WithSquares(n: real, k: real, with: real, p: real)
    requires p == k * with
    ensures Spread(n - 1.0, k) * with + k / 2.0 * (k / 2.0) * with == p * ((n - 1.0) * (n + k) / 12.0 + k / 4.0)
    ensures Spread(n, k) * with == p * (n * (n + k + 1.0) / 12.0)
  {
  }

  lemma WithoutSquares(n: real, k: real, without: real, p: real)
    requires p == n * without
    ensures Spread(n, k - 1.0) * without + n / 2.0 * (n / 2.0) * without == p * ((k - 1.0) * (n + k) / 12.0 + n / 4.0)
    ensures Spread(n, k) * without == p * (k * (n + k + 1.0) / 12.0)
  {
  }

  lemma FactorsAgree(n: real, k: real)
    ensures (n - 1.0) * (n + k) / 12.0 + k / 4.0 + ((k - 1.0) * (n + k) / 12.0 + n / 4.0)
         == n * (n + k + 1.0) / 12.0 + k * (n + k + 1.0) / 12.0
  {
  }

  lemma Factor(p: real, a: real, b: real, c: real, d: real)
    requires a + b == c + d
    ensures p * a + p * b == p * c + p * d
  {
    assert p * a + p * b == p * (a + b) && p * c + p * d == p * (c + d);
  }

  lemma CombineSquares(n: real, k: real, with: real, without: real, p: real)
    requires p == k * with == n * without
    ensures Spread(n - 1.0, k) * with + k / 2.0 * (k / 2.0) * with
            + (Spread(n, k - 1.0) * without + n / 2.0 * (n / 2.0) * without)
         == Spread(n, k) * with + Spread(n, k) * without
  {
    WithSquares(n, k, with, p);
    WithoutSquares(n, k, without, p);
    FactorsAgree(n, k);
    Factor(p, (n - 1.0) * (n + k) / 12.0 + k / 4.0, (k - 1.0) * (n + k) / 12.0 + n / 4.0, n * (n + k + 1.0) / 12.0,
           k * (n + k + 1.0) / 12.0);
  }

  lemma CombineNamed(n: real, n1: real, k: real, k1: real, with: real, without: real, v1: real, q1: real, v2: real, q2: real,
                     v: real)
    requires k * with == n * without && n1 == n - 1.0 && k1 == k - 1.0
    requires v1 == Spread(n1, k) && q1 == k / 2.0 * (k / 2.0)
    requires v2 == Spread(n, k1) && q2 == n / 2.0 * (n / 2.0) && v == Spread(n, k)
    ensures v1 * with + q1 * with + (v2 * without + q2 * without) == v * with + v * without
  {
    CombineSquares(n, k, with, without, k * with);
  }

  lemma RepeatsAre(with: nat, without: nat, v1: real, q1: real, v2: real, q2: real, v: real)
    requires v1 * with as real + q1 * with as real + (v2 * without as real + q2 * without as real)
          == v * with as real + v * without as real
    ensures Repeat(v1, with) + Repeat(q1, with) + (Repeat(v2, without) + Repeat(q2, without))
         == Repeat(v, with) + Repeat(v, without)
  {
    RepeatIs(v1, with);
    RepeatIs(q1, with);
    RepeatIs(v2, without);
    RepeatIs(q2, without);
    RepeatIs(v, with);
    RepeatIs(v, without);
  }

  lemma {:induction false} RepeatSum(x: real, a: nat, b: nat, c: nat)
    requires a + b == c
    ensures Repeat(x, a) + Repeat(x, b) == Repeat(x, c)
  {
    if a > 0 { RepeatSum(x, a - 1, b, c - 1); }
  }

  /** The two parts together, whose sizes are in the proportion of the samples. */
  lemma CombineRepeats(n: real, n1: real, k: real, k1: real, with: nat, without: nat, ways: nat, v1: real, q1: real,
                       v2: real, q2: real, v: real)
    requires with + without == ways
    requires k * with as real == n * without as real && n1 == n - 1.0 && k1 == k - 1.0
    requires v1 == Spread(n1, k) && q1 == k / 2.0 * (k / 2.0)
    requires v2 == Spread(n, k1) && q2 == n / 2.0 * (n / 2.0) && v == Spread(n, k)
    ensures Repeat(v1, with) + Repeat(q1, with) + (Repeat(v2, without) + Repeat(q2, without)) == Repeat(v, ways)
  {
    CombineNamed(n, n1, k, k1, with as real, without as real, v1, q1, v2, q2, v);
    RepeatsAre(with, without, v1, q1, v2, q2, v);
    RepeatSum(v, with, without, ways);
  }

  lemma HalvesCancel(n: real, k: real, with: real, without: real)
    requires k * with == n * without
    ensures k / 2.0 * with + -n / 2.0 * without == 0.0
  {
  }

  lemma CombineHalves(n: real, k: real, with: nat, without: nat)
    requires k * with as real == n * without as real
    ensures Repeat(k / 2.0, with) + Repeat(-n / 2.0, without) == 0.0
  {
    HalvesCancel(n, k, with as real, without as real);
    RepeatIs(k / 2.0, with);
    RepeatIs(-n / 2.0, without);
  }

  /** The sums over the splits of a pool of the distances of U from c, and of their squares. */
  ghost predicate SumsTo(pool: seq<real>, n: nat, c: real, sum: real, squares: real) {
    && SumOf(Splits(|pool|, n), Deviation(pool, c)) == sum
    && SumOf(Splits(|pool|, n), Squared(Deviation(pool, c))) == squares
  }

  /** The part of them over the splits that put the largest value into one sample. */
  ghost predicate PartSumsTo(pool: seq<real>, n: nat, first: bool, c: real, sum: real, squares: real)
    requires pool != []
  {
    var ms := Extend(Splits(|pool| - 1, n), first);
    SumOf(ms, Deviation(pool, c)) == sum && SumOf(ms, Squared(Deviation(pool, c))) == squares
  }

  ghost predicate Shifts(ms: seq<Split>, first: bool, f: Split -> real, d: Split -> real, c: real) {
    forall m | m in ms :: f(m + [first]) == d(m) + c
  }

  lemma ShiftedSums(ms: seq<Split>, first: bool, f: Split -> real, d: Split -> real, c: real, square: real, k: nat)
    requires Shifts(ms, first, f, d, c) && |ms| == k && SumOf(ms, d) == 0.0 && square == c * c
    ensures SumOf(Extend(ms, first), f) == Repeat(c, k)
    ensures SumOf(Extend(ms, first), Squared(f)) == SumOf(ms, Squared(d)) + Repeat(square, k)
  {
    hide SumOf, Squared;
    SumShifted(ms, first, f, d, c);
    SumSquares(ms, first, f, d, c, square);
  }

  lemma DeviationsShift(pool: seq<real>, n: nat, first: bool, c: real, c': real, shift: real)
    requires Increasing(pool) && pool != [] && n < |pool|
    requires shift == c' - c + if first then (|pool| - 1 - n) as real else 0.0
    ensures Shifts(Splits(|pool| - 1, n), first, Deviation(pool, c), Deviation(pool[..|pool| - 1], c'), shift)
  {
    var ms := Splits(|pool| - 1, n);
    forall m | m in ms ensures Deviation(pool, c)(m + [first]) == Deviation(pool[..|pool| - 1], c')(m) + shift {
      SplitsAre(|pool| - 1, n, m);
      UJoins(pool, m, first);
    }
  }

  lemma PartSums(pool: seq<real>, n: nat, first: bool, c: real, c': real, shift: real, square: real, squares: real)
    requires Increasing(pool) && pool != [] && n < |pool| && SumsTo(pool[..|pool| - 1], n, c', 0.0, squares)
    requires shift == c' - c + (if first then (|pool| - 1 - n) as real else 0.0) && square == shift * shift
    ensures var ways := Ways(|pool| - 1, n);
      PartSumsTo(pool, n, first, c, Repeat(shift, ways), squares + Repeat(square, ways))
  {
    hide SumOf, Squared, Deviation, Splits, Ways;
    DeviationsShift(pool, n, first, c, c', shift);
    SplitsCount(|pool| - 1, n);
    ShiftedSums(Splits(|pool| - 1, n), first, Deviation(pool, c), Deviation(pool[..|pool| - 1], c'), shift, square,
                Ways(|pool| - 1, n));
  }

  lemma PartsAdd(pool: seq<real>, n: nat, c: real, sum: real, squares: real, sum': real, squares': real)
    requires pool != [] && PartSumsTo(pool, n, false, c, sum, squares)
    requires if n > 0 then PartSumsTo(pool, n - 1, true, c, sum', squares') else sum' == squares' == 0.0
    ensures SumsTo(pool, n, c, sum + sum', squares + squares')
  {
    var yes, no := if n > 0 then Extend(Splits(|pool| - 1, n - 1), true) else [], Extend(Splits(|pool| - 1, n), false);
    SumOfConcat(yes, no, Deviation(pool, c));
    SumOfConcat(yes, no, Squared(Deviation(pool, c)));
    assert Splits(|pool|, n) == yes + no;
  }

  /** Half the number of pairs. */
  function Half(n: int, k: int): real {
    n as real * k as real / 2.0
  }

  function VarianceAt(n: int, k: int): real {
    Spread(n as real, k as real)
  }

  function Quarter(k: nat): real {
    k as real / 2.0 * (k as real / 2.0)
  }

  /** How far the distance from half the number of pairs moves when the first sample grows, or the second. */
  function Up(k: nat): real {
    k as real / 2.0
  }

  function Down(n: nat): real {
    -(n as real) / 2.0
  }

  lemma CentresMove(n: nat, k: nat)
    ensures Half(n - 1, k) - Half(n, k) + k as real == Up(k) && Half(n, k - 1) - Half(n, k) == Down(n)
    ensures Quarter(k) == Up(k) * Up(k) && Quarter(n) == Down(n) * Down(n)
  {
  }

  lemma Proportion(n: nat, k: nat, with: nat, without: nat)
    requires Times(k, with) == Times(n, without)
    ensures k as real * with as real == n as real * without as real
  {
    TimesIs(k, with);
    TimesIs(n, without);
  }

  lemma CombineVariances(n: nat, k: nat, with: nat, without: nat, ways: nat)
    requires with + without == ways
    requires k as real * with as real == n as real * without as real
    ensures Repeat(VarianceAt(n - 1, k), with) + Repeat(Quarter(k), with)
            + (Repeat(VarianceAt(n, k - 1), without) + Repeat(Quarter(n), without))
         == Repeat(VarianceAt(n, k), ways)
  {
    CombineRepeats(n as real, (n - 1) as real, k as real, (k - 1) as real, with, without, ways, VarianceAt(n - 1, k),
                   Quarter(k), VarianceAt(n, k - 1), Quarter(n), VarianceAt(n, k));
  }

  /** The two parts balance, and their variances combine. */
  lemma PartsBalance(n: nat, k: nat, with: nat, without: nat, ways: nat)
    requires Times(k, with) == Times(n, without) && with + without == ways
    ensures Repeat(Up(k), with) + Repeat(Down(n), without) == 0.0
    ensures Repeat(VarianceAt(n - 1, k), with) + Repeat(Quarter(k), with)
            + (Repeat(VarianceAt(n, k - 1), without) + Repeat(Quarter(n), without))
         == Repeat(VarianceAt(n, k), ways)
  {
    Proportion(n, k, with, without);
    CombineHalves(n as real, k as real, with, without);
    CombineVariances(n, k, with, without, ways);
  }

  // ---------- the theorem ----------

  lemma NoneLeft(pool: seq<real>, c: real)
    requires pool != []
    ensures PartSumsTo(pool, |pool|, false, c, 0.0, 0.0)
  {
    SplitsCount(|pool| - 1, |pool|);
    assert Extend(Splits(|pool| - 1, |pool|), false) == [];
  }

  function Before(size: nat, n: nat): nat
    requires size > 0
  {
    if n > 0 then Ways(size - 1, n - 1) else 0
  }

  lemma InProportion(size: nat, n: nat, k: nat)
    requires n + k == size > 0
    ensures Times(k, Before(size, n)) == Times(n, Ways(size - 1, n))
    ensures Before(size, n) + Ways(size - 1, n) == Ways(size, n)
  {
    if n > 0 { Absorb(size - 1, n); } else { TimesZero(k); }
  }

  lemma PartWithout(pool: seq<real>, n: nat, k: nat, c: real, c': real, s: real, q: real, b: real, ways: nat)
    requires Increasing(pool) && pool != [] && n + k == |pool| && ways == Ways(|pool| - 1, n)
    requires k > 0 ==> SumsTo(pool[..|pool| - 1], n, c', 0.0, Repeat(b, ways)) && s == c' - c && q == s * s
    ensures PartSumsTo(pool, n, false, c, Repeat(s, ways), Repeat(b, ways) + Repeat(q, ways))
  {
    hide SumsTo, PartSumsTo;
    if k > 0 {
      PartSums(pool, n, false, c, c', s, q, Repeat(b, ways));
    } else {
      NoneLeft(pool, c);
      SplitsCount(|pool| - 1, n);
    }
  }

  lemma PartWith(pool: seq<real>, n: nat, k: nat, c: real, c': real, s: real, q: real, b: real, ways: nat)
    requires Increasing(pool) && n > 0 && n + k == |pool| && ways == Ways(|pool| - 1, n - 1)
    requires SumsTo(pool[..|pool| - 1], n - 1, c', 0.0, Repeat(b, ways)) && s == c' - c + k as real && q == s * s
    ensures PartSumsTo(pool, n - 1, true, c, Repeat(s, ways), Repeat(b, ways) + Repeat(q, ways))
  {
    hide SumsTo, PartSumsTo;
    PartSums(pool, n - 1, true, c, c', s, q, Repeat(b, ways));
  }

  lemma PartsTotal(pool: seq<real>, n: nat, c: real, sum: real, squares: real, sum': real, squares': real, total: real)
    requires pool != [] && PartSumsTo(pool, n, false, c, sum, squares)
    requires if n > 0 then PartSumsTo(pool, n - 1, true, c, sum', squares') else sum' == squares' == 0.0
    requires sum' + sum == 0.0 && squares' + squares == total
    ensures SumsTo(pool, n, c, 0.0, total)
  {
    PartsAdd(pool, n, c, sum, squares, sum', squares');
  }

  lemma PartOrNone(pool: seq<real>, n: nat, k: nat, c: real, c': real, s: real, q: real, b: real, ways: nat)
    requires Increasing(pool) && pool != [] && n + k == |pool| && ways == Before(|pool|, n)
    requires n > 0 ==>
               SumsTo(pool[..|pool| - 1], n - 1, c', 0.0, Repeat(b, ways)) && s == c' - c + k as real && q == s * s
    ensures if n > 0 then PartSumsTo(pool, n - 1, true, c, Repeat(s, ways), Repeat(b, ways) + Repeat(q, ways))
            else Repeat(s, ways) == Repeat(b, ways) + Repeat(q, ways) == 0.0
  {
    hide SumsTo, PartSumsTo;
    if n > 0 { PartWith(pool, n, k, c, c', s, q, b, ways); }
  }

  lemma EmptyPool(pool: seq<real>, c: real, v: real)
    requires pool == [] && c == 0.0 && v == 0.0
    ensures SumsTo(pool, 0, c, 0.0, Repeat(v, Ways(0, 0)))
  {
    assert Splits(0, 0) == [[]];
    var d := Deviation([], c);
    assert d([]) == 0.0;
  }

  lemma EmptyMean()
    ensures Half(0, 0) == 0.0 && VarianceAt(0, 0) == 0.0
  {
  }

  /** By whose sample holds the largest value. */
  lemma {:induction false} MeanAndVariance(pool: seq<real>, n: nat, k: nat)
    requires Increasing(pool) && n + k == |pool|
    ensures SumsTo(pool, n, Half(n, k), 0.0, Repeat(VarianceAt(n, k), Ways(|pool|, n)))
  {
    hide SumsTo, PartSumsTo, Half, VarianceAt, Quarter, Up, Down;
    if pool == [] {
      EmptyMean();
      EmptyPool(pool, Half(n, k), VarianceAt(n, k));
    } else {
      var init, with, without := pool[..|pool| - 1], Before(|pool|, n), Ways(|pool| - 1, n);
      if k > 0 { MeanAndVariance(init, n, k - 1); }
      if n > 0 { MeanAndVariance(init, n - 1, k); }
      InProportion(|pool|, n, k);
      CentresMove(n, k);
      PartsBalance(n, k, with, without, Ways(|pool|, n));
      PartWithout(pool, n, k, Half(n, k), Half(n, k - 1), Down(n), Quarter(n), VarianceAt(n, k - 1), without);
      PartOrNone(pool, n, k, Half(n, k), Half(n - 1, k), Up(k), Quarter(k), VarianceAt(n - 1, k), with);
      PartsTotal(pool, n, Half(n, k), Repeat(Down(n), without),
                 Repeat(VarianceAt(n, k - 1), without) + Repeat(Quarter(n), without), Repeat(Up(k), with),
                 Repeat(VarianceAt(n - 1, k), with) + Repeat(Quarter(k), with), Repeat(VarianceAt(n, k), Ways(|pool|, n)));
    }
  }

  lemma VarianceIs(n: nat, k: nat)
    ensures VarianceAt(n, k) == Variance(n, k)
  {
  }

  /**
   Over all ways to split a pool of distinct values into samples of n and k, the mean of U is half the number of pairs,
   and its variance, the mean of the squared distances from there, the one the test standardises by.
   */
  lemma UMeanAndVariance(pool: seq<real>, n: nat, k: nat)
    requires Increasing(pool) && n + k == |pool|
    ensures var ms, d := Splits(n + k, n), Deviation(pool, Half(n, k));
      SumOf(ms, d) == 0.0 && SumOf(ms, Squared(d)) == Mul(Variance(n, k), |ms| as real)
  {
    hide SumOf, Squared, Splits, Half, Variance, VarianceAt;
    MeanAndVariance(pool, n, k);
    SplitsCount(n + k, n);
    VarianceIs(n, k);
    RepeatIs(Variance(n, k), Ways(n + k, n));
  }

  // ---------- the p-value ----------

  lemma SquareOfQuotient(d: real, r: real, q: real, v: real)
    requires r > 0.0 && r * r == v && q == Abs(d / r)
    ensures q >= 0.0 && Mul(Mul(q, q), v) == Mul(d, d)
  {
    var x := d / r;
    QuotientTimes(d, r);
    assert Mul(q, q) == Mul(x, x);
    assert Mul(Mul(x, x), v) == Mul(Mul(x, r), Mul(x, r));
  }

  lemma Halved(x: real, z: real, r: real, v: real, w: real)
    requires Mul(Mul(z, z), v) == w && Mul(Mul(x, x), 2.0) == Mul(z, z)
    ensures Mul(2.0 * Mul(x, x), v) == w
  {
  }

  lemma Rescaled(y: real, v: real, w: real, k: real)
    requires Mul(y, v) == w
    ensures Mul(y, Mul(v, k)) == Mul(w, k)
  {
  }

  lemma PValueAgainst(a: seq<real>, b: seq<real>, sqrt: real -> real, erfc: real -> real, total: real, count: real)
    returns (x: real)
    requires IsSqrt(sqrt) && a != [] && b != [] && total == Mul(Variance(|a|, |b|), count)
    ensures PValue(a, b, sqrt, erfc) == Some(erfc(x)) && x >= 0.0
    ensures var d := U(a, b) - Half(|a|, |b|); Mul(2.0 * Mul(x, x), total) == Mul(Mul(d, d), count)
  {
    hide U, Variance, Mul;
    var d, v := U(a, b) - Half(|a|, |b|), Variance(|a|, |b|);
    RootPositive(sqrt, v);
    RootPositive(sqrt, 2.0);
    var z := Abs(d / sqrt(v));
    SquareOfQuotient(d, sqrt(v), z, v);
    x := z / sqrt(2.0);
    SquareOfQuotient(z, sqrt(2.0), x, 2.0);
    Halved(x, z, sqrt(2.0), v, Mul(d, d));
    Rescaled(2.0 * Mul(x, x), v, Mul(d, d), count);
  }

  /**
   The p-value is erfc of how far U is from its mean over all splits, in units of the root of twice its variance over
   them: for any pool of distinct values of the samples' sizes.
   */
  lemma PValueStandardises(a: seq<real>, b: seq<real>, sqrt: real -> real, erfc: real -> real, pool: seq<real>)
    returns (x: real)
    requires IsSqrt(sqrt) && a != [] && b != [] && Increasing(pool) && |pool| == |a| + |b|
    ensures PValue(a, b, sqrt, erfc) == Some(erfc(x)) && x >= 0.0
    ensures var ms, mean := Splits(|a| + |b|, |a|), Half(|a|, |b|);
      Mul(2.0 * Mul(x, x), SumOf(ms, Squared(Deviation(pool, mean)))) == Mul(Mul(U(a, b) - mean, U(a, b) - mean), |ms| as real)
  {
    hide U, Variance, Mul, PValue, Half;
    var ms, mean := Splits(|a| + |b|, |a|), Half(|a|, |b|);
    UMeanAndVariance(pool, |a|, |b|);
    x := PValueAgainst(a, b, sqrt, erfc, SumOf(ms, Squared(Deviation(pool, mean))), |ms| as real);
  }
}
