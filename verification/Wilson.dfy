/**
 The two Wilson score intervals (article2/scripts/analyze_e2_significance.py and
 article1/scripts/update_q1_final_artifacts.py).
 */
module Wilson {
  import opened Reals

  /** The common centre of both implementations. */
  function Centre(p: real, m: real, z: real): real
    requires m > 0.0
  {
    (p + z * z / (2.0 * m)) / (1.0 + Weight(m, z))
  }

  /** The number under the root of wilson. */
  function Radicand(p: real, m: real, z: real): real
    requires m > 0.0
  {
    SquarePositive(m);
    p * (1.0 - p) / m + z * z / (4.0 * m * m)
  }

  /** The number under the root of wilson_ci. */
  function NestedRadicand(p: real, m: real, z: real): real
    requires m > 0.0
  {
    (p * (1.0 - p) + z * z / (4.0 * m)) / m
  }

  /** The share of the trials z squared amounts to. */
  function Weight(m: real, z: real): (w: real)
    requires m > 0.0
    ensures w >= 0.0
  {
    SquareNonNegative(z);
    DivMono(0.0, z * z, m);
    z * z / m
  }

  /** z times a root, over the common denominator. */
  function HalfWidth(z: real, root: real, w: real): real
    requires w >= 0.0
  {
    z * root / (1.0 + w)
  }

  /** wilson(k, n, z): centre plus or minus half-width, unclamped. */
  function Interval(k: nat, n: nat, z: real, sqrt: real -> real): (real, real)
    requires k <= n
  {
    if n == 0 then (0.0, 0.0)
    else
      var p, m := k as real / n as real, n as real;
      var h := HalfWidth(z, sqrt(Radicand(p, m, z)), Weight(m, z));
      (Centre(p, m, z) - h, Centre(p, m, z) + h)
  }

  /** wilson_ci(blocked, total, z): another form of the half-width, clamped to [0, 1]. */
  function ClampedInterval(blocked: nat, total: nat, z: real, sqrt: real -> real): (real, real)
    requires blocked <= total
  {
    if total == 0 then (0.0, 0.0)
    else
      var phat, m := blocked as real / total as real, total as real;
      var margin := HalfWidth(z, sqrt(NestedRadicand(phat, m, z)), Weight(m, z));
      var lo, hi := Centre(phat, m, z) - margin, Centre(phat, m, z) + margin;
      (if lo > 0.0 then lo else 0.0, if hi < 1.0 then hi else 1.0)
  }

  /** The score test at level z does not reject the proportion t on an observed share p of m trials. */
  ghost predicate ScoreAccepts(p: real, m: real, z: real, t: real)
    requires m > 0.0
  {
    (p - t) * (p - t) <= Weight(m, z) * (t * (1.0 - t))
  }

  /** Both radicands are the same number, and its product with z squared has no quotient but w. */
  lemma Radicands(p: real, m: real, z: real) returns (w: real, r: real)
    requires m > 0.0 && 0.0 <= p <= 1.0
    ensures w == Weight(m, z) && z * z / (2.0 * m) == w / 2.0
    ensures r == Radicand(p, m, z) == NestedRadicand(p, m, z)
    ensures r >= 0.0 && z * z * r == w * (p * (1.0 - p)) + w * w / 4.0
  {
    var v, q := z * z, p * (1.0 - p);
    w := Weight(m, z);
    MulNonNegative(p, 1.0 - p);
    Quotients(v, q, m, w);
    r := q / m + w / 4.0 / m;
    DivMono(0.0, q, m);
    DivMono(0.0, w / 4.0, m);
  }

  lemma Quotients(v: real, q: real, m: real, w: real)
    requires m > 0.0 && w == v / m
    ensures 4.0 * m * m != 0.0
    ensures v / (2.0 * m) == w / 2.0 && v / (4.0 * m) == w / 4.0
    ensures v / (4.0 * m * m) == w / 4.0 / m
    ensures (q + v / (4.0 * m)) / m == q / m + w / 4.0 / m
    ensures v * (q / m + w / 4.0 / m) == w * q + w * w / 4.0
  {
    QuotientTimes(v, m);
    QuotientIs(v, 2.0 * m, w / 2.0);
    QuotientIs(v, 4.0 * m, w / 4.0);
    QuotientTimes(w / 4.0, m);
    QuotientTimes(q, m);
    var b, a := w / 4.0 / m, q / m;
    SquarePositive(m);
    ScaleSquare(b, m);
    QuotientIs(v, 4.0 * m * m, b);
    QuotientIs(q + w / 4.0, m, a + b);
    Regroup(w, m, a + b);
  }

  lemma ScaleSquare(b: real, m: real)
    ensures b * (4.0 * m * m) == 4.0 * (b * m) * m
  {
  }

  lemma Regroup(w: real, m: real, x: real)
    ensures (w * m) * x == w * (x * m)
  {
  }

  /** Completing the square of the score inequality, with no quotient left. */
  lemma ScoreSquare(p: real, w: real, e: real, t: real)
    requires w >= 0.0 && e >= 0.0
    requires e * e == w * (p * (1.0 - p)) + w * w / 4.0
    ensures (p - t) * (p - t) <= w * (t * (1.0 - t))
        <==> p + w / 2.0 - e <= Mul(1.0 + w, t) <= p + w / 2.0 + e
  {
    var d, x := 1.0 + w, (1.0 + w) * t - (p + w / 2.0);
    var gap := (p - t) * (p - t) - w * (t * (1.0 - t));
    assert x * x - e * e == d * gap by {
      var c := p + w / 2.0;
      assert c * c - e * e == p * p * d;
      assert x * x == d * t * (d * t) - 2.0 * (d * t) * c + c * c;
      assert gap == d * (t * t) - 2.0 * t * c + p * p;
    }
    if gap <= 0.0 {
      MulNonNegative(d, -gap);
      SquareOrder(x, e);
    } else {
      MulStrict(0.0, gap, d);
      if -e <= x <= e {
        SquareAtMost(x, e);
      }
    }
  }

  lemma SquareAtMost(x: real, e: real)
    requires -e <= x <= e
    ensures x * x <= e * e
  {
    assert e * e - x * x == (e - x) * (e + x);
    MulNonNegative(e - x, e + x);
  }

  /** The half-width times the denominator: a number e whose square has no root and no quotient. */
  lemma Extent(p: real, m: real, z: real, sqrt: real -> real) returns (e: real)
    requires m > 0.0 && 0.0 <= p <= 1.0 && z >= 0.0 && IsSqrt(sqrt)
    ensures var w := Weight(m, z);
            && e >= 0.0 && e * e == w * (p * (1.0 - p)) + w * w / 4.0
            && HalfWidth(z, sqrt(Radicand(p, m, z)), w) == e / (1.0 + w)
  {
    var w, r := Radicands(p, m, z);
    var s := sqrt(r);
    assert s >= 0.0 && s * s == r;
    e := z * s;
    MulNonNegative(z, s);
    SquareOfProduct(z, s);
  }

  lemma CentreForm(p: real, m: real, z: real)
    requires m > 0.0 && 0.0 <= p <= 1.0
    ensures Centre(p, m, z) == (p + Weight(m, z) / 2.0) / (1.0 + Weight(m, z))
  {
    var w, r := Radicands(p, m, z);
  }

  /** The interval inverts the score test: it holds exactly the proportions the test does not reject. */
  lemma IntervalInvertsScoreTest(k: nat, n: nat, z: real, sqrt: real -> real, t: real)
    requires 1 <= n && k <= n && z >= 0.0 && IsSqrt(sqrt)
    ensures Interval(k, n, z, sqrt).0 <= t <= Interval(k, n, z, sqrt).1
        <==> ScoreAccepts(k as real / n as real, n as real, z, t)
  {
    var p, w := k as real / n as real, Weight(n as real, z);
    var e := IntervalEnds(k, n, z, sqrt);
    ScoreSquare(p, w, e, t);
    Ends(p + w / 2.0, e, 1.0 + w, t);
  }

  /** Both ends of the interval over the common denominator. */
  lemma IntervalEnds(k: nat, n: nat, z: real, sqrt: real -> real) returns (e: real)
    requires 1 <= n && k <= n && z >= 0.0 && IsSqrt(sqrt)
    ensures var p, w := k as real / n as real, Weight(n as real, z);
      && e >= 0.0 && e * e == w * (p * (1.0 - p)) + w * w / 4.0
      && Interval(k, n, z, sqrt) == ((p + w / 2.0) / (1.0 + w) - e / (1.0 + w), (p + w / 2.0) / (1.0 + w) + e / (1.0 + w))
  {
    var p, m := k as real / n as real, n as real;
    Share(k, n);
    e := Extent(p, m, z, sqrt);
    CentreForm(p, m, z);
  }

  lemma Ends(c: real, e: real, d: real, t: real)
    requires d > 0.0
    ensures c - e <= Mul(d, t) <= c + e <==> c / d - e / d <= t <= c / d + e / d
  {
    QuotientTimes(c, d);
    QuotientTimes(e, d);
    QuotientIs(c - e, d, c / d - e / d);
    QuotientIs(c + e, d, c / d + e / d);
    DivBound(c - e, d, t);
    DivBound(c + e, d, t);
  }

  lemma SquareOfProduct(x: real, y: real)
    ensures (x * y) * (x * y) == x * x * (y * y)
  {
  }

  lemma Share(k: nat, n: nat)
    requires 1 <= n && k <= n
    ensures 0.0 <= k as real / n as real <= 1.0
  {
    DivBound(k as real, n as real, 1.0);
    DivMono(0.0, k as real, n as real);
  }

  /** Containment and range, for every observed count, from the inversion alone. */
  lemma IntervalContainsShare(k: nat, n: nat, z: real, sqrt: real -> real)
    requires 1 <= n && k <= n && z >= 0.0 && IsSqrt(sqrt)
    ensures var (lo, hi) := Interval(k, n, z, sqrt);
            0.0 <= lo <= k as real / n as real <= hi <= 1.0
  {
    var p, m := k as real / n as real, n as real;
    Share(k, n);
    MulNonNegative(p, 1.0 - p);
    MulNonNegative(Weight(m, z), p * (1.0 - p));
    IntervalInvertsScoreTest(k, n, z, sqrt, p);
    var (lo, hi) := Interval(k, n, z, sqrt);
    IntervalInvertsScoreTest(k, n, z, sqrt, lo);
    IntervalInvertsScoreTest(k, n, z, sqrt, hi);
    AcceptedIsProportion(p, m, z, lo);
    AcceptedIsProportion(p, m, z, hi);
  }

  lemma AcceptedIsProportion(p: real, m: real, z: real, t: real)
    requires m > 0.0 && 0.0 <= p <= 1.0 && ScoreAccepts(p, m, z, t)
    ensures 0.0 <= t <= 1.0
  {
    var w, u := Weight(m, z), t * (1.0 - t);
    if t < 0.0 || t > 1.0 {
      assert u < 0.0 by {
        if t < 0.0 { MulStrict(t, 0.0, 1.0 - t); } else { MulStrict(1.0 - t, 0.0, t); }
      }
      SquareAboveNegative(p - t, w, u);
    }
  }

  lemma SquareAboveNegative(x: real, w: real, u: real)
    requires w >= 0.0 && u < 0.0 && x != 0.0
    ensures x * x > w * u
  {
    SquarePositive(x);
    MulNonNegative(w, -u);
  }

  /** A negative z exchanges the ends. */
  lemma NegativeLevel(k: nat, n: nat, z: real, sqrt: real -> real)
    requires k <= n
    ensures Interval(k, n, -z, sqrt) == (Interval(k, n, z, sqrt).1, Interval(k, n, z, sqrt).0)
  {
    if n > 0 {
      var p, m := k as real / n as real, n as real;
      SquaresOnly(p, m, z);
      var root, w := sqrt(Radicand(p, m, z)), Weight(m, z);
      NegatedWidth(z, root, 1.0 + w);
      assert HalfWidth(-z, root, w) == -HalfWidth(z, root, w);
    }
  }

  lemma SquaresOnly(p: real, m: real, z: real)
    requires m > 0.0
    ensures Weight(m, -z) == Weight(m, z) && Radicand(p, m, -z) == Radicand(p, m, z) && Centre(p, m, -z) == Centre(p, m, z)
  {
    assert (-z) * (-z) == z * z;
  }

  lemma NegatedWidth(z: real, root: real, d: real)
    requires d > 0.0
    ensures (-z) * root / d == -(z * root / d)
  {
    QuotientTimes(z * root, d);
    QuotientIs((-z) * root, d, -(z * root / d));
  }

  /** The clamps do nothing to numbers between 0 and 1. */
  lemma EndsInRange(k: nat, n: nat, z: real, sqrt: real -> real)
    requires k <= n && IsSqrt(sqrt)
    ensures 0.0 <= Interval(k, n, z, sqrt).0 <= 1.0 && 0.0 <= Interval(k, n, z, sqrt).1 <= 1.0
  {
    if n > 0 {
      if z >= 0.0 {
        IntervalContainsShare(k, n, z, sqrt);
      } else {
        IntervalContainsShare(k, n, -z, sqrt);
        NegativeLevel(k, n, -z, sqrt);
      }
    }
  }

  /** The two implementations agree on every input, so the clamp never changes an endpoint. */
  lemma ClampNeverActs(k: nat, n: nat, z: real, sqrt: real -> real)
    requires k <= n && IsSqrt(sqrt)
    ensures ClampedInterval(k, n, z, sqrt) == Interval(k, n, z, sqrt)
  {
    if n > 0 {
      Share(k, n);
      var w, r := Radicands(k as real / n as real, n as real, z);
      EndsInRange(k, n, z, sqrt);
    }
  }
}
