/**
 Quadratic-weighted kappa of two raters, computed through a confusion matrix: the copy of
 experimentation/scripts/judge_agreement.py and the range-guarded copy of
 experimentation/scripts/analyze_human_eval.py.
 */
module WeightedKappa {
  import opened Reals
  import opened Sums

  /** Not a number when no pair is counted or the expected disagreement is zero; numpy's IndexError. */
  datatype Kappa = Value(kappa: real) | NotANumber | IndexError

  /** A pair of zero-based category indices, one for each rater. */
  type Pair = (int, int)

  type Weighting = (int, int) -> real

  predicate InRange(p: seq<Pair>, k: int) {
    forall t | 0 <= t < |p| :: 0 <= p[t].0 < k && 0 <= p[t].1 < k
  }

  // ---------- pair sums: disagreement with no matrix in it ----------

  function SqDiff(x: int, y: int): real {
    ((x - y) * (x - y)) as real
  }

  function GapIn(w: Weighting): Pair -> real {
    (q: Pair) => w(q.0, q.1)
  }

  /** The weight of the category i against the second score of a pair. */
  function GapSecond(w: Weighting, i: int): Pair -> real {
    (r: Pair) => w(i, r.1)
  }

  function GapsFrom(p: seq<Pair>, w: Weighting): int -> real {
    i => SumOf(p, GapSecond(w, i))
  }

  function GapsTo(p: seq<Pair>, w: Weighting): Pair -> real {
    (q: Pair) => SumOf(p, GapSecond(w, q.0))
  }

  /** The weighted disagreement of the raters over the pairs. */
  function Observed(p: seq<Pair>, w: Weighting): real {
    SumOf(p, GapIn(w))
  }

  /** The weighted disagreement over every pairing of a first score with a second score. */
  function Expected(p: seq<Pair>, w: Weighting): real {
    SumOf(p, GapsTo(p, w))
  }

  /** Kappa by squared differences: one minus n times the observed over the expected disagreement. */
  function ClosedForm(p: seq<Pair>): Kappa {
    if Expected(p, SqDiff) == 0.0 then NotANumber
    else Value(1.0 - |p| as real * Observed(p, SqDiff) / Expected(p, SqDiff))
  }

  // ---------- counts and the sums over the matrices ----------

  function First(): Pair -> int {
    (q: Pair) => q.0
  }

  function Second(): Pair -> int {
    (q: Pair) => q.1
  }

  /** O[i, j]: how many pairs fall in the cell. */
  function Cell(p: seq<Pair>, i: int, j: int): nat {
    if p == [] then 0 else (if p[0] == (i, j) then 1 else 0) + Cell(p[1..], i, j)
  }

  /** (W * O)[i, j], and its row sums. */
  function ObservedCell(p: seq<Pair>, w: Weighting, i: int): int -> real {
    j => w(i, j) * Cell(p, i, j) as real
  }

  function ObservedRow(p: seq<Pair>, w: Weighting, k: nat): int -> real {
    i => Sum(k, ObservedCell(p, w, i))
  }

  lemma CellStep(p: seq<Pair>, w: Weighting, i: int, j: int)
    requires p != []
    ensures ObservedCell(p, w, i)(j) == (if p[0] == (i, j) then w(i, j) else 0.0) + ObservedCell(p[1..], w, i)(j)
  {
    Distribute(w(i, j), if p[0] == (i, j) then 1 else 0, Cell(p[1..], i, j));
  }

  lemma RowStep(p: seq<Pair>, w: Weighting, k: nat, i: int)
    requires p != [] && 0 <= p[0].1 < k
    ensures ObservedRow(p, w, k)(i) == (if i == p[0].0 then GapIn(w)(p[0]) else 0.0) + ObservedRow(p[1..], w, k)(i)
  {
    var first := (j: int) => if p[0] == (i, j) then w(i, j) else 0.0;
    SumDelta(k, p[0].1, first);
    forall j ensures ObservedCell(p, w, i)(j) == first(j) + ObservedCell(p[1..], w, i)(j) {
      CellStep(p, w, i, j);
    }
    SumAdd(k, first, ObservedCell(p[1..], w, i), ObservedCell(p, w, i));
  }

  /** The weighted confusion matrix sums to the observed disagreement. */
  lemma {:induction false} MatrixObserved(p: seq<Pair>, w: Weighting, k: nat)
    requires InRange(p, k)
    ensures Sum(k, ObservedRow(p, w, k)) == Observed(p, w)
  {
    if p == [] {
      forall i ensures ObservedRow(p, w, k)(i) == 0.0 {
        forall j ensures ObservedCell(p, w, i)(j) == 0.0 {
          TimesZero(w(i, j));
        }
        SumDelta(k, -1, ObservedCell(p, w, i));
      }
      SumDelta(k, -1, ObservedRow(p, w, k));
    } else {
      MatrixObserved(p[1..], w, k);
      var first := (i: int) => if i == p[0].0 then GapIn(w)(p[0]) else 0.0;
      forall i ensures ObservedRow(p, w, k)(i) == first(i) + ObservedRow(p[1..], w, k)(i) {
        RowStep(p, w, k, i);
      }
      SumDelta(k, p[0].0, first);
      SumAdd(k, first, ObservedRow(p[1..], w, k), ObservedRow(p, w, k));
    }
  }

  function RowCount(p: seq<Pair>, i: int): nat {
    CountKey(p, First(), i)
  }

  function ColCount(p: seq<Pair>, j: int): nat {
    CountKey(p, Second(), j)
  }

  function CellsOfRow(p: seq<Pair>, i: int): int -> real {
    j => Cell(p, i, j) as real
  }

  function CellsOfCol(p: seq<Pair>, j: int): int -> real {
    i => Cell(p, i, j) as real
  }

  /** The margins of the confusion matrix are the category counts of each rater. */
  lemma {:induction false} Margins(p: seq<Pair>, k: nat, i: int)
    requires InRange(p, k)
    ensures Sum(k, CellsOfRow(p, i)) == RowCount(p, i) as real
    ensures Sum(k, CellsOfCol(p, i)) == ColCount(p, i) as real
  {
    if p == [] {
      SumDelta(k, -1, CellsOfRow(p, i));
      SumDelta(k, -1, CellsOfCol(p, i));
    } else {
      Margins(p[1..], k, i);
      var q := p[0];
      var row := (j: int) => if q == (i, j) then 1.0 else 0.0;
      var col := (j: int) => if q == (j, i) then 1.0 else 0.0;
      SumDelta(k, q.1, row);
      SumDelta(k, q.0, col);
      SumAdd(k, row, CellsOfRow(p[1..], i), CellsOfRow(p, i));
      SumAdd(k, col, CellsOfCol(p[1..], i), CellsOfCol(p, i));
    }
  }

  function RowCounts(p: seq<Pair>): int -> real {
    i => RowCount(p, i) as real
  }

  /** All the row counts together are the number of pairs. */
  lemma RowCountsTotal(p: seq<Pair>, k: nat)
    requires InRange(p, k)
    ensures Sum(k, RowCounts(p)) == |p| as real
  {
    var one, each := (i: int) => 1.0, (q: Pair) => 1.0;
    SumByKey(p, k, First(), one, each);
    SumOfConst(p, each, 1.0);
    SumCong(k, RowCounts(p), WeightedCount(p, First(), one));
  }

  /** One weighted cell of the outer product a * b over n. */
  function OuterCell(x: real, a: real, b: real, n: real): real
    requires n > 0.0
  {
    x * (a * b / n)
  }

  /** (W * E)[i, j] with E the outer product of the margins over n, and its row sums. */
  function ExpectedCell(p: seq<Pair>, w: Weighting, n: real, i: int): int -> real
    requires n > 0.0
  {
    j => OuterCell(w(i, j), RowCount(p, i) as real, ColCount(p, j) as real, n)
  }

  function ExpectedRow(p: seq<Pair>, w: Weighting, n: real, k: nat): int -> real
    requires n > 0.0
  {
    i => Sum(k, ExpectedCell(p, w, n, i))
  }

  function WeightsFrom(w: Weighting, i: int): int -> real {
    j => w(i, j)
  }

  lemma Rotate(x: real, y: real, z: real, n: real)
    requires n > 0.0
    ensures OuterCell(x, y, z, n) == y / n * (x * z)
  {
    QuotientIs(y * z, n, y / n * z);
  }

  lemma OverN(x: real, y: real, n: real)
    requires n > 0.0
    ensures y / n * x == 1.0 / n * (x * y)
  {
    QuotientIs(y, n, 1.0 / n * y);
  }

  lemma InnerSum(p: seq<Pair>, w: Weighting, k: nat, i: int)
    requires InRange(p, k)
    ensures Sum(k, WeightedCount(p, Second(), WeightsFrom(w, i))) == SumOf(p, GapSecond(w, i))
  {
    SumByKey(p, k, Second(), WeightsFrom(w, i), GapSecond(w, i));
  }

  /** A row of the weighted outer product, its factors given as variables. */
  lemma RowSum(k: nat, c: real, n: real, f: int -> real, g: int -> real, x: real, y: real)
    requires n > 0.0 && Sum(k, f) == x && y == x * c
    requires forall j :: g(j) == c / n * f(j)
    ensures Sum(k, g) == 1.0 / n * y
  {
    SumScale(k, c / n, f, g);
    OverN(x, c, n);
  }

  lemma RowWeight(p: seq<Pair>, w: Weighting, i: int)
    ensures WeightedCount(p, First(), GapsFrom(p, w))(i) == SumOf(p, GapSecond(w, i)) * RowCount(p, i) as real
  {
  }

  lemma CellScaled(p: seq<Pair>, w: Weighting, n: real, i: int, j: int)
    requires n > 0.0
    ensures ExpectedCell(p, w, n, i)(j) == RowCount(p, i) as real / n * WeightedCount(p, Second(), WeightsFrom(w, i))(j)
  {
    Rotate(w(i, j), RowCount(p, i) as real, ColCount(p, j) as real, n);
  }

  lemma ExpectedRowSum(p: seq<Pair>, w: Weighting, n: real, k: nat, i: int)
    requires InRange(p, k) && n > 0.0
    ensures ExpectedRow(p, w, n, k)(i) == 1.0 / n * WeightedCount(p, First(), GapsFrom(p, w))(i)
  {
    hide ExpectedCell, WeightsFrom, GapsFrom;
    InnerSum(p, w, k, i);
    RowWeight(p, w, i);
    var c, y := RowCount(p, i) as real, WeightedCount(p, First(), GapsFrom(p, w))(i);
    var f, g := WeightedCount(p, Second(), WeightsFrom(w, i)), ExpectedCell(p, w, n, i);
    forall j ensures g(j) == c / n * f(j) {
      CellScaled(p, w, n, i, j);
    }
    RowSum(k, c, n, f, g, SumOf(p, GapSecond(w, i)), y);
  }

  lemma OuterSum(p: seq<Pair>, w: Weighting, k: nat)
    requires InRange(p, k)
    ensures Sum(k, WeightedCount(p, First(), GapsFrom(p, w))) == Expected(p, w)
  {
    SumByKey(p, k, First(), GapsFrom(p, w), GapsTo(p, w));
  }

  /** The weighted outer product of the margins sums to the expected disagreement over n. */
  lemma MatrixExpected(p: seq<Pair>, w: Weighting, n: real, k: nat)
    requires InRange(p, k) && n > 0.0
    ensures Sum(k, ExpectedRow(p, w, n, k)) == 1.0 / n * Expected(p, w)
  {
    var f, g := WeightedCount(p, First(), GapsFrom(p, w)), ExpectedRow(p, w, n, k);
    forall i ensures g(i) == 1.0 / n * f(i) {
      ExpectedRowSum(p, w, n, k, i);
    }
    SumScale(k, 1.0 / n, f, g);
    OuterSum(p, w, k);
  }

  // ---------- the scripts' loops ----------

  /** zip of the two score lists, moved to zero-based categories. */
  function Zip(a: seq<int>, b: seq<int>): seq<Pair> {
    seq(if |a| < |b| then |a| else |b|, t requires 0 <= t < |a| && t < |b| => (a[t] - 1, b[t] - 1))
  }

  /** numpy counts a negative index back from the end of the axis. */
  function Wrap(x: int, k: nat): int {
    if x < 0 then x + k else x
  }

  predicate Indexable(q: Pair, k: int) {
    -k <= q.0 < k && -k <= q.1 < k
  }

  function WrapPair(q: Pair, k: nat): Pair {
    (Wrap(q.0, k), Wrap(q.1, k))
  }

  function Wrapped(p: seq<Pair>, k: nat): seq<Pair> {
    seq(|p|, t requires 0 <= t < |p| => WrapPair(p[t], k))
  }

  predicate Counted(q: Pair, k: nat) {
    0 <= q.0 < k && 0 <= q.1 < k
  }

  /** The pairs the range guard lets through. */
  function Guarded(p: seq<Pair>, k: nat): (r: seq<Pair>)
    ensures InRange(r, k)
  {
    if p == [] then []
    else (if Counted(p[0], k) then [p[0]] else []) + Guarded(p[1..], k)
  }

  lemma {:induction false} GuardedSnoc(p: seq<Pair>, q: Pair, k: nat)
    ensures Guarded(p + [q], k) == Guarded(p, k) + if Counted(q, k) then [q] else []
  {
    if p != [] {
      assert (p + [q])[1..] == p[1..] + [q];
      GuardedSnoc(p[1..], q, k);
    }
  }

  lemma {:induction false} CellSnoc(p: seq<Pair>, q: Pair, i: int, j: int)
    ensures Cell(p + [q], i, j) == Cell(p, i, j) + if q == (i, j) then 1 else 0
  {
    if p != [] {
      assert (p + [q])[1..] == p[1..] + [q];
      CellSnoc(p[1..], q, i, j);
    }
  }

  /** The matrix O holds the cell counts of p. */
  ghost predicate Holds(O: array2<real>, k: nat, p: seq<Pair>)
    reads O
  {
    && O.Length0 == O.Length1 == k
    && forall i, j | 0 <= i < k && 0 <= j < k :: O[i, j] == Cell(p, i, j) as real
  }

  ghost predicate HoldsWeights(W: array2<real>, k: nat, w: Weighting)
    reads W
  {
    && W.Length0 == W.Length1 == k
    && forall i, j | 0 <= i < k && 0 <= j < k :: W[i, j] == w(i, j)
  }

  /** One pass of the counting loop: O[x, y] += 1. */
  method Increment(O: array2<real>, k: nat, q: Pair, ghost p: seq<Pair>)
    requires Holds(O, k, p) && Counted(q, k)
    modifies O
    ensures Holds(O, k, p + [q])
  {
    O[q.0, q.1] := O[q.0, q.1] + 1.0;
    forall i, j | 0 <= i < k && 0 <= j < k ensures O[i, j] == Cell(p + [q], i, j) as real {
      CellSnoc(p, q, i, j);
    }
  }

  /** The quadratic weight: the squared distance over the largest squared distance. */
  function QuadraticAt(k: nat, i: int, j: int): real
    requires k >= 2
  {
    SpreadPositive(k);
    SqDiff(i, j) / SqDiff(k, 1)
  }

  function Quadratic(k: nat): Weighting
    requires k >= 2
  {
    (i, j) => QuadraticAt(k, i, j)
  }

  lemma SpreadPositive(k: nat)
    requires k >= 2
    ensures SqDiff(k, 1) > 0.0
  {
    assert (k - 1) * (k - 1) > 0;
  }

  /** The weight matrix, filled cell by cell. */
  method FillWeights(k: nat) returns (W: array2<real>)
    requires k >= 2
    ensures fresh(W) && HoldsWeights(W, k, Quadratic(k))
  {
    W := new real[k, k]((_, _) => 0.0);
    ghost var w := Quadratic(k);
    for i := 0 to k
      invariant forall x, y | 0 <= x < i && 0 <= y < k :: W[x, y] == w(x, y)
    {
      FillRow(W, k, i, w);
    }
  }

  method FillRow(W: array2<real>, k: nat, i: nat, ghost w: Weighting)
    requires i < k && k >= 2 && W.Length0 == W.Length1 == k && w == Quadratic(k)
    modifies W
    ensures forall y | 0 <= y < k :: W[i, y] == w(i, y)
    ensures forall x, y | 0 <= x < k && 0 <= y < k && x != i :: W[x, y] == old(W[x, y])
  {
    for j := 0 to k
      invariant forall y | 0 <= y < j :: W[i, y] == w(i, y)
      invariant forall x, y | 0 <= x < k && 0 <= y < k && x != i :: W[x, y] == old(W[x, y])
    {
      W[i, j] := QuadraticAt(k, i, j);
    }
  }

  method SumRows(O: array2<real>, k: nat, ghost p: seq<Pair>) returns (act: seq<real>)
    requires Holds(O, k, p) && InRange(p, k)
    ensures |act| == k && forall i | 0 <= i < k :: act[i] == RowCount(p, i) as real
  {
    act := [];
    for i := 0 to k
      invariant |act| == i && forall x | 0 <= x < i :: act[x] == RowCount(p, x) as real
    {
      var total := 0.0;
      for j := 0 to k
        invariant total == Sum(j, CellsOfRow(p, i))
      {
        total := total + O[i, j];
      }
      Margins(p, k, i);
      act := act + [total];
    }
  }

  method SumCols(O: array2<real>, k: nat, ghost p: seq<Pair>) returns (act: seq<real>)
    requires Holds(O, k, p) && InRange(p, k)
    ensures |act| == k && forall j | 0 <= j < k :: act[j] == ColCount(p, j) as real
  {
    act := [];
    for j := 0 to k
      invariant |act| == j && forall x | 0 <= x < j :: act[x] == ColCount(p, x) as real
    {
      var total := 0.0;
      for i := 0 to k
        invariant total == Sum(i, CellsOfCol(p, j))
      {
        total := total + O[i, j];
      }
      Margins(p, k, j);
      act := act + [total];
    }
  }

  /** (W * O).sum(). */
  method ObservedTotal(O: array2<real>, W: array2<real>, k: nat, ghost p: seq<Pair>, ghost w: Weighting)
    returns (num: real)
    requires Holds(O, k, p) && HoldsWeights(W, k, w)
    ensures num == Sum(k, ObservedRow(p, w, k))
  {
    num := 0.0;
    for i := 0 to k
      invariant num == Sum(i, ObservedRow(p, w, k))
    {
      var row := 0.0;
      for j := 0 to k
        invariant row == Sum(j, ObservedCell(p, w, i))
      {
        var cell := W[i, j] * O[i, j];
        assert cell == ObservedCell(p, w, i)(j);
        row := row + cell;
      }
      assert row == ObservedRow(p, w, k)(i);
      num := num + row;
    }
  }

  /** (W * E).sum(), with E the outer product of the margins over n. */
  method ExpectedTotal(W: array2<real>, actA: seq<real>, actB: seq<real>, n: real, k: nat,
                       ghost p: seq<Pair>, ghost w: Weighting)
    returns (den: real)
    requires HoldsWeights(W, k, w) && n > 0.0
    requires |actA| == |actB| == k
    requires forall i | 0 <= i < k :: actA[i] == RowCount(p, i) as real && actB[i] == ColCount(p, i) as real
    ensures den == Sum(k, ExpectedRow(p, w, n, k))
  {
    den := 0.0;
    for i := 0 to k
      invariant den == Sum(i, ExpectedRow(p, w, n, k))
    {
      var row := 0.0;
      for j := 0 to k
        invariant row == Sum(j, ExpectedCell(p, w, n, i))
      {
        var cell := OuterCell(W[i, j], actA[i], actB[j], n);
        assert cell == ExpectedCell(p, w, n, i)(j);
        row := row + cell;
      }
      assert row == ExpectedRow(p, w, n, k)(i);
      den := den + row;
    }
  }

  /** Dividing every weight by one number divides both disagreements by it. */
  lemma QuadraticScales(p: seq<Pair>, k: nat)
    requires k >= 2
    ensures SqDiff(k, 1) > 0.0
    ensures Observed(p, Quadratic(k)) == 1.0 / SqDiff(k, 1) * Observed(p, SqDiff)
    ensures Expected(p, Quadratic(k)) == 1.0 / SqDiff(k, 1) * Expected(p, SqDiff)
  {
    hide SqDiff, Observed, Expected;
    SpreadPositive(k);
    var f := 1.0 / SqDiff(k, 1);
    var w := Quadratic(k);
    forall i, j ensures w(i, j) == f * SqDiff(i, j) {
      QuotientIs(SqDiff(i, j), SqDiff(k, 1), f * SqDiff(i, j));
    }
    Rescaled(p, f, SqDiff, w);
  }

  lemma Rescaled(p: seq<Pair>, f: real, v: Weighting, w: Weighting)
    requires forall i, j :: w(i, j) == f * v(i, j)
    ensures Observed(p, w) == f * Observed(p, v)
    ensures Expected(p, w) == f * Expected(p, v)
  {
    forall q: Pair ensures GapIn(w)(q) == f * GapIn(v)(q) {
      var i, j := q.0, q.1;
      assert w(i, j) == f * v(i, j);
    }
    SumOfScale(p, f, GapIn(v), GapIn(w));
    forall q: Pair ensures GapsTo(p, w)(q) == f * GapsTo(p, v)(q) {
      forall r: Pair ensures GapSecond(w, q.0)(r) == f * GapSecond(v, q.0)(r) {
        var i, j := q.0, r.1;
        assert w(i, j) == f * v(i, j);
      }
      SumOfScale(p, f, GapSecond(v, q.0), GapSecond(w, q.0));
    }
    SumOfScale(p, f, GapsTo(p, v), GapsTo(p, w));
  }

  /** The scale factors leave n in the ratio, and leave a zero denominator zero. */
  lemma RatioIs(x: real, y: real, c: real, n: real)
    requires c > 0.0 && n > 0.0
    ensures 1.0 / n * (1.0 / c * y) == 0.0 <==> y == 0.0
    ensures y != 0.0 ==> 1.0 / c * x / (1.0 / n * (1.0 / c * y)) == n * x / y
  {
    var f, g := 1.0 / c, 1.0 / n;
    QuotientTimes(1.0, c);
    QuotientTimes(1.0, n);
    Unscale(f, c, g, n, y);
    if y != 0.0 {
      QuotientTimes(n * x, y);
      Rescale(f, g, n, x, y, n * x / y);
      QuotientIs(f * x, g * (f * y), n * x / y);
    }
  }

  lemma Unscale(f: real, c: real, g: real, n: real, y: real)
    requires Mul(f, c) == 1.0 && Mul(g, n) == 1.0
    ensures g * (f * y) == 0.0 <==> y == 0.0
  {
    assert Mul(g * (f * y), c * n) == Mul(f, c) * Mul(g, n) * y;
  }

  lemma Rescale(f: real, g: real, n: real, x: real, y: real, q: real)
    requires Mul(g, n) == 1.0 && Mul(q, y) == n * x
    ensures Mul(q, g * (f * y)) == f * x
  {
    assert Mul(q, g * (f * y)) == f * g * Mul(q, y);
    assert f * g * (n * x) == f * Mul(g, n) * x;
  }

  lemma FinalRatio(p: seq<Pair>, k: nat, n: real, num: real, den: real)
    requires k >= 2 && InRange(p, k) && n == |p| as real && n > 0.0
    requires num == Sum(k, ObservedRow(p, Quadratic(k), k))
    requires den == Sum(k, ExpectedRow(p, Quadratic(k), n, k))
    ensures den == 0.0 <==> Expected(p, SqDiff) == 0.0
    ensures den != 0.0 ==> Value(1.0 - num / den) == ClosedForm(p)
  {
    MatrixObserved(p, Quadratic(k), k);
    MatrixExpected(p, Quadratic(k), n, k);
    QuadraticScales(p, k);
    RatioIs(Observed(p, SqDiff), Expected(p, SqDiff), SqDiff(k, 1), n);
  }

  /** The tail both copies share: margins, outer product, weighted sums and the final ratio. */
  method FromMatrix(O: array2<real>, k: nat, ghost p: seq<Pair>) returns (r: Kappa)
    requires k >= 2 && Holds(O, k, p) && InRange(p, k)
    ensures r == ClosedForm(p)
  {
    var W := FillWeights(k);
    var actA := SumRows(O, k, p);
    var actB := SumCols(O, k, p);
    var n := 0.0;
    for i := 0 to k
      invariant n == Sum(i, RowCounts(p))
    {
      n := n + actA[i];
    }
    RowCountsTotal(p, k);
    if n == 0.0 {
      return NotANumber;
    }
    var num := ObservedTotal(O, W, k, p, Quadratic(k));
    var den := ExpectedTotal(W, actA, actB, n, k, p, Quadratic(k));
    FinalRatio(p, k, n, num, den);
    if den == 0.0 {
      return NotANumber;
    }
    r := Value(1.0 - num / den);
  }

  /** What the first copy returns: an index error, or kappa over the pairs with negative indices wrapped. */
  ghost function JudgesKappa(a: seq<int>, b: seq<int>, k: nat): Kappa {
    if forall q | q in Zip(a, b) :: Indexable(q, k) then ClosedForm(Wrapped(Zip(a, b), k)) else IndexError
  }

  /** What the second copy returns: kappa over the pairs in range. */
  function HumanKappa(a: seq<int>, b: seq<int>, k: nat): Kappa {
    ClosedForm(Guarded(Zip(a, b), k))
  }

  /** judge_agreement.py: every index numpy accepts is counted, the negative ones from the end. */
  method Judges(a: seq<int>, b: seq<int>, k: nat) returns (r: Kappa)
    requires k >= 2
    ensures r == JudgesKappa(a, b, k)
  {
    var p := Zip(a, b);
    var O := new real[k, k]((_, _) => 0.0);
    for t := 0 to |p|
      invariant forall q | q in p[..t] :: Indexable(q, k)
      invariant Holds(O, k, Wrapped(p[..t], k))
    {
      assert p[t] in p;
      if !Indexable(p[t], k) {
        return IndexError;
      }
      assert p[..t + 1] == p[..t] + [p[t]];
      assert Wrapped(p[..t + 1], k) == Wrapped(p[..t], k) + [WrapPair(p[t], k)];
      Increment(O, k, WrapPair(p[t], k), Wrapped(p[..t], k));
    }
    assert p[..|p|] == p;
    assert forall t | 0 <= t < |p| :: p[t] in p;
    r := FromMatrix(O, k, Wrapped(p, k));
  }

  /** analyze_human_eval.py: pairs with a score outside the range are not counted. */
  method HumanEval(a: seq<int>, b: seq<int>, k: nat) returns (r: Kappa)
    requires k >= 2
    ensures r == HumanKappa(a, b, k)
  {
    var p := Zip(a, b);
    var O := new real[k, k]((_, _) => 0.0);
    for t := 0 to |p|
      invariant Holds(O, k, Guarded(p[..t], k))
    {
      GuardedSnoc(p[..t], p[t], k);
      assert p[..t + 1] == p[..t] + [p[t]];
      if Counted(p[t], k) {
        Increment(O, k, p[t], Guarded(p[..t], k));
      } else {
        assert Guarded(p[..t], k) + [] == Guarded(p[..t], k);
      }
    }
    assert p[..|p|] == p;
    r := FromMatrix(O, k, Guarded(p, k));
  }

  // ---------- what kappa promises ----------

  lemma {:induction false} GuardedAll(p: seq<Pair>, k: nat)
    requires forall q | q in p :: Counted(q, k)
    ensures Guarded(p, k) == p
  {
    if p != [] {
      assert p[0] in p;
      GuardedAll(p[1..], k);
    }
  }

  lemma {:induction false} GuardedShorter(p: seq<Pair>, k: nat)
    ensures |Guarded(p, k)| <= |p|
    ensures |Guarded(p, k)| == |p| ==> forall q | q in p :: Counted(q, k)
  {
    if p != [] {
      GuardedShorter(p[1..], k);
    }
  }

  /** The copies count the same pairs exactly when every score is in 1..k. */
  lemma CopiesCountTheSame(a: seq<int>, b: seq<int>, k: nat)
    ensures Wrapped(Zip(a, b), k) == Guarded(Zip(a, b), k) <==> forall q | q in Zip(a, b) :: Counted(q, k)
  {
    var z := Zip(a, b);
    GuardedShorter(z, k);
    if forall q | q in z :: Counted(q, k) {
      GuardedAll(z, k);
      forall t | 0 <= t < |z| ensures WrapPair(z[t], k) == z[t] {
        assert Counted(z[t], k);
      }
    }
  }

  /**
   With every score in 1..k both copies return the same value. The first fails exactly when some pair cannot be
   indexed, and then they differ, because the second never fails.
   */
  lemma CopiesAgree(a: seq<int>, b: seq<int>, k: nat)
    ensures (forall q | q in Zip(a, b) :: Counted(q, k)) ==> JudgesKappa(a, b, k) == HumanKappa(a, b, k)
    ensures JudgesKappa(a, b, k) == IndexError <==> exists q :: q in Zip(a, b) && !Indexable(q, k)
    ensures HumanKappa(a, b, k) != IndexError
    ensures (exists q :: q in Zip(a, b) && !Indexable(q, k)) ==> JudgesKappa(a, b, k) != HumanKappa(a, b, k)
  {
    CopiesCountTheSame(a, b, k);
  }

  /** In between, with an indexable score out of range, they can differ too: 0 counts as the top category in one only. */
  lemma CopiesDisagreeOnZero()
    ensures JudgesKappa([0, 1], [5, 1], 5) == Value(1.0)
    ensures HumanKappa([0, 1], [5, 1], 5) == NotANumber
  {
    var z := Zip([0, 1], [5, 1]);
    assert z == [(-1, 4), (0, 0)] && z[1..] == [(0, 0)] && z[1..][1..] == [];
    assert Wrapped(z, 5) == [(4, 4), (0, 0)];
    ApartAgreeing();
    assert Guarded(z, 5) == [(0, 0)];
    KappaRange([(0, 0)]);
  }

  lemma ApartAgreeing()
    ensures ClosedForm([(4, 4), (0, 0)]) == Value(1.0)
  {
    var p: seq<Pair> := [(4, 4), (0, 0)];
    KappaRange(p);
    assert p[0].0 != p[1].1;
  }

  predicate AllOneCategory(p: seq<Pair>) {
    forall s, t | 0 <= s < |p| && 0 <= t < |p| :: p[s].0 == p[t].1
  }

  lemma SqDiffSign(x: int, y: int)
    ensures SqDiff(x, y) >= 0.0
    ensures SqDiff(x, y) == 0.0 <==> x == y
  {
    if x != y {
      assert (x - y) * (x - y) > 0;
    }
  }

  lemma SumsSign(p: seq<Pair>)
    ensures Observed(p, SqDiff) >= 0.0 && Expected(p, SqDiff) >= 0.0
    ensures Observed(p, SqDiff) == 0.0 <==> forall q | q in p :: q.0 == q.1
    ensures Expected(p, SqDiff) == 0.0 <==> forall q, r | q in p && r in p :: q.0 == r.1
  {
    forall q: Pair ensures GapIn(SqDiff)(q) >= 0.0 && (GapIn(SqDiff)(q) == 0.0 <==> q.0 == q.1) {
      SqDiffSign(q.0, q.1);
    }
    SumOfZero(p, GapIn(SqDiff));
    forall q: Pair
      ensures GapsTo(p, SqDiff)(q) >= 0.0
      ensures GapsTo(p, SqDiff)(q) == 0.0 <==> forall r | r in p :: q.0 == r.1
    {
      forall r: Pair
        ensures GapSecond(SqDiff, q.0)(r) >= 0.0 && (GapSecond(SqDiff, q.0)(r) == 0.0 <==> q.0 == r.1)
      {
        SqDiffSign(q.0, r.1);
      }
      SumOfZero(p, GapSecond(SqDiff, q.0));
    }
    SumOfZero(p, GapsTo(p, SqDiff));
  }

  // Moments of the scores, and both disagreements through them.

  function X(): Pair -> real { (q: Pair) => q.0 as real }
  function Y(): Pair -> real { (q: Pair) => q.1 as real }
  function XX(): Pair -> real { (q: Pair) => q.0 as real * q.0 as real }
  function YY(): Pair -> real { (q: Pair) => q.1 as real * q.1 as real }
  function XY(): Pair -> real { (q: Pair) => q.0 as real * q.1 as real }

  lemma SqDiffExpand(x: int, y: int)
    ensures SqDiff(x, y) == x as real * x as real - 2.0 * (x as real * y as real) + y as real * y as real
  {
    var a, b := x as real, y as real;
    assert (x - y) as real == a - b;
    assert ((x - y) * (x - y)) as real == (x - y) as real * (x - y) as real;
  }

  lemma ObservedMoments(p: seq<Pair>)
    ensures Observed(p, SqDiff) == SumOf(p, XX()) - 2.0 * SumOf(p, XY()) + SumOf(p, YY())
  {
    forall q: Pair ensures GapIn(SqDiff)(q) == 1.0 * XX()(q) + -2.0 * XY()(q) + YY()(q) {
      SqDiffExpand(q.0, q.1);
    }
    SumOfLinear(p, 1.0, XX(), -2.0, XY(), YY(), GapIn(SqDiff));
  }

  lemma InnerMoments(p: seq<Pair>, i: int)
    ensures SumOf(p, GapSecond(SqDiff, i))
         == SumOf(p, YY()) - 2.0 * i as real * SumOf(p, Y()) + i as real * i as real * |p| as real
  {
    hide GapSecond, SqDiff, YY, Y;
    var d, e := -2.0 * i as real, i as real * i as real;
    forall q: Pair ensures GapSecond(SqDiff, i)(q) == 1.0 * YY()(q) + d * Y()(q) + e {
      GapAt(i, q, d, e);
    }
    SumOfAffine(p, 1.0, YY(), d, Y(), e, GapSecond(SqDiff, i));
  }

  lemma GapAt(i: int, q: Pair, d: real, e: real)
    requires d == -2.0 * i as real && e == i as real * i as real
    ensures GapSecond(SqDiff, i)(q) == 1.0 * YY()(q) + d * Y()(q) + e
  {
    SqDiffExpand(i, q.1);
  }

  /** The expected disagreement of n pairs, from the sums and sums of squares of both scores. */
  function ExpectedFrom(n: real, x: real, y: real, xx: real, yy: real): real {
    n * xx + -2.0 * y * x + yy * n
  }

  lemma GapsToMoments(p: seq<Pair>, q: Pair, d: real)
    requires d == -2.0 * SumOf(p, Y())
    ensures GapsTo(p, SqDiff)(q) == |p| as real * XX()(q) + d * X()(q) + SumOf(p, YY())
  {
    InnerMoments(p, q.0);
    Reorder(SumOf(p, YY()), q.0 as real, SumOf(p, Y()), |p| as real, d);
  }

  lemma Reorder(yy: real, x: real, y: real, n: real, d: real)
    requires d == -2.0 * y
    ensures yy - 2.0 * x * y + x * x * n == n * (x * x) + d * x + yy
  {
  }

  lemma SumOfQuadratic(p: seq<Pair>, n: real, d: real, yy: real, f: Pair -> real)
    requires n == |p| as real
    requires forall q: Pair :: f(q) == n * XX()(q) + d * X()(q) + yy
    ensures SumOf(p, f) == n * SumOf(p, XX()) + d * SumOf(p, X()) + yy * n
  {
    SumOfAffine(p, n, XX(), d, X(), yy, f);
  }

  lemma ExpectedIn(p: seq<Pair>, n: real, d: real, yy: real)
    requires n == |p| as real && d == -2.0 * SumOf(p, Y()) && yy == SumOf(p, YY())
    ensures Expected(p, SqDiff) == n * SumOf(p, XX()) + d * SumOf(p, X()) + yy * n
  {
    forall q: Pair ensures GapsTo(p, SqDiff)(q) == n * XX()(q) + d * X()(q) + yy {
      GapsToMoments(p, q, d);
    }
    SumOfQuadratic(p, n, d, yy, GapsTo(p, SqDiff));
  }

  lemma ExpectedMoments(p: seq<Pair>)
    ensures Expected(p, SqDiff)
         == ExpectedFrom(|p| as real, SumOf(p, X()), SumOf(p, Y()), SumOf(p, XX()), SumOf(p, YY()))
  {
    ExpectedIn(p, |p| as real, -2.0 * SumOf(p, Y()), SumOf(p, YY()));
    QuadraticForm(|p| as real, SumOf(p, X()), SumOf(p, Y()), SumOf(p, XX()), SumOf(p, YY()), -2.0 * SumOf(p, Y()));
  }

  lemma QuadraticForm(n: real, x: real, y: real, xx: real, yy: real, d: real)
    requires d == -2.0 * y
    ensures n * xx + d * x + yy * n == ExpectedFrom(n, x, y, xx, yy)
  {
  }

  /** Each pair replaced by its total, given by both raters. */
  function Totals(p: seq<Pair>): seq<Pair> {
    if p == [] then [] else [(p[0].0 + p[0].1, p[0].0 + p[0].1)] + Totals(p[1..])
  }

  lemma {:induction false} TotalsSum(p: seq<Pair>, f: Pair -> real, g: Pair -> real)
    requires forall q | q in p :: g(q) == f((q.0 + q.1, q.0 + q.1))
    ensures |Totals(p)| == |p| && SumOf(Totals(p), f) == SumOf(p, g)
  {
    if p != [] {
      TotalsSum(p[1..], f, g);
      var q := p[0];
      assert q in p && g(q) == f((q.0 + q.1, q.0 + q.1));
    }
  }

  lemma TotalsFirst(p: seq<Pair>)
    ensures |Totals(p)| == |p|
    ensures SumOf(Totals(p), X()) == SumOf(Totals(p), Y()) == SumOf(p, X()) + SumOf(p, Y())
  {
    var total := (q: Pair) => q.0 as real + q.1 as real;
    SumOfAdd(p, X(), Y(), total);
    TotalsSum(p, X(), total);
    TotalsSum(p, Y(), total);
  }

  function SquaredTotal(): Pair -> real {
    (q: Pair) => XX()(q) + 2.0 * XY()(q) + YY()(q)
  }

  lemma SquareOfSum(x: int, y: int)
    ensures (x + y) as real * (x + y) as real
         == x as real * x as real + 2.0 * (x as real * y as real) + y as real * y as real
  {
    var a, b := x as real, y as real;
    assert (x + y) as real == a + b;
  }

  lemma TotalsSecond(p: seq<Pair>)
    ensures SumOf(Totals(p), XX()) == SumOf(Totals(p), YY()) == SumOf(p, SquaredTotal())
  {
    forall q: Pair
      ensures SquaredTotal()(q) == XX()((q.0 + q.1, q.0 + q.1)) == YY()((q.0 + q.1, q.0 + q.1))
    {
      SquareOfSum(q.0, q.1);
    }
    TotalsSum(p, XX(), SquaredTotal());
    TotalsSum(p, YY(), SquaredTotal());
  }

  lemma SquaredTotalSum(p: seq<Pair>)
    ensures SumOf(p, SquaredTotal()) == SumOf(p, XX()) + 2.0 * SumOf(p, XY()) + SumOf(p, YY())
  {
    SumOfLinear(p, 1.0, XX(), 2.0, XY(), YY(), SquaredTotal());
  }

  /** n times the observed disagreement is at most twice the expected one. */
  lemma ObservedAtMostTwiceExpected(p: seq<Pair>)
    ensures |p| as real * Observed(p, SqDiff) <= 2.0 * Expected(p, SqDiff)
  {
    var t := Totals(p);
    TotalsFirst(p);
    TotalsSecond(p);
    SquaredTotalSum(p);
    ObservedMoments(p);
    ExpectedMoments(p);
    ExpectedMoments(t);
    SumsSign(t);
    CauchyGap(|p| as real, SumOf(p, X()), SumOf(p, Y()), SumOf(p, XX()), SumOf(p, YY()), SumOf(p, XY()),
              Observed(p, SqDiff),
              |t| as real, SumOf(t, X()), SumOf(t, Y()), SumOf(t, XX()), SumOf(t, YY()));
  }

  /** The Cauchy-Schwarz step: a non-negative expected disagreement of the totals bounds the observed one. */
  lemma CauchyGap(n: real, x: real, y: real, xx: real, yy: real, xy: real, observed: real,
                  m: real, t: real, t': real, q: real, q': real)
    requires observed == xx - 2.0 * xy + yy
    requires m == n && t == t' == x + y && q == q' == xx + 2.0 * xy + yy
    requires ExpectedFrom(m, t, t', q, q') >= 0.0
    ensures n * observed <= 2.0 * ExpectedFrom(n, x, y, xx, yy)
  {
    SquareNonNegative(x - y);
  }

  /**
   Kappa lies in [-1, 1], is 1 exactly when the raters agree on every pair, and is undefined exactly
   when no score differs from any other.
   */
  lemma KappaRange(p: seq<Pair>)
    ensures ClosedForm(p).NotANumber? <==> AllOneCategory(p)
    ensures ClosedForm(p).Value? ==> -1.0 <= ClosedForm(p).kappa <= 1.0
    ensures ClosedForm(p).Value? ==> (ClosedForm(p).kappa == 1.0 <==> forall q | q in p :: q.0 == q.1)
  {
    SumsSign(p);
    assert AllOneCategory(p) <==> forall q, r | q in p && r in p :: q.0 == r.1;
    if Expected(p, SqDiff) != 0.0 {
      assert p != [];
      ObservedAtMostTwiceExpected(p);
      RatioRange(|p| as real, Observed(p, SqDiff), Expected(p, SqDiff));
    }
  }

  lemma RatioRange(n: real, x: real, y: real)
    requires n > 0.0 && x >= 0.0 && y > 0.0 && n * x <= 2.0 * y
    ensures 0.0 <= n * x / y <= 2.0
    ensures n * x / y == 0.0 <==> x == 0.0
  {
    MulNonNegative(n, x);
    DivMono(0.0, n * x, y);
    DivBound(n * x, y, 2.0);
    if x > 0.0 {
      MulStrict(0.0, x, n);
      DivBound(n * x, y, 0.0);
    }
  }
}
