/** Small facts about products and quotients of reals. */
module Reals {

  /** What is assumed of math.sqrt: the non-negative root, on non-negative numbers. */
  ghost predicate IsSqrt(sqrt: real -> real) {
    forall v :: v >= 0.0 ==> sqrt(v) >= 0.0 && sqrt(v) * sqrt(v) == v
  }

  /** A product under a name, for facts that compare it with zero. */
  function Mul(x: real, y: real): real {
    x * y
  }

  lemma MulNonNegative(x: real, y: real)
    requires x >= 0.0 && y >= 0.0
    ensures Mul(x, y) >= 0.0
  {
  }

  lemma MulMono(x: real, y: real, c: real)
    requires x <= y && c >= 0.0
    ensures Mul(x, c) <= Mul(y, c)
  {
    MulNonNegative(y - x, c);
  }

  lemma MulStrict(x: real, y: real, c: real)
    requires x < y && c > 0.0
    ensures Mul(x, c) < Mul(y, c)
  {
    assert Mul(y - x, c) > 0.0;
  }

  lemma SquareNonNegative(x: real)
    ensures Mul(x, x) >= 0.0
  {
    if x >= 0.0 { MulNonNegative(x, x); } else { MulNonNegative(-x, -x); }
  }

  lemma SquarePositive(x: real)
    requires x != 0.0
    ensures Mul(x, x) > 0.0
  {
    if x > 0.0 { MulStrict(0.0, x, x); } else { MulStrict(0.0, -x, -x); }
  }

  lemma SquareStrict(x: real, y: real)
    requires 0.0 <= x < y
    ensures x * x < y * y
  {
    MulStrict(x, y, y);
    MulMono(x, y, x);
  }

  /** Squares order numbers by size. */
  lemma SquareOrder(x: real, y: real)
    requires y >= 0.0
    ensures x * x <= y * y <==> -y <= x <= y
  {
    if x > y {
      SquareStrict(y, x);
    } else if x < -y {
      SquareStrict(y, -x);
    } else {
      MulNonNegative(y - x, y + x);
    }
  }

  /** A quotient is known by its product with the divisor. */
  lemma QuotientIs(x: real, d: real, q: real)
    requires d != 0.0 && Mul(q, d) == x
    ensures x / d == q
  {
  }

  lemma QuotientTimes(x: real, d: real)
    requires d != 0.0
    ensures Mul(x / d, d) == x
  {
  }

  lemma DivMono(x: real, y: real, d: real)
    requires x <= y && d > 0.0
    ensures x / d <= y / d
  {
  }

  /** Comparing a quotient with a bound is comparing the dividend with the scaled bound. */
  lemma DivBound(x: real, d: real, b: real)
    requires d > 0.0
    ensures x <= Mul(b, d) <==> x / d <= b
    ensures x < Mul(b, d) <==> x / d < b
  {
    QuotientTimes(x, d);
    if x / d < b {
      MulStrict(x / d, b, d);
    } else if x / d > b {
      MulStrict(b, x / d, d);
    }
  }

  lemma MulPred(x: nat, y: nat)
    requires x > 0
    ensures x * y == y + (x - 1) * y
  {
  }

  lemma Commute(x: nat, y: nat)
    ensures x * y == y * x
    ensures x > 0 && y > 0 ==> x * y > 0
  {
  }

  lemma MulAsReal(x: nat, y: nat)
    ensures (x * y) as real == x as real * y as real
  {
  }
}
