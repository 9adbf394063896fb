/** Facts about products and quotients of reals, kept apart so that the proofs that use them stay linear. */
module Arith {
  lemma MulAssoc(x: real, y: real, z: real)
    ensures (x * y) * z == x * (y * z)
  {
  }

  lemma IntMulAssoc(x: int, y: int, z: int)
    ensures (x * y) * z == x * (y * z)
  {
  }

  function Square(x: real): real { x * x }

  lemma SquareIsPositive(x: real)
    requires x > 0.0
    ensures Square(x) > 0.0
  {
    assert Square(x) / x == x;
  }

  lemma MulNonNegative(x: real, y: real)
    requires x >= 0.0 && y >= 0.0
    ensures x * y >= 0.0
    ensures x > 0.0 && y > 0.0 ==> x * y > 0.0
  {
  }

  lemma SignOfProduct(x: real, y: real)
    requires y > 0.0
    ensures (x * y > 0.0 <==> x > 0.0) && (x * y < 0.0 <==> x < 0.0)
  {
  }

  lemma SignOfQuotient(x: real, y: real)
    requires y > 0.0
    ensures (x / y > 0.0 <==> x > 0.0) && (x / y < 0.0 <==> x < 0.0)
  {
    assert (x / y) * y == x;
  }

  lemma QuotientVsOne(x: real, y: real)
    requires y > 0.0
    ensures (x / y > 1.0 <==> x > y) && (x / y < 1.0 <==> x < y)
  {
    assert (x / y) * y == x;
  }

  lemma QuotientInUnit(x: real, y: real)
    requires 0.0 <= x <= y && y > 0.0
    ensures 0.0 <= x / y <= 1.0
  {
    assert (x / y) * y == x;
  }

  lemma Cancel(x: real, y: real, z: real)
    requires z != 0.0 && x * z == y * z
    ensures x == y
  {
  }

  lemma CancelOrder(x: real, y: real, z: real)
    requires z > 0.0 && x * z <= y * z
    ensures x <= y
  {
  }

  lemma FallIsLostFraction(peak: real, x: real)
    requires peak > 0.0
    ensures (peak - x) / peak == 1.0 - x / peak
  {
    var q, r := x / peak, (peak - x) / peak;
    assert q * peak == x && r * peak == peak - x;
    Cancel(r, 1.0 - q, peak);
  }

  lemma FallOfMultiple(x: real, y: real)
    requires x > 0.0
    ensures (x - x * y) / x == 1.0 - y
  {
    FallIsLostFraction(x, x * y);
    assert (x * y) / x == y;
  }

  lemma FallInUnit(peak: real, x: real)
    requires 0.0 <= x <= peak && peak > 0.0
    ensures 0.0 <= (peak - x) / peak <= 1.0
    ensures (peak - x) / peak == 1.0 <==> x == 0.0
  {
    FallIsLostFraction(peak, x);
    assert (x / peak) * peak == x;
  }

  /** From a point no higher than the peak, growing by y loses no more than falling from the peak. */
  lemma FallFromPeakIsWorst(x: real, y: real, peak: real)
    requires 0.0 < x <= peak && y >= 0.0
    ensures 1.0 - (peak - x * y) / peak <= y
  {
    var c := x * y;
    FallIsLostFraction(peak, c);
    assert (c / peak) * peak == c <= y * peak;
    CancelOrder(c / peak, y, peak);
  }

  lemma ReturnAboveMinusOne(entry: real, exit: real)
    requires entry > 0.0
    ensures (exit - entry) / entry >= -1.0 <==> exit >= 0.0
  {
    FallIsLostFraction(entry, exit);
    assert (exit - entry) / entry == -((entry - exit) / entry);
    SignOfQuotient(exit, entry);
  }
}
