/** Facts about real division and multiplication that the formula proofs
    share. */
module RealArith {

  /** The BED factor of 2 Gy fractions, 1 + 2/alphaBeta, vanishes only at
      alphaBeta = -2. */
  lemma ReferenceFactorNonZero(ab: real)
    requires ab != 0.0 && ab != -2.0
    ensures 1.0 + 2.0 / ab != 0.0
  {
    assert (2.0 / ab) * ab == 2.0;
  }

  lemma DivCancel(x: real, f: real)
    requires f != 0.0
    ensures x * f / f == x
  {
  }

  /** x * s == a with s > 0: x has the sign of a, and is below 1 when a is
      below s. */
  lemma QuotientSign(a: real, s: real, x: real)
    requires s > 0.0 && x * s == a
    ensures a >= 0.0 ==> x >= 0.0
    ensures a < s ==> x < 1.0
  {
    assert (x - 1.0) * s == a - s;
  }

  lemma QuotientTimes(a: real, s: real)
    requires s != 0.0
    ensures (a / s) * s == a
  {
  }

  lemma SelfQuotient(x: real)
    requires x != 0.0
    ensures x / x == 1.0
  {
  }

  lemma ProductNonNegative(a: real, b: real)
    requires a >= 0.0 && b >= 0.0
    ensures a * b >= 0.0
  {
  }

  lemma PositiveQuotient(a: real, b: real)
    requires a > 0.0 && b > 0.0
    ensures a / b > 0.0
  {
  }
}
