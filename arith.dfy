/** Small facts of real arithmetic that the solver does not find unaided. */
module RealArith {

  lemma NonNegMul(a: real, b: real)
    requires 0.0 <= a && 0.0 <= b
    ensures 0.0 <= a * b
  {
  }

  lemma MulLe(a: real, x: real, y: real)
    requires 0.0 <= a && x <= y
    ensures a * x <= a * y
  {
    NonNegMul(a, y - x);
    assert a * y - a * x == a * (y - x);
  }

  lemma NonNegFactor(a: real, d: real)
    requires d > 0.0 && a * d >= 0.0
    ensures a >= 0.0
  {
  }

  lemma DivBetween(n: real, d: real, lo: real, hi: real)
    requires d > 0.0 && lo * d <= n <= hi * d
    ensures lo <= n / d <= hi
  {
    var q := n / d;
    assert q * d == n;
    assert (q - lo) * d == n - lo * d;
    assert (hi - q) * d == hi * d - n;
    NonNegFactor(q - lo, d);
    NonNegFactor(hi - q, d);
  }

  lemma DivAbove(n: real, d: real, lo: real)
    requires d > 0.0 && lo * d <= n
    ensures lo <= n / d
  {
    var q := n / d;
    assert q * d == n;
    assert (q - lo) * d == n - lo * d;
    NonNegFactor(q - lo, d);
  }

  lemma DivBelow(n: real, d: real, hi: real)
    requires d > 0.0 && n <= hi * d
    ensures n / d <= hi
  {
    var q := n / d;
    assert q * d == n;
    assert (hi - q) * d == hi * d - n;
    NonNegFactor(hi - q, d);
  }

  lemma QuotientTimes(n: real, d: real)
    requires d != 0.0
    ensures (n / d) * d == n
  {
  }

  lemma PosMul(a: real, b: real)
    requires 0.0 < a && 0.0 < b
    ensures 0.0 < a * b
  {
  }

  lemma SquareNonNeg(d: real)
    ensures 0.0 <= d * d
  {
    if d < 0.0 {
      NonNegMul(-d, -d);
      assert (-d) * (-d) == d * d;
    } else {
      NonNegMul(d, d);
    }
  }
}
