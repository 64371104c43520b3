/** Small facts about exact real arithmetic that the estimator's proofs use. */
module RealFacts {

  /** Multiplying by a positive factor keeps a value inside its bounds. */
  lemma ScaleInterval(lo: real, x: real, hi: real, k: real)
    requires lo <= x <= hi && k > 0.0
    ensures lo * k <= x * k <= hi * k
  {
  }

  /** Multiplying `q - 1/2 <= x <= q + 1/2` by a positive `d` with `q * d == p`
      gives `p - d/2 <= x * d <= p + d/2`: a value rounded from `p / d`, times
      `d`, is within half of `d` of `p`. */
  lemma ScaleBounds(q: real, x: real, d: real, p: real)
    requires q - 0.5 <= x <= q + 0.5 && d > 0.0 && q * d == p
    ensures p - d / 2.0 <= x * d <= p + d / 2.0
  {
    ScaleInterval(q - 0.5, x, q + 0.5, d);
  }

  /** A value times a non-zero divisor is the dividend: the value is the quotient. */
  lemma QuotientOfProduct(q: real, d: real, n: real)
    requires d != 0.0 && q * d == n
    ensures q == n / d
  {
  }

  /** Dividing by a positive number keeps the order. */
  lemma DivideMonotone(x: real, y: real, d: real)
    requires x <= y && d > 0.0
    ensures x / d <= y / d
  {
  }
}
