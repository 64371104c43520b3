/** Python's built-in `round(x)` with no digits argument, applied to an exact
    real number: the nearest integer, with a tie going to the even neighbour
    ("banker's rounding"). */
module PyRound {

  /** `n` is an integer that Python's `round` may return for `x`: no further
      than one half away, and even whenever it is exactly one half away. */
  predicate IsRoundHalfEven(x: real, n: int) {
    && x - 0.5 <= n as real <= x + 0.5
    && (n as real == x - 0.5 || n as real == x + 0.5 ==> n % 2 == 0)
  }

  /** The integer Python's `round(x)` returns. */
  function RoundHalfEven(x: real): (n: int)
    ensures IsRoundHalfEven(x, n)
  {
    var f := x.Floor;
    var frac := x - f as real;
    if frac < 0.5 then f
    else if frac > 0.5 then f + 1
    else if f % 2 == 0 then f
    else f + 1
  }

  /** The characterisation is complete: only one integer meets it, so
      `RoundHalfEven` is the rounding rule and not just one admissible choice. */
  lemma RoundHalfEvenUnique(x: real, n: int)
    requires IsRoundHalfEven(x, n)
    ensures n == RoundHalfEven(x)
  {
  }

  /** Rounding never reverses an order. */
  lemma RoundHalfEvenMonotone(x: real, y: real)
    requires x <= y
    ensures RoundHalfEven(x) <= RoundHalfEven(y)
  {
  }

  /** The result is non-negative exactly when `x` is at least minus one half:
      `round(-0.5)` is 0 because 0 is the even neighbour. */
  lemma RoundHalfEvenNonNegative(x: real)
    ensures RoundHalfEven(x) >= 0 <==> x >= -0.5
  {
  }
}
