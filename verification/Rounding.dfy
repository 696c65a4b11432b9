/** Rounding to a whole number of units, half away from zero.

    Every money figure of the application is a decimal quantized with ROUND_HALF_UP, which for
    Python's `decimal` means half away from zero.  A figure with two decimals is modelled by its
    whole number of cents, one with six decimals by its whole number of millionths; the unrounded
    products and quotients are exact rationals. */
module Rounding {

  function RoundHalfAway(x: real): (r: int)
    ensures -0.5 <= x - r as real <= 0.5
    ensures x >= 0.0 ==> r >= 0
    ensures x <= 0.0 ==> r <= 0
  {
    if x >= 0.0 then (x + 0.5).Floor else -((-x + 0.5).Floor)
  }

  /** A half goes to the next whole number away from zero, and nothing else moves half a unit. */
  lemma HalvesGoAway(x: real, n: int)
    ensures n >= 0 && x == n as real + 0.5 ==> RoundHalfAway(x) == n + 1
    ensures n <= 0 && x == n as real - 0.5 ==> RoundHalfAway(x) == n - 1
    ensures n as real - 0.5 < x < n as real + 0.5 ==> RoundHalfAway(x) == n
  {
  }

  /** A figure that is already whole is left alone. */
  lemma RoundWhole(n: int)
    ensures RoundHalfAway(n as real) == n
  {
  }

  /** A share between nothing and everything of a whole amount stays between nothing and it. */
  lemma RoundShare(full: int, ratio: real)
    requires full >= 0 && 0.0 <= ratio <= 1.0
    ensures 0 <= RoundHalfAway(full as real * ratio) <= full
  {
    assert full as real * ratio <= full as real;
    RoundWhole(full);
  }
}
