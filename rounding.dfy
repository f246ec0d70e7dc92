/**
 * Python 3's built-in `round` on a number with no digit count: the nearest
 * integer, ties going to the even neighbour ("banker's rounding").
 */
module Rounding {

  /** n is a correct rounding of x: within one half, and even when exactly one half away. */
  ghost predicate IsHalfEvenRounding(x: real, n: int)
  {
    && -0.5 <= x - n as real <= 0.5
    && ((x - n as real == 0.5 || x - n as real == -0.5) ==> n % 2 == 0)
  }

  function RoundHalfEven(x: real): (n: int)
    ensures IsHalfEvenRounding(x, n)
  {
    var f := x.Floor;
    var frac := x - f as real;
    if frac < 0.5 then f
    else if frac > 0.5 then f + 1
    else if f % 2 == 0 then f
    else f + 1
  }

  /** The rounding rule determines its result: there is only one half-to-even rounding of x. */
  lemma RoundingIsUnique(x: real, n: int)
    requires IsHalfEvenRounding(x, n)
    ensures n == RoundHalfEven(x)
  {
  }

  /** Integers round to themselves. */
  lemma RoundOfInteger(k: int)
    ensures RoundHalfEven(k as real) == k
  {
  }

  /**
   * Shifting by an even integer commutes with rounding. Evenness is needed:
   * round(0.5) == 0 but round(1.5) == 2.
   */
  lemma RoundShiftEven(x: real, k: int)
    requires k % 2 == 0
    ensures RoundHalfEven(x + k as real) == RoundHalfEven(x) + k
  {
  }

  /** Shifting by an odd integer does not commute with rounding. */
  lemma RoundShiftOddFails()
    ensures RoundHalfEven(0.5 + 1.0) != RoundHalfEven(0.5) + 1
  {
  }
}
