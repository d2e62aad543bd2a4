/** Python's built-in `round` on a number with no digit argument:
    the nearest integer, with exact halves going to the even neighbour. */
module Rounding {

  /** `n` is a round-half-to-even of `x`: no farther than one half from `x`,
      and even whenever it is exactly one half away. */
  predicate IsRoundHalfEven(x: real, n: int) {
    && -0.5 <= x - n as real <= 0.5
    && ((x - n as real == 0.5 || n as real - x == 0.5) ==> n % 2 == 0)
  }

  function RoundHalfEven(x: real): (n: int)
    ensures IsRoundHalfEven(x, n)
  {
    var f := x.Floor;
    var frac := x - f as real;
    if frac < 0.5 then f
    else if frac > 0.5 then f + 1
    else if f % 2 == 0 then f
    else f + 1
  }

  /** There is only one round-half-to-even of a number, so the function above
      is the rounding and not merely one candidate. */
  lemma RoundHalfEvenUnique(x: real, n: int)
    requires IsRoundHalfEven(x, n)
    ensures n == RoundHalfEven(x)
  {
  }

  /** Away from a tie, the rounding is the unique integer strictly within one half. */
  lemma RoundHalfEvenNearest(x: real, n: int)
    requires -0.5 < x - n as real < 0.5
    ensures RoundHalfEven(x) == n
  {
    RoundHalfEvenUnique(x, n);
  }

  /** Rounding leaves integers unchanged. */
  lemma RoundHalfEvenOfInt(k: int)
    ensures RoundHalfEven(k as real) == k
  {
    RoundHalfEvenNearest(k as real, k);
  }

  /** Exact halves go to the even neighbour, not away from zero: 2.5 rounds to 2. */
  lemma RoundHalfEvenTies()
    ensures RoundHalfEven(0.5) == 0
    ensures RoundHalfEven(1.5) == 2
    ensures RoundHalfEven(2.5) == 2
    ensures RoundHalfEven(-0.5) == 0
    ensures RoundHalfEven(-1.5) == -2
  {
  }

  /** Rounding preserves order: a larger number never rounds to a smaller integer. */
  lemma RoundHalfEvenMonotone(x: real, y: real)
    requires x <= y
    ensures RoundHalfEven(x) <= RoundHalfEven(y)
  {
  }
}
