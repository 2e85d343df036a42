/**
 * Python 3's built-in `round(x)` on a number: the nearest integer, ties to the
 * even neighbour.  Modelled on exact reals (binary floating point is not).
 */
module Redondeo {

  function RoundHalfEven(x: real): (r: int)
    ensures (r as real) - 0.5 <= x <= (r as real) + 0.5
    ensures x - (x.Floor as real) == 0.5 ==> r % 2 == 0
    ensures x - (x.Floor as real) != 0.5 ==> r == (x + 0.5).Floor
  {
    var f := x.Floor;
    var d := x - f as real;
    if d < 0.5 then f
    else if d > 0.5 then f + 1
    else if f % 2 == 0 then f
    else f + 1
  }

  /** Rounding never reverses the order of two numbers. */
  lemma RoundMonotone(x: real, y: real)
    requires x <= y
    ensures RoundHalfEven(x) <= RoundHalfEven(y)
  {
  }

  /** A number more than one half above `n - 1` rounds to at least `n`. */
  lemma RoundAtLeast(x: real, n: int)
    requires x > n as real - 0.5
    ensures RoundHalfEven(x) >= n
  {
  }
}
