/**
 Rounding to a whole number of units: cents for money, hundredths for NUMERIC(10,2),
 ten-thousandths for published rates.  Two rules occur in the system: ties away from zero
 (Decimal's ROUND_HALF_UP, PostgreSQL's NUMERIC) and ties to even (Python's round).
 */
module Rounding {

  /** Nearest integer, ties away from zero. */
  function HalfUp(x: real): (n: int)
    ensures -0.5 <= n as real - x <= 0.5
    ensures (n as real - x == 0.5 ==> x >= 0.0) && (n as real - x == -0.5 ==> x < 0.0)
    ensures x >= 0.0 ==> n >= 0
  {
    if x >= 0.0 then (x + 0.5).Floor else -((0.5 - x).Floor)
  }

  /** Nearest integer, ties to the even neighbour. */
  function HalfEven(x: real): (n: int)
    ensures -0.5 <= n as real - x <= 0.5
    ensures n as real - x == 0.5 || n as real - x == -0.5 ==> n % 2 == 0
    ensures x >= 0.0 ==> n >= 0
  {
    var f := x.Floor;
    var rest := x - f as real;
    if rest < 0.5 || (rest == 0.5 && f % 2 == 0) then f else f + 1
  }

  /** The value a NUMERIC(10,2) column keeps of x. */
  function Hundredths(x: real): (y: real)
    ensures -0.005 <= y - x <= 0.005
    ensures x >= 0.0 ==> y >= 0.0
  {
    HalfUp(x * 100.0) as real / 100.0
  }

  /** Which is the nearest multiple of 0.01, ties away from zero. */
  lemma HundredthsIsNearest(x: real) returns (n: int)
    ensures NearestUp(100.0 * x, n) && Hundredths(x) == n as real / 100.0
  {
    n := HalfUp(x * 100.0);
  }

  /** n is nearest to x, and further from zero on a tie. */
  predicate NearestUp(x: real, n: int) {
    -0.5 <= n as real - x <= 0.5 && (n as real - x == 0.5 ==> x >= 0.0) && (n as real - x == -0.5 ==> x < 0.0)
  }

  lemma NearestUpIsOne(x: real, n: int, m: int)
    requires NearestUp(x, n) && NearestUp(x, m)
    ensures n == m
  {
  }

  /** n is nearest to x, and even on a tie. */
  predicate NearestEven(x: real, n: int) {
    -0.5 <= n as real - x <= 0.5 && (n as real - x == 0.5 || n as real - x == -0.5 ==> n % 2 == 0)
  }

  /** Rounding never reverses an order. */
  lemma HalfUpMonotone(x: real, y: real)
    requires x <= y
    ensures HalfUp(x) <= HalfUp(y)
  {
  }

  /** Two numbers less than one unit apart round, under any tie rule, at most one unit apart. */
  lemma HalfEvenNear(x: real, y: real)
    requires -1.0 < x - y < 1.0
    ensures -1 <= HalfEven(x) - HalfEven(y) <= 1
  {
  }
}
