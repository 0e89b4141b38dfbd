/** Exact-real stand-ins for the Python numeric built-ins the engines use:
    the `**` operator with an integer exponent and `round` on a float. */
module Arith {

  /** `x ** n` for a natural exponent. */
  function Pow(x: real, n: nat): (r: real)
    ensures x > 0.0 ==> r > 0.0
    ensures x >= 0.0 ==> r >= 0.0
    ensures x != 0.0 ==> r != 0.0
    ensures n == 0 ==> r == 1.0
  {
    if n == 0 then 1.0 else x * Pow(x, n - 1)
  }

  /** Zero to a positive power is zero. */
  lemma PowZero(n: nat)
    requires n > 0
    ensures Pow(0.0, n) == 0.0
  {
  }

  /** One more period of growth: x^(t-1) * (1+g) is the t-th power. */
  lemma GrowStep(start: real, x: real, t: nat)
    requires t >= 1
    ensures start * Pow(x, t - 1) * x == start * Pow(x, t)
    ensures start * x * Pow(x, t - 1) == start * Pow(x, t)
  {
    var p := Pow(x, t - 1);
    assert Pow(x, t) == x * p;
  }

  /** Powers of a product split: (x*y)^n == x^n * y^n. */
  lemma {:induction false} PowMul(x: real, y: real, n: nat)
    ensures Pow(x * y, n) == Pow(x, n) * Pow(y, n)
  {
    if n > 0 {
      PowMul(x, y, n - 1);
      calc {
        Pow(x * y, n);
        (x * y) * Pow(x * y, n - 1);
        (x * y) * (Pow(x, n - 1) * Pow(y, n - 1));
        (x * Pow(x, n - 1)) * (y * Pow(y, n - 1));
      }
    }
  }

  /** A power of a quotient: a^n == (a/b)^n * b^n. */
  lemma PowRatio(a: real, b: real, n: nat)
    requires b != 0.0
    ensures Pow(a, n) == Pow(a / b, n) * Pow(b, n)
  {
    var q := a / b;
    assert q * b == a;
    PowMul(q, b, n);
  }

  /** Dividing out a non-zero factor. */
  lemma DivCancel(x: real, y: real, d: real)
    requires d != 0.0 && x == y * d
    ensures x / d == y
  {
  }

  /** `x ** n` for an integer exponent, as Python evaluates it on a float base:
      a negative exponent gives the reciprocal. `0.0 ** n` with n < 0 raises
      ZeroDivisionError in Python, hence the precondition. */
  function IntPow(x: real, n: int): (r: real)
    requires n >= 0 || x != 0.0
    ensures x != 0.0 ==> r != 0.0
    ensures x > 0.0 ==> r > 0.0
    ensures n == 0 ==> r == 1.0
  {
    if n >= 0 then Pow(x, n) else 1.0 / Pow(x, -n)
  }

  /** Python's `round(x)` with no digits: the nearest integer, ties to the even one. */
  function RoundHalfEven(x: real): (r: int)
    ensures -0.5 <= r as real - x <= 0.5
    ensures r as real - x == 0.5 || x - r as real == 0.5 ==> r % 2 == 0
  {
    var fl := x.Floor;
    var frac := x - fl as real;
    if frac < 0.5 then fl
    else if frac > 0.5 then fl + 1
    else if fl % 2 == 0 then fl
    else fl + 1
  }

  /** The rounding contract pins the result down: no other integer is as close,
      and a tie is broken the one way the contract allows. */
  lemma RoundHalfEvenUnique(x: real, k: int)
    requires -0.5 <= k as real - x <= 0.5
    requires k as real - x == 0.5 || x - k as real == 0.5 ==> k % 2 == 0
    ensures k == RoundHalfEven(x)
  {
  }
}
