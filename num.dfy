/** Real-number helpers standing for the JavaScript and Python number
    operations the source uses. */
module Num {

  /** Math.PI; proofs rely only on it being positive. */
  const PI: real := 3.141592653589793

  function Max(a: real, b: real): real { if a >= b then a else b }
  function Min(a: real, b: real): real { if a <= b then a else b }
  function Abs(a: real): real { if a < 0.0 then -a else a }

  /** Division. JavaScript gives Infinity or NaN for a zero divisor; the model
      returns 0 there and no contract relies on that case. */
  function Div(a: real, b: real): real { if b == 0.0 then 0.0 else a / b }

  /** Math.max on integers. */
  function MaxInt(a: int, b: int): int { if a >= b then a else b }

  /** x raised to a natural power (repeated multiplication). */
  function Pow(x: real, n: nat): real { if n == 0 then 1.0 else x * Pow(x, n - 1) }

  /** Math.round: the nearest integer, halves rounded up. */
  function MathRound(x: real): (r: int)
    ensures x - 0.5 < r as real <= x + 0.5
  {
    (x + 0.5).Floor
  }

  /** JavaScript's `%` on numbers: the remainder of a division truncated
      towards zero, so it takes the sign of the dividend. */
  function JsRem(a: real, b: real): (r: real)
    ensures b > 0.0 && a >= 0.0 ==> 0.0 <= r < b
    ensures b > 0.0 && a <= 0.0 ==> -b < r <= 0.0
  {
    if b == 0.0 then 0.0
    else
      JsRemBounds(a, b);
      a - Trunc(a / b) as real * b
  }

  /** Conversion towards zero, as JavaScript's `%` performs on the quotient. */
  function Trunc(q: real): int { if q >= 0.0 then q.Floor else -((-q).Floor) }

  lemma JsRemBounds(a: real, b: real)
    requires b != 0.0
    ensures b > 0.0 && a >= 0.0 ==> 0.0 <= a - Trunc(a / b) as real * b < b
    ensures b > 0.0 && a <= 0.0 ==> -b < a - Trunc(a / b) as real * b <= 0.0
  {
    if b > 0.0 && a >= 0.0 {
      RemOfNonNegative(a, b);
    }
    if b > 0.0 && a <= 0.0 {
      RemOfNonPositive(a, b);
    }
  }

  /** A non-negative dividend: the floor t of the quotient has t·b at
      most a and (t + 1)·b above it. */
  lemma RemOfNonNegative(a: real, b: real)
    requires b > 0.0 && a >= 0.0
    ensures 0.0 <= a - Trunc(a / b) as real * b < b
  {
    if a / b < 0.0 {
      BelowQuotient(a, b, 0.0);
    }
    var t := (a / b).Floor as real;
    AtMostQuotient(a, b, t);
    BelowQuotient(a, b, t + 1.0);
    assert (t + 1.0) * b == t * b + b;
  }

  /** A non-positive dividend: the quotient truncated towards zero, t,
      has t·b at least a and (t - 1)·b below it. */
  lemma RemOfNonPositive(a: real, b: real)
    requires b > 0.0 && a <= 0.0
    ensures -b < a - Trunc(a / b) as real * b <= 0.0
  {
    if a / b > 0.0 {
      AboveQuotient(a, b, 0.0);
    }
    var t := -((-(a / b)).Floor as real);
    AtLeastQuotient(a, b, t);
    AboveQuotient(a, b, t - 1.0);
    assert (t - 1.0) * b == t * b - b;
  }

  /** Multiplying a bound on a / b by a positive b bounds a. */
  lemma BelowQuotient(a: real, b: real, u: real)
    requires b > 0.0 && a / b < u
    ensures a < u * b
  {
    assert (a / b) * b == a;
    assert (a / b) * b < u * b;
  }

  lemma AtMostQuotient(a: real, b: real, u: real)
    requires b > 0.0 && u <= a / b
    ensures u * b <= a
  {
    assert (a / b) * b == a;
    assert u * b <= (a / b) * b;
  }

  lemma AboveQuotient(a: real, b: real, u: real)
    requires b > 0.0 && u < a / b
    ensures u * b < a
  {
    assert (a / b) * b == a;
    assert u * b < (a / b) * b;
  }

  lemma AtLeastQuotient(a: real, b: real, u: real)
    requires b > 0.0 && a / b <= u
    ensures a <= u * b
  {
    assert (a / b) * b == a;
    assert (a / b) * b <= u * b;
  }

  lemma {:induction false} PowPositive(x: real, n: nat)
    requires x > 0.0
    ensures Pow(x, n) > 0.0
  {
    if n > 0 { PowPositive(x, n - 1); }
  }

  lemma {:induction false} PowAtMostOne(x: real, n: nat)
    requires 0.0 < x <= 1.0
    ensures 0.0 < Pow(x, n) <= 1.0
  {
    if n > 0 {
      PowAtMostOne(x, n - 1);
      var p := Pow(x, n - 1);
      assert x * p <= 1.0 * p by { MulLeMono(x, 1.0, p); }
    }
  }

  /** A taper factor below one shrinks every further power. */
  lemma {:induction false} PowStrictlyDecreasing(x: real, m: nat, n: nat)
    requires 0.0 < x < 1.0 && m < n
    ensures Pow(x, n) < Pow(x, m)
  {
    var p := Pow(x, n - 1);
    PowPositive(x, n - 1);
    assert Pow(x, n) < p by { MulLtMono(x, 1.0, p); }
    if m < n - 1 { PowStrictlyDecreasing(x, m, n - 1); }
  }

  lemma {:induction false} PowOne(n: nat)
    ensures Pow(1.0, n) == 1.0
  {
    if n > 0 { PowOne(n - 1); }
  }

  lemma MulLeMono(a: real, b: real, c: real)
    requires a <= b && c >= 0.0
    ensures a * c <= b * c
  {}

  lemma MulNonNeg(a: real, b: real)
    requires a >= 0.0 && b >= 0.0
    ensures a * b >= 0.0
  {}

  lemma MulLtMono(a: real, b: real, c: real)
    requires a < b && c > 0.0
    ensures a * c < b * c
  {}
}
