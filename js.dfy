/**
 * The few pieces of JavaScript semantics the calculator relies on:
 * dynamically typed values and their truthiness, the `a || b` default idiom,
 * `Math.round` and `Math.pow` with a whole-number exponent.
 * Numbers are modelled as mathematical reals (no NaN, no Infinity, no rounding).
 */
module Js {

  datatype Option<+T> = None | Some(value: T)

  datatype Result<+T, +E> = Ok(value: T) | Err(error: E)

  datatype Outcome<+E> = Pass | Fail(error: E)

  /** A dynamically typed value as read from a parsed CSV cell or an object field:
      a number, a boolean, a string, or null/undefined (`Absent`). */
  datatype Value = Num(n: real) | Bool(b: bool) | Str(s: string) | Absent

  /** JavaScript truthiness of a value (NaN is not modelled). */
  predicate Truthy(v: Value)
  {
    match v
    case Num(n) => n != 0.0
    case Bool(b) => b
    case Str(s) => s != ""
    case Absent => false
  }

  /** `x || fallback` where x is the result of `parseFloat`/`parseInt`:
      `None` stands for NaN; NaN and 0 are both falsy and give the fallback. */
  function OrDefault(parsed: Option<real>, fallback: real): (r: real)
    ensures parsed.Some? && parsed.value != 0.0 ==> r == parsed.value
    ensures parsed.None? || parsed.value == 0.0 ==> r == fallback
  {
    if parsed.Some? && parsed.value != 0.0 then parsed.value else fallback
  }

  /** `Math.pow(b, n)` for a whole-number exponent. */
  function Pow(b: real, n: nat): real
  {
    if n == 0 then 1.0 else b * Pow(b, n - 1)
  }

  /** `Math.round(x)`: the nearest integer, halves rounded up. */
  function Round(x: real): int
  {
    (x + 0.5).Floor
  }

  function Min(a: real, b: real): (r: real)
    ensures r <= a && r <= b && (r == a || r == b)
  {
    if a <= b then a else b
  }

  function Abs(x: real): (r: real)
    ensures r >= 0.0 && (r == x || r == -x)
  {
    if x < 0.0 then -x else x
  }

  lemma RoundIsNearest(x: real)
    ensures x - 0.5 < Round(x) as real <= x + 0.5
  {
  }

  lemma RoundOfWhole(k: int)
    ensures Round(k as real) == k
  {
    RoundIsNearest(k as real);
  }

  lemma RoundMonotone(x: real, y: real)
    requires x <= y
    ensures Round(x) <= Round(y)
  {
  }

  lemma RoundNonNegative(x: real)
    requires x >= 0.0
    ensures Round(x) >= 0
  {
    RoundMonotone(0.0, x);
    RoundOfWhole(0);
  }

  /** Scaling by a factor in [0, 1] keeps a value in [0, x]. */
  lemma ScaleDown(b: real, x: real)
    requires 0.0 <= b <= 1.0 && x >= 0.0
    ensures 0.0 <= b * x <= x
  {
    assert (1.0 - b) * x >= 0.0;
  }

  /** Multiplying by a non-negative factor keeps the order. */
  lemma MulMonotone(a: real, x: real, y: real)
    requires a >= 0.0 && x <= y
    ensures a * x <= a * y
  {
    assert a * (y - x) >= 0.0;
  }

  lemma {:induction false} PowInUnitInterval(b: real, n: nat)
    requires 0.0 <= b <= 1.0
    ensures 0.0 <= Pow(b, n) <= 1.0
  {
    if n > 0 {
      PowInUnitInterval(b, n - 1);
      ScaleDown(b, Pow(b, n - 1));
    }
  }

  lemma PowStep(b: real, n: nat)
    requires 0.0 <= b <= 1.0
    ensures Pow(b, n + 1) <= Pow(b, n)
  {
    PowInUnitInterval(b, n);
    ScaleDown(b, Pow(b, n));
  }

  lemma {:induction false} PowNonIncreasing(b: real, m: nat, n: nat)
    requires 0.0 <= b <= 1.0 && m <= n
    ensures Pow(b, n) <= Pow(b, m)
  {
    if m < n {
      PowNonIncreasing(b, m, n - 1);
      PowStep(b, n - 1);
    }
  }

  lemma {:induction false} PowOfOne(n: nat)
    ensures Pow(1.0, n) == 1.0
  {
    if n > 0 { PowOfOne(n - 1); }
  }

  lemma PowOfZero(n: nat)
    requires n >= 1
    ensures Pow(0.0, n) == 0.0
  {
  }
}
