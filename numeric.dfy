/*
 * The numeric building blocks the signal code shares: the minimum and
 * maximum of two samples, the float-to-integer casts of Rust, stated over
 * exact reals, and the facts about products the proofs rely on.
 */
module Numeric {

  /** The smaller of two values (`f32::min` on numbers). */
  function Min(a: real, b: real): (r: real)
    ensures r <= a && r <= b
    ensures r == a || r == b
  {
    if a <= b then a else b
  }

  /** The larger of two values. */
  function Max(a: real, b: real): (r: real)
    ensures a <= r && b <= r
    ensures r == a || r == b
  {
    if a <= b then b else a
  }

  /** The magnitude of a sample. */
  function Abs(x: real): (r: real)
    ensures 0.0 <= r && (r == x || r == -x)
  {
    if x < 0.0 then -x else x
  }

  /** A gain in [0, 1] never makes a sample larger in magnitude. */
  lemma Attenuates(gain: real, x: real)
    requires 0.0 <= gain <= 1.0
    ensures Abs(gain * x) <= Abs(x)
  {
    if 0.0 <= x {
      MulNonNegative(gain, x);
      MulNonNegative(1.0 - gain, x);
      assert (1.0 - gain) * x == x - gain * x;
    } else {
      MulNonNegative(gain, -x);
      MulNonNegative(1.0 - gain, -x);
      assert (1.0 - gain) * -x == gain * x - x;
      assert gain * -x == -(gain * x);
    }
  }

  /** Rounding toward zero, as a float-to-integer cast does. */
  function Trunc(x: real): (k: int)
    ensures 0.0 <= x ==> 0 <= k && k as real <= x < k as real + 1.0
    ensures x < 0.0 ==> k <= 0 && k as real - 1.0 < x <= k as real
  {
    if 0.0 <= x then x.Floor else -((-x).Floor)
  }

  /**
   * A float cast to an index (Rust `as usize`): the fractional part is
   * dropped and a negative value becomes 0.
   */
  function AsIndex(x: real): (k: nat)
    ensures x < 0.0 ==> k == 0
    ensures 0.0 <= x ==> k as real <= x < k as real + 1.0
  {
    if x < 0.0 then 0 else x.Floor
  }

  /** Every value of `s` is non-negative (durations, clocks). */
  ghost predicate NonNegative(s: seq<real>)
  {
    forall i :: 0 <= i < |s| ==> 0.0 <= s[i]
  }

  /** Multiplying both sides of an ordering by a positive factor keeps it. */
  lemma MulLeft(y: real, a: real, b: real)
    requires 0.0 < y
    ensures a <= b ==> a * y <= b * y
    ensures a < b ==> a * y < b * y
  {
    assert b * y - a * y == (b - a) * y;
  }

  lemma MulNonNegative(a: real, b: real)
    requires 0.0 <= a && 0.0 <= b
    ensures 0.0 <= a * b
  {
  }

  lemma MulPositive(a: real, b: real)
    requires 0.0 < a && 0.0 < b
    ensures 0.0 < a * b
  {
  }
}
