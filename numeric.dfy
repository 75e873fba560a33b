/** Arithmetic that RangeParam borrows from Java and its helpers, with doubles read as reals. */
module Numeric {

  /** Integer.MAX_VALUE and Integer.MIN_VALUE: what Java's (int) cast gives for +/-Infinity. */
  const IntMax: int := 0x7fff_ffff
  const IntMin: int := -0x8000_0000

  /** Math.abs on a double. */
  function Abs(x: real): (r: real)
    ensures r >= 0.0
    ensures r == x || r == -x
  {
    if x < 0.0 then -x else x
  }

  /** -1, 0 or 1, the sign of x. */
  function Sign(x: real): (s: int)
    ensures s == 0 <==> x == 0.0
    ensures s > 0 <==> x > 0.0
  {
    if x > 0.0 then 1 else if x < 0.0 then -1 else 0
  }

  /** Java's (int) cast of a double: truncation toward zero. */
  function Trunc(x: real): (t: int)
    ensures x >= 0.0 ==> t as real <= x < t as real + 1.0
    ensures x < 0.0 ==> t as real - 1.0 < x <= t as real
  {
    if x >= 0.0 then x.Floor else -((-x).Floor)
  }

  /** Truncation is monotone and fixes the integers, so a value at or above
      an integer bound truncates to at least that bound (and dually). */
  lemma TruncBounds(x: real, lo: int, hi: int)
    ensures lo as real <= x ==> lo <= Trunc(x)
    ensures x <= hi as real ==> Trunc(x) <= hi
  {
  }

  /** The clamping of RangeParam.setValue: first capped at hi, then raised to
      lo, so when the bounds cross (lo > hi) the result is lo. */
  function Clamp(v: real, lo: int, hi: int): (c: real)
    ensures lo <= hi ==> lo as real <= c <= hi as real
    ensures lo as real <= v <= hi as real ==> c == v
    ensures lo <= hi && v > hi as real ==> c == hi as real
    ensures v < lo as real ==> c == lo as real
    ensures lo > hi ==> c == lo as real
  {
    var capped := if v > hi as real then hi as real else v;
    if capped < lo as real then lo as real else capped
  }

  /** ImageMath.lerp(t, a, b), the linear interpolation a + t * (b - a). */
  function Lerp(t: real, a: real, b: real): real
  {
    a + t * (b - a)
  }

  /** For a progress t in [0, 1] the interpolated value lies between the end points. */
  lemma LerpBetween(t: real, a: real, b: real)
    ensures 0.0 <= t <= 1.0 && a <= b ==> a <= Lerp(t, a, b) <= b
    ensures 0.0 <= t <= 1.0 && b <= a ==> b <= Lerp(t, a, b) <= a
  {
    if !(0.0 <= t <= 1.0) {
      return;
    }
    var d := b - a;
    MulBetween(t, d);
    var step := t * d;
    assert Lerp(t, a, b) == a + step;
    if a <= b {
      assert 0.0 <= step <= d;
    } else {
      assert d <= step <= 0.0;
    }
  }

  lemma MulBetween(t: real, d: real)
    requires 0.0 <= t <= 1.0
    ensures 0.0 <= d ==> 0.0 <= t * d <= d
    ensures d <= 0.0 ==> d <= t * d <= 0.0
  {
    assert (1.0 - t) * d == d - t * d;
  }
}
