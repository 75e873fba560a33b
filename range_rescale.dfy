/** The integer logic of RangeParam.considerImageSize: a new maximum derived
    from the image size, corrected so that the slider's tick at the maximum is
    painted, and a default rescaled to keep its proportion of the maximum. */
module RangeRescale {
  import opened Numeric

  /** The outcome of a rescale: the new maximum and the new (integral) default. */
  datatype Rescaled = Rescaled(maxValue: int, defaultValue: int)

  /** (int) (maxToImageSizeRatio * Math.max(width, height)) */
  function SizeBasedMaximum(ratio: real, width: int, height: int): (s: int)
    // truncated toward zero: no larger in magnitude than the exact product, and less than 1 away
    ensures var longer := if width >= height then width else height;
      var exact := ratio * longer as real;
      Abs(s as real) <= Abs(exact) && Abs(exact - s as real) < 1.0
      && (exact >= 0.0 ==> s >= 0)
  {
    Trunc(ratio * (if width >= height then width else height) as real)
  }

  /** The maximum before the tick correction: the size-based one, but at
      least minValue + 1 (very small images would otherwise give an empty range). */
  function GuardedMaximum(minValue: int, sizeMax: int): (m: int)
    ensures m > minValue
    ensures sizeMax > minValue ==> m == sizeMax
    ensures sizeMax <= minValue ==> m == minValue + 1
  {
    if sizeMax <= minValue then minValue + 1 else sizeMax
  }

  /** The range from minValue to m divides into four equal tick intervals. */
  predicate TickAligned(minValue: int, m: int)
  {
    (m - minValue) % 4 == 0
  }

  /** (int) (defaultToMaxRatio * newMax) with defaultToMaxRatio = oldDefault / oldMax.
      When oldMax is 0 the double division gives +/-Infinity (or NaN for 0/0),
      an infinite product truncates to Integer.MAX_VALUE or MIN_VALUE, and NaN
      (also from Infinity * 0) truncates to 0. */
  function ScaledDefault(oldDefault: real, oldMax: int, newMax: int): (d: int)
    ensures oldMax != 0 ==>
      var exact := oldDefault / oldMax as real * newMax as real;
      Abs(d as real) <= Abs(exact) && Abs(exact - d as real) < 1.0
  {
    if oldMax != 0 then
      Trunc(oldDefault / oldMax as real * newMax as real)
    else
      var sign := Sign(oldDefault) * Sign(newMax as real);
      if sign > 0 then IntMax else if sign < 0 then IntMin else 0
  }

  /** maxValue += (4 - (maxValue - minValue) % 4): the remainder is taken of a
      positive difference, so Java's % and Dafny's agree. The result is the
      first tick-aligned value strictly above m. */
  function TickCorrected(minValue: int, m: int): (c: int)
    requires m > minValue
    ensures 1 <= c - m <= 4
    ensures TickAligned(minValue, c)
    ensures forall j :: m < j < c ==> !TickAligned(minValue, j)
  {
    var q, k := (m - minValue) / 4, (m - minValue) % 4;
    assert m - minValue == 4 * q + k;
    var c := m + (4 - k);
    assert c - minValue == 4 * (q + 1);
    forall j | m < j < c
      ensures !TickAligned(minValue, j)
    {
      assert 4 * q < j - minValue < 4 * (q + 1);
      NotAligned(j - minValue, q);
    }
    c
  }

  lemma NotAligned(x: int, q: int)
    requires 4 * q < x < 4 * (q + 1)
    ensures x % 4 != 0
  {
  }

  /** The new maximum and default that considerImageSize computes. */
  function Rescale(minValue: int, oldMax: int, oldDefault: real, sizeMax: int): (r: Rescaled)
    ensures r.maxValue > minValue
    ensures TickAligned(minValue, r.maxValue)
    // the correction raises the guarded maximum by 1 to 4, to the first aligned value above it
    ensures 1 <= r.maxValue - GuardedMaximum(minValue, sizeMax) <= 4
    ensures forall m :: GuardedMaximum(minValue, sizeMax) < m < r.maxValue ==> !TickAligned(minValue, m)
    ensures minValue <= r.defaultValue <= r.maxValue
    // the proportional default is kept whenever it fits in the new range
    ensures var d := ScaledDefault(oldDefault, oldMax, r.maxValue);
      (minValue <= d <= r.maxValue ==> r.defaultValue == d)
      && (d > r.maxValue ==> r.defaultValue == r.maxValue)
      && (d < minValue ==> r.defaultValue == minValue)
  {
    var guarded := GuardedMaximum(minValue, sizeMax);
    var m := TickCorrected(minValue, guarded);
    var d := ScaledDefault(oldDefault, oldMax, m);
    var capped := if d > m then m else d;
    Rescaled(m, if capped < minValue then minValue else capped)
  }
}
