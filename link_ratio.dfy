/** The arithmetic behind a link at a fixed ratio m: following to the other
    side multiplies by m and clamps there, following back divides by m and
    clamps here. Two such round trips land where one does. */
module LinkRatio {
  import opened Numeric

  /** The value the first side ends up with when the second follows x and the first follows back. */
  function RoundTrip(x: real, m: real, la: int, ha: int, lb: int, hb: int): real
    requires m != 0.0
  {
    Clamp(Clamp(x * m, lb, hb) / m, la, ha)
  }

  lemma DivMul(y: real, m: real)
    requires m != 0.0
    ensures (y / m) * m == y
  {
  }

  /** Multiplying by m preserves (m > 0) or reverses (m < 0) the order of u and y / m. */
  lemma ScaleOrder(u: real, y: real, m: real)
    requires m != 0.0
    ensures m > 0.0 ==> (u < y / m <==> u * m < y) && (u > y / m <==> u * m > y)
    ensures m < 0.0 ==> (u < y / m <==> u * m > y) && (u > y / m <==> u * m < y)
  {
    DivMul(y, m);
    var q := y / m;
    assert q * m == y;
    if m > 0.0 {
      MulMonotone(u, q, m);
    } else {
      MulMonotone(u, q, -m);
      assert u * (-m) == -(u * m);
      assert q * (-m) == -(q * m);
    }
  }

  lemma MulMonotone(u: real, q: real, k: real)
    requires k > 0.0
    ensures u < q <==> u * k < q * k
    ensures u > q <==> u * k > q * k
  {
    assert (q - u) * k == q * k - u * k;
  }

  lemma MulDiv(u: real, m: real)
    requires m != 0.0
    ensures (u * m) / m == u
  {
  }

  /** The first side was pushed down to its maximum ha: a further round brings it back there. */
  lemma SettleAtMaximum(y: real, m: real, la: int, ha: int, lb: int, hb: int)
    requires m != 0.0 && la <= ha && lb <= hb
    requires lb as real <= y <= hb as real && y / m > ha as real
    ensures Clamp(Clamp(ha as real * m, lb, hb) / m, la, ha) == ha as real
  {
    var u := ha as real;
    var z := Clamp(u * m, lb, hb);
    if lb as real <= u * m <= hb as real {
      MulDiv(u, m);
    } else if m > 0.0 {
      ScaleOrder(u, y, m);
      assert z == lb as real;
      ScaleOrder(u, z, m);
    } else {
      ScaleOrder(u, y, m);
      assert z == hb as real;
      ScaleOrder(u, z, m);
    }
  }

  /** The first side was pushed up to its minimum la: a further round brings it back there. */
  lemma SettleAtMinimum(y: real, m: real, la: int, ha: int, lb: int, hb: int)
    requires m != 0.0 && la <= ha && lb <= hb
    requires lb as real <= y <= hb as real && y / m < la as real
    ensures Clamp(Clamp(la as real * m, lb, hb) / m, la, ha) == la as real
  {
    var u := la as real;
    var z := Clamp(u * m, lb, hb);
    if lb as real <= u * m <= hb as real {
      MulDiv(u, m);
    } else if m > 0.0 {
      ScaleOrder(u, y, m);
      assert z == hb as real;
      ScaleOrder(u, z, m);
    } else {
      ScaleOrder(u, y, m);
      assert z == lb as real;
      ScaleOrder(u, z, m);
    }
  }

  /** One more round after the first side settled at a2 = Clamp(y / m, la, ha) leaves it there. */
  lemma SettleAgain(y: real, a2: real, m: real, la: int, ha: int, lb: int, hb: int)
    requires m != 0.0
    requires lb <= hb ==> lb as real <= y <= hb as real
    requires lb > hb ==> y == lb as real
    requires a2 == Clamp(y / m, la, ha)
    ensures RoundTrip(a2, m, la, ha, lb, hb) == a2
  {
    SettleEmpty(y, a2, m, la, ha, lb, hb);
    SettleCrossed(y, a2, m, la, ha, lb, hb);
    SettleInside(y, a2, m, la, ha, lb, hb);
    SettleAbove(y, a2, m, la, ha, lb, hb);
    SettleBelow(y, a2, m, la, ha, lb, hb);
  }

  /** SettleAgain when the first range is empty, so the first side sits at la. */
  lemma SettleEmpty(y: real, a2: real, m: real, la: int, ha: int, lb: int, hb: int)
    requires m != 0.0
    requires lb <= hb ==> lb as real <= y <= hb as real
    requires lb > hb ==> y == lb as real
    requires a2 == Clamp(y / m, la, ha)
    ensures la > ha ==> RoundTrip(a2, m, la, ha, lb, hb) == a2
  {
  }

  /** SettleAgain when the second range is empty, so the second side sits at lb = y. */
  lemma SettleCrossed(y: real, a2: real, m: real, la: int, ha: int, lb: int, hb: int)
    requires m != 0.0
    requires lb <= hb ==> lb as real <= y <= hb as real
    requires lb > hb ==> y == lb as real
    requires a2 == Clamp(y / m, la, ha)
    ensures la <= ha && lb > hb ==> RoundTrip(a2, m, la, ha, lb, hb) == a2
  {
    if la <= ha && lb > hb {
      var z := Clamp(a2 * m, lb, hb);
      assert z == y;
    }
  }

  /** SettleAgain when y / m fits the first range, so a2 * m is y again. */
  lemma SettleInside(y: real, a2: real, m: real, la: int, ha: int, lb: int, hb: int)
    requires m != 0.0
    requires lb <= hb ==> lb as real <= y <= hb as real
    requires lb > hb ==> y == lb as real
    requires a2 == Clamp(y / m, la, ha)
    ensures la <= ha && lb <= hb && la as real <= y / m <= ha as real ==> RoundTrip(a2, m, la, ha, lb, hb) == a2
  {
    if la <= ha && lb <= hb && la as real <= y / m <= ha as real {
      DivMul(y, m);
      var z := Clamp(a2 * m, lb, hb);
      assert z == y;
    }
  }

  /** SettleAgain when y / m lies above the first range, so a2 is ha. */
  lemma SettleAbove(y: real, a2: real, m: real, la: int, ha: int, lb: int, hb: int)
    requires m != 0.0
    requires lb <= hb ==> lb as real <= y <= hb as real
    requires lb > hb ==> y == lb as real
    requires a2 == Clamp(y / m, la, ha)
    ensures la <= ha && lb <= hb && y / m > ha as real ==> RoundTrip(a2, m, la, ha, lb, hb) == a2
  {
    if la <= ha && lb <= hb && y / m > ha as real {
      assert a2 == ha as real;
      SettleAtMaximum(y, m, la, ha, lb, hb);
    }
  }

  /** SettleAgain when y / m lies below the first range, so a2 is la. */
  lemma SettleBelow(y: real, a2: real, m: real, la: int, ha: int, lb: int, hb: int)
    requires m != 0.0
    requires lb <= hb ==> lb as real <= y <= hb as real
    requires lb > hb ==> y == lb as real
    requires a2 == Clamp(y / m, la, ha)
    ensures la <= ha && lb <= hb && y / m < la as real ==> RoundTrip(a2, m, la, ha, lb, hb) == a2
  {
    if la <= ha && lb <= hb && y / m < la as real {
      assert a2 == la as real;
      SettleAtMinimum(y, m, la, ha, lb, hb);
    }
  }

  /** Two rounds in a row land where one round does: clamping to an interval,
      scaling, clamping to another and scaling back is idempotent. */
  lemma RoundTripIdempotent(x: real, m: real, la: int, ha: int, lb: int, hb: int)
    requires m != 0.0
    ensures RoundTrip(RoundTrip(x, m, la, ha, lb, hb), m, la, ha, lb, hb) == RoundTrip(x, m, la, ha, lb, hb)
  {
    var y := Clamp(x * m, lb, hb);
    var a2 := Clamp(y / m, la, ha);
    assert RoundTrip(x, m, la, ha, lb, hb) == a2;
    SettleAgain(y, a2, m, la, ha, lb, hb);
  }
}
