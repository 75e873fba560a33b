/** linkWith(other, multiplier): two parameters kept at a fixed ratio. The
    Java code installs a change listener on each side that calls the other
    side's setValueNoTrigger; here that re-entrant chain of calls is spelled
    out as an explicit propagation between two parameter states. */
module LinkedParams {
  import opened Numeric
  import opened RangeParamSpec
  import opened LinkRatio

  /** Both sides of a link and the events each of them caused. */
  datatype Linked = Linked(first: ParamFields, second: ParamFields, firstEvents: seq<Event>, secondEvents: seq<Event>)

  /** How each side computes its target from the other side's value. */
  datatype Gears = Gears(toSecond: real -> real, toFirst: real -> real)

  /** The listeners of linkWith: the second side follows first.value * m, the
      first side follows second.value / m. The two gears undo each other. */
  function Ratio(m: real): (g: Gears)
    requires m != 0.0
    ensures forall x :: g.toFirst(g.toSecond(x)) == x
    ensures forall y :: g.toSecond(g.toFirst(y)) == y
  {
    Gears(x => x * m, y => y / m)
  }

  /** The number of propagation rounds the model unfolds; LinkSettles and
      LinkBackSettles show that any further round would change nothing. */
  const Rounds: nat := 3

  /** The value is where the clamp of setValue would put it: inside the
      range, or at the minimum when the bounds cross. */
  predicate Settled(p: ParamFields)
  {
    Clamp(p.value, p.minValue, p.maxValue) == p.value
  }

  /** After the first side changed (firstMoved) the second follows with
      setValueNoTrigger(g.toSecond(first.value)); after the second changed the
      first follows with setValueNoTrigger(g.toFirst(second.value)). A
      follow-up that the epsilon guard of setValue absorbs notifies nobody
      and ends the chain. */
  function Follow(first: ParamFields, second: ParamFields, g: Gears, firstMoved: bool, rounds: nat): (r: Linked)
    ensures r.first == first.(value := r.first.value)
    ensures r.second == second.(value := r.second.value)
    ensures CountTriggers(r.firstEvents) == 0 && CountTriggers(r.secondEvents) == 0
    ensures first.InRange() && second.InRange() ==> r.first.InRange() && r.second.InRange()
    decreases rounds
  {
    if rounds == 0 then Linked(first, second, [], [])
    else if firstMoved then
      var target := g.toSecond(first.value);
      if !Changes(second, target) then Linked(first, second, [], [])
      else
        var s := SetValue(second, target, false);
        var rest := Follow(first, s.after, g, false, rounds - 1);
        CountsAppend(s.events, rest.secondEvents);
        Linked(rest.first, rest.second, rest.firstEvents, s.events + rest.secondEvents)
    else
      var target := g.toFirst(second.value);
      if !Changes(first, target) then Linked(first, second, [], [])
      else
        var s := SetValue(first, target, false);
        var rest := Follow(s.after, second, g, true, rounds - 1);
        CountsAppend(s.events, rest.firstEvents);
        Linked(rest.first, rest.second, s.events + rest.firstEvents, rest.secondEvents)
  }

  /** first.setValue(v, trigger) on a pair linked at ratio m: the first side's
      fireStateChanged runs the whole chain before setValue decides whether
      to run the filter, so the filter sees the settled value. */
  function SetFirst(first: ParamFields, second: ParamFields, m: real, v: real, trigger: bool): (r: Linked)
    requires m != 0.0
    ensures r.first == first.(value := r.first.value)
    ensures r.second == second.(value := r.second.value)
    ensures !Changes(first, v) ==> r == Linked(first, second, [], [])
    ensures CountTriggers(r.firstEvents) == if Changes(first, v) && RunsFilter(first, trigger) then 1 else 0
    ensures CountTriggers(r.secondEvents) == 0
    ensures Changes(first, v) && first.minValue <= first.maxValue && second.InRange() ==>
      r.first.InRange() && r.second.InRange()
  {
    if !Changes(first, v) then Linked(first, second, [], [])
    else
      var moved := first.(value := Clamp(v, first.minValue, first.maxValue));
      var chain := Follow(moved, second, Ratio(m), true, Rounds);
      var run := if RunsFilter(first, trigger) then [ParamAdjusted] else [];
      CountsAppend([Notification(first)], chain.firstEvents);
      CountsAppend([Notification(first)] + chain.firstEvents, run);
      Linked(chain.first, chain.second, [Notification(first)] + chain.firstEvents + run, chain.secondEvents)
  }

  /** second.setValue(w, trigger) on a linked pair, the mirror image of SetFirst. */
  function SetSecond(first: ParamFields, second: ParamFields, m: real, w: real, trigger: bool): (r: Linked)
    requires m != 0.0
    ensures r.first == first.(value := r.first.value)
    ensures r.second == second.(value := r.second.value)
    ensures !Changes(second, w) ==> r == Linked(first, second, [], [])
    ensures CountTriggers(r.secondEvents) == if Changes(second, w) && RunsFilter(second, trigger) then 1 else 0
    ensures CountTriggers(r.firstEvents) == 0
    ensures Changes(second, w) && second.minValue <= second.maxValue && first.InRange() ==>
      r.first.InRange() && r.second.InRange()
  {
    if !Changes(second, w) then Linked(first, second, [], [])
    else
      var moved := second.(value := Clamp(w, second.minValue, second.maxValue));
      var chain := Follow(first, moved, Ratio(m), false, Rounds);
      var run := if RunsFilter(second, trigger) then [ParamAdjusted] else [];
      CountsAppend([Notification(second)], chain.secondEvents);
      CountsAppend([Notification(second)] + chain.secondEvents, run);
      Linked(chain.first, chain.second, chain.firstEvents, [Notification(second)] + chain.secondEvents + run)
  }

  // ----- Why the chain stops, for any pair of gears

  /** A follow-up whose target clamps to the value already there is absorbed. */
  lemma FollowBackStops(first: ParamFields, second: ParamFields, g: Gears, rounds: nat)
    requires Clamp(g.toFirst(second.value), first.minValue, first.maxValue) == first.value
    ensures Follow(first, second, g, false, rounds) == Linked(first, second, [], [])
  {
    assert !Changes(first, g.toFirst(second.value));
  }

  lemma FollowStops(first: ParamFields, second: ParamFields, g: Gears, rounds: nat)
    requires Clamp(g.toSecond(first.value), second.minValue, second.maxValue) == second.value
    ensures Follow(first, second, g, true, rounds) == Linked(first, second, [], [])
  {
    assert !Changes(second, g.toSecond(first.value));
  }

  /** A first side whose value survives a round trip through the second: the
      chain ends after the second side's follow-up. */
  lemma FollowSettled(first: ParamFields, second: ParamFields, g: Gears, rounds: nat)
    requires rounds >= 1
    requires Clamp(g.toFirst(Clamp(g.toSecond(first.value), second.minValue, second.maxValue)), first.minValue, first.maxValue) == first.value
    ensures Follow(first, second, g, true, rounds) == Follow(first, second, g, true, 1)
  {
    var target := g.toSecond(first.value);
    if Changes(second, target) {
      var s2 := SetValue(second, target, false).after;
      FollowBackStops(first, s2, g, rounds - 1);
      FollowBackStops(first, s2, g, 0);
    }
  }

  /** The mirror image of FollowSettled. */
  lemma FollowBackSettled(first: ParamFields, second: ParamFields, g: Gears, rounds: nat)
    requires rounds >= 1
    requires Clamp(g.toSecond(Clamp(g.toFirst(second.value), first.minValue, first.maxValue)), second.minValue, second.maxValue) == second.value
    ensures Follow(first, second, g, false, rounds) == Follow(first, second, g, false, 1)
  {
    var target := g.toFirst(second.value);
    if Changes(first, target) {
      var f2 := SetValue(first, target, false).after;
      FollowStops(f2, second, g, rounds - 1);
      FollowStops(f2, second, g, 0);
    }
  }

  /** After the second side moved, the chain ends within two follow-ups when
      the first side's answer a1 survives a round trip. */
  lemma FollowBackTwice(first: ParamFields, second: ParamFields, g: Gears, rounds: nat)
    requires rounds >= 2
    requires var a1 := Clamp(g.toFirst(second.value), first.minValue, first.maxValue);
      Clamp(g.toFirst(Clamp(g.toSecond(a1), second.minValue, second.maxValue)), first.minValue, first.maxValue) == a1
    ensures Follow(first, second, g, false, rounds) == Follow(first, second, g, false, 2)
  {
    var target := g.toFirst(second.value);
    if Changes(first, target) {
      var f1 := SetValue(first, target, false).after;
      FollowSettled(f1, second, g, rounds - 1);
      FollowSettled(f1, second, g, 1);
    }
  }

  /** After the first side moved, the chain ends within three follow-ups when
      the first side's answer a1 to the second side's b1 survives a round trip. */
  lemma FollowThrice(first: ParamFields, second: ParamFields, g: Gears, rounds: nat)
    requires rounds >= 3
    requires var b1 := Clamp(g.toSecond(first.value), second.minValue, second.maxValue);
      var a1 := Clamp(g.toFirst(b1), first.minValue, first.maxValue);
      Clamp(g.toFirst(Clamp(g.toSecond(a1), second.minValue, second.maxValue)), first.minValue, first.maxValue) == a1
    ensures Follow(first, second, g, true, rounds) == Follow(first, second, g, true, 3)
  {
    var target := g.toSecond(first.value);
    if Changes(second, target) {
      var s1 := SetValue(second, target, false).after;
      FollowBackTwice(first, s1, g, rounds - 1);
      FollowBackTwice(first, s1, g, 2);
    }
  }

  // ----- The link at ratio m

  /** The round trip of Ratio(m) is the one of LinkRatio. */
  lemma RatioRoundTrip(a: real, m: real, la: int, ha: int, lb: int, hb: int)
    requires m != 0.0
    ensures Clamp(Ratio(m).toFirst(Clamp(Ratio(m).toSecond(a), lb, hb)), la, ha) == RoundTrip(a, m, la, ha, lb, hb)
  {
    var g := Ratio(m);
    var b := Clamp(g.toSecond(a), lb, hb);
    assert b == Clamp(a * m, lb, hb);
    assert g.toFirst(b) == b / m;
  }

  /** The answer of the first side to a settled second side survives a round trip. */
  lemma RatioAnswerSettles(b: real, m: real, la: int, ha: int, lb: int, hb: int)
    requires m != 0.0 && Clamp(b, lb, hb) == b
    ensures var a1 := Clamp(Ratio(m).toFirst(b), la, ha);
      Clamp(Ratio(m).toFirst(Clamp(Ratio(m).toSecond(a1), lb, hb)), la, ha) == a1
  {
    var a1 := Clamp(Ratio(m).toFirst(b), la, ha);
    assert a1 == Clamp(b / m, la, ha);
    SettleAgain(b, a1, m, la, ha, lb, hb);
    RatioRoundTrip(a1, m, la, ha, lb, hb);
  }

  /** After the first side moved, the chain settles within Rounds follow-ups:
      more rounds change nothing. */
  lemma LinkSettles(first: ParamFields, second: ParamFields, m: real, rounds: nat)
    requires m != 0.0 && rounds >= Rounds
    ensures Follow(first, second, Ratio(m), true, rounds) == Follow(first, second, Ratio(m), true, Rounds)
  {
    var g := Ratio(m);
    var b1 := Clamp(g.toSecond(first.value), second.minValue, second.maxValue);
    RatioAnswerSettles(b1, m, first.minValue, first.maxValue, second.minValue, second.maxValue);
    FollowThrice(first, second, g, rounds);
  }

  /** After the second side moved to a settled value, the chain settles
      within two follow-ups. */
  lemma LinkBackSettles(first: ParamFields, second: ParamFields, m: real, rounds: nat)
    requires m != 0.0 && Settled(second) && rounds >= 2
    ensures Follow(first, second, Ratio(m), false, rounds) == Follow(first, second, Ratio(m), false, 2)
  {
    RatioAnswerSettles(second.value, m, first.minValue, first.maxValue, second.minValue, second.maxValue);
    FollowBackTwice(first, second, Ratio(m), rounds);
  }

  /** Inside both ranges the ratio's round trip is exact. */
  lemma RatioExact(v: real, m: real, la: int, ha: int, lb: int, hb: int)
    requires m != 0.0
    requires la as real <= v <= ha as real && lb as real <= v * m <= hb as real
    ensures Clamp(Ratio(m).toSecond(v), lb, hb) == v * m
    ensures Clamp(Ratio(m).toFirst(Clamp(Ratio(m).toSecond(v), lb, hb)), la, ha) == v
  {
    MulDiv(v, m);
  }

  /** The mirror image of RatioExact. */
  lemma RatioBackExact(w: real, m: real, la: int, ha: int, lb: int, hb: int)
    requires m != 0.0
    requires lb as real <= w <= hb as real && la as real <= w / m <= ha as real
    ensures Clamp(Ratio(m).toFirst(w), la, ha) == w / m
    ensures Clamp(Ratio(m).toSecond(Clamp(Ratio(m).toFirst(w), la, ha)), lb, hb) == w
  {
    DivMul(w, m);
  }

  /** A value v that fits the first range and whose image v * m fits the
      second: the first side takes v, the second ends within the epsilon of
      v * m, each side is notified at most once, and only the first side may
      run the filter. */
  lemma LinkFollowsExactly(first: ParamFields, second: ParamFields, m: real, v: real, trigger: bool)
    requires m != 0.0 && Changes(first, v)
    requires first.minValue as real <= v <= first.maxValue as real
    requires second.minValue as real <= v * m <= second.maxValue as real
    ensures var r := SetFirst(first, second, m, v, trigger);
      r.first.value == v
      && Abs(r.second.value - v * m) <= ChangeEpsilon
      && CountNotifications(r.firstEvents) == 1
      && CountNotifications(r.secondEvents) == (if Changes(second, v * m) then 1 else 0)
      && r.firstEvents[0] == Notification(first)
  {
    var g := Ratio(m);
    var moved := first.(value := v);
    RatioExact(v, m, first.minValue, first.maxValue, second.minValue, second.maxValue);
    FollowSettled(moved, second, g, Rounds);
    var chain := Follow(moved, second, g, true, Rounds);
    assert chain.firstEvents == [];
    var run := if RunsFilter(first, trigger) then [ParamAdjusted] else [];
    CountsAppend([Notification(first)], run);
  }

  /** The mirror image of LinkFollowsExactly for second.setValue(w). */
  lemma LinkBackFollowsExactly(first: ParamFields, second: ParamFields, m: real, w: real, trigger: bool)
    requires m != 0.0 && Changes(second, w)
    requires second.minValue as real <= w <= second.maxValue as real
    requires first.minValue as real <= w / m <= first.maxValue as real
    ensures var r := SetSecond(first, second, m, w, trigger);
      r.second.value == w
      && Abs(r.first.value - w / m) <= ChangeEpsilon
      && CountNotifications(r.secondEvents) == 1
      && CountNotifications(r.firstEvents) == (if Changes(first, w / m) then 1 else 0)
      && r.secondEvents[0] == Notification(second)
  {
    var g := Ratio(m);
    var moved := second.(value := w);
    RatioBackExact(w, m, first.minValue, first.maxValue, second.minValue, second.maxValue);
    FollowBackSettled(first, moved, g, Rounds);
    var chain := Follow(first, moved, g, false, Rounds);
    assert chain.secondEvents == [];
    var run := if RunsFilter(second, trigger) then [ParamAdjusted] else [];
    CountsAppend([Notification(second)], run);
  }
}
