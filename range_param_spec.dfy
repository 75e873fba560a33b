/** The state of a RangeParam as a value, and each of its operations as a
    function from the state before to the state after together with the
    events the call caused: change notifications to the registered change
    listeners, and runs of the adjustment listener (which re-runs the filter). */
module RangeParamSpec {
  import opened Numeric
  import opened RangeRescale

  /** A registered ChangeListener, seen only by its identity. */
  type ListenerId = nat

  datatype Event =
    /** One fireStateChanged: the listeners notified, in the order they were called. */
    | StateChanged(notified: seq<ListenerId>)
    /** One call of adjustmentListener.paramAdjusted(): the filter runs. */
    | ParamAdjusted

  /** setValue ignores changes of at most this much (the GUI shows at most 2 decimals). */
  const ChangeEpsilon: real := 0.001
  /** isSetToDefault accepts values closer to the default than this. */
  const DefaultTolerance: real := 0.005

  function CountNotifications(es: seq<Event>): nat
  {
    if es == [] then 0 else (if es[0].StateChanged? then 1 else 0) + CountNotifications(es[1..])
  }

  function CountTriggers(es: seq<Event>): nat
  {
    if es == [] then 0 else (if es[0].ParamAdjusted? then 1 else 0) + CountTriggers(es[1..])
  }

  lemma {:induction false} CountsAppend(a: seq<Event>, b: seq<Event>)
    ensures CountNotifications(a + b) == CountNotifications(a) + CountNotifications(b)
    ensures CountTriggers(a + b) == CountTriggers(a) + CountTriggers(b)
  {
    if a != [] {
      assert (a + b)[1..] == a[1..] + b;
      CountsAppend(a[1..], b);
    } else {
      assert a + b == b;
    }
  }

  /** fireStateChanged walks the listener list from its end: the listener
      registered last is notified first. */
  function NotificationOrder(ls: seq<ListenerId>): (order: seq<ListenerId>)
    ensures |order| == |ls|
    ensures forall k :: 0 <= k < |ls| ==> order[k] == ls[|ls| - 1 - k]
  {
    if ls == [] then [] else NotificationOrder(ls[1..]) + [ls[0]]
  }

  /** The position of the last registration of l, or -1 when there is none. */
  function LastIndexOf(ls: seq<ListenerId>, l: ListenerId): (k: int)
    ensures -1 <= k < |ls|
    ensures k == -1 <==> l !in ls
    ensures 0 <= k ==> ls[k] == l && l !in ls[k + 1..]
  {
    if ls == [] then -1
    else if ls[|ls| - 1] == l then |ls| - 1
    else
      var k := LastIndexOf(ls[..|ls| - 1], l);
      assert ls == ls[..|ls| - 1] + [ls[|ls| - 1]];
      assert 0 <= k ==> ls[k + 1..] == ls[..|ls| - 1][k + 1..] + [ls[|ls| - 1]];
      k
  }

  /** Unregistering drops the last registration of l and keeps the order of the rest. */
  function RemoveListener(ls: seq<ListenerId>, l: ListenerId): (r: seq<ListenerId>)
    ensures l !in ls ==> r == ls
    ensures l in ls ==> |r| == |ls| - 1 && multiset(r) == multiset(ls) - multiset{l}
    ensures l in ls ==> exists k :: 0 <= k < |ls| && ls[k] == l && l !in ls[k + 1..] && r == ls[..k] + ls[k + 1..]
  {
    var k := LastIndexOf(ls, l);
    if k < 0 then ls
    else
      assert ls == ls[..k] + [ls[k]] + ls[k + 1..];
      ls[..k] + ls[k + 1..]
  }

  /** A snapshot of the value, used for animation (RangeParamState). */
  datatype RangeParamState = RangeParamState(value: real) {
    /** The snapshot at the given progress between this one and endState. */
    function Interpolate(endState: RangeParamState, progress: real): (r: RangeParamState)
      ensures progress == 0.0 ==> r == this
      ensures progress == 1.0 ==> r == endState
      ensures progress == 0.5 ==> r.value == (value + endState.value) / 2.0
      ensures 0.0 <= progress <= 1.0 && value <= endState.value ==> value <= r.value <= endState.value
      ensures 0.0 <= progress <= 1.0 && endState.value <= value ==> endState.value <= r.value <= value
    {
      LerpBetween(progress, value, endState.value);
      RangeParamState(Lerp(progress, value, endState.value))
    }
  }

  /** Every mutable field of a RangeParam. hasAdjustmentListener says whether
      the inherited adjustmentListener is set. */
  datatype ParamFields = ParamFields(
    minValue: int,
    maxValue: int,
    defaultValue: real,
    value: real,
    decimalPlaces: int,
    adjusting: bool,
    listeners: seq<ListenerId>,
    hasAdjustmentListener: bool,
    adjustMaxToImage: bool,
    maxToImageSizeRatio: real)
  {
    predicate InRange()
    {
      minValue as real <= value <= maxValue as real
    }

    /** getValue(): the value cast to int, which an in-range value keeps in range. */
    function GetValue(): (i: int)
      ensures value >= 0.0 ==> i as real <= value < i as real + 1.0
      ensures value < 0.0 ==> i as real - 1.0 < value <= i as real
      ensures InRange() ==> minValue <= i <= maxValue
    {
      TruncBounds(value, minValue, maxValue);
      Trunc(value)
    }

    /** isSetToDefault(): the value is less than the tolerance away from the default, on either side. */
    predicate IsSetToDefault()
      ensures IsSetToDefault() <==> defaultValue - DefaultTolerance < value < defaultValue + DefaultTolerance
    {
      Abs(value - defaultValue) < DefaultTolerance
    }

    /** copyState(): a snapshot from which these fields can be restored. */
    function CopyState(): (s: RangeParamState)
      ensures this.(value := s.value) == this
    {
      RangeParamState(value)
    }
  }

  /** The effect of one call: the new fields and the events, in order. */
  datatype Step = Step(after: ParamFields, events: seq<Event>)

  /** The state the main constructor builds; the constructor asserts its
      requires. The inherited adjustment listener starts out unset. */
  function Initial(min: int, def: real, max: int): (p: ParamFields)
    requires min < max && min as real <= def <= max as real
    ensures p.minValue == min && p.maxValue == max
    ensures p.value == def && p.defaultValue == def
    ensures p.InRange() && p.IsSetToDefault()
    ensures !p.adjusting && p.listeners == [] && !p.hasAdjustmentListener && !p.adjustMaxToImage
  {
    ParamFields(min, max, def, def, 0, false, [], false, false, 0.0)
  }

  /** copy(): a fresh parameter over the same bounds whose default is this value. */
  function Copy(p: ParamFields): (c: ParamFields)
    requires p.minValue < p.maxValue && p.InRange()
    ensures c.minValue == p.minValue && c.maxValue == p.maxValue
    ensures c.value == p.value && c.defaultValue == p.value
    ensures c.listeners == [] && !c.hasAdjustmentListener && !c.adjusting
    ensures c.decimalPlaces == 0 && !c.adjustMaxToImage
  {
    Initial(p.minValue, p.value, p.maxValue)
  }

  function Notification(p: ParamFields): Event
  {
    StateChanged(NotificationOrder(p.listeners))
  }

  /** The guard of setValue: the clamped value differs by more than the epsilon. */
  predicate Changes(p: ParamFields, v: real)
  {
    Abs(Clamp(v, p.minValue, p.maxValue) - p.value) > ChangeEpsilon
  }

  /** The condition under which a change runs the filter. */
  predicate RunsFilter(p: ParamFields, trigger: bool)
  {
    !p.adjusting && trigger && p.hasAdjustmentListener
  }

  /** setValue(v, trigger). */
  function SetValue(p: ParamFields, v: real, trigger: bool): (r: Step)
    ensures r.after == p.(value := r.after.value)
    ensures Changes(p, v) ==> r.after.value == Clamp(v, p.minValue, p.maxValue)
    ensures Changes(p, v) && p.minValue <= p.maxValue ==> r.after.InRange()
    ensures !Changes(p, v) ==> r == Step(p, [])
    ensures CountNotifications(r.events) == if Changes(p, v) then 1 else 0
    ensures CountTriggers(r.events) == if Changes(p, v) && RunsFilter(p, trigger) then 1 else 0
    // the listeners hear of the change before the filter runs
    ensures Changes(p, v) ==> r.events[0] == Notification(p)
  {
    var c := Clamp(v, p.minValue, p.maxValue);
    if Abs(c - p.value) > ChangeEpsilon then
      var run := if RunsFilter(p, trigger) then [ParamAdjusted] else [];
      CountsAppend([Notification(p)], run);
      Step(p.(value := c), [Notification(p)] + run)
    else
      Step(p, [])
  }

  /** Successive calls setValue(vs[0], trigger), setValue(vs[1], trigger), ... */
  function SetValues(p: ParamFields, vs: seq<real>, trigger: bool): Step
    decreases |vs|
  {
    if vs == [] then Step(p, [])
    else
      var first := SetValue(p, vs[0], trigger);
      var rest := SetValues(first.after, vs[1..], trigger);
      Step(rest.after, first.events + rest.events)
  }

  /** setValueIsAdjusting(b): a release runs the filter, then a change of the
      flag notifies the listeners. */
  function SetValueIsAdjusting(p: ParamFields, b: bool): (r: Step)
    ensures r.after == p.(adjusting := b)
    ensures CountTriggers(r.events) == if p.adjusting && !b && p.hasAdjustmentListener then 1 else 0
    ensures CountNotifications(r.events) == if p.adjusting != b then 1 else 0
    ensures p.adjusting == b ==> r == Step(p, [])
    // a release runs the filter first; the notification of the flag change comes last
    ensures p.adjusting && !b && p.hasAdjustmentListener ==> r.events[0] == ParamAdjusted
    ensures p.adjusting != b ==> r.events[|r.events| - 1] == Notification(p)
  {
    var run := if !b && p.adjusting && p.hasAdjustmentListener then [ParamAdjusted] else [];
    var notify := if p.adjusting != b then [Notification(p)] else [];
    CountsAppend(run, notify);
    Step(p.(adjusting := b), run + notify)
  }

  /** increaseValue(): one integer step up from the truncated value, with trigger. */
  function IncreaseValue(p: ParamFields): (r: Step)
    ensures p.GetValue() >= p.maxValue ==> r == Step(p, [])
    ensures p.GetValue() < p.maxValue ==> r == SetValue(p, (p.GetValue() + 1) as real, true)
    // the value only ever moves up, and not out of the range
    ensures r.after.value != p.value ==> r.after.value > p.value
    ensures p.InRange() ==> r.after.InRange()
    ensures p.InRange() && r.after.value != p.value ==> r.after.value == (p.GetValue() + 1) as real
  {
    var i := p.GetValue();
    if i < p.maxValue then
      TruncBounds(p.value, p.minValue, p.maxValue);
      SetValue(p, (i + 1) as real, true)
    else
      Step(p, [])
  }

  /** decreaseValue(): one integer step down from the truncated value, with trigger. */
  function DecreaseValue(p: ParamFields): (r: Step)
    ensures p.GetValue() <= p.minValue ==> r == Step(p, [])
    ensures p.GetValue() > p.minValue ==> r == SetValue(p, (p.GetValue() - 1) as real, true)
    ensures r.after.value != p.value ==> r.after.value < p.value
    ensures p.InRange() ==> r.after.InRange()
    ensures p.InRange() && r.after.value != p.value ==> r.after.value == (p.GetValue() - 1) as real
  {
    var i := p.GetValue();
    if i > p.minValue then
      TruncBounds(p.value, p.minValue, p.maxValue);
      SetValue(p, (i - 1) as real, true)
    else
      Step(p, [])
  }

  /** doRandomize() with r standing for Rnd.nextInt(maxValue - minValue). */
  function Randomize(p: ParamFields, r: int): (s: Step)
    requires 0 <= r < p.maxValue - p.minValue
    ensures CountTriggers(s.events) == 0
    ensures Changes(p, (p.minValue + r) as real) ==>
      s.after == p.(value := (p.minValue + r) as real) && p.minValue as real <= s.after.value < p.maxValue as real
    ensures !Changes(p, (p.minValue + r) as real) ==> s == Step(p, [])
    // a change notifies the listeners, so that the slider shows the new value
    ensures Changes(p, (p.minValue + r) as real) ==> s.events == [Notification(p)]
  {
    SetValue(p, (p.minValue + r) as real, false)
  }

  /** considerImageSize(bounds) for an image of the given width and height.
      It resets the value without notifying anyone. */
  function ConsiderImageSize(p: ParamFields, width: int, height: int): (r: ParamFields)
    ensures !p.adjustMaxToImage ==> r == p
    ensures r == p.(maxValue := r.maxValue, defaultValue := r.defaultValue, value := r.value)
    ensures p.adjustMaxToImage ==>
      && r.minValue < r.maxValue
      && TickAligned(r.minValue, r.maxValue)
      && r.minValue as real <= r.defaultValue <= r.maxValue as real
      && r.value == r.defaultValue
      && r.InRange() && r.IsSetToDefault()
    ensures p.adjustMaxToImage ==>
      var rescaled := Rescale(p.minValue, p.maxValue, p.defaultValue,
                              SizeBasedMaximum(p.maxToImageSizeRatio, width, height));
      r.maxValue == rescaled.maxValue && r.defaultValue == rescaled.defaultValue as real
  {
    if p.adjustMaxToImage then
      var rescaled := Rescale(p.minValue, p.maxValue, p.defaultValue,
                              SizeBasedMaximum(p.maxToImageSizeRatio, width, height));
      p.(maxValue := rescaled.maxValue,
         defaultValue := rescaled.defaultValue as real,
         value := rescaled.defaultValue as real)
    else
      p
  }

  /** setState(state): the snapshot's value, unchecked and without notification. */
  function SetState(p: ParamFields, s: RangeParamState): (r: ParamFields)
    ensures r == p.(value := r.value)
    ensures r.CopyState() == s
  {
    p.(value := s.value)
  }

  // ----- Properties that relate several calls

  /** Setting the same value twice: the second call does nothing. */
  lemma SetValueIdempotent(p: ParamFields, v: real, t1: bool, t2: bool)
    ensures var once := SetValue(p, v, t1).after;
      SetValue(once, v, t2) == Step(once, [])
  {
  }

  /** reset(trigger) is setValue(defaultValue, trigger); when the default lies
      in the range, the parameter is at its default afterwards. */
  lemma ResetRestoresDefault(p: ParamFields, trigger: bool)
    requires p.minValue as real <= p.defaultValue <= p.maxValue as real
    ensures SetValue(p, p.defaultValue, trigger).after.IsSetToDefault()
  {
  }

  /** Restoring a snapshot taken of the same state changes nothing. */
  lemma RestoreOwnSnapshot(p: ParamFields)
    ensures SetState(p, p.CopyState()) == p
  {
  }

  /** Playing back an animation between two in-range snapshots keeps the value in range. */
  lemma InterpolatedStateInRange(p: ParamFields, s0: RangeParamState, s1: RangeParamState, progress: real)
    requires 0.0 <= progress <= 1.0
    requires p.minValue as real <= s0.value <= p.maxValue as real
    requires p.minValue as real <= s1.value <= p.maxValue as real
    ensures SetState(p, s0.Interpolate(s1, progress)).InRange()
  {
  }

  /** While adjusting, setValue calls never run the filter and keep the flag and listener. */
  lemma {:induction false} AdjustingDefersTrigger(p: ParamFields, vs: seq<real>, trigger: bool)
    requires p.adjusting
    ensures var r := SetValues(p, vs, trigger);
      && r.after.adjusting
      && r.after.hasAdjustmentListener == p.hasAdjustmentListener
      && r.after.listeners == p.listeners
      && CountTriggers(r.events) == 0
    decreases |vs|
  {
    if vs != [] {
      var first := SetValue(p, vs[0], trigger);
      AdjustingDefersTrigger(first.after, vs[1..], trigger);
      CountsAppend(first.events, SetValues(first.after, vs[1..], trigger).events);
    }
  }

  /** A slider drag: begin adjusting, any number of setValue(v, true), release.
      The filter runs exactly once if an adjustment listener is set, and never otherwise. */
  lemma DragTriggersOnce(p: ParamFields, vs: seq<real>)
    ensures
      var begin := SetValueIsAdjusting(p, true);
      var drag := SetValues(begin.after, vs, true);
      var release := SetValueIsAdjusting(drag.after, false);
      && !release.after.adjusting
      && CountTriggers(begin.events + drag.events + release.events)
         == if p.hasAdjustmentListener then 1 else 0
  {
    var begin := SetValueIsAdjusting(p, true);
    var drag := SetValues(begin.after, vs, true);
    var release := SetValueIsAdjusting(drag.after, false);
    AdjustingDefersTrigger(begin.after, vs, true);
    CountsAppend(begin.events, drag.events);
    CountsAppend(begin.events + drag.events, release.events);
  }
}
