/** RangeParam: a bounded numeric filter parameter, the model of a slider.
    Each method updates the fields step by step as the Java code does and is
    proved to produce exactly the state and the events its counterpart in
    RangeParamSpec describes. */
module RangeParams {
  import opened Numeric
  import opened RangeRescale
  import opened RangeParamSpec

  class RangeParam {
    const name: string
    const addDefaultButton: bool

    var minValue: int
    var maxValue: int
    var defaultValue: real
    var decimalPlaces: int
    // a real, not an int, so that animations can interpolate between steps
    var value: real
    var adjusting: bool
    var listeners: seq<ListenerId>
    var hasAdjustmentListener: bool
    var adjustMaxAccordingToImage: bool
    var maxToImageSizeRatio: real

    /** Everything the parameter has caused so far: change notifications and filter runs. */
    ghost var log: seq<Event>

    function Fields(): ParamFields
      reads this
    {
      ParamFields(minValue, maxValue, defaultValue, value, decimalPlaces, adjusting,
                  listeners, hasAdjustmentListener, adjustMaxAccordingToImage, maxToImageSizeRatio)
    }

    constructor (name: string, min: int, def: real, max: int, addDefaultButton: bool)
      requires min < max && min as real <= def <= max as real
      ensures Fields() == Initial(min, def, max)
      ensures this.name == name && this.addDefaultButton == addDefaultButton
      ensures log == []
    {
      this.name := name;
      this.addDefaultButton := addDefaultButton;
      minValue := min;
      maxValue := max;
      defaultValue := def;
      value := def;
      decimalPlaces := 0;
      adjusting := false;
      listeners := [];
      hasAdjustmentListener := false;
      adjustMaxAccordingToImage := false;
      maxToImageSizeRatio := 0.0;
      log := [];
    }

    function GetValue(): int
      reads this
    {
      Fields().GetValue()
    }

    predicate IsSetToDefault()
      reads this
    {
      Fields().IsSetToDefault()
    }

    function CopyState(): RangeParamState
      reads this
    {
      Fields().CopyState()
    }

    /** Installs or removes the adjustment listener (a field of the superclass). */
    method SetAdjustmentListener(present: bool)
      modifies this
      ensures Fields() == old(Fields()).(hasAdjustmentListener := present)
      ensures log == old(log)
    {
      hasAdjustmentListener := present;
    }

    method AddChangeListener(l: ListenerId)
      modifies this
      ensures Fields() == old(Fields()).(listeners := old(listeners) + [l])
      ensures log == old(log)
    {
      listeners := listeners + [l];
    }

    method RemoveChangeListener(l: ListenerId)
      modifies this
      ensures Fields() == old(Fields()).(listeners := RemoveListener(old(listeners), l))
      ensures log == old(log)
    {
      var k := LastIndexOf(listeners, l);
      if k >= 0 {
        listeners := listeners[..k] + listeners[k + 1..];
      }
    }

    /** Notifies every change listener, the last registered first. */
    method FireStateChanged()
      modifies this
      ensures Fields() == old(Fields())
      ensures log == old(log) + [Notification(old(Fields()))]
    {
      ghost var notified: seq<ListenerId> := [];
      var i := |listeners|;
      while i > 0
        invariant 0 <= i <= |listeners|
        invariant notified == NotificationOrder(listeners[i..])
      {
        i := i - 1;
        assert listeners[i..][1..] == listeners[i + 1..];
        notified := notified + [listeners[i]];
      }
      log := log + [StateChanged(notified)];
    }

    /** setValue(v, trigger): clamps v, ignores changes within the epsilon,
        notifies the listeners and, unless adjusting, runs the filter if asked to. */
    method SetValue(v: real, trigger: bool)
      modifies this
      ensures Fields() == RangeParamSpec.SetValue(old(Fields()), v, trigger).after
      ensures log == old(log) + RangeParamSpec.SetValue(old(Fields()), v, trigger).events
    {
      var c := v;
      if c > maxValue as real {
        c := maxValue as real;
      }
      if c < minValue as real {
        c := minValue as real;
      }
      if Abs(c - value) > ChangeEpsilon {
        ghost var before := Fields();
        value := c;
        FireStateChanged();
        if !adjusting && trigger && hasAdjustmentListener {
          log := log + [ParamAdjusted];
        }
        assert Changes(before, v);
      }
    }

    /** setValue(int): the BoundedRangeModel setter, which always triggers. */
    method SetValueInt(n: int)
      modifies this
      ensures Fields() == RangeParamSpec.SetValue(old(Fields()), n as real, true).after
      ensures log == old(log) + RangeParamSpec.SetValue(old(Fields()), n as real, true).events
    {
      SetValue(n as real, true);
    }

    /** setValueNoTrigger(v): like setValue, but the filter never runs. */
    method SetValueNoTrigger(v: real)
      modifies this
      ensures Fields() == RangeParamSpec.SetValue(old(Fields()), v, false).after
      ensures log == old(log) + RangeParamSpec.SetValue(old(Fields()), v, false).events
      ensures CountTriggers(log) == CountTriggers(old(log))
    {
      SetValue(v, false);
      CountsAppend(old(log), RangeParamSpec.SetValue(old(Fields()), v, false).events);
    }

    /** setValueNoGUI(d), used while tweening: no clamping, no epsilon, no events. */
    method SetValueNoGUI(d: real)
      modifies this
      ensures Fields() == old(Fields()).(value := d)
      ensures log == old(log)
    {
      value := d;
    }

    /** setValueIsAdjusting(b): releasing a drag runs the filter; a change of the flag notifies. */
    method SetValueIsAdjusting(b: bool)
      modifies this
      ensures Fields() == RangeParamSpec.SetValueIsAdjusting(old(Fields()), b).after
      ensures log == old(log) + RangeParamSpec.SetValueIsAdjusting(old(Fields()), b).events
    {
      if !b {
        if adjusting {
          if hasAdjustmentListener {
            log := log + [ParamAdjusted];
          }
        }
      }
      if adjusting != b {
        adjusting := b;
        FireStateChanged();
      }
    }

    /** reset(trigger): back to the default, by the rules of setValue. */
    method Reset(trigger: bool)
      modifies this
      ensures Fields() == RangeParamSpec.SetValue(old(Fields()), old(defaultValue), trigger).after
      ensures log == old(log) + RangeParamSpec.SetValue(old(Fields()), old(defaultValue), trigger).events
    {
      SetValue(defaultValue, trigger);
    }

    method IncreaseValue()
      modifies this
      ensures Fields() == RangeParamSpec.IncreaseValue(old(Fields())).after
      ensures log == old(log) + RangeParamSpec.IncreaseValue(old(Fields())).events
    {
      var intValue := Trunc(value);
      if intValue < maxValue {
        SetValueInt(intValue + 1);
      }
    }

    method DecreaseValue()
      modifies this
      ensures Fields() == RangeParamSpec.DecreaseValue(old(Fields())).after
      ensures log == old(log) + RangeParamSpec.DecreaseValue(old(Fields())).events
    {
      var intValue := Trunc(value);
      if intValue > minValue {
        SetValueInt(intValue - 1);
      }
    }

    /** doRandomize(), where r is the number Rnd.nextInt(maxValue - minValue) returned. */
    method DoRandomize(r: int)
      requires 0 <= r < maxValue - minValue
      modifies this
      ensures Fields() == Randomize(old(Fields()), r).after
      ensures log == old(log) + Randomize(old(Fields()), r).events
    {
      var newValue := minValue + r;
      SetValueNoTrigger(newValue as real);
    }

    /** setMinimum(n): an unchecked write; the value is not re-clamped. */
    method SetMinimum(newMinimum: int)
      modifies this
      ensures Fields() == old(Fields()).(minValue := newMinimum)
      ensures log == old(log)
    {
      minValue := newMinimum;
    }

    /** setMaximum(n): an unchecked write; the value is not re-clamped. */
    method SetMaximum(newMaximum: int)
      modifies this
      ensures Fields() == old(Fields()).(maxValue := newMaximum)
      ensures log == old(log)
    {
      maxValue := newMaximum;
    }

    method SetDecimalPlaces(dp: int)
      modifies this
      ensures Fields() == old(Fields()).(decimalPlaces := dp)
      ensures log == old(log)
    {
      decimalPlaces := dp;
    }

    /** withDecimalPlaces(dp): setDecimalPlaces, returning the parameter itself. */
    method WithDecimalPlaces(dp: int) returns (self: RangeParam)
      modifies this
      ensures self == this
      ensures Fields() == old(Fields()).(decimalPlaces := dp)
      ensures log == old(log)
    {
      SetDecimalPlaces(dp);
      self := this;
    }

    /** withAdjustedRange(ratio): from now on the maximum follows the image size. */
    method WithAdjustedRange(ratio: real) returns (self: RangeParam)
      modifies this
      ensures self == this
      ensures Fields() == old(Fields()).(adjustMaxToImage := true, maxToImageSizeRatio := ratio)
      ensures log == old(log)
    {
      maxToImageSizeRatio := ratio;
      adjustMaxAccordingToImage := true;
      self := this;
    }

    /** considerImageSize(bounds) for bounds of the given width and height. */
    method ConsiderImageSize(width: int, height: int)
      modifies this
      ensures Fields() == RangeParamSpec.ConsiderImageSize(old(Fields()), width, height)
      ensures log == old(log)
    {
      if adjustMaxAccordingToImage {
        var oldMax := maxValue;
        maxValue := SizeBasedMaximum(maxToImageSizeRatio, width, height);
        if maxValue <= minValue {
          maxValue := minValue + 1;
        }
        maxValue := maxValue + (4 - (maxValue - minValue) % 4);
        assert maxValue == TickCorrected(minValue, GuardedMaximum(minValue, SizeBasedMaximum(maxToImageSizeRatio, width, height)));
        defaultValue := ScaledDefault(defaultValue, oldMax, maxValue) as real;
        if defaultValue > maxValue as real {
          defaultValue := maxValue as real;
        }
        if defaultValue < minValue as real {
          defaultValue := minValue as real;
        }
        value := defaultValue;
      }
    }

    /** setState(state): overwrites the value, unchecked and without events. */
    method SetState(state: RangeParamState)
      modifies this
      ensures Fields() == RangeParamSpec.SetState(old(Fields()), state)
      ensures log == old(log)
    {
      value := state.value;
    }

    /** copy(): a new parameter with the same name and bounds, whose default is this value. */
    method Copy() returns (c: RangeParam)
      requires minValue < maxValue && minValue as real <= value <= maxValue as real
      ensures fresh(c)
      ensures c.Fields() == RangeParamSpec.Copy(Fields())
      ensures c.name == name && c.addDefaultButton == addDefaultButton && c.log == []
    {
      c := new RangeParam(name, minValue, value, maxValue, addDefaultButton);
    }
  }
}
