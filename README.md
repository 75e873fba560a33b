# RangeParam in Dafny

A model of `RangeParam`, the bounded numeric filter parameter of Pixelitor.
A `RangeParam` is the model behind a slider. It holds:

- integer bounds `minValue` and `maxValue`;
- a default and a current value, both doubles;
- an `adjusting` flag, set while the user drags the slider;
- a list of change listeners, notified in reverse order of registration;
- an optional adjustment listener that re-runs the filter.

The project has six modules:

- `Numeric` (`numeric.dfy`): Java's `(int)` cast (truncation toward zero), `Math.abs`, the clamp of `setValue`, and `ImageMath.lerp`.
- `RangeRescale` (`range_rescale.dfy`): the integer logic of `considerImageSize`. It computes a new maximum from the image size, the modulo-4 tick correction, and the rescaled default.
- `RangeParamSpec` (`range_param_spec.dfy`): the parameter's state as a value (`ParamFields`). Each operation is a function from the old state to the new state plus the events the call caused (`Step`).
  - There are two kinds of events. `StateChanged(order)` is one `fireStateChanged`, with the listeners in the order they were called. `ParamAdjusted` is one run of the filter.
  - The lemmas here relate several calls: idempotence of `setValue`, reset, snapshots, a whole slider drag.
- `RangeParams` (`range_param.dfy`): the class `RangeParam`. Its methods update the fields step by step as the Java methods do, and keep a ghost event log.
  - Each method is proved to end in exactly the state and log that its `RangeParamSpec` counterpart gives, or, where there is no counterpart, in a record update of its old fields.
- `LinkRatio` (`link_ratio.dfy`) and `LinkedParams` (`linked_params.dfy`): `linkWith(other, multiplier)`.
  - Each side's change listener calls `setValueNoTrigger` on the other side. The resulting re-entrant chain is written out as an explicit propagation between the two parameter states.
  - The chain stops only because the epsilon guard of `setValue` absorbs a follow-up that would not move the value. The model proves that this happens within three follow-ups. The reason is that two round trips through the two clamps land where one does.

Doubles are modelled as reals. Java's `0.001` change epsilon and `0.005` default tolerance are the constants `ChangeEpsilon` and `DefaultTolerance`.

There is no global `minValue <= value <= maxValue` invariant. `setValueNoGUI`, `setState`, `setMinimum` and `setMaximum` write their fields unchecked. The bound is proved only where the code clamps.

## Model

| member | source | states |
|---|---|---|
| Numeric.Trunc | src/main/java/pixelitor/filters/gui/RangeParam.java:242-244 | the `(int)` cast of `getValue` truncates toward zero: t <= x < t + 1 for x >= 0, and t - 1 < x <= t for x < 0 |
| Numeric.Clamp | src/main/java/pixelitor/filters/gui/RangeParam.java:268-274 | the result lies in [lo, hi] when lo <= hi; an in-range v is kept; v above hi gives hi; v below lo gives lo; crossed bounds give lo, because the minimum is applied last |
| RangeRescale.SizeBasedMaximum | src/main/java/pixelitor/filters/gui/RangeParam.java:356 | the size-based maximum is the ratio times the longer side, truncated toward zero: no larger in magnitude than the exact product, less than 1 away from it, and not negative when the product is not |
| RangeRescale.GuardedMaximum | src/main/java/pixelitor/filters/gui/RangeParam.java:356-359 | the maximum is above minValue; a size-based maximum above minValue is kept as it is, and one at or below minValue becomes exactly minValue + 1 |
| RangeRescale.ScaledDefault | src/main/java/pixelitor/filters/gui/RangeParam.java:355-364 | with a non-zero old maximum, the new default is the truncation of oldDefault / oldMax * newMax: no larger in magnitude, and less than 1 away from it |
| RangeRescale.TickCorrected | src/main/java/pixelitor/filters/gui/RangeParam.java:361-362 | the correction raises the maximum by 1 to 4, to the first value above it whose distance from minValue is divisible by 4 |
| RangeRescale.Rescale | src/main/java/pixelitor/filters/gui/RangeParam.java:352-371 | new maximum > minValue and tick aligned, 1 to 4 above the guarded maximum with no aligned value in between; the default lies in [minValue, maxValue]; it equals the proportional default when that fits, and otherwise the nearer bound |
| RangeParamSpec.NotificationOrder | src/main/java/pixelitor/filters/gui/RangeParam.java:339-350 | listeners are notified in reverse order of registration |
| RangeParamSpec.LastIndexOf | src/main/java/pixelitor/filters/gui/RangeParam.java:334-337 | the position of the last registration of a listener, or -1 exactly when it is not registered |
| RangeParamSpec.RemoveListener | src/main/java/pixelitor/filters/gui/RangeParam.java:334-337 | removing an unregistered listener changes nothing; otherwise exactly one occurrence, the last one, is removed and the rest stays in order |
| RangeParamSpec.ParamFields.GetValue | src/main/java/pixelitor/filters/gui/RangeParam.java:241-244 | getValue() truncates the value toward zero, and an in-range value gives an int in [minValue, maxValue] |
| RangeParamSpec.ParamFields.IsSetToDefault | src/main/java/pixelitor/filters/gui/RangeParam.java:159-162 | isSetToDefault() holds exactly when the value lies strictly within 0.005 of the default, on either side |
| RangeParamSpec.ParamFields.CopyState | src/main/java/pixelitor/filters/gui/RangeParam.java:386-389 | the snapshot holds everything setState restores: writing its value back leaves the fields unchanged |
| RangeParamSpec.SetState | src/main/java/pixelitor/filters/gui/RangeParam.java:391-394 | only the value changes, unchecked and without events, and a snapshot taken afterwards is the restored one |
| RangeParamSpec.RangeParamState.Interpolate | src/main/java/pixelitor/filters/gui/RangeParam.java:491-494 | progress 0 gives the start state, 1 the end state, 0.5 the midpoint; for progress in [0, 1] the value lies between the two end values |
| RangeParamSpec.Initial | src/main/java/pixelitor/filters/gui/RangeParam.java:67-81 | under min < max and min <= def <= max, the bounds are min and max, value == defaultValue == def, and the parameter is in range and at its default |
| RangeParamSpec.Copy | src/main/java/pixelitor/filters/gui/RangeParam.java:416-418 | the copy has the same bounds; its default and value are the original's value; it has no listeners and decimalPlaces 0 |
| RangeParamSpec.SetValue | src/main/java/pixelitor/filters/gui/RangeParam.java:268-283 | only the value can change. When the clamped value differs by more than the epsilon, the value becomes the clamped value (in range when min <= max), there is exactly one notification, and it comes first. Otherwise nothing changes and nothing fires. The filter runs exactly once iff the value changed, the flag is not set, a trigger was asked for and a listener is present |
| RangeParamSpec.SetValueIsAdjusting | src/main/java/pixelitor/filters/gui/RangeParam.java:294-306 | only the flag changes. The filter runs once exactly on a release (adjusting, then b false) with a listener. There is one notification iff the flag changes, it lists the listeners in reverse order of registration, and it comes last, after the filter run. An unchanged flag does nothing |
| RangeParamSpec.IncreaseValue | src/main/java/pixelitor/filters/gui/RangeParam.java:207-212 | when trunc(value) < max it is setValue(trunc(value) + 1, true), and otherwise it is a no-op; the value only moves up; from an in-range value it stays in range, and a change lands on trunc(value) + 1 |
| RangeParamSpec.DecreaseValue | src/main/java/pixelitor/filters/gui/RangeParam.java:214-219 | when trunc(value) > min it is setValue(trunc(value) - 1, true), and otherwise it is a no-op; the value only moves down; from an in-range value it stays in range, and a change lands on trunc(value) - 1 |
| RangeParamSpec.Randomize | src/main/java/pixelitor/filters/gui/RangeParam.java:200-205 | the filter never runs; a change sets the value to min + r, which lies in [min, max); a change notifies the listeners once, in reverse order of registration, and causes no other event; a value within the epsilon of min + r stays and nothing fires |
| RangeParamSpec.ConsiderImageSize | src/main/java/pixelitor/filters/gui/RangeParam.java:352-373 | when disabled, nothing changes. When enabled, only max, default and value change: max > min and tick aligned, min <= default <= max, value == default, and both are given by Rescale |
| RangeParamSpec.SetValueIdempotent | src/main/java/pixelitor/filters/gui/RangeParam.java:268-283 | a second setValue of the same value changes nothing and fires nothing |
| RangeParamSpec.ResetRestoresDefault | src/main/java/pixelitor/filters/gui/RangeParam.java:159-176 | after reset with an in-range default, isSetToDefault holds |
| RangeParamSpec.RestoreOwnSnapshot | src/main/java/pixelitor/filters/gui/RangeParam.java:386-394 | setState(copyState()) leaves the parameter unchanged |
| RangeParamSpec.InterpolatedStateInRange | src/main/java/pixelitor/filters/gui/RangeParam.java:491-494 | setting a state interpolated between two in-range snapshots keeps the value in range |
| RangeParamSpec.AdjustingDefersTrigger | src/main/java/pixelitor/filters/gui/RangeParam.java:279-281 | while adjusting, any sequence of setValue calls never runs the filter and keeps the flag, the listener and the listener list |
| RangeParamSpec.DragTriggersOnce | src/main/java/pixelitor/filters/gui/RangeParam.java:294-306 | begin adjusting, any number of setValue(v, true), then release: the filter runs exactly once with a listener and never without one, and the flag ends cleared |
| RangeParams.RangeParam.constructor | src/main/java/pixelitor/filters/gui/RangeParam.java:67-81 | requires the constructor's asserts; the fields are Initial(min, def, max) and the log is empty |
| RangeParams.RangeParam.SetAdjustmentListener | src/main/java/pixelitor/filters/gui/RangeParam.java:279-280 | only the presence of the adjustment listener changes |
| RangeParams.RangeParam.AddChangeListener | src/main/java/pixelitor/filters/gui/RangeParam.java:328-332 | the listener is appended; nothing else changes |
| RangeParams.RangeParam.RemoveChangeListener | src/main/java/pixelitor/filters/gui/RangeParam.java:334-337 | the listener list becomes RemoveListener of the old one; nothing else changes |
| RangeParams.RangeParam.FireStateChanged | src/main/java/pixelitor/filters/gui/RangeParam.java:339-350 | the backward loop logs one notification whose order is NotificationOrder of the listeners; no field changes |
| RangeParams.RangeParam.SetValue | src/main/java/pixelitor/filters/gui/RangeParam.java:268-283 | the new fields and the appended events are exactly RangeParamSpec.SetValue of the old fields |
| RangeParams.RangeParam.SetValueInt | src/main/java/pixelitor/filters/gui/RangeParam.java:258-262 | setValue(n) is setValue(n, true) |
| RangeParams.RangeParam.SetValueNoTrigger | src/main/java/pixelitor/filters/gui/RangeParam.java:264-266 | setValue(v, false); the filter-run count of the log does not grow |
| RangeParams.RangeParam.SetValueNoGUI | src/main/java/pixelitor/filters/gui/RangeParam.java:289-291 | only the value changes, to d, unchecked and without events |
| RangeParams.RangeParam.SetValueIsAdjusting | src/main/java/pixelitor/filters/gui/RangeParam.java:294-306 | the new fields and the appended events are exactly RangeParamSpec.SetValueIsAdjusting |
| RangeParams.RangeParam.Reset | src/main/java/pixelitor/filters/gui/RangeParam.java:173-176 | reset(trigger) is setValue(defaultValue, trigger) |
| RangeParams.RangeParam.IncreaseValue | src/main/java/pixelitor/filters/gui/RangeParam.java:207-212 | the new state and events are RangeParamSpec.IncreaseValue |
| RangeParams.RangeParam.DecreaseValue | src/main/java/pixelitor/filters/gui/RangeParam.java:214-219 | the new state and events are RangeParamSpec.DecreaseValue |
| RangeParams.RangeParam.DoRandomize | src/main/java/pixelitor/filters/gui/RangeParam.java:199-205 | for a random draw 0 <= r < max - min, the new state and events are RangeParamSpec.Randomize |
| RangeParams.RangeParam.SetMinimum | src/main/java/pixelitor/filters/gui/RangeParam.java:226-229 | only minValue changes; the value is not re-clamped |
| RangeParams.RangeParam.SetMaximum | src/main/java/pixelitor/filters/gui/RangeParam.java:236-239 | only maxValue changes; the value is not re-clamped |
| RangeParams.RangeParam.SetDecimalPlaces | src/main/java/pixelitor/filters/gui/RangeParam.java:122-124 | only decimalPlaces changes |
| RangeParams.RangeParam.WithDecimalPlaces | src/main/java/pixelitor/filters/gui/RangeParam.java:126-129 | as setDecimalPlaces, and the parameter itself is returned |
| RangeParams.RangeParam.WithAdjustedRange | src/main/java/pixelitor/filters/gui/RangeParam.java:375-379 | the ratio is stored and image-size adjustment is switched on; the parameter itself is returned |
| RangeParams.RangeParam.ConsiderImageSize | src/main/java/pixelitor/filters/gui/RangeParam.java:352-373 | the step-by-step update ends in RangeParamSpec.ConsiderImageSize, without events |
| RangeParams.RangeParam.SetState | src/main/java/pixelitor/filters/gui/RangeParam.java:391-394 | only the value changes, to the snapshot's, unchecked and without events |
| RangeParams.RangeParam.Copy | src/main/java/pixelitor/filters/gui/RangeParam.java:416-418 | a fresh parameter with the same name and default-button flag, whose fields are RangeParamSpec.Copy of this one |
| LinkRatio.RoundTripIdempotent | src/main/java/pixelitor/filters/gui/RangeParam.java:152-157 | following the other side (times m, clamped there) and back (divided by m, clamped here) twice gives the same value as once, for any non-zero m and any bounds |
| LinkedParams.Ratio | src/main/java/pixelitor/filters/gui/RangeParam.java:152-157 | the two conversions of the link undo each other: following the other side and converting back gives the value itself, in both directions |
| LinkedParams.Follow | src/main/java/pixelitor/filters/gui/RangeParam.java:152-157 | the chain changes only the two values and never runs a filter; two in-range sides stay in range |
| LinkedParams.SetFirst | src/main/java/pixelitor/filters/gui/RangeParam.java:152-157 | first.setValue(v, trigger) on a linked pair: a change within the epsilon does nothing; only the first side may run its filter, with setValue's trigger rule; the chain leaves in-range sides in range |
| LinkedParams.SetSecond | src/main/java/pixelitor/filters/gui/RangeParam.java:152-157 | the mirror image of SetFirst for second.setValue(w, trigger) |
| LinkedParams.LinkSettles | src/main/java/pixelitor/filters/gui/RangeParam.java:152-157 | after the first side moved, any number of rounds beyond Rounds (3) gives the same result: the epsilon guard ends the mutual notification |
| LinkedParams.LinkBackSettles | src/main/java/pixelitor/filters/gui/RangeParam.java:152-157 | after the second side moved to a clamped value, any number of rounds beyond 2 gives the same result |
| LinkedParams.LinkFollowsExactly | src/main/java/pixelitor/filters/gui/RangeParam.java:152-157 | when v fits the first range and v * m the second: the first side takes v and is notified once, first; the second ends within the epsilon of v * m and is notified once exactly when it moved |
| LinkedParams.LinkBackFollowsExactly | src/main/java/pixelitor/filters/gui/RangeParam.java:152-157 | the mirror image for second.setValue(w): the second takes w, and the first ends within the epsilon of w / m |

The class's `GetValue`, `IsSetToDefault` and `CopyState` delegate to those of `ParamFields`.

## Left out

- The GUI: `createGUI`, `SliderSpinner`, `ParamGUIWithAction`, `setupEnableOtherIfNotZero`, the text position, `toString`, and `getResetToolTip`. That includes the `IllegalStateException` that `getResetToolTip` throws for `decimalPlaces` other than 0, 1 or 2. All of this is presentation.
- `getValueAsFloat`, `getPercentageValF`, `getPercentageValD` and `getValueInRadians`: float and trigonometric conversions.
- Plain getters (`getMinimum`, `getMaximum`, `getDefaultValue`, `getDecimalPlaces`, `getValueIsAdjusting`, `getValueAsDouble`, `getParamValue`, `isZero`, `canBeAnimated`): they are reads of the class's fields.
- The `BoundedRangeModel` stubs `getExtent`, `setExtent` and `setRangeProperties`: they do nothing.
- The `Builder` class: it is not part of this model.
- `linkWith(other, BooleanSupplier)` and `ensureHigherValueThan`: they are driven by an arbitrary opaque condition.
- The adjustment listener lives in `AbstractFilterParam`, which is not part of this model. It is a flag, `hasAdjustmentListener`. Running the filter is the `ParamAdjusted` event.
- Listeners are opaque ids. `EventListenerList`, `ChangeEvent` and what a listener does when called are not modelled. `RemoveChangeListener` removes the last registration of an id, as `EventListenerList.remove` searches from the end.
- Doubles are reals. Rounding, NaN and infinities are not modelled, except in one place: the infinite default ratio of `considerImageSize` when the old maximum is 0 (`ScaledDefault`).
- `Numeric.Trunc`: does not saturate at `Integer.MAX_VALUE` or `MIN_VALUE` for values out of int range.
- 32-bit overflow of `minValue + 1`, of the tick correction and of `minValue + r` is not modelled; integers are unbounded.
- `Rnd.nextInt(maxValue - minValue)` is the parameter `r` of `DoRandomize`, in `0 <= r < maxValue - minValue`.
- `considerImageSize` takes the width and height of the bounds rather than a `Rectangle`.
- `copy()` also passes the text position and the randomize policy, both left out with the GUI. Like the Java code, the copy does not carry over `decimalPlaces` or the image-size adjustment.
- The link is modelled on two `ParamFields` values, not on two class instances. The link's own listeners are not among the listener ids. The log of each side lists the outer notification before the nested follow-ups, where in Java the follow-ups run during that notification.
- A multiplier of 0 is excluded (`requires m != 0.0`). In Java it would make the first side follow a division by zero.
- Several rounds of the link are unfolded up to the bound `Rounds` = 3. `LinkSettles` and `LinkBackSettles` show that more rounds would change nothing.
- `DoRandomize` and `Randomize` require `0 <= r < maxValue - minValue`, so the model has no random draw for a range with `maxValue <= minValue`. The unchecked `setMinimum` and `setMaximum` can produce such a range. In Java, `Rnd.nextInt` then gets a non-positive bound and throws `IllegalArgumentException`. That error path is not modelled.
- On a linked pair, only `setValue` on either side starts the propagation (`SetFirst`, `SetSecond`). The link's listeners also run on every other `fireStateChanged`, including the one `setValueIsAdjusting` fires when the flag flips; that propagation is not modelled.
