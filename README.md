# Stepper value engine

A model of the value-state engine of the Spark stepper component (`SparkStepper`). A
stepper shows a number between two bounds, with a decrement button on one side and an
increment button on the other. The model covers:

- **`StepperControlViewModel`** (module `ControlViewModel`). It holds the value, the
  step, the closed bounds, a pluggable formatter, `isEnabled`, the theme and the repeat
  interval. Each mutation recomputes the derived `@Published` fields: `text`,
  `isMinValue`, `isMaxValue`, `dim`, `backgroundColor` and the theme tokens. Most
  recomputations follow an "assign only if different" rule.
- **`StepperViewModel`** (module `StepperViewModels`). This is the older engine with the
  same arithmetic but weaker rules:
  - both flags are assigned on every value change;
  - every `isEnabled` assignment re-derives `dim` and `backgroundColor`;
  - `bounds` has no observer;
  - `setFormat` takes an optional format and always reassigns `text`.
- **The SwiftUI `StepperControl`** (module `Control`). It has label modifiers that
  return a modified copy of the control, and the custom label wins over the view model's. Its
  `StepperControlInternal` handles taps and press-and-hold:
  - a long press starts a repeat task;
  - each pass of the task steps the value once in a fixed direction and writes it to
    the binding;
  - it stops when a tick changes nothing;
  - otherwise it sleeps for the current interval, and the interval decays after each
    completed sleep;
  - a tap stops everything.

Modelling conventions:

- **Numbers.** Values, steps and intervals are `real`. Bounds are a `ClosedRange`
  whose lower bound is at most its upper bound. Swift's `...` traps otherwise.
- **Formatters.** A formatter is a function `real -> string`. The default `"\(value)"`
  stringification is given to the constructor as `describe`.
- **Emissions.** Every assignment to a `@Published` property emits once, whether or not
  the value changed. The field `emitted` records these emissions in order. Construction
  emits nothing, because no subscriber exists yet. The one value a subscriber receives
  on subscription is Combine's replay, not an emission.
- **Timing.** The sleeps of the repeat task are abstracted into a sequence `wakes`.
  `wakes[k]` tells whether the k-th sleep completes, or whether the press is released
  during it. The released button's tap then stops updating, which cancels the sleep.
  The module `AutoRepeat` gives the reference definition `Repeat` of what such a run
  writes and sleeps. The loop in `Control.StepperControlInternal.UpdateRepeatedly` is
  proved to match it.

Behaviour where a natural expectation and the code disagree (the model follows the
code):

- **The value can leave its bounds.** `setValue` does not clamp; `setValue(11)` in
  [0, 10] leaves 11 with `isMaxValue` set. A change of bounds never re-clamps the value.
  Being within bounds is therefore proved only for the stepping operations, from a
  value already within bounds and with a non-negative step
  (`Stepping.SteppingStaysInBounds`, `AutoRepeat.RepeatStaysWithinBounds`). It is not
  proved as an invariant. Without those requirements, `AutoRepeat.RepeatStaysBounded`
  bounds a run only on the side it moves towards.
- **`dim` starts at 1.0.** Both initialisers leave `dim` at its declared 1.0, not at
  the theme's `dims.none`. It is corrected by the first change of `isEnabled` or of the
  theme, so the object invariant allows `dim == 1.0` while enabled.
- **The older view model's flags can go stale.** They are not part of
  `StepperViewModel`'s invariant, because a change of bounds leaves them as they were.

## Model

| member | source | states |
|---|---|---|
| Stepping.Incremented | Sources/Core/ViewModel/StepperControlViewModel.swift:121-125 | the incremented value is at most the upper bound and at most value + step, and is one of the two: an overshooting step is clipped exactly to the bound |
| Stepping.Decremented | Sources/Core/ViewModel/StepperControlViewModel.swift:127-131 | the decremented value is at least the lower bound and at least value - step, and is one of the two |
| Stepping.SteppingStaysInBounds | Sources/Core/ViewModel/StepperViewModel.swift:112-118 | from a value inside the bounds, a non-negative step up or down stays inside them |
| Stepping.IncrementedIsNoOpIff | Sources/Core/ViewModel/StepperControlViewModel.swift:121-125 | an increment changes nothing exactly when the value is on the upper bound, or the step is zero and the value is not above the range |
| Stepping.DecrementedIsNoOpIff | Sources/Core/ViewModel/StepperControlViewModel.swift:127-131 | a decrement changes nothing exactly when the value is on the lower bound, or the step is zero and the value is not below the range |
| Stepping.StepsAreInverse | Sources/Core/ViewModel/StepperControlViewModel.swift:121-131 | a decrement undoes an unclipped increment, and an increment undoes an unclipped decrement |
| Publishing.EmitIf | Sources/Core/ViewModel/StepperControlViewModel.swift:150-152 | a guarded assignment emits its field once if the new value differs from the stored one, and nothing otherwise |
| ControlViewModel.Decayed | Sources/Core/ViewModel/StepperControlViewModel.swift:200-202 | one decay gives either the floor 0.035 or interval * 0.85, at least both the floor and interval * 0.85 (so exactly their maximum), never above 0.5 from at most 0.5, and never growing from at least the floor |
| ControlViewModel.DecayedTimesClosedForm | Sources/Core/ViewModel/StepperControlViewModel.swift:200-202 | n decays from at least the floor equal max(0.035, interval * 0.85^n) |
| ControlViewModel.DecayReachesFloor | Sources/Core/ViewModel/StepperControlViewModel.swift:196-202 | from the reset interval 0.5, the floor is reached exactly at the 17th decay and kept afterwards |
| ControlViewModel.DecayedTimesInRange | Sources/Core/ViewModel/StepperControlViewModel.swift:60 | any number of decays from [0.035, 0.5] stays in [0.035, 0.5] and never exceeds the start |
| ControlViewModel.DecrementLabel | Sources/Core/ViewModel/StepperControlViewModel.swift:188-190 | the label is exactly "Value: " then the text then ", Decrement" |
| ControlViewModel.IncrementLabel | Sources/Core/ViewModel/StepperControlViewModel.swift:192-194 | the label is exactly "Value: " then the text then ", Increment" |
| ControlViewModel.LabelsDetermineText | Sources/Core/ViewModel/StepperControlViewModel.swift:188-194 | equal labels of one button come from equal texts |
| ControlViewModel.LabelsDistinguishButtons | Sources/Core/ViewModel/StepperControlViewModel.swift:188-194 | no increment label equals any decrement label |
| ControlViewModel.FlagEmissions | Sources/Core/ViewModel/StepperControlViewModel.swift:133-143 | checkMinMaxValue emits isMinValue once exactly when its recomputed value differs from the stored one, likewise isMaxValue, and nothing else |
| ControlViewModel.StepperControlViewModel.constructor | Sources/Core/ViewModel/StepperControlViewModel.swift:62-89 | the fields take the arguments and the theme tokens, text is the default rendering of the value, the flags match the bounds, the interval is 0.5, and nothing is emitted |
| ControlViewModel.StepperControlViewModel.WithFormat | Sources/Core/ViewModel/StepperControlViewModel.swift:91-119 | as the constructor, with text rendered by the given format |
| ControlViewModel.StepperControlViewModel.AssignValue | Sources/Core/ViewModel/StepperControlViewModel.swift:29-35 | assigning value always emits $value; an equal value touches nothing else; a different one reassigns text and emits only the flags whose value changed |
| ControlViewModel.StepperControlViewModel.CheckMinMaxValue | Sources/Core/ViewModel/StepperControlViewModel.swift:133-143 | both flags match value and bounds afterwards, and only the flags that changed emit; when every other derived field was current, the whole invariant holds again |
| ControlViewModel.StepperControlViewModel.Increment | Sources/Core/ViewModel/StepperControlViewModel.swift:121-125 | value becomes min(upper, value + step), is returned, and is assigned with the observer's emissions; at the upper bound only $value emits |
| ControlViewModel.StepperControlViewModel.Decrement | Sources/Core/ViewModel/StepperControlViewModel.swift:127-131 | value becomes max(lower, value - step), is returned, and is assigned with the observer's emissions |
| ControlViewModel.StepperControlViewModel.SetValue | Sources/Core/ViewModel/StepperControlViewModel.swift:165-168 | setValue stores the value unclamped; an equal value changes and emits nothing at all |
| ControlViewModel.StepperControlViewModel.SetBounds | Sources/Core/ViewModel/StepperControlViewModel.swift:36-41 | equal bounds change nothing; different bounds re-derive only the flags, emitting those that change, and never re-clamp value |
| ControlViewModel.StepperControlViewModel.SetStep | Sources/Core/ViewModel/StepperControlViewModel.swift:42 | the step is stored and the invariant kept |
| ControlViewModel.StepperControlViewModel.SetEnabled | Sources/Core/ViewModel/StepperControlViewModel.swift:44-50 | an equal isEnabled changes and emits nothing; a change sets dim to dims.none or dim3 and the background to surface or onSurface at dim5, each emitting once |
| ControlViewModel.StepperControlViewModel.SetTheme | Sources/Core/ViewModel/StepperControlViewModel.swift:52-56 | every token field and dim are reassigned from the new theme, each emitting once; text, value and flags are untouched |
| ControlViewModel.StepperControlViewModel.ResetTheme | Sources/Core/ViewModel/StepperControlViewModel.swift:170-178 | the token fields follow the theme and the current isEnabled, emitting in the order written |
| ControlViewModel.StepperControlViewModel.ResetBackgroundColor | Sources/Core/ViewModel/StepperControlViewModel.swift:180-182 | the background follows isEnabled and emits once |
| ControlViewModel.StepperControlViewModel.ResetDim | Sources/Core/ViewModel/StepperControlViewModel.swift:184-186 | dim follows isEnabled and emits once |
| ControlViewModel.StepperControlViewModel.SetFormat | Sources/Core/ViewModel/StepperControlViewModel.swift:155-163 | the format is installed, text equals its rendering of the value, and text emits only if the string changed |
| ControlViewModel.StepperControlViewModel.RemoveFormat | Sources/Core/ViewModel/StepperControlViewModel.swift:145-153 | the default rendering is installed, text equals it, and text emits only if the string changed |
| ControlViewModel.StepperControlViewModel.DecrementAccessibilityLabel | Sources/Core/ViewModel/StepperControlViewModel.swift:188-190 | the decrement label shows the current formatter's rendering of the value |
| ControlViewModel.StepperControlViewModel.IncrementAccessibilityLabel | Sources/Core/ViewModel/StepperControlViewModel.swift:192-194 | the increment label shows the current formatter's rendering of the value |
| ControlViewModel.StepperControlViewModel.ResetInterval | Sources/Core/ViewModel/StepperControlViewModel.swift:196-198 | the interval becomes 0.5 |
| ControlViewModel.StepperControlViewModel.UpdateInterval | Sources/Core/ViewModel/StepperControlViewModel.swift:200-202 | the interval becomes max(0.035, interval * 0.85) and stays in [0.035, 0.5] |
| StepperViewModels.StepperViewModel.constructor | Sources/Core/ViewModel/StepperViewModel.swift:57-82 | the fields take the arguments and the theme tokens, text is the default rendering, the flags match the bounds, and nothing is emitted |
| StepperViewModels.StepperViewModel.WithFormat | Sources/Core/ViewModel/StepperViewModel.swift:84-110 | as the constructor, with text rendered by the given format |
| StepperViewModels.StepperViewModel.AssignValue | Sources/Core/ViewModel/StepperViewModel.swift:47-53 | assigning value always emits $value; an equal value touches nothing else; a different one reassigns text and both flags, all four emitting once |
| StepperViewModels.StepperViewModel.CheckMinMaxValue | Sources/Core/ViewModel/StepperViewModel.swift:120-123 | both flags are assigned, and emit, on every call, and match value and bounds |
| StepperViewModels.StepperViewModel.Increment | Sources/Core/ViewModel/StepperViewModel.swift:112-114 | value becomes min(upper, value + step), with the observer's emissions, and nothing is returned |
| StepperViewModels.StepperViewModel.Decrement | Sources/Core/ViewModel/StepperViewModel.swift:116-118 | value becomes max(lower, value - step), with the observer's emissions, and nothing is returned |
| StepperViewModels.StepperViewModel.SetBounds | Sources/Core/ViewModel/StepperViewModel.swift:54 | a bounds change leaves value, both flags and the emissions as they were |
| StepperViewModels.StepperViewModel.SetStep | Sources/Core/ViewModel/StepperViewModel.swift:55 | the step is stored and the invariant kept |
| StepperViewModels.StepperViewModel.SetEnabled | Sources/Core/ViewModel/StepperViewModel.swift:29-34 | every assignment, equal or not, re-derives dim and the background, each emitting once |
| StepperViewModels.StepperViewModel.SetTheme | Sources/Core/ViewModel/StepperViewModel.swift:36-46 | every token field and dim are reassigned from the new theme and the current isEnabled, each emitting once |
| StepperViewModels.StepperViewModel.ApplyTheme | Sources/Core/ViewModel/StepperViewModel.swift:37-45 | the observer of theme: the token fields follow the theme and the current isEnabled, emitting in the order written |
| StepperViewModels.StepperViewModel.SetFormat | Sources/Core/ViewModel/StepperViewModel.swift:125-135 | the given format, or the default rendering when none, is installed; text is reassigned to its output and emits even when unchanged |
| AutoRepeat.Repeat | Sources/Core/View/SwiftUI/StepperControl.swift:225-240 | a run writes one value more than it completes sleeps, and completes no more sleeps than are offered |
| AutoRepeat.RepeatLast | Sources/Core/View/SwiftUI/StepperControl.swift:229-236 | a tick that changes the binding's value not at all, or a sleep that does not complete, ends the run after that tick |
| AutoRepeat.RepeatNext | Sources/Core/View/SwiftUI/StepperControl.swift:226-239 | otherwise the run sleeps for the current interval and carries on from the new value with the decayed interval |
| AutoRepeat.RepeatPass | Sources/Core/View/SwiftUI/StepperControl.swift:226-239 | one pass of a loop that has produced a prefix of a run either completes the whole run, ending on the value it wrote, or leaves exactly the run that resumes before the next sleep from that value with the interval decayed |
| AutoRepeat.RepeatTicks | Sources/Core/View/SwiftUI/StepperControl.swift:227-228 | each written value is exactly one step, in the fixed direction, from the value before it |
| AutoRepeat.RepeatStopsAfterNoOp | Sources/Core/View/SwiftUI/StepperControl.swift:229-231 | every tick but the last changes the bound value, so no tick follows one that changed nothing |
| AutoRepeat.RepeatSleepsDecay | Sources/Core/View/SwiftUI/StepperControl.swift:232-238 | the j-th completed sleep after the point a run resumes from lasts the interval at that point decayed j times, since the interval decays only after a completed sleep |
| AutoRepeat.RepeatStaysWithinBounds | Sources/Core/View/SwiftUI/StepperControl.swift:225-240 | a run that starts within the bounds, with a non-negative step, writes only values within the bounds, in either direction |
| AutoRepeat.RepeatStaysBounded | Sources/Core/View/SwiftUI/StepperControl.swift:225-240 | an incrementing run never writes above the upper bound, a decrementing one never below the lower bound |
| AutoRepeat.RepeatReachesUpperBound | Sources/Core/View/SwiftUI/StepperControl.swift:225-240 | a press held while enough sleeps complete reaches the upper bound, and its last tick changes nothing |
| AutoRepeat.RepeatFromEight | Sources/Core/View/SwiftUI/StepperControl.swift:225-240 | from 8 with step 1 in [0, 10], with three sleeps on offer, the run writes 9, 10 and 10 after sleeps of 0.5 s and 0.425 s: the tick that changes nothing ends it while the press is still held |
| Control.StepperControl.IncrementAccessibilityLabel | Sources/Core/View/SwiftUI/StepperControl.swift:68-73 | the result carries the new increment label with every other property kept, and it is the same control exactly when the label was already set |
| Control.StepperControl.DecrementAccessibilityLabel | Sources/Core/View/SwiftUI/StepperControl.swift:75-80 | the result carries the new decrement label with every other property kept, and it is the same control exactly when the label was already set |
| Control.LabelModifiersSettle | Sources/Core/View/SwiftUI/StepperControl.swift:68-80 | applying a label modifier twice is applying it once, and of two labels the later wins |
| Control.LabelModifiersCommute | Sources/Core/View/SwiftUI/StepperControl.swift:68-80 | the increment and decrement label modifiers commute |
| Control.StartUpdatingOnce | Sources/Core/View/SwiftUI/StepperControl.swift:210-216 | starting is ignored while tracking, otherwise starts one task in the given direction, and a second start changes nothing |
| Control.StopUpdatingIdempotent | Sources/Core/View/SwiftUI/StepperControl.swift:218-223 | stopping leaves no tracking, no task and the interval at 0.5, and stopping twice equals stopping once |
| Control.StopCancelsStartedTask | Sources/Core/View/SwiftUI/StepperControl.swift:210-223 | stopping after a start cancels the task that start spawned |
| Control.StepperControlInternal.constructor | Sources/Core/View/SwiftUI/StepperControl.swift:87-104 | the new view is not tracking and holds no task, with the given binding, view model and custom labels |
| Control.StepperControlInternal.Update | Sources/Core/View/SwiftUI/StepperControl.swift:132-135 | update(isEnabled:) forwards isEnabled to the view model: an equal value changes nothing; a change sets dim and the background from the theme for the new isEnabled and emits $dim then $backgroundColor |
| Control.StepperControlInternal.DecrementAccessibilityLabel | Sources/Core/View/SwiftUI/StepperControl.swift:175-177 | the custom decrement label when set, otherwise the view model's label for the current value |
| Control.StepperControlInternal.IncrementAccessibilityLabel | Sources/Core/View/SwiftUI/StepperControl.swift:206-208 | the custom increment label when set, otherwise the view model's label for the current value |
| Control.StepperControlInternal.StartUpdating | Sources/Core/View/SwiftUI/StepperControl.swift:210-216 | the new tracking state is AfterStart of the old one |
| Control.StepperControlInternal.StopUpdating | Sources/Core/View/SwiftUI/StepperControl.swift:218-223 | the new tracking state is AfterStop of the old one |
| Control.StepperControlInternal.TapIncrement | Sources/Core/View/SwiftUI/StepperControl.swift:186-191 | a tap while tracking only stops, leaving the binding and the view model's value, text, flags and emissions as they were; otherwise it increments the view model, writes the result to the binding, then stops |
| Control.StepperControlInternal.TapDecrement | Sources/Core/View/SwiftUI/StepperControl.swift:155-160 | a tap while tracking only stops, leaving the binding and the view model's value, text, flags and emissions as they were; otherwise it decrements the view model, writes the result to the binding, then stops |
| Control.StepperControlInternal.LongPressEnded | Sources/Core/View/SwiftUI/StepperControl.swift:166-203 | the end of a long press on either button (the decrement gesture at lines 166-172, the increment gesture at lines 197-203) starts updating in that button's direction unless already tracking |
| Control.StepperControlInternal.Advance | Sources/Core/View/SwiftUI/StepperControl.swift:228 | the binding and the view model both hold one tick, in the given direction, from the view model's value, with the tracking state kept, and the view model's text, flags and emissions are those of assigning that value |
| Control.StepperControlInternal.SleepAfterTick | Sources/Core/View/SwiftUI/StepperControl.swift:229-238 | after the tick: it ends the loop exactly when the tick changed nothing or the sleep is not completed, and then tracking is over with the task cancelled and the interval reset; otherwise the sleep lasts the current interval, which then decays; the value side is untouched |
| Control.StepperControlInternal.Iterate | Sources/Core/View/SwiftUI/StepperControl.swift:226-239 | one pass writes one tick to the binding, and the view model's text, flags and emissions are those of assigning that tick's value (the rest of the pass touches only tracking and the interval); it ends the loop exactly when the tick changed nothing or the sleep is not completed, and then tracking is over with the task cancelled and the interval reset; otherwise the sleep lasts the current interval, which then decays; what the loop has produced plus the run that resumes afterwards is still the whole run of Repeat |
| Control.StepperControlInternal.UpdateRepeatedly | Sources/Core/View/SwiftUI/StepperControl.swift:225-240 | while tracking, the values written and the sleeps completed are exactly those of Repeat, the binding ends on the last value, and the control ends stopped with the interval at 0.5; when not tracking, nothing happens |
| Scenarios.IncrementFromMinimum | Tests/UnitTests/StepperControlViewModelTests.swift:131-166 | from 0 with step 1, increment gives 1 and emits $value, $text and $isMinValue only |
| Scenarios.IncrementOverflow | Tests/UnitTests/StepperControlViewModelTests.swift:205-240 | from 9 with step 4 in [0, 10], increment gives exactly 10 and emits $value, $text and $isMaxValue |
| Scenarios.IncrementAtMaximum | Tests/UnitTests/StepperControlViewModelTests.swift:242-277 | at 10 with step 4, increment is clipped back to 10 and emits $value alone |
| Scenarios.DecrementOverflow | Tests/UnitTests/StepperControlViewModelTests.swift:353-388 | from 1 with step 5, decrement gives exactly 0 with isMinValue set |
| Scenarios.SetValueOverflow | Tests/UnitTests/StepperControlViewModelTests.swift:668-703 | setValue(11) in [0, 10] keeps 11 and sets isMaxValue |
| Scenarios.BoundsChange | Tests/UnitTests/StepperControlViewModelTests.swift:773-808 | value 1 with bounds changed to [2, 8] stays 1, sets isMinValue and emits only $isMinValue |
| Scenarios.Disable | Tests/UnitTests/StepperControlViewModelTests.swift:561-594 | disabling sets dim3 and onSurface at dim5, each emitting once |
| Scenarios.SetFormatEqualText | Tests/UnitTests/StepperControlViewModelTests.swift:461-490 | a format rendering the same string emits nothing |
| Scenarios.OlderBoundsChange | Sources/Core/ViewModel/StepperViewModel.swift:54 | in the older view model, the same bounds change leaves isMinValue false and emits nothing |
| Scenarios.OlderEqualEnabled | Sources/Core/ViewModel/StepperViewModel.swift:29-34 | in the older view model, an equal isEnabled still emits on $dim and $backgroundColor |
| Scenarios.HoldIncrementFromEight | Sources/Core/View/SwiftUI/StepperControl.swift:166-240 | a long press on increment from 8, still held after three sleeps, writes 9, 10, 10, sleeps 0.5 s and 0.425 s, ends at 10, and stops with the interval reset |
| Scenarios.TapWhileTracking | Sources/Core/View/SwiftUI/StepperControl.swift:186-191 | a tap during a long press leaves the value and cancels the task |

## Left out

- **The UIKit adapters** (`StepperUIControl`, `StepperUIView`) are layout, Combine
  subscriptions and control-event dispatch.
- **`StepperView`** and its main-queue forwarding of `isEnabled` are threading glue
  over `StepperViewModel`.
- **`StepperButtonsConfiguration`** has no behaviour.
- **The SwiftUI side of `StepperControl`:**
  - the view bodies and the rendering modifiers;
  - the `LongPressGesture` timing, including its `minimumDuration`;
  - `disabled(isMinValue)` and `disabled(isMaxValue)`. Once a run writes the bound it
    moves towards, the held button is disabled, so its release tap may never fire. A
    `false` in `wakes` then stands for a stop the source may not perform. In the source
    that sleep completes instead, and one more no-op tick runs, which emits `$value`
    once more before the loop stops.

  A tap and the end of a long press are modelled as method calls.
- **`StepperControl`'s initialisers** are not modelled separately. They only build the
  view model with the binding's current value, and
  `Control.StepperControlInternal.constructor` starts from such a view model.
- **Task scheduling and cancellation.**
  - The repeat task's body runs as one sequential call that starts right after
    `startUpdating`.
  - Overlap of an old, cancelled task with a newly started one is not modelled.
  - `Task.sleep` is replaced by the `wakes` input. A sleep ends early only through the
    released press's tap.
  - The conversion of the interval to whole nanoseconds is not modelled.
  - A release tap that arrives after a sleep has completed but before the task resumes
    is not modelled. In that window the tap's `stopUpdating` resets the interval to
    0.5, the resumed task still decays it, and the loop then exits with the interval
    at 0.425 rather than 0.5.
- **Binary floating point.** Values and intervals are exact reals. Drift from repeated
  steps, infinities, `greatestFiniteMagnitude` and the rounding of `* 0.85` are not
  captured.
- **Concrete strings.** `"\(value)"` and `FormatStyle` outputs such as "5.0" or "$5.00"
  are not modelled; formatters are arbitrary `real -> string` functions.
- **Theme tokens** are opaque values. Token resolution and the identity comparison of
  token objects are out of scope.
- **Direct writes to `StepperViewModel`'s public derived fields** (`text`, the flags,
  `dim` and the token fields are `@Published var` there) are not modelled. Only the
  view model's own operations are.
- Control.StepperControlInternal.UpdateRepeatedly: does not state the view model's
  emissions over the whole loop; those of each pass are stated by
  `Control.StepperControlInternal.Iterate`. Accumulating them across passes makes the
  proof of the loop too costly.
- **Requirements on `step`.** `step` is any real. Only the stepping lemmas
  (`Stepping.SteppingStaysInBounds`, `Stepping.IncrementedIsNoOpIff`,
  `Stepping.DecrementedIsNoOpIff`, `Stepping.StepsAreInverse`, `AutoRepeat.RepeatStaysWithinBounds`,
  `AutoRepeat.RepeatReachesUpperBound`) assume it is non-negative or positive.
