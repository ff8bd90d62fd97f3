/**
 * The SwiftUI `StepperControl`: its accessibility-label modifiers, and the tap and
 * press-and-hold logic of `StepperControlInternal` that drives a
 * `StepperControlViewModel` and writes the results to the bound value.
 */
module Control {
  import opened Options
  import opened Stepping
  import opened ControlViewModel
  import opened AutoRepeat

  /**
   * The stored properties of `StepperControl`: the binding's current value, the view
   * model it owns and the two optional custom accessibility labels.
   */
  datatype StepperControl = StepperControl(
    value: real,
    viewModel: StepperControlViewModel,
    decrementAccessibilityLabel: Option<string>,
    incrementAccessibilityLabel: Option<string>)
  {
    /** `incrementAccessibilityLabel(_:)`: the same control when the label is already set, otherwise a copy with that label. */
    function IncrementAccessibilityLabel(newLabel: string): (r: StepperControl)
      ensures r.incrementAccessibilityLabel == Some(newLabel)
      ensures r.value == value && r.viewModel == viewModel
      ensures r.decrementAccessibilityLabel == decrementAccessibilityLabel
      ensures incrementAccessibilityLabel == Some(newLabel) <==> r == this
    {
      if Some(newLabel) == incrementAccessibilityLabel then this
      else this.(incrementAccessibilityLabel := Some(newLabel))
    }

    /** `decrementAccessibilityLabel(_:)`: the same control when the label is already set, otherwise a copy with that label. */
    function DecrementAccessibilityLabel(newLabel: string): (r: StepperControl)
      ensures r.decrementAccessibilityLabel == Some(newLabel)
      ensures r.value == value && r.viewModel == viewModel
      ensures r.incrementAccessibilityLabel == incrementAccessibilityLabel
      ensures decrementAccessibilityLabel == Some(newLabel) <==> r == this
    {
      if Some(newLabel) == decrementAccessibilityLabel then this
      else this.(decrementAccessibilityLabel := Some(newLabel))
    }
  }

  /** Applying a label modifier twice is applying it once, and the later of two labels wins. */
  lemma LabelModifiersSettle(c: StepperControl, a: string, b: string)
    ensures c.IncrementAccessibilityLabel(a).IncrementAccessibilityLabel(a) == c.IncrementAccessibilityLabel(a)
    ensures c.DecrementAccessibilityLabel(a).DecrementAccessibilityLabel(a) == c.DecrementAccessibilityLabel(a)
    ensures c.IncrementAccessibilityLabel(a).IncrementAccessibilityLabel(b) == c.IncrementAccessibilityLabel(b)
    ensures c.DecrementAccessibilityLabel(a).DecrementAccessibilityLabel(b) == c.DecrementAccessibilityLabel(b)
  {
  }

  /** The two label modifiers touch different labels, so their order does not matter. */
  lemma LabelModifiersCommute(c: StepperControl, a: string, b: string)
    ensures c.IncrementAccessibilityLabel(a).DecrementAccessibilityLabel(b)
         == c.DecrementAccessibilityLabel(b).IncrementAccessibilityLabel(a)
  {
  }

  /**
   * The auto-repeat state of `StepperControlInternal`: `isTracking`, the direction of
   * the task held in `updateTask` (if any), whether the task last started has been
   * cancelled, and the view model's repeat interval.
   */
  datatype Tracking = Tracking(isTracking: bool, updateTask: Option<bool>, cancelled: bool, interval: real)

  /** A task exists exactly while tracking, a live task is not cancelled, and the interval lies in its range. */
  predicate TrackingValid(s: Tracking)
  {
    && s.isTracking == s.updateTask.Some?
    && (s.updateTask.Some? ==> !s.cancelled)
    && MinimumInterval <= s.interval <= InitialInterval
  }

  /** The state after `startUpdating(isIncrement:)`. */
  function AfterStart(s: Tracking, isIncrement: bool): Tracking
  {
    if s.isTracking then s
    else s.(isTracking := true, updateTask := Some(isIncrement), cancelled := false)
  }

  /** The state after `stopUpdating()`. */
  function AfterStop(s: Tracking): Tracking
  {
    Tracking(false, None, s.cancelled || s.updateTask.Some?, InitialInterval)
  }

  /** Starting is ignored while tracking; otherwise it starts one task in the given direction, and it keeps the state valid. */
  lemma StartUpdatingOnce(s: Tracking, isIncrement: bool, again: bool)
    requires TrackingValid(s)
    ensures TrackingValid(AfterStart(s, isIncrement))
    ensures AfterStart(AfterStart(s, isIncrement), again) == AfterStart(s, isIncrement)
    ensures s.isTracking <==> AfterStart(s, isIncrement) == s
    ensures s.isTracking || AfterStart(s, isIncrement).updateTask == Some(isIncrement)
  {
  }

  /** Stopping twice gives the same state as stopping once, and it keeps the state valid. */
  lemma StopUpdatingIdempotent(s: Tracking)
    requires TrackingValid(s)
    ensures TrackingValid(AfterStop(s))
    ensures AfterStop(AfterStop(s)) == AfterStop(s)
    ensures !AfterStop(s).isTracking && AfterStop(s).interval == InitialInterval
  {
  }

  /** Stopping a started press cancels the task it started. */
  lemma StopCancelsStartedTask(s: Tracking, isIncrement: bool)
    requires TrackingValid(s)
    ensures AfterStop(AfterStart(s, isIncrement)).cancelled
  {
  }

  /** The private view that owns the buttons, with the `@Binding` value and the `@State` flags. */
  class StepperControlInternal {
    /** The `@Binding` value; it is written by taps and by the repeat loop, separately from `viewModel.value`. */
    var value: real
    var isTracking: bool
    /** `updateTask`, represented by the direction of the task it holds. */
    var updateTask: Option<bool>
    /** Whether the task last started has been cancelled. */
    var updateTaskCancelled: bool
    const viewModel: StepperControlViewModel
    const customDecrementAccessibilityLabel: Option<string>
    const customIncrementAccessibilityLabel: Option<string>

    function Snapshot(): Tracking
      reads this, viewModel
    {
      Tracking(isTracking, updateTask, updateTaskCancelled, viewModel.interval)
    }

    ghost predicate Valid()
      reads this, viewModel
    {
      viewModel.Valid() && TrackingValid(Snapshot())
    }

    constructor (value: real, viewModel: StepperControlViewModel,
                 customDecrementAccessibilityLabel: Option<string>,
                 customIncrementAccessibilityLabel: Option<string>)
      requires viewModel.Valid()
      ensures Valid()
      ensures this.value == value && this.viewModel == viewModel
      ensures this.customDecrementAccessibilityLabel == customDecrementAccessibilityLabel
      ensures this.customIncrementAccessibilityLabel == customIncrementAccessibilityLabel
      ensures !isTracking && updateTask == None && !updateTaskCancelled
    {
      this.value := value;
      this.viewModel := viewModel;
      this.customDecrementAccessibilityLabel := customDecrementAccessibilityLabel;
      this.customIncrementAccessibilityLabel := customIncrementAccessibilityLabel;
      isTracking := false;
      updateTask := None;
      updateTaskCancelled := false;
    }

    /** `update(isEnabled:)`: forwards the environment's `isEnabled` to the view model. */
    method Update(isEnabled: bool)
      requires Valid()
      modifies viewModel`isEnabled, viewModel`dim, viewModel`backgroundColor, viewModel`emitted
      ensures Valid() && viewModel.isEnabled == isEnabled
      ensures old(viewModel.isEnabled) == isEnabled ==> unchanged(viewModel)
      ensures old(viewModel.isEnabled) != isEnabled ==>
        && viewModel.dim == Theming.DimFor(viewModel.theme, isEnabled)
        && viewModel.backgroundColor == Theming.BackgroundFor(viewModel.theme, isEnabled)
        && viewModel.emitted == old(viewModel.emitted) + [Publishing.Dim, Publishing.BackgroundColor]
    {
      viewModel.SetEnabled(isEnabled);
    }

    /** The decrement button's label: the custom one when set, otherwise the view model's. */
    function DecrementAccessibilityLabel(): (r: string)
      requires Valid()
      reads this, viewModel
      ensures customDecrementAccessibilityLabel.Some? ==> r == customDecrementAccessibilityLabel.value
      ensures customDecrementAccessibilityLabel.None? ==>
        r == DecrementLabel(viewModel.formatter(viewModel.value))
    {
      if customDecrementAccessibilityLabel.Some? then customDecrementAccessibilityLabel.value
      else viewModel.DecrementAccessibilityLabel()
    }

    /** The increment button's label: the custom one when set, otherwise the view model's. */
    function IncrementAccessibilityLabel(): (r: string)
      requires Valid()
      reads this, viewModel
      ensures customIncrementAccessibilityLabel.Some? ==> r == customIncrementAccessibilityLabel.value
      ensures customIncrementAccessibilityLabel.None? ==>
        r == IncrementLabel(viewModel.formatter(viewModel.value))
    {
      if customIncrementAccessibilityLabel.Some? then customIncrementAccessibilityLabel.value
      else viewModel.IncrementAccessibilityLabel()
    }

    /** Begins tracking and spawns the repeat task, unless already tracking. */
    method StartUpdating(isIncrement: bool)
      requires Valid()
      modifies this`isTracking, this`updateTask, this`updateTaskCancelled
      ensures Valid()
      ensures Snapshot() == AfterStart(old(Snapshot()), isIncrement)
    {
      if isTracking {
        return;
      }
      isTracking := true;
      updateTask := Some(isIncrement);
      updateTaskCancelled := false;
    }

    /** Ends tracking, cancels and drops the task, and resets the interval. */
    method StopUpdating()
      requires Valid()
      modifies this`isTracking, this`updateTask, this`updateTaskCancelled, viewModel`interval
      ensures Valid()
      ensures Snapshot() == AfterStop(old(Snapshot()))
    {
      isTracking := false;
      if updateTask.Some? {
        updateTaskCancelled := true;
      }
      updateTask := None;
      viewModel.ResetInterval();
    }

    /** The increment button's tap: one step when not tracking, then stop updating in every case. */
    method TapIncrement()
      requires Valid()
      modifies this`value, this`isTracking, this`updateTask, this`updateTaskCancelled,
               viewModel`value, viewModel`text, viewModel`isMinValue, viewModel`isMaxValue,
               viewModel`emitted, viewModel`interval
      ensures Valid()
      ensures Snapshot() == AfterStop(old(Snapshot()))
      ensures old(isTracking) ==> value == old(value) && viewModel.ValueUntouched()
      ensures !old(isTracking) ==>
        value == Incremented(old(viewModel.value), viewModel.step, viewModel.bounds)
        && viewModel.ValueAssigned(value)
    {
      if !isTracking {
        value := viewModel.Increment();
      }
      StopUpdating();
    }

    /** The decrement button's tap: one step when not tracking, then stop updating in every case. */
    method TapDecrement()
      requires Valid()
      modifies this`value, this`isTracking, this`updateTask, this`updateTaskCancelled,
               viewModel`value, viewModel`text, viewModel`isMinValue, viewModel`isMaxValue,
               viewModel`emitted, viewModel`interval
      ensures Valid()
      ensures Snapshot() == AfterStop(old(Snapshot()))
      ensures old(isTracking) ==> value == old(value) && viewModel.ValueUntouched()
      ensures !old(isTracking) ==>
        value == Decremented(old(viewModel.value), viewModel.step, viewModel.bounds)
        && viewModel.ValueAssigned(value)
    {
      if !isTracking {
        value := viewModel.Decrement();
      }
      StopUpdating();
    }

    /** The end of a long press on either button: starts updating in that direction unless tracking. */
    method LongPressEnded(isIncrement: bool)
      requires Valid()
      modifies this`isTracking, this`updateTask, this`updateTaskCancelled
      ensures Valid()
      ensures Snapshot() == AfterStart(old(Snapshot()), isIncrement)
    {
      if isTracking {
        return;
      }
      StartUpdating(isIncrement);
    }

    /** The tick of one pass: `self.value = isIncrement ? viewModel.increment() : viewModel.decrement()`. */
    method Advance(isIncrement: bool)
      requires Valid()
      modifies this`value, viewModel`value, viewModel`text, viewModel`isMinValue, viewModel`isMaxValue,
               viewModel`emitted
      ensures Valid() && Snapshot() == old(Snapshot())
      ensures value == viewModel.value == Tick(isIncrement, old(viewModel.value), viewModel.step, viewModel.bounds)
      ensures viewModel.ValueAssigned(value)
    {
      if isIncrement {
        value := viewModel.Increment();
      } else {
        value := viewModel.Decrement();
      }
    }

    /**
     * One pass of the repeat loop: a tick written to the binding, a stop when it
     * changed nothing, then the sleep. `wakes[k]` says whether this sleep completes; a
     * sleep that does not complete is the press being released, whose tap stops
     * updating and so cancels the sleep. Returns the duration of a completed sleep.
     * With `written` and `sleeps` what the loop has produced so far of the run `whole`,
     * and the rest of it the run that resumes here, the pass either completes `whole`
     * or leaves the rest to the run that resumes before sleep `k + 1`.
     */
    method Iterate(isIncrement: bool, wakes: seq<bool>, k: nat,
                   ghost written: seq<real>, ghost sleeps: seq<real>, ghost whole: Run)
        returns (slept: Option<real>)
      requires Valid() && isTracking && k <= |wakes|
      requires var rest := Repeat(isIncrement, viewModel.step, viewModel.bounds,
                                  value, viewModel.value, viewModel.interval, wakes, k);
        written + rest.values == whole.values && sleeps + rest.sleeps == whole.sleeps
      modifies this`value, this`isTracking, this`updateTask, this`updateTaskCancelled,
               viewModel`value, viewModel`text, viewModel`isMinValue, viewModel`isMaxValue,
               viewModel`emitted, viewModel`interval
      ensures Valid() && viewModel.step == old(viewModel.step) && viewModel.bounds == old(viewModel.bounds)
      ensures value == viewModel.value == Tick(isIncrement, old(viewModel.value), viewModel.step, viewModel.bounds)
      ensures viewModel.ValueAssigned(value)
      ensures slept.None? <==> old(value) == value || k == |wakes| || !wakes[k]
      ensures slept.None? ==>
        !isTracking && updateTask == None && updateTaskCancelled && viewModel.interval == InitialInterval
      ensures slept.Some? ==>
        && isTracking && updateTask == old(updateTask) && updateTaskCancelled == old(updateTaskCancelled)
        && slept.value == old(viewModel.interval) && viewModel.interval == Decayed(old(viewModel.interval))
      ensures slept.None? ==>
        && written + [value] == whole.values && sleeps == whole.sleeps
        && whole.values[|whole.values| - 1] == value
      ensures slept.Some? ==>
        && k < |wakes|
        && var rest := Repeat(isIncrement, viewModel.step, viewModel.bounds,
                              value, value, viewModel.interval, wakes, k + 1);
           && (written + [value]) + rest.values == whole.values
           && (sleeps + [slept.value]) + rest.sleeps == whole.sleeps
    {
      ghost var binding, current, interval := value, viewModel.value, viewModel.interval;
      var oldValue := value;
      Advance(isIncrement);
      slept := SleepAfterTick(oldValue != value, isIncrement, wakes, k);
      RepeatPass(isIncrement, viewModel.step, viewModel.bounds, binding, current, interval, wakes, k,
                 value, slept, written, sleeps, whole);
    }

    /**
     * The rest of a pass after its tick: a stop when the tick did not `change` the
     * binding, then the sleep, as in `Iterate`. The value side of both view models is
     * left as the tick set it.
     */
    method SleepAfterTick(changed: bool, isIncrement: bool, wakes: seq<bool>, k: nat) returns (slept: Option<real>)
      requires Valid() && isTracking && k <= |wakes|
      modifies this`value, this`isTracking, this`updateTask, this`updateTaskCancelled,
               viewModel`value, viewModel`text, viewModel`isMinValue, viewModel`isMaxValue,
               viewModel`emitted, viewModel`interval
      ensures Valid() && value == old(value) && viewModel.ValueUntouched()
      ensures slept.None? <==> !changed || k == |wakes| || !wakes[k]
      ensures slept.None? ==>
        !isTracking && updateTask == None && updateTaskCancelled && viewModel.interval == InitialInterval
      ensures slept.Some? ==>
        && isTracking && updateTask == old(updateTask) && updateTaskCancelled == old(updateTaskCancelled)
        && slept.value == old(viewModel.interval) && viewModel.interval == Decayed(old(viewModel.interval))
    {
      if !changed {
        StopUpdating();
      }
      if updateTaskCancelled {
        // `Task.sleep` throws at once on a cancelled task
        slept := None;
      } else if k == |wakes| || !wakes[k] {
        // released during the sleep: the button's tap stops updating and the sleep throws
        if isIncrement {
          TapIncrement();
        } else {
          TapDecrement();
        }
        slept := None;
      } else {
        slept := Some(viewModel.interval);
        viewModel.UpdateInterval();
      }
    }

    /**
     * The body of the repeat task: passes of the loop while tracking. Returns the
     * values written to the binding and the durations of the completed sleeps, which
     * are those of `Repeat`; every way out leaves the control stopped.
     */
    method UpdateRepeatedly(isIncrement: bool, wakes: seq<bool>) returns (written: seq<real>, slept: seq<real>)
      requires Valid()
      modifies this`value, this`isTracking, this`updateTask, this`updateTaskCancelled,
               viewModel`value, viewModel`text, viewModel`isMinValue, viewModel`isMaxValue,
               viewModel`emitted, viewModel`interval
      ensures Valid()
      ensures !old(isTracking) ==> written == [] && slept == [] && unchanged(this) && unchanged(viewModel)
      ensures old(isTracking) ==>
        var run := Repeat(isIncrement, viewModel.step, viewModel.bounds,
                          old(value), old(viewModel.value), old(viewModel.interval), wakes, 0);
        && written == run.values && slept == run.sleeps
        && value == viewModel.value == run.values[|run.values| - 1]
        && Snapshot() == Tracking(false, None, true, InitialInterval)
    {
      written, slept := [], [];
      if !isTracking {
        return;
      }
      var step, bounds := viewModel.step, viewModel.bounds;
      ghost var run0 := Repeat(isIncrement, step, bounds, value, viewModel.value, viewModel.interval, wakes, 0);
      var k := 0;
      while isTracking
        invariant Valid()
        invariant 0 <= k <= |wakes|
        invariant isTracking
        invariant viewModel.step == step && viewModel.bounds == bounds
        invariant var rest := Repeat(isIncrement, viewModel.step, viewModel.bounds,
                                     value, viewModel.value, viewModel.interval, wakes, k);
          written + rest.values == run0.values && slept + rest.sleeps == run0.sleeps
        decreases |wakes| - k
      {
        var sleep := Iterate(isIncrement, wakes, k, written, slept, run0);
        written := written + [value];
        if sleep.None? {
          break;
        }
        slept := slept + [sleep.value];
        k := k + 1;
      }
    }
  }
}
