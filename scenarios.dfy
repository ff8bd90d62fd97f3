/**
 * Concrete runs of the model on the situations the unit tests of
 * `StepperControlViewModel` set up: bounds [0, 10], a fresh view model, one operation,
 * then the resulting state and what its publishers emitted.
 */
module Scenarios {
  import opened Theming
  import opened Stepping
  import opened Publishing
  import opened ControlViewModel
  import opened StepperViewModels
  import opened AutoRepeat
  import opened Control
  import opened Options

  /** `test_increment`: 0 becomes 1; `isMinValue` turns off, `isMaxValue` stays silent. */
  method IncrementFromMinimum(theme: Theme, describe: real -> string)
      returns (value: real, isMinValue: bool, isMaxValue: bool, emitted: seq<Field>)
    ensures value == 1.0 && !isMinValue && !isMaxValue
    ensures emitted == [Value, Text, IsMinValue]
  {
    var vm := new StepperControlViewModel(theme, 0.0, 1.0, Range(0.0, 10.0), describe);
    value := vm.Increment();
    isMinValue, isMaxValue, emitted := vm.isMinValue, vm.isMaxValue, vm.emitted;
  }

  /** `test_increment_overflow`: 9 by 4 is clipped to exactly 10. */
  method IncrementOverflow(theme: Theme, describe: real -> string)
      returns (value: real, isMinValue: bool, isMaxValue: bool, emitted: seq<Field>)
    ensures value == 10.0 && !isMinValue && isMaxValue
    ensures emitted == [Value, Text, IsMaxValue]
  {
    var vm := new StepperControlViewModel(theme, 9.0, 4.0, Range(0.0, 10.0), describe);
    value := vm.Increment();
    isMinValue, isMaxValue, emitted := vm.isMinValue, vm.isMaxValue, vm.emitted;
  }

  /** `test_increment_alreadyMax`: at the upper bound a step of 4 is clipped away and only `$value` emits. */
  method IncrementAtMaximum(theme: Theme, describe: real -> string)
      returns (value: real, text: string, emitted: seq<Field>)
    ensures value == 10.0 && text == describe(10.0)
    ensures emitted == [Value]
  {
    var vm := new StepperControlViewModel(theme, 10.0, 4.0, Range(0.0, 10.0), describe);
    value := vm.Increment();
    text, emitted := vm.text, vm.emitted;
  }

  /** `test_decrement_overflow`: 1 by 5 is clipped to exactly 0. */
  method DecrementOverflow(theme: Theme, describe: real -> string)
      returns (value: real, isMinValue: bool, isMaxValue: bool, emitted: seq<Field>)
    ensures value == 0.0 && isMinValue && !isMaxValue
    ensures emitted == [Value, Text, IsMinValue]
  {
    var vm := new StepperControlViewModel(theme, 1.0, 5.0, Range(0.0, 10.0), describe);
    value := vm.Decrement();
    isMinValue, isMaxValue, emitted := vm.isMinValue, vm.isMaxValue, vm.emitted;
  }

  /** `test_setValue_overflow`: `setValue` does not clamp. */
  method SetValueOverflow(theme: Theme, describe: real -> string)
      returns (value: real, text: string, isMaxValue: bool, emitted: seq<Field>)
    ensures value == 11.0 && text == describe(11.0) && isMaxValue
    ensures emitted == [Value, Text, IsMaxValue]
  {
    var vm := new StepperControlViewModel(theme, 5.0, 1.0, Range(0.0, 10.0), describe);
    vm.SetValue(11.0);
    value, text, isMaxValue, emitted := vm.value, vm.text, vm.isMaxValue, vm.emitted;
  }

  /** `test_didSet_bounds`: the flags follow the new bounds and the value stays out of them. */
  method BoundsChange(theme: Theme, describe: real -> string)
      returns (value: real, isMinValue: bool, isMaxValue: bool, emitted: seq<Field>)
    ensures value == 1.0 && isMinValue && !isMaxValue
    ensures emitted == [IsMinValue]
  {
    var vm := new StepperControlViewModel(theme, 1.0, 1.0, Range(0.0, 10.0), describe);
    vm.SetBounds(Range(2.0, 8.0));
    value, isMinValue, isMaxValue, emitted := vm.value, vm.isMinValue, vm.isMaxValue, vm.emitted;
  }

  /** `test_isEnabled`: disabling emits once on `$dim` and once on `$backgroundColor`. */
  method Disable(theme: Theme, describe: real -> string)
      returns (dim: real, backgroundColor: ColorToken, emitted: seq<Field>)
    ensures dim == theme.dim3 && backgroundColor == Opacity(theme.onSurface, theme.dim5)
    ensures emitted == [Dim, BackgroundColor]
  {
    var vm := new StepperControlViewModel(theme, 5.0, 1.0, Range(0.0, 10.0), describe);
    vm.SetEnabled(false);
    dim, backgroundColor, emitted := vm.dim, vm.backgroundColor, vm.emitted;
  }

  /** `test_setFormat_equalText`: a formatter that renders the same string emits nothing. */
  method SetFormatEqualText(theme: Theme, describe: real -> string, format: real -> string)
      returns (text: string, emitted: seq<Field>)
    requires format(5.0) == describe(5.0)
    ensures text == describe(5.0) && emitted == []
  {
    var vm := new StepperControlViewModel(theme, 5.0, 1.0, Range(0.0, 10.0), describe);
    vm.SetFormat(format);
    text, emitted := vm.text, vm.emitted;
  }

  /** The older view model: its flags are stale after a bounds change that the newer one would report. */
  method OlderBoundsChange(theme: Theme, describe: real -> string)
      returns (isMinValue: bool, emitted: seq<Field>)
    ensures !isMinValue && emitted == []
  {
    var vm := new StepperViewModel(theme, 1.0, 1.0, Range(0.0, 10.0), describe);
    vm.SetBounds(Range(2.0, 8.0));
    isMinValue, emitted := vm.isMinValue, vm.emitted;
  }

  /** The older view model: an equal `isEnabled` still emits on both of its publishers. */
  method OlderEqualEnabled(theme: Theme, describe: real -> string)
      returns (dim: real, emitted: seq<Field>)
    ensures dim == theme.dimNone && emitted == [Dim, BackgroundColor]
  {
    var vm := new StepperViewModel(theme, 5.0, 1.0, Range(0.0, 10.0), describe);
    vm.SetEnabled(true);
    dim, emitted := vm.dim, vm.emitted;
  }

  /**
   * Holding the increment button from 8 with step 1 in [0, 10]: 9 and 10 are written,
   * the sleeps last 0.5 s and 0.425 s, and the third tick changes nothing and stops
   * although the press is still held.
   */
  method HoldIncrementFromEight(theme: Theme, describe: real -> string)
      returns (written: seq<real>, slept: seq<real>, value: real, isTracking: bool, interval: real)
    ensures written == [9.0, 10.0, 10.0] && slept == [0.5, 0.425]
    ensures value == 10.0 && !isTracking && interval == InitialInterval
  {
    var vm := new StepperControlViewModel(theme, 8.0, 1.0, Range(0.0, 10.0), describe);
    var control := new StepperControlInternal(8.0, vm, None, None);
    control.LongPressEnded(true);
    RepeatFromEight();
    written, slept := control.UpdateRepeatedly(true, [true, true, true]);
    value, isTracking, interval := control.value, control.isTracking, vm.interval;
  }

  /** A tap while tracking only stops: the value is not stepped. */
  method TapWhileTracking(theme: Theme, describe: real -> string)
      returns (value: real, isTracking: bool, cancelled: bool)
    ensures value == 8.0 && !isTracking && cancelled
  {
    var vm := new StepperControlViewModel(theme, 8.0, 1.0, Range(0.0, 10.0), describe);
    var control := new StepperControlInternal(8.0, vm, None, None);
    control.LongPressEnded(true);
    control.TapIncrement();
    value, isTracking, cancelled := control.value, control.isTracking, control.updateTaskCancelled;
  }
}
