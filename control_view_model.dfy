/**
 * The value-state engine of `StepperControl`: a bounded value moved by clamped steps,
 * with derived text, min/max flags, enabled/disabled dimming and the repeat interval of
 * press-and-hold. Each derived `@Published` field is assigned only when its computed
 * value differs from the stored one, except the theme tokens, which a theme change
 * reassigns unconditionally.
 */
module ControlViewModel {
  import opened Theming
  import opened Stepping
  import opened Publishing

  // ---------------------------------------------------------------------------
  // Repeat interval

  /** The interval a press-and-hold starts with, in seconds. */
  const InitialInterval: real := 0.5
  /** The shortest interval the acceleration reaches, in seconds. */
  const MinimumInterval: real := 0.035
  /** The factor each completed tick shrinks the interval by. */
  const DecayFactor: real := 0.85

  /** The interval after one `updateInterval`: `max(0.035, interval * 0.85)`. */
  function Decayed(interval: real): (r: real)
    ensures MinimumInterval <= r && interval * DecayFactor <= r
    ensures r == MinimumInterval || r == interval * DecayFactor
    ensures interval <= InitialInterval ==> r <= InitialInterval
    ensures MinimumInterval <= interval ==> r <= interval
  {
    Max(MinimumInterval, interval * DecayFactor)
  }

  /** The interval after `n` calls of `updateInterval`. */
  function DecayedTimes(interval: real, n: nat): real
    decreases n
  {
    if n == 0 then interval else DecayedTimes(Decayed(interval), n - 1)
  }

  /** `interval * 0.85^n`, the geometric sequence the decay follows above its floor. */
  function Scaled(interval: real, n: nat): real
    decreases n
  {
    if n == 0 then interval else Scaled(interval * DecayFactor, n - 1)
  }

  lemma {:induction false} ScaledShrinks(interval: real, n: nat)
    requires 0.0 <= interval
    ensures 0.0 <= Scaled(interval, n) <= interval
    decreases n
  {
    if n > 0 {
      ScaledShrinks(interval * DecayFactor, n - 1);
    }
  }

  /** Repeated decay is geometric until it hits the floor: `max(0.035, interval * 0.85^n)`. */
  lemma {:induction false} DecayedTimesClosedForm(interval: real, n: nat)
    requires MinimumInterval <= interval
    ensures DecayedTimes(interval, n) == Max(MinimumInterval, Scaled(interval, n))
    decreases n
  {
    if n > 0 {
      var d := Decayed(interval);
      DecayedTimesClosedForm(d, n - 1);
      if interval * DecayFactor >= MinimumInterval {
        assert d == interval * DecayFactor;
      } else {
        assert d == MinimumInterval;
        ScaledShrinks(MinimumInterval, n - 1);
        ScaledShrinks(interval * DecayFactor, n - 1);
      }
    }
  }

  /** From 0.5, the interval reaches its floor at exactly the 17th decay and stays there. */
  lemma DecayReachesFloor(n: nat)
    ensures DecayedTimes(InitialInterval, n) == MinimumInterval <==> 17 <= n
  {
    DecayedTimesClosedForm(InitialInterval, n);
    var s16 := Scaled(InitialInterval, 16);
    assert s16
        == Scaled(0.425, 15)
        == Scaled(0.36125, 14)
        == Scaled(0.3070625, 13)
        == Scaled(0.261003125, 12)
        == Scaled(0.22185265625, 11)
        == Scaled(0.1885747578125, 10)
        == Scaled(0.160288544140625, 9)
        == Scaled(0.13624526251953125, 8)
        == Scaled(0.1158084731416015625, 7)
        == Scaled(0.098437202170361328125, 6)
        == Scaled(0.08367162184480712890625, 5)
        == Scaled(0.0711208785680860595703125, 4)
        == Scaled(0.060452746782873150634765625, 3)
        == Scaled(0.05138483476544217803955078125, 2)
        == Scaled(0.0436771095506258513336181640625, 1)
        == Scaled(0.037125543118031973633575439453125, 0)
        == 0.037125543118031973633575439453125;
    assert Scaled(s16, 1) == 0.03155671165032717758853912353515625;
    if 17 <= n {
      ScaledSplit(InitialInterval, 16, n - 16);
      ScaledSplit(s16, 1, n - 17);
      ScaledShrinks(Scaled(s16, 1), n - 17);
    } else {
      ScaledSplit(InitialInterval, n, 16 - n);
      ScaledShrinks(InitialInterval, n);
      ScaledShrinks(Scaled(InitialInterval, n), 16 - n);
    }
  }

  lemma {:induction false} ScaledSplit(interval: real, m: nat, k: nat)
    ensures Scaled(interval, m + k) == Scaled(Scaled(interval, m), k)
    decreases m
  {
    if m > 0 {
      ScaledSplit(interval * DecayFactor, m - 1, k);
    }
  }

  /** However many ticks complete, the interval stays within [0.035, 0.5]. */
  lemma {:induction false} DecayedTimesInRange(interval: real, n: nat)
    requires MinimumInterval <= interval <= InitialInterval
    ensures MinimumInterval <= DecayedTimes(interval, n) <= InitialInterval
    ensures DecayedTimes(interval, n) <= interval
    decreases n
  {
    if n > 0 {
      DecayedTimesInRange(Decayed(interval), n - 1);
    }
  }

  // ---------------------------------------------------------------------------
  // Accessibility labels

  /** The label of the decrement button for the displayed text. */
  function DecrementLabel(text: string): (r: string)
    ensures |r| == |text| + 18
    ensures r[..7] == "Value: " && r[7..7 + |text|] == text && r[7 + |text|..] == ", Decrement"
  {
    "Value: " + text + ", Decrement"
  }

  /** The label of the increment button for the displayed text. */
  function IncrementLabel(text: string): (r: string)
    ensures |r| == |text| + 18
    ensures r[..7] == "Value: " && r[7..7 + |text|] == text && r[7 + |text|..] == ", Increment"
  {
    "Value: " + text + ", Increment"
  }

  /** A label names its text unambiguously: equal labels come from equal texts. */
  lemma LabelsDetermineText(a: string, b: string)
    ensures DecrementLabel(a) == DecrementLabel(b) ==> a == b
    ensures IncrementLabel(a) == IncrementLabel(b) ==> a == b
  {
    if DecrementLabel(a) == DecrementLabel(b) {
      assert a == DecrementLabel(a)[7..7 + |a|];
    }
    if IncrementLabel(a) == IncrementLabel(b) {
      assert a == IncrementLabel(a)[7..7 + |a|];
    }
  }

  /** The two buttons never carry the same label, whatever texts they show. */
  lemma LabelsDistinguishButtons(a: string, b: string)
    ensures IncrementLabel(a) != DecrementLabel(b)
  {
    var i, d := IncrementLabel(a), DecrementLabel(b);
    if |i| == |d| {
      assert i[|i| - 9] == i[7 + |a|..][2] == 'I';
      assert d[|d| - 9] == d[7 + |b|..][2] == 'D';
    }
  }

  // ---------------------------------------------------------------------------
  // Emissions of checkMinMaxValue

  /**
   * What `checkMinMaxValue` emits: `isMinValue` once if its recomputed value differs
   * from the stored one, `isMaxValue` likewise, and nothing else.
   */
  function FlagEmissions(wasMin: bool, wasMax: bool, value: real, bounds: ClosedRange): (r: seq<Field>)
    ensures Count(r, IsMinValue) == (if wasMin == (value <= bounds.lowerBound) then 0 else 1)
    ensures Count(r, IsMaxValue) == (if wasMax == (value >= bounds.upperBound) then 0 else 1)
    ensures |r| == Count(r, IsMinValue) + Count(r, IsMaxValue)
  {
    var min := EmitIf(IsMinValue, wasMin != (value <= bounds.lowerBound));
    var max := EmitIf(IsMaxValue, wasMax != (value >= bounds.upperBound));
    CountConcat(min, max, IsMinValue);
    CountConcat(min, max, IsMaxValue);
    CountZeroIff(min, IsMaxValue);
    CountZeroIff(max, IsMinValue);
    min + max
  }

  // ---------------------------------------------------------------------------
  // The view model

  class StepperControlViewModel {
    // @Published properties
    var text: string
    var textFont: FontToken
    var textColor: ColorToken
    var backgroundColor: ColorToken
    var borderColor: ColorToken
    var borderWidth: real
    var cornerRadius: real
    var isMinValue: bool
    var isMaxValue: bool
    var dim: real
    var value: real

    // plain properties
    var bounds: ClosedRange
    var step: real
    var isEnabled: bool
    var theme: Theme
    /** The installed formatter (the `formattedText` closure, applied to `value`). */
    var formatter: real -> string
    /** The default stringification `"\(value)"`. */
    const describe: real -> string
    var interval: real

    /** Every emission of the `@Published` properties since construction, in order. */
    var emitted: seq<Field>

    /** The theme-derived fields agree with `theme` and `isEnabled`. */
    ghost predicate ThemeApplied()
      reads this
    {
      && textFont == theme.body1
      && textColor == theme.onSurface
      && borderColor == theme.outline
      && borderWidth == theme.borderWidthSmall
      && cornerRadius == theme.borderRadiusMedium
      && backgroundColor == BackgroundFor(theme, isEnabled)
      // `init` leaves `dim` at 1.0 until the first enabled or theme change
      && (dim == DimFor(theme, isEnabled) || (isEnabled && dim == 1.0))
    }

    /** Every derived field except the two flags agrees with the state it is derived from. */
    ghost predicate ValidExceptFlags()
      reads this
    {
      && text == formatter(value)
      && ThemeApplied()
      && MinimumInterval <= interval <= InitialInterval
    }

    /** The object invariant: no derived field is ever stale. */
    ghost predicate Valid()
      reads this
    {
      && ValidExceptFlags()
      && isMinValue == (value <= bounds.lowerBound)
      && isMaxValue == (value >= bounds.upperBound)
    }

    /** `init(theme:value:step:in:)`, formatting with the default stringification. */
    constructor (theme: Theme, value: real, step: real, bounds: ClosedRange, describe: real -> string)
      ensures Valid()
      ensures this.theme == theme && this.value == value && this.step == step && this.bounds == bounds
      ensures this.describe == describe && formatter == describe && text == describe(value)
      ensures isMinValue == (value <= bounds.lowerBound) && isMaxValue == (value >= bounds.upperBound)
      ensures isEnabled && dim == 1.0 && backgroundColor == theme.surface
      ensures interval == InitialInterval && emitted == []
    {
      this.theme := theme;
      this.value := value;
      this.step := step;
      this.bounds := bounds;
      textFont := theme.body1;
      textColor := theme.onSurface;
      backgroundColor := theme.surface;
      borderColor := theme.outline;
      borderWidth := theme.borderWidthSmall;
      cornerRadius := theme.borderRadiusMedium;
      dim := 1.0;
      isEnabled := true;
      interval := InitialInterval;
      this.describe := describe;
      formatter := describe;
      // observers do not run during init, so text and flags are computed here
      text := describe(value);
      isMinValue := value <= bounds.lowerBound;
      isMaxValue := value >= bounds.upperBound;
      // nothing can have subscribed yet
      emitted := [];
    }

    /** `init(theme:value:step:in:format:)`, formatting with `format`. */
    constructor WithFormat(theme: Theme, value: real, step: real, bounds: ClosedRange,
                           describe: real -> string, format: real -> string)
      ensures Valid()
      ensures this.theme == theme && this.value == value && this.step == step && this.bounds == bounds
      ensures this.describe == describe && formatter == format && text == format(value)
      ensures isMinValue == (value <= bounds.lowerBound) && isMaxValue == (value >= bounds.upperBound)
      ensures isEnabled && dim == 1.0 && backgroundColor == theme.surface
      ensures interval == InitialInterval && emitted == []
    {
      this.theme := theme;
      this.value := value;
      this.step := step;
      this.bounds := bounds;
      textFont := theme.body1;
      textColor := theme.onSurface;
      backgroundColor := theme.surface;
      borderColor := theme.outline;
      borderWidth := theme.borderWidthSmall;
      cornerRadius := theme.borderRadiusMedium;
      dim := 1.0;
      isEnabled := true;
      interval := InitialInterval;
      this.describe := describe;
      formatter := format;
      text := format(value);
      isMinValue := value <= bounds.lowerBound;
      isMaxValue := value >= bounds.upperBound;
      emitted := [];
    }

    /**
     * The outcome of `self.value = newValue` with its observer: `$value` always emits;
     * an equal value touches nothing else; a different one reassigns `text` and runs
     * `checkMinMaxValue`.
     */
    twostate predicate ValueAssigned(newValue: real)
      reads this
    {
      && value == newValue
      && if old(value) == newValue then
           && text == old(text) && isMinValue == old(isMinValue) && isMaxValue == old(isMaxValue)
           && emitted == old(emitted) + [Value]
         else
           && text == formatter(newValue)
           && isMinValue == (newValue <= bounds.lowerBound)
           && isMaxValue == (newValue >= bounds.upperBound)
           && emitted == old(emitted) + [Value, Text]
                + FlagEmissions(old(isMinValue), old(isMaxValue), newValue, bounds)
    }

    /** Nothing that an assignment of `value` touches has changed, and nothing has emitted. */
    twostate predicate ValueUntouched()
      reads this
    {
      && value == old(value) && text == old(text)
      && isMinValue == old(isMinValue) && isMaxValue == old(isMaxValue)
      && emitted == old(emitted)
    }

    /** `self.value = newValue`, including the `didSet` observer of `value`. */
    method AssignValue(newValue: real)
      requires Valid()
      modifies this`value, this`text, this`isMinValue, this`isMaxValue, this`emitted
      ensures Valid()
      ensures ValueAssigned(newValue)
    {
      if value == newValue {
        // storing an equal value changes nothing but still emits on `$value`
        emitted := emitted + [Value];
      } else {
        // `$value`, then the observer's `text`, then `checkMinMaxValue`
        value := newValue;
        text := formatter(value);
        emitted := emitted + [Value, Text];
        CheckMinMaxValue();
      }
    }

    /** Recomputes both flags, assigning each only when it changes. */
    method CheckMinMaxValue()
      modifies this`isMinValue, this`isMaxValue, this`emitted
      ensures isMinValue == (value <= bounds.lowerBound)
      ensures isMaxValue == (value >= bounds.upperBound)
      ensures emitted == old(emitted) + FlagEmissions(old(isMinValue), old(isMaxValue), value, bounds)
      ensures old(ValidExceptFlags()) ==> Valid()
    {
      var newMin := value <= bounds.lowerBound;
      if newMin != isMinValue {
        isMinValue := newMin;
        emitted := emitted + [IsMinValue];
      }
      var newMax := value >= bounds.upperBound;
      if newMax != isMaxValue {
        isMaxValue := newMax;
        emitted := emitted + [IsMaxValue];
      }
    }

    /** One step up, clipped to the upper bound; returns the new value. */
    method Increment() returns (r: real)
      requires Valid()
      modifies this`value, this`text, this`isMinValue, this`isMaxValue, this`emitted
      ensures Valid()
      ensures r == value == Incremented(old(value), step, bounds)
      ensures ValueAssigned(r)
    {
      AssignValue(Incremented(value, step, bounds));
      r := value;
    }

    /** One step down, clipped to the lower bound; returns the new value. */
    method Decrement() returns (r: real)
      requires Valid()
      modifies this`value, this`text, this`isMinValue, this`isMaxValue, this`emitted
      ensures Valid()
      ensures r == value == Decremented(old(value), step, bounds)
      ensures ValueAssigned(r)
    {
      AssignValue(Decremented(value, step, bounds));
      r := value;
    }

    /** Direct assignment from outside: not clamped, and a no-op for an equal value. */
    method SetValue(newValue: real)
      requires Valid()
      modifies this`value, this`text, this`isMinValue, this`isMaxValue, this`emitted
      ensures Valid() && value == newValue
      ensures old(value) == newValue ==> unchanged(this)
      ensures old(value) != newValue ==> ValueAssigned(newValue)
    {
      if value != newValue {
        AssignValue(newValue);
      }
    }

    /** `self.bounds = newBounds` with its observer: only the flags follow; `value` is never re-clamped. */
    method SetBounds(newBounds: ClosedRange)
      requires Valid()
      modifies this`bounds, this`isMinValue, this`isMaxValue, this`emitted
      ensures Valid() && bounds == newBounds && value == old(value)
      ensures old(bounds) == newBounds ==> unchanged(this)
      ensures old(bounds) != newBounds ==>
        emitted == old(emitted) + FlagEmissions(old(isMinValue), old(isMaxValue), value, newBounds)
    {
      var oldBounds := bounds;
      bounds := newBounds;
      if bounds != oldBounds {
        CheckMinMaxValue();
      }
    }

    /** `self.step = newStep`: a plain property without observer. */
    method SetStep(newStep: real)
      requires Valid()
      modifies this`step
      ensures Valid() && step == newStep
    {
      step := newStep;
    }

    /** `self.isEnabled = enabled` with its observer: a real change recomputes `dim` and `backgroundColor` once each. */
    method SetEnabled(enabled: bool)
      requires Valid()
      modifies this`isEnabled, this`dim, this`backgroundColor, this`emitted
      ensures Valid() && isEnabled == enabled
      ensures old(isEnabled) == enabled ==> unchanged(this)
      ensures old(isEnabled) != enabled ==>
        && dim == DimFor(theme, enabled)
        && backgroundColor == BackgroundFor(theme, enabled)
        && emitted == old(emitted) + [Dim, BackgroundColor]
    {
      var oldValue := isEnabled;
      isEnabled := enabled;
      if isEnabled != oldValue {
        ResetDim();
        ResetBackgroundColor();
      }
    }

    /** `self.theme = newTheme` with its observer: every theme-derived field is reassigned, changed or not. */
    method SetTheme(newTheme: Theme)
      requires Valid()
      modifies this`theme, this`textFont, this`textColor, this`backgroundColor, this`borderColor,
               this`borderWidth, this`cornerRadius, this`dim, this`emitted
      ensures Valid() && theme == newTheme
      ensures dim == DimFor(newTheme, isEnabled)
      ensures emitted == old(emitted)
        + [TextFont, TextColor, BackgroundColor, BorderColor, BorderWidth, CornerRadius, Dim]
    {
      theme := newTheme;
      ResetTheme();
    }

    method ResetTheme()
      modifies this`textFont, this`textColor, this`backgroundColor, this`borderColor,
               this`borderWidth, this`cornerRadius, this`dim, this`emitted
      ensures ThemeApplied() && dim == DimFor(theme, isEnabled)
      ensures emitted == old(emitted)
        + [TextFont, TextColor, BackgroundColor, BorderColor, BorderWidth, CornerRadius, Dim]
    {
      textFont := theme.body1;
      textColor := theme.onSurface;
      emitted := emitted + [TextFont, TextColor];
      ResetBackgroundColor();
      borderColor := theme.outline;
      borderWidth := theme.borderWidthSmall;
      cornerRadius := theme.borderRadiusMedium;
      emitted := emitted + [BorderColor, BorderWidth, CornerRadius];
      ResetDim();
    }

    method ResetBackgroundColor()
      modifies this`backgroundColor, this`emitted
      ensures backgroundColor == BackgroundFor(theme, isEnabled)
      ensures emitted == old(emitted) + [BackgroundColor]
    {
      backgroundColor := if isEnabled then theme.surface else Opacity(theme.onSurface, theme.dim5);
      emitted := emitted + [BackgroundColor];
    }

    method ResetDim()
      modifies this`dim, this`emitted
      ensures dim == DimFor(theme, isEnabled)
      ensures emitted == old(emitted) + [Dim]
    {
      dim := if isEnabled then theme.dimNone else theme.dim3;
      emitted := emitted + [Dim];
    }

    /** Installs `format`; `text` is reassigned only if the newly formatted string differs. */
    method SetFormat(format: real -> string)
      requires Valid()
      modifies this`formatter, this`text, this`emitted
      ensures Valid() && formatter == format && text == format(value)
      ensures emitted == old(emitted) + EmitIf(Text, old(text) != format(value))
    {
      formatter := format;
      var newText := formatter(value);
      if newText != text {
        text := newText;
        emitted := emitted + [Text];
      }
    }

    /** Reinstalls the default stringification, with the same rule for `text`. */
    method RemoveFormat()
      requires Valid()
      modifies this`formatter, this`text, this`emitted
      ensures Valid() && formatter == describe && text == describe(value)
      ensures emitted == old(emitted) + EmitIf(Text, old(text) != describe(value))
    {
      formatter := describe;
      var newText := formatter(value);
      if newText != text {
        text := newText;
        emitted := emitted + [Text];
      }
    }

    /** The decrement button's label, always built from the current formatted value. */
    function DecrementAccessibilityLabel(): (r: string)
      reads this
      requires Valid()
      ensures r == DecrementLabel(formatter(value))
    {
      DecrementLabel(text)
    }

    /** The increment button's label, always built from the current formatted value. */
    function IncrementAccessibilityLabel(): (r: string)
      reads this
      requires Valid()
      ensures r == IncrementLabel(formatter(value))
    {
      IncrementLabel(text)
    }

    method ResetInterval()
      requires Valid()
      modifies this`interval
      ensures Valid() && interval == InitialInterval
    {
      interval := InitialInterval;
    }

    method UpdateInterval()
      requires Valid()
      modifies this`interval
      ensures Valid() && interval == Decayed(old(interval))
    {
      interval := Max(MinimumInterval, interval * DecayFactor);
    }
  }
}
