/**
 * The older engine behind `StepperView`. It keeps the same value arithmetic as
 * `StepperControlViewModel` but with weaker rules: `checkMinMaxValue` assigns both
 * flags on every call, every `isEnabled` assignment (even an equal one) recomputes the
 * dimming, `bounds` has no observer, and `setFormat` takes an optional format and
 * always reassigns `text`.
 */
module StepperViewModels {
  import opened Theming
  import opened Stepping
  import opened Publishing
  import opened Options

  class StepperViewModel {
    // @Published properties
    var text: string
    var textFont: FontToken
    var textColor: ColorToken
    var backgroundColor: ColorToken
    var borderColor: ColorToken
    var borderWidth: real
    var cornerRadius: real
    var isMinValue: bool
    var isMaxValue: bool
    var dim: real
    var value: real

    // plain properties
    var bounds: ClosedRange
    var step: real
    var isEnabled: bool
    var theme: Theme
    /** The installed formatter (the `formattedText` closure, applied to `value`). */
    var formatter: real -> string
    /** The default stringification `"\(value)"`. */
    const describe: real -> string

    /** Every emission of the `@Published` properties since construction, in order. */
    var emitted: seq<Field>

    /** The theme-derived fields agree with `theme` and `isEnabled`. */
    ghost predicate ThemeApplied()
      reads this
    {
      && textFont == theme.body1
      && textColor == theme.onSurface
      && borderColor == theme.outline
      && borderWidth == theme.borderWidthSmall
      && cornerRadius == theme.borderRadiusMedium
      && backgroundColor == BackgroundFor(theme, isEnabled)
      // `init` leaves `dim` at 1.0 until the first enabled or theme assignment
      && (dim == DimFor(theme, isEnabled) || (isEnabled && dim == 1.0))
    }

    /**
     * The object invariant. Unlike in `StepperControlViewModel`, the flags are not part
     * of it: a bounds change leaves them as they were.
     */
    ghost predicate Valid()
      reads this
    {
      text == formatter(value) && ThemeApplied()
    }

    /** The flags describe the current value against the current bounds. */
    ghost predicate FlagsCurrent()
      reads this
    {
      isMinValue == (value <= bounds.lowerBound) && isMaxValue == (value >= bounds.upperBound)
    }

    /** `init(theme:value:step:in:)`, formatting with the default stringification. */
    constructor (theme: Theme, value: real, step: real, bounds: ClosedRange, describe: real -> string)
      ensures Valid() && FlagsCurrent()
      ensures this.theme == theme && this.value == value && this.step == step && this.bounds == bounds
      ensures this.describe == describe && formatter == describe && text == describe(value)
      ensures isEnabled && dim == 1.0 && backgroundColor == theme.surface
      ensures emitted == []
    {
      this.theme := theme;
      this.value := value;
      this.step := step;
      this.bounds := bounds;
      textFont := theme.body1;
      textColor := theme.onSurface;
      backgroundColor := theme.surface;
      borderColor := theme.outline;
      borderWidth := theme.borderWidthSmall;
      cornerRadius := theme.borderRadiusMedium;
      dim := 1.0;
      isEnabled := true;
      this.describe := describe;
      formatter := describe;
      // observers do not run during init, so text and flags are computed here
      text := describe(value);
      isMinValue := value <= bounds.lowerBound;
      isMaxValue := value >= bounds.upperBound;
      // nothing can have subscribed yet
      emitted := [];
    }

    /** `init(theme:value:step:in:format:)`, formatting with `format`. */
    constructor WithFormat(theme: Theme, value: real, step: real, bounds: ClosedRange,
                           describe: real -> string, format: real -> string)
      ensures Valid() && FlagsCurrent()
      ensures this.theme == theme && this.value == value && this.step == step && this.bounds == bounds
      ensures this.describe == describe && formatter == format && text == format(value)
      ensures isEnabled && dim == 1.0 && backgroundColor == theme.surface
      ensures emitted == []
    {
      this.theme := theme;
      this.value := value;
      this.step := step;
      this.bounds := bounds;
      textFont := theme.body1;
      textColor := theme.onSurface;
      backgroundColor := theme.surface;
      borderColor := theme.outline;
      borderWidth := theme.borderWidthSmall;
      cornerRadius := theme.borderRadiusMedium;
      dim := 1.0;
      isEnabled := true;
      this.describe := describe;
      formatter := format;
      text := format(value);
      isMinValue := value <= bounds.lowerBound;
      isMaxValue := value >= bounds.upperBound;
      emitted := [];
    }

    /**
     * `self.value = newValue` with its observer: `$value` always emits; an equal value
     * touches nothing else; a different one reassigns `text` and then both flags,
     * each emitting once whether or not it changed.
     */
    method AssignValue(newValue: real)
      requires Valid()
      modifies this`value, this`text, this`isMinValue, this`isMaxValue, this`emitted
      ensures Valid() && value == newValue
      ensures old(value) == newValue ==>
        && text == old(text) && isMinValue == old(isMinValue) && isMaxValue == old(isMaxValue)
        && emitted == old(emitted) + [Value]
      ensures old(value) != newValue ==>
        && text == formatter(newValue) && FlagsCurrent()
        && emitted == old(emitted) + [Value, Text, IsMinValue, IsMaxValue]
    {
      if value == newValue {
        // storing an equal value changes nothing but still emits on `$value`
        emitted := emitted + [Value];
      } else {
        value := newValue;
        text := formatter(value);
        emitted := emitted + [Value, Text];
        CheckMinMaxValue();
      }
    }

    /** Assigns both flags unconditionally. */
    method CheckMinMaxValue()
      modifies this`isMinValue, this`isMaxValue, this`emitted
      ensures FlagsCurrent()
      ensures emitted == old(emitted) + [IsMinValue, IsMaxValue]
    {
      isMinValue := value <= bounds.lowerBound;
      isMaxValue := value >= bounds.upperBound;
      emitted := emitted + [IsMinValue, IsMaxValue];
    }

    /** One step up, clipped to the upper bound. */
    method Increment()
      requires Valid()
      modifies this`value, this`text, this`isMinValue, this`isMaxValue, this`emitted
      ensures Valid() && value == Incremented(old(value), step, bounds)
      ensures old(value) == value ==>
        && text == old(text) && isMinValue == old(isMinValue) && isMaxValue == old(isMaxValue)
        && emitted == old(emitted) + [Value]
      ensures old(value) != value ==>
        FlagsCurrent() && emitted == old(emitted) + [Value, Text, IsMinValue, IsMaxValue]
    {
      AssignValue(Incremented(value, step, bounds));
    }

    /** One step down, clipped to the lower bound. */
    method Decrement()
      requires Valid()
      modifies this`value, this`text, this`isMinValue, this`isMaxValue, this`emitted
      ensures Valid() && value == Decremented(old(value), step, bounds)
      ensures old(value) == value ==>
        && text == old(text) && isMinValue == old(isMinValue) && isMaxValue == old(isMaxValue)
        && emitted == old(emitted) + [Value]
      ensures old(value) != value ==>
        FlagsCurrent() && emitted == old(emitted) + [Value, Text, IsMinValue, IsMaxValue]
    {
      AssignValue(Decremented(value, step, bounds));
    }

    /** `self.bounds = newBounds`: no observer, so the flags and the value stay as they were. */
    method SetBounds(newBounds: ClosedRange)
      requires Valid()
      modifies this`bounds
      ensures Valid() && bounds == newBounds
      ensures value == old(value) && isMinValue == old(isMinValue) && isMaxValue == old(isMaxValue)
      ensures emitted == old(emitted)
    {
      bounds := newBounds;
    }

    /** `self.step = newStep`: a plain property without observer. */
    method SetStep(newStep: real)
      requires Valid()
      modifies this`step
      ensures Valid() && step == newStep
    {
      step := newStep;
    }

    /** `self.isEnabled = enabled`: recomputes `dim` and `backgroundColor` on every assignment. */
    method SetEnabled(enabled: bool)
      requires Valid()
      modifies this`isEnabled, this`dim, this`backgroundColor, this`emitted
      ensures Valid() && isEnabled == enabled
      ensures dim == DimFor(theme, enabled) && backgroundColor == BackgroundFor(theme, enabled)
      ensures emitted == old(emitted) + [Dim, BackgroundColor]
    {
      isEnabled := enabled;
      dim := if isEnabled then theme.dimNone else theme.dim3;
      backgroundColor := if isEnabled then theme.surface else Opacity(theme.onSurface, theme.dim5);
      emitted := emitted + [Dim, BackgroundColor];
    }

    /** `self.theme = newTheme`: every token field is reassigned, using the current `isEnabled`. */
    method SetTheme(newTheme: Theme)
      requires Valid()
      modifies this`theme, this`textFont, this`textColor, this`backgroundColor, this`borderColor,
               this`borderWidth, this`cornerRadius, this`dim, this`emitted
      ensures Valid() && theme == newTheme
      ensures dim == DimFor(newTheme, isEnabled)
      ensures emitted == old(emitted)
        + [TextFont, TextColor, BackgroundColor, BorderColor, BorderWidth, CornerRadius, Dim]
    {
      theme := newTheme;
      ApplyTheme();
    }

    /** The observer of `theme`. */
    method ApplyTheme()
      modifies this`textFont, this`textColor, this`backgroundColor, this`borderColor,
               this`borderWidth, this`cornerRadius, this`dim, this`emitted
      ensures ThemeApplied() && dim == DimFor(theme, isEnabled)
      ensures emitted == old(emitted)
        + [TextFont, TextColor, BackgroundColor, BorderColor, BorderWidth, CornerRadius, Dim]
    {
      textFont := theme.body1;
      textColor := theme.onSurface;
      backgroundColor := if isEnabled then theme.surface else Opacity(theme.onSurface, theme.dim5);
      borderColor := theme.outline;
      borderWidth := theme.borderWidthSmall;
      cornerRadius := theme.borderRadiusMedium;
      dim := if isEnabled then theme.dimNone else theme.dim3;
      emitted := emitted
        + [TextFont, TextColor, BackgroundColor, BorderColor, BorderWidth, CornerRadius, Dim];
    }

    /**
     * Installs `format`, or the default stringification when it is `None`; `text` is
     * reassigned and emits even when the string is unchanged.
     */
    method SetFormat(format: Option<real -> string>)
      requires Valid()
      modifies this`formatter, this`text, this`emitted
      ensures Valid()
      ensures formatter == (if format.Some? then format.value else describe)
      ensures text == formatter(value)
      ensures emitted == old(emitted) + [Text]
    {
      var installed: real -> string := if format.Some? then format.value else describe;
      formatter := installed;
      text := formatter(value);
      emitted := emitted + [Text];
    }
  }
}
