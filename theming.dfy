/**
 * The theme tokens the stepper reads. Token resolution (concrete colours, fonts and
 * sizes) belongs to the theming library; here a token is an opaque value that can only
 * be compared and, for colours, dimmed with an opacity.
 */
module Theming {

  /** A colour token; `Opacity(c, a)` is the token `c.opacity(a)`. */
  datatype ColorToken = ColorToken(name: string) | Opacity(base: ColorToken, alpha: real)

  /** A typography token. */
  datatype FontToken = FontToken(name: string)

  /**
   * The parts of a theme the view models use: `typography.body1`, the base colours
   * `surface`, `onSurface` and `outline`, `border.width.small`, `border.radius.medium`
   * and the dims `none`, `dim3` and `dim5`.
   */
  datatype Theme = Theme(
    body1: FontToken,
    surface: ColorToken,
    onSurface: ColorToken,
    outline: ColorToken,
    borderWidthSmall: real,
    borderRadiusMedium: real,
    dimNone: real,
    dim3: real,
    dim5: real)

  /** Background colour of an enabled or disabled stepper. */
  function BackgroundFor(theme: Theme, isEnabled: bool): ColorToken {
    if isEnabled then theme.surface else Opacity(theme.onSurface, theme.dim5)
  }

  /** Opacity of an enabled or disabled stepper. */
  function DimFor(theme: Theme, isEnabled: bool): real {
    if isEnabled then theme.dimNone else theme.dim3
  }
}
