/** Colours as the components choose them. The colour scheme itself belongs
    to the `material_colors` crate and is not part of this model: a colour is
    a scheme role, optionally with an alpha override (`with_alpha_f32`), or a
    fixed ARGB literal. */
module Theme {
  import opened Wrappers

  datatype Role =
    | Primary
    | OnPrimary
    | SecondaryContainer
    | OnSecondaryContainer
    | Error
    | OnError
    | Surface
    | SurfaceContainerLow
    | SurfaceContainerHighest
    | OnSurface
    | OnSurfaceVariant
    | Outline
    | InverseSurface
    | InverseOnSurface

  datatype Color =
    | Themed(role: Role, alpha: Option<real>)
    | Fixed(a: nat, r: nat, g: nat, b: nat)

  /** The scheme colour `role` as it is. */
  function Of(role: Role): Color {
    Themed(role, None)
  }

  /** `role.with_alpha_f32(alpha)`. */
  function WithAlpha(role: Role, alpha: real): Color {
    Themed(role, Some(alpha))
  }

  /** A border written "<width> inner <colour>". */
  datatype Border = Inner(width: nat, color: Color)

  /** "1 inner <colour>", the only border the components draw. */
  function Hairline(c: Color): Border {
    Inner(1, c)
  }
}
