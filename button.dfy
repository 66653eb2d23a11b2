/** The button of src/components/button.rs: the (style, disabled) look
    table, the padding rules, the shadow, and the click handler and state
    layer that only an enabled button has. */
module Button {
  import opened Wrappers
  import opened Theme
  import MaterialDesign
  import Geometry

  datatype ButtonStyle = Elevated | Filled | FilledTonal | Outlined | Text {
    /** The styles that paint a container. */
    predicate Contained() {
      this == Elevated || this == Filled || this == FilledTonal
    }
  }

  /** Container colour, content colour and border. */
  datatype Look = Look(background: Option<Color>, color: Color, border: Option<Border>)

  /** The look of each style, enabled and disabled: a container only for
      the contained styles, a border only for the outlined one, and
      on_surface at 0.38 for every disabled content. */
  function LookOf(style: ButtonStyle, disabled: bool): (l: Look)
    ensures l.background.Some? <==> style.Contained()
    ensures l.border.Some? <==> style == Outlined
    ensures disabled <==> l.color == WithAlpha(OnSurface, 0.38)
  {
    match (style, disabled)
    case (Elevated, false) => Look(Some(Of(SurfaceContainerLow)), Of(Primary), None)
    case (Filled, false) => Look(Some(Of(Primary)), Of(OnPrimary), None)
    case (FilledTonal, false) => Look(Some(Of(SecondaryContainer)), Of(OnSecondaryContainer), None)
    case (Outlined, false) => Look(None, Of(Primary), Some(Hairline(Of(Outline))))
    case (Outlined, true) => Look(None, WithAlpha(OnSurface, 0.38), Some(Hairline(WithAlpha(OnSurface, 0.12))))
    case (Text, false) => Look(None, Of(Primary), None)
    case (Text, true) => Look(None, WithAlpha(OnSurface, 0.38), None)
    case (_, true) => Look(Some(WithAlpha(OnSurface, 0.12)), WithAlpha(OnSurface, 0.38), None)
  }

  /** A container exactly for the contained styles, a border exactly for the
      outlined one, and never both. */
  lemma ContainerOrBorder(style: ButtonStyle, disabled: bool)
    ensures LookOf(style, disabled).background.Some? <==> style.Contained()
    ensures LookOf(style, disabled).border.Some? <==> style == Outlined
    ensures !(LookOf(style, disabled).background.Some? && LookOf(style, disabled).border.Some?)
    ensures style == Outlined ==>
      LookOf(style, disabled).border == Some(Hairline(if disabled then WithAlpha(OnSurface, 0.12) else Of(Outline)))
  {
  }

  /** Disabled, every style writes in on_surface at 0.38, and the contained
      styles share one look. */
  lemma DisabledLooks(style: ButtonStyle, other: ButtonStyle)
    ensures LookOf(style, true).color == WithAlpha(OnSurface, 0.38)
    ensures style.Contained() && other.Contained() ==> LookOf(style, true) == LookOf(other, true)
    ensures style.Contained() ==> LookOf(style, true).background == Some(WithAlpha(OnSurface, 0.12))
  {
  }

  /** Enabled, no two styles look alike. */
  lemma EnabledLooksDistinct(style: ButtonStyle, other: ButtonStyle)
    ensures LookOf(style, false) == LookOf(other, false) ==> style == other
  {
  }

  /** The right (and default left) padding. */
  function Padding(style: ButtonStyle): (p: nat)
    ensures p == 12 <==> style == Text
    ensures p == 24 <==> style != Text
  {
    if style == Text then 12 else 24
  }

  /** The left padding leaves room for an icon, except on text buttons. */
  function PaddingLeft(style: ButtonStyle, hasIcon: bool): (p: nat)
    ensures hasIcon && style != Text ==> p == 16
    ensures !(hasIcon && style != Text) ==> p == Padding(style)
    ensures p <= Padding(style)
  {
    if hasIcon && style != Text then 16 else Padding(style)
  }

  /** The state layer is shifted back over the left padding. */
  function StateLayerLeft(style: ButtonStyle, hasIcon: bool): (x: int)
    ensures -24 <= x <= -12
    ensures x == -12 <==> style == Text
    ensures x == -16 <==> hasIcon && style != Text
  {
    -(PaddingLeft(style, hasIcon) as int)
  }

  /** Only an enabled elevated button casts a shadow, of level 1. */
  function Shadow(style: ButtonStyle, disabled: bool): (e: Option<MaterialDesign.Elevation>)
    ensures e.Some? <==> style == Elevated && !disabled
    ensures e.Some? ==> e.value == MaterialDesign.Level1
  {
    if style == Elevated && !disabled then Some(MaterialDesign.Level1) else None
  }

  /** The state layer over an enabled button: tinted with the content
      colour and shifted back over the left padding. A disabled button has
      none. */
  function StateLayerOf(style: ButtonStyle, disabled: bool, hasIcon: bool): (r: Option<Geometry.Placement>)
    ensures r.Some? <==> !disabled
    ensures r.Some? ==>
      r.value.color == LookOf(style, false).color && r.value.color.alpha.None?
      && r.value.left == StateLayerLeft(style, hasIcon) && r.value.top.None?
  {
    if disabled then None
    else Some(Geometry.Placement(LookOf(style, disabled).color, -(PaddingLeft(style, hasIcon) as int), None))
  }

  /** A mounted button: its `disabled` prop and the clicks it has forwarded
      to `on_click`. */
  class Button {
    const disabled: bool
    var clicks: nat

    constructor (disabled: bool)
      ensures this.disabled == disabled && clicks == 0
    {
      this.disabled := disabled;
      clicks := 0;
    }

    /** A click reaches `on_click` only when enabled. */
    method Click()
      modifies this
      ensures clicks == old(clicks) + (if disabled then 0 else 1)
    {
      if !disabled {
        clicks := clicks + 1;
      }
    }
  }
}
