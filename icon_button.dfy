/** The icon button of src/components/icon_button.rs: the look table over
    (style, selected, disabled), the icon's filled flag, and the click
    handler and state layer that only an enabled button has. `selected` is
    `None` for a button that does not toggle. */
module IconButton {
  import opened Wrappers
  import opened Theme
  import Geometry

  datatype IconButtonStyle = Standard | Filled | FilledTonal | Outlined

  /** Container colour, content colour and border. */
  datatype Look = Look(background: Option<Color>, color: Color, border: Option<Border>)

  const DisabledContent: Color := WithAlpha(OnSurface, 0.38)

  /** The look table: disabled content is always on_surface at 0.38, and
      only an outlined button draws a border, never over a container. */
  function LookOf(style: IconButtonStyle, selected: Option<bool>, disabled: bool): (l: Look)
    ensures disabled <==> l.color == DisabledContent
    ensures l.border.Some? ==> style == Outlined && l.background.None?
  {
    match (style, selected, disabled)
    case (Standard, Some(true), false) => Look(None, Of(Primary), None)
    case (Standard, _, false) => Look(None, Of(OnSurfaceVariant), None)
    case (Standard, _, true) => Look(None, DisabledContent, None)
    case (Filled, Some(false), false) => Look(Some(Of(SurfaceContainerHighest)), Of(Primary), None)
    case (Filled, _, false) => Look(Some(Of(Primary)), Of(OnPrimary), None)
    case (Filled, _, true) => Look(Some(WithAlpha(OnSurface, 0.12)), DisabledContent, None)
    case (FilledTonal, Some(false), false) => Look(Some(Of(SurfaceContainerHighest)), Of(OnSurfaceVariant), None)
    case (FilledTonal, _, false) => Look(Some(Of(SecondaryContainer)), Of(OnSecondaryContainer), None)
    case (FilledTonal, _, true) => Look(Some(WithAlpha(OnSurface, 0.12)), DisabledContent, None)
    case (Outlined, Some(true), false) => Look(Some(Of(InverseSurface)), Of(InverseOnSurface), None)
    case (Outlined, _, false) => Look(None, Of(OnSurface), Some(Hairline(Of(Outline))))
    case (Outlined, _, true) => Look(None, DisabledContent, Some(Hairline(DisabledContent)))
  }

  /** A disabled button ignores `selected`, and writes in on_surface at
      0.38 whatever its style. */
  lemma DisabledIgnoresSelected(style: IconButtonStyle, selected: Option<bool>, other: Option<bool>)
    ensures LookOf(style, selected, true) == LookOf(style, other, true)
    ensures LookOf(style, selected, true).color == DisabledContent
  {
  }

  /** A button that does not toggle looks unselected when it has no
      container of its own (standard, outlined) and selected when it has
      one (filled, tonal). */
  lemma UntoggledLooksLikeItsDefault(style: IconButtonStyle, disabled: bool)
    ensures style == Standard || style == Outlined ==>
      LookOf(style, None, disabled) == LookOf(style, Some(false), disabled)
    ensures style == Filled || style == FilledTonal ==>
      LookOf(style, None, disabled) == LookOf(style, Some(true), disabled)
  {
  }

  /** Disabled filled and disabled tonal buttons look the same. */
  lemma DisabledFilledLikeTonal(selected: Option<bool>, other: Option<bool>)
    ensures LookOf(Filled, selected, true) == LookOf(FilledTonal, other, true)
  {
  }

  /** Only an outlined button draws a border, and only while unselected or
      disabled; no look has both a container and a border. */
  lemma BorderOnlyWhenOutlined(style: IconButtonStyle, selected: Option<bool>, disabled: bool)
    ensures LookOf(style, selected, disabled).border.Some?
      <==> style == Outlined && (selected != Some(true) || disabled)
    ensures !(LookOf(style, selected, disabled).border.Some? && LookOf(style, selected, disabled).background.Some?)
  {
  }

  /** Selecting changes the look of every enabled button. */
  lemma SelectionIsVisible(style: IconButtonStyle)
    ensures LookOf(style, Some(true), false) != LookOf(style, Some(false), false)
  {
  }

  /** The icon is filled as `selected` says, or as the icon itself says for
      a button that does not toggle. */
  function IconFilled(selected: Option<bool>, iconFilled: bool): (filled: bool)
    ensures selected.Some? ==> filled == selected.value
    ensures selected.None? ==> filled == iconFilled
  {
    selected.GetOr(iconFilled)
  }

  /** The state layer over an enabled button: tinted with the content
      colour and shifted back over the 8 padding on both axes. A disabled
      button has none. */
  function StateLayerOf(style: IconButtonStyle, selected: Option<bool>, disabled: bool): (r: Option<Geometry.Placement>)
    ensures r.Some? <==> !disabled
    ensures r.Some? ==>
      r.value.color == LookOf(style, selected, false).color && r.value.color.alpha.None?
      && r.value.left == -8 && r.value.top == Some(-8)
  {
    if disabled then None
    else Some(Geometry.Placement(LookOf(style, selected, disabled).color, -8, Some(-8)))
  }

  /** A mounted icon button: its `disabled` prop and the clicks it has
      forwarded to `on_click`. */
  class IconButton {
    const disabled: bool
    var clicks: nat

    constructor (disabled: bool)
      ensures this.disabled == disabled && clicks == 0
    {
      this.disabled := disabled;
      clicks := 0;
    }

    /** A click reaches `on_click` only when enabled. */
    method Click()
      modifies this
      ensures clicks == old(clicks) + (if disabled then 0 else 1)
    {
      if !disabled {
        clicks := clicks + 1;
      }
    }
  }
}
