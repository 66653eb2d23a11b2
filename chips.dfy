/** The three chips of src/components/chips.rs: assist, filter and input.
    Each chooses a container or an outline, an elevation, a content colour,
    paddings and a shape from its flags and optional parts. */
module Chips {
  import opened Wrappers
  import opened Theme
  import MaterialDesign

  datatype Chip = Assist | Filter | Input

  /** Container colour, border and elevation. */
  datatype Frame = Frame(background: Option<Color>, border: Option<Border>, elevation: Option<MaterialDesign.Elevation>)

  const Outlined: Frame := Frame(None, Some(Hairline(Of(Outline))), None)

  /** Every chip is either filled or outlined, never both, never neither. */
  predicate FilledXorOutlined(f: Frame) {
    f.background.Some? != f.border.Some?
  }

  /** An assist chip is either raised on surface_container_low or flat and
      outlined in a hairline of the outline colour. */
  function AssistFrame(elevated: bool): (f: Frame)
    ensures FilledXorOutlined(f)
    ensures f.elevation.Some? <==> elevated
    ensures elevated ==> f.background == Some(Of(SurfaceContainerLow)) && f.elevation == Some(MaterialDesign.Level1)
    ensures f.border.Some? ==> f.border == Some(Hairline(Of(Outline)))
  {
    if elevated then Frame(Some(Of(SurfaceContainerLow)), None, Some(MaterialDesign.Level1))
    else Outlined
  }

  /** A filter chip: secondary_container when selected, otherwise dressed as
      an assist chip; raised to level 1 exactly when elevated. */
  function FilterFrame(selected: bool, elevated: bool): (f: Frame)
    ensures FilledXorOutlined(f)
    ensures f.elevation == (if elevated then Some(MaterialDesign.Level1) else None)
    ensures selected ==> f.background == Some(Of(SecondaryContainer))
    ensures f.border.Some? ==> !selected && !elevated
  {
    if selected then Frame(Some(Of(SecondaryContainer)), None, if elevated then Some(MaterialDesign.Level1) else None)
    else if elevated then Frame(Some(Of(SurfaceContainerLow)), None, Some(MaterialDesign.Level1))
    else Outlined
  }

  /** An input chip never casts a shadow, and is filled exactly when
      selected. */
  function InputFrame(selected: bool): (f: Frame)
    ensures FilledXorOutlined(f)
    ensures f.elevation.None?
    ensures f.background.Some? <==> selected
    ensures selected ==> f.background == Some(Of(SecondaryContainer))
  {
    if selected then Frame(Some(Of(SecondaryContainer)), None, None) else Outlined
  }

  /** Selection does not change a filter chip's elevation, and an unselected
      filter chip is framed exactly like an assist chip. */
  lemma FilterElevationIgnoresSelection(selected: bool, elevated: bool)
    ensures FilterFrame(selected, elevated).elevation == FilterFrame(!selected, elevated).elevation
    ensures !selected ==> FilterFrame(selected, elevated) == AssistFrame(elevated)
  {
  }

  /** The text colour: on_surface for assist chips, and for the selectable
      chips on_secondary_container when selected. */
  function ContentColor(chip: Chip, selected: bool): (c: Color)
    ensures chip == Assist ==> c == Of(OnSurface)
    ensures chip != Assist && selected ==> c == Of(OnSecondaryContainer)
    ensures chip != Assist && !selected ==> c == Of(OnSurfaceVariant)
  {
    if chip == Assist then Of(OnSurface)
    else if selected then Of(OnSecondaryContainer)
    else Of(OnSurfaceVariant)
  }

  /** The leading icon's colour: primary, except on an unselected input chip. */
  function LeadingIconColor(chip: Chip, selected: bool): (c: Color)
    ensures c == Of(Primary) <==> chip != Input || selected
    ensures c != Of(Primary) ==> c == Of(OnSurfaceVariant)
  {
    if chip == Input && !selected then Of(OnSurfaceVariant) else Of(Primary)
  }

  /** Left padding: tighter beside an avatar (input chips only) or a leading
      icon. */
  function LeftPadding(chip: Chip, hasAvatar: bool, hasLeadingIcon: bool): (p: nat)
    ensures chip == Input && hasAvatar ==> p == 4
    ensures !(chip == Input && hasAvatar) && hasLeadingIcon ==> p == 8
    ensures !(chip == Input && hasAvatar) && !hasLeadingIcon ==> p == 16
  {
    if chip == Input && hasAvatar then 4
    else if hasLeadingIcon then 8
    else 16
  }

  /** Right padding: fixed on input chips, which always show a trailing
      icon; tighter beside a trailing icon otherwise. */
  function RightPadding(chip: Chip, hasTrailingIcon: bool): (p: nat)
    ensures chip == Input ==> p == 8
    ensures chip != Input ==> (p == 8 <==> hasTrailingIcon) && (p == 16 <==> !hasTrailingIcon)
  {
    if chip == Input || hasTrailingIcon then 8 else 16
  }

  /** More leading content, less padding. */
  lemma PaddingShrinksWithContent(chip: Chip, hasAvatar: bool, hasLeadingIcon: bool)
    ensures LeftPadding(chip, hasAvatar, true) <= LeftPadding(chip, false, false)
    ensures LeftPadding(Input, true, hasLeadingIcon) < LeftPadding(Input, false, true) < LeftPadding(Input, false, false)
    ensures chip != Input ==> LeftPadding(chip, hasAvatar, hasLeadingIcon) == LeftPadding(chip, false, hasLeadingIcon)
  {
  }

  /** The state layer is shifted back over the left padding. */
  function StateLayerLeft(chip: Chip, hasAvatar: bool, hasLeadingIcon: bool): (x: int)
    ensures -16 <= x <= -4
    ensures x + LeftPadding(chip, hasAvatar, hasLeadingIcon) == 0
  {
    -(LeftPadding(chip, hasAvatar, hasLeadingIcon) as int)
  }

  /** Round only for an input chip with an avatar. */
  function ChipShape(chip: Chip, hasAvatar: bool): (s: MaterialDesign.Shape)
    ensures s == MaterialDesign.Shape.Full <==> chip == Input && hasAvatar
    ensures s != MaterialDesign.Shape.Full ==> s == MaterialDesign.Shape.Small
  {
    if chip == Input && hasAvatar then MaterialDesign.Shape.Full else MaterialDesign.Shape.Small
  }

  /** What an input chip draws before its label. */
  datatype Leading = AvatarShown | IconShown | NothingShown

  function InputLeading(hasAvatar: bool, hasLeadingIcon: bool): (l: Leading)
    ensures l == AvatarShown <==> hasAvatar
    ensures l == IconShown <==> !hasAvatar && hasLeadingIcon
  {
    if hasAvatar then AvatarShown else if hasLeadingIcon then IconShown else NothingShown
  }

  /** The trailing icon of an input chip: the given one, else "star". */
  function InputTrailingIcon(trailingIcon: Option<string>): (name: string)
    ensures trailingIcon.None? ==> name == "star"
    ensures trailingIcon.Some? ==> name == trailingIcon.value
  {
    trailingIcon.GetOr("star")
  }

  /** Where `on_click` is bound. */
  datatype ClickArea = WholeChip | TrailingArea

  function ClickTarget(chip: Chip): (a: ClickArea)
    ensures a == TrailingArea <==> chip == Input
  {
    if chip == Input then TrailingArea else WholeChip
  }
}
