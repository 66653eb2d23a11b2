/** The navigation rail of src/components/navigation_rail.rs: an item's
    colours, its pill and label layout, and the effect that animates the
    active indicator and, for items that hide their label, the label. */
module NavigationRail {
  import opened Wrappers
  import opened Theme
  import opened Transition
  import MaterialDesign

  /** Pill background, label colour and icon colour. */
  datatype Palette = Palette(background: Color, color: Color, icon: Color)

  /** White with zero alpha: no pill behind an inactive item. */
  const Transparent: Color := Fixed(0, 255, 255, 255)

  /** An active item ignores hover; an inactive one brightens its text and
      icon under the pointer and draws no pill. */
  function Colors(active: bool, hovered: bool): (p: Palette)
    ensures active ==> p == Palette(Of(SecondaryContainer), Of(OnSurface), Of(OnSecondaryContainer))
    ensures !active ==>
      p.background == Transparent && p.color == p.icon
      && p.color == Of(if hovered then OnSurface else OnSurfaceVariant)
  {
    if active then Palette(Of(SecondaryContainer), Of(OnSurface), Of(OnSecondaryContainer))
    else
      var c := if hovered then Of(OnSurface) else Of(OnSurfaceVariant);
      Palette(Transparent, c, c)
  }

  lemma ActiveIgnoresHover(hovered: bool)
    ensures Colors(true, hovered) == Colors(true, !hovered)
    ensures Colors(false, hovered) != Colors(false, !hovered)
  {
  }

  /** The pill is shorter when a label sits under it. */
  function PillHeight(haveLabel: bool): (h: real)
    ensures haveLabel <==> h == 32.0
    ensures !haveLabel <==> h == 56.0
  {
    if haveLabel then 32.0 else 56.0
  }

  /** The indicator's height: fixed with a label, a circle growing with the
      radius without one. */
  function IndicatorHeight(haveLabel: bool, radius: real): (h: real)
    ensures haveLabel ==> h == PillHeight(true)
    ensures !haveLabel ==> h == radius
  {
    if haveLabel then 32.0 else radius
  }

  /** The label's rendered opacity. */
  function LabelOpacity(alwaysShowLabel: bool, labelOpacity: real): (o: real)
    ensures alwaysShowLabel ==> o == 1.0
    ensures !alwaysShowLabel ==> o == labelOpacity
  {
    if alwaysShowLabel then 1.0 else labelOpacity
  }

  /** The pill's top margin. */
  function IconMargin(alwaysShowLabel: bool, haveLabel: bool, iconOffset: real): (m: real)
    ensures alwaysShowLabel || !haveLabel ==> m == 0.0
    ensures !alwaysShowLabel && haveLabel ==> m == iconOffset
  {
    if alwaysShowLabel || !haveLabel then 0.0 else iconOffset
  }

  /** How an item's 24×24 icon is drawn: whether filled, and its colour. */
  datatype ItemIcon = ItemIcon(filled: bool, color: Color)

  /** The icon of an item: filled exactly when the item is active, coloured
      `OnSecondaryContainer` then and like the label otherwise. */
  function Icon(active: bool, hovered: bool): (i: ItemIcon)
    ensures i.filled <==> active
    ensures active ==> i.color == Of(OnSecondaryContainer)
    ensures !active ==> i.color == Colors(active, hovered).color
  {
    ItemIcon(active, Colors(active, hovered).icon)
  }

  /** Whatever the hover, an active item's icon differs from an inactive
      item's, in fill and in colour. */
  lemma IconShowsActive(h1: bool, h2: bool)
    ensures Icon(true, h1).filled != Icon(false, h2).filled
    ensures Icon(true, h1).color != Icon(false, h2).color
  {
    var a := Colors(true, h1);
    var b := Colors(false, h2);
    assert a.icon == Of(OnSecondaryContainer);
    assert b.icon == Of(OnSurface) || b.icon == Of(OnSurfaceVariant);
  }

  /** `always_show_label` when the prop is given, else true. */
  function ShowLabel(alwaysShowLabel: Option<bool>): (b: bool)
    ensures alwaysShowLabel.None? ==> b
    ensures alwaysShowLabel.Some? ==> b == alwaysShowLabel.value
  {
    alwaysShowLabel.GetOr(true)
  }

  /** The rail's background: the given colour, else the scheme's surface. */
  function ContainerBackground(containerColor: Option<Color>): (c: Color)
    ensures containerColor.None? ==> c == Of(Surface)
    ensures containerColor.Some? ==> c == containerColor.value
  {
    containerColor.GetOr(Of(Surface))
  }

  // ---------------------------------------------------------------------
  // The active effect
  // ---------------------------------------------------------------------

  /** `radius_transition` and `label_transition`. */
  datatype Handle = RadiusTransition | LabelTransition

  /** "radius", "icon_offset" and "opacity". */
  datatype Name = Radius | IconOffset | Opacity

  type Handles = map<Handle, Group<Name>>
  type Log = seq<Issued<Handle, Name>>

  function RadiusTarget(active: bool): (r: real)
    ensures active <==> r == 56.0
    ensures !active <==> r == 0.0
  {
    if active then 56.0 else 0.0
  }

  /** Where the label moves to: in place and opaque when active, pushed down
      and invisible otherwise. */
  function IconOffsetTarget(active: bool): real {
    if active then 0.0 else 12.0
  }

  function OpacityTarget(active: bool): real {
    if active then 1.0 else 0.0
  }

  /** Every tween of the rail runs 350 ms, the third medium duration. */
  function Duration(): (d: nat)
    ensures d == MaterialDesign.EasingDuration.Medium.AsValue()[2] && d == 350
  {
    MaterialDesign.EasingDuration.Medium.AsValue()[2]
  }

  /** The handles as mounted with `active`. */
  function Mounted(active: bool): (gs: Handles)
    ensures WellFormed(gs)
  {
    var c, d := MaterialDesign.Easing.EmphasizedDecelerate.AsValue(), Duration();
    var r, o, a := if active then 56.0 else 0.0, if active then 12.0 else 0.0, if active then 0.0 else 1.0;
    map[
      RadiusTransition := map[Radius := Tween(Num(r), Num(r), c, d)],
      LabelTransition := map[IconOffset := Tween(Num(o), Num(o), c, d),
                             Opacity := Tween(Num(a), Num(a), c, d)]]
  }

  predicate WellFormed(gs: Handles) {
    RadiusTransition in gs && Radius in gs[RadiusTransition]
    && LabelTransition in gs && IconOffset in gs[LabelTransition] && Opacity in gs[LabelTransition]
  }

  /** The indicator mounts at rest at its target, but the label mounts at
      the opposite of its target, so the first effect animates it. */
  lemma MountedRelativeToTargets(active: bool)
    ensures var gs := Mounted(active);
      gs[RadiusTransition][Radius].value == Num(RadiusTarget(active))
      && gs[LabelTransition][IconOffset].value == Num(IconOffsetTarget(!active))
      && gs[LabelTransition][Opacity].value == Num(OpacityTarget(!active))
      && gs[LabelTransition][IconOffset].value != Num(IconOffsetTarget(active))
      && gs[LabelTransition][Opacity].value != Num(OpacityTarget(active))
  {
  }

  /** Whether the label animates at all. */
  predicate LabelAnimated(alwaysShowLabel: bool, haveLabel: bool) {
    !alwaysShowLabel && haveLabel
  }

  function LabelCommand(active: bool): Issued<Handle, Name> {
    Issued(LabelTransition, Play([Target(IconOffset, Num(IconOffsetTarget(active))),
                                  Target(Opacity, Num(OpacityTarget(active)))]))
  }

  /** What the effect issues when `active` changes. */
  function ActiveCommands(active: bool, alwaysShowLabel: bool, haveLabel: bool): Log {
    [Issued(RadiusTransition, Play([Target(Radius, Num(RadiusTarget(active)))]))]
    + (if LabelAnimated(alwaysShowLabel, haveLabel) then [LabelCommand(active)] else [])
  }

  /** The indicator always moves, first; the label is commanded only when it
      is hidden by default and present. */
  lemma LabelCommandedOnlyWhenHidden(active: bool, alwaysShowLabel: bool, haveLabel: bool)
    ensures var cs := ActiveCommands(active, alwaysShowLabel, haveLabel);
      cs[0].handle == RadiusTransition
      && (|cs| == 2 <==> LabelAnimated(alwaysShowLabel, haveLabel))
      && (|cs| == 1 <==> !LabelAnimated(alwaysShowLabel, haveLabel))
      && (forall k :: 0 <= k < |cs| && cs[k].handle == LabelTransition ==> k == 1)
  {
  }

  /** After the effect the indicator aims at its target; the label aims at
      its targets when animated and is untouched otherwise. */
  lemma EffectAimsAtActive(gs: Handles, active: bool, alwaysShowLabel: bool, haveLabel: bool)
    requires WellFormed(gs)
    ensures var after := Run(gs, ActiveCommands(active, alwaysShowLabel, haveLabel));
      WellFormed(after)
      && after[RadiusTransition] == gs[RadiusTransition]
           [Radius := gs[RadiusTransition][Radius].(target := Num(RadiusTarget(active)))]
      && after[LabelTransition]
         == if LabelAnimated(alwaysShowLabel, haveLabel)
            then gs[LabelTransition]
              [IconOffset := gs[LabelTransition][IconOffset].(target := Num(IconOffsetTarget(active)))]
              [Opacity := gs[LabelTransition][Opacity].(target := Num(OpacityTarget(active)))]
            else gs[LabelTransition]
  {
    var r := Issued(RadiusTransition, Play([Target(Radius, Num(RadiusTarget(active)))]));
    var l := LabelCommand(active);
    RunShort(gs, r, l, l);
    StepPlayOne(gs, RadiusTransition, Radius, Num(RadiusTarget(active)));
    var g1 := Step(gs, r);
    StepPlayTwo(g1, LabelTransition, IconOffset, Num(IconOffsetTarget(active)), Opacity, Num(OpacityTarget(active)));
  }

  /** An item that always shows its label never moves it: no label command
      is issued and the rendered opacity and margin ignore the tweens. */
  lemma ShownLabelStaysPut(active: bool, haveLabel: bool, iconOffset: real, labelOpacity: real)
    ensures forall k :: 0 <= k < |ActiveCommands(active, true, haveLabel)| ==>
      ActiveCommands(active, true, haveLabel)[k].handle != LabelTransition
    ensures LabelOpacity(true, labelOpacity) == 1.0 && IconMargin(true, haveLabel, iconOffset) == 0.0
  {
  }

  /** One item of the rail: its hover flag, its fixed props and its two
      transition handles. */
  class NavigationRailItem {
    var hovered: bool
    const alwaysShowLabel: bool
    const haveLabel: bool
    const anim: Animator<Handle, Name>

    ghost predicate Valid()
      reads anim
    {
      anim.Valid() && WellFormed(anim.initial)
    }

    /** `caption` is the `label` prop. */
    constructor (active: bool, caption: Option<string>, alwaysShowLabel: Option<bool>)
      ensures Valid() && fresh(anim)
      ensures !hovered && this.alwaysShowLabel == ShowLabel(alwaysShowLabel) && haveLabel == caption.Some?
      ensures anim.groups == Mounted(active) && anim.log == []
    {
      hovered := false;
      this.alwaysShowLabel := ShowLabel(alwaysShowLabel);
      haveLabel := caption.Some?;
      anim := new Animator(Mounted(active));
    }

    method PointerEnter()
      modifies this
      ensures hovered
    {
      hovered := true;
    }

    method PointerLeave()
      modifies this
      ensures !hovered
    {
      hovered := false;
    }

    /** The effect that runs whenever `active` changes. */
    method ActiveEffect(active: bool)
      requires Valid()
      modifies anim
      ensures Valid()
      ensures anim.log == old(anim.log) + ActiveCommands(active, alwaysShowLabel, haveLabel)
      ensures anim.groups == Run(old(anim.groups), ActiveCommands(active, alwaysShowLabel, haveLabel))
    {
      if active {
        anim.Issue(RadiusTransition, Play([Target(Radius, Num(56.0))]));
        if !alwaysShowLabel && haveLabel {
          anim.Issue(LabelTransition, Play([Target(IconOffset, Num(0.0)), Target(Opacity, Num(1.0))]));
        }
      } else {
        anim.Issue(RadiusTransition, Play([Target(Radius, Num(0.0))]));
        if !alwaysShowLabel && haveLabel {
          anim.Issue(LabelTransition, Play([Target(IconOffset, Num(12.0)), Target(Opacity, Num(0.0))]));
        }
      }
      RunAppend(anim.initial, old(anim.log), ActiveCommands(active, alwaysShowLabel, haveLabel));
    }
  }
}
