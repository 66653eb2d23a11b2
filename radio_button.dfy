/** The radio button of src/components/radio_button.rs: the colour chosen
    by priority, the hover flag, the inner dot's radius and the gating of
    clicks by `disabled`. */
module RadioButton {
  import opened Wrappers
  import opened Theme
  import opened Transition
  import MaterialDesign
  import Geometry

  /** The ring's and the dot's colour: disabled first, then selected, then
      hovered. */
  function RingColor(disabled: bool, selected: bool, hovered: bool): (c: Color)
    ensures disabled ==> c == WithAlpha(OnSurface, 0.38)
    ensures !disabled && selected ==> c == Of(Primary)
    ensures !disabled && !selected && hovered ==> c == Of(OnSurface)
    ensures !disabled && !selected && !hovered ==> c == Of(OnSurfaceVariant)
  {
    if disabled then WithAlpha(OnSurface, 0.38)
    else if selected then Of(Primary)
    else if hovered then Of(OnSurface)
    else Of(OnSurfaceVariant)
  }

  /** A higher-priority flag hides every lower one. */
  lemma ColorPriority(selected: bool, hovered: bool, selected': bool, hovered': bool)
    ensures RingColor(true, selected, hovered) == RingColor(true, selected', hovered')
    ensures RingColor(false, true, hovered) == RingColor(false, true, hovered')
    ensures RingColor(false, false, true) != RingColor(false, false, false)
  {
  }

  /** The state layer over an enabled button: tinted like the ring and
      shifted back over the 10 padding on both axes. A disabled button has
      none. */
  function StateLayerOf(disabled: bool, selected: bool, hovered: bool): (r: Option<Geometry.Placement>)
    ensures r.Some? <==> !disabled
    ensures r.Some? ==>
      r.value.color == RingColor(false, selected, hovered) && r.value.color.alpha.None?
      && r.value.left == -10 && r.value.top == Some(-10)
  {
    if disabled then None
    else Some(Geometry.Placement(RingColor(disabled, selected, hovered), -10, Some(-10)))
  }

  /** `radius_transition`. */
  datatype Handle = RadiusTransition

  datatype Name = Radius

  type Handles = map<Handle, Group<Name>>
  type Log = seq<Issued<Handle, Name>>

  /** The dot's diameter: 8 when selected, none otherwise. */
  function RadiusTarget(selected: bool): (r: real)
    ensures selected <==> r == 8.0
    ensures !selected <==> r == 0.0
  {
    if selected then 8.0 else 0.0
  }

  /** The dot mounts with no radius, whatever `selected` is, and runs 350 ms,
      the third medium duration. */
  function Mounted(): (gs: Handles)
    ensures WellFormed(gs)
    ensures gs[RadiusTransition][Radius].value == Num(0.0)
    ensures gs[RadiusTransition][Radius].duration == MaterialDesign.EasingDuration.Medium.AsValue()[2] == 350
  {
    var d := MaterialDesign.EasingDuration.Medium.AsValue()[2];
    map[RadiusTransition := map[Radius := Tween(Num(0.0), Num(0.0), MaterialDesign.Easing.EmphasizedDecelerate.AsValue(), d)]]
  }

  predicate WellFormed(gs: Handles) {
    RadiusTransition in gs && Radius in gs[RadiusTransition]
  }

  lemma RunKeepsWellFormed(gs: Handles, log: Log)
    requires WellFormed(gs)
    ensures WellFormed(Run(gs, log))
  {
    RunKeepsTween(gs, log, RadiusTransition, Radius);
  }

  function SelectedCommands(selected: bool): Log {
    [Issued(RadiusTransition, Play([Target(Radius, Num(RadiusTarget(selected)))]))]
  }

  /** The effect aims the dot at the selection and changes nothing else. */
  lemma EffectAimsAtSelection(gs: Handles, selected: bool)
    requires WellFormed(gs)
    ensures Run(gs, SelectedCommands(selected)) == gs[RadiusTransition := gs[RadiusTransition]
      [Radius := gs[RadiusTransition][Radius].(target := Num(RadiusTarget(selected)))]]
  {
    var c := SelectedCommands(selected)[0];
    RunShort(gs, c, c, c);
    StepPlayOne(gs, RadiusTransition, Radius, Num(RadiusTarget(selected)));
  }

  /** At mount an unselected button is already at rest, while a selected
      one grows its dot from nothing. */
  lemma MountedSelectionGrows(selected: bool)
    ensures var after := Run(Mounted(), SelectedCommands(selected));
      WellFormed(after) && (after == Mounted() <==> !selected)
      && after[RadiusTransition][Radius].value == Num(0.0)
      && after[RadiusTransition][Radius].target == Num(RadiusTarget(selected))
  {
    var gs := Mounted();
    EffectAimsAtSelection(gs, selected);
    RunKeepsWellFormed(gs, SelectedCommands(selected));
    var g := gs[RadiusTransition];
    if !selected {
      assert g[Radius := g[Radius]] == g;
      assert gs[RadiusTransition := g] == gs;
    } else {
      var after := Run(gs, SelectedCommands(selected));
      assert after[RadiusTransition][Radius] != gs[RadiusTransition][Radius];
    }
  }

  /** The radio button: its hover flag, the clicks it has forwarded and its
      transition handle. */
  class RadioButton {
    var hovered: bool
    var clicks: nat
    const disabled: bool
    const anim: Animator<Handle, Name>

    ghost predicate Valid()
      reads anim
    {
      anim.Valid() && WellFormed(anim.initial)
    }

    constructor (disabled: bool)
      ensures Valid() && fresh(anim)
      ensures !hovered && clicks == 0 && this.disabled == disabled
      ensures anim.groups == Mounted() && anim.log == []
    {
      hovered := false;
      clicks := 0;
      this.disabled := disabled;
      anim := new Animator(Mounted());
    }

    method PointerEnter()
      modifies this
      ensures hovered && clicks == old(clicks)
    {
      hovered := true;
    }

    method PointerLeave()
      modifies this
      ensures !hovered && clicks == old(clicks)
    {
      hovered := false;
    }

    /** A click reaches `on_click` only when enabled. */
    method Click()
      modifies this
      ensures clicks == old(clicks) + (if disabled then 0 else 1)
      ensures hovered == old(hovered)
    {
      if !disabled {
        clicks := clicks + 1;
      }
    }

    /** The effect that runs whenever `selected` changes. */
    method SelectedEffect(selected: bool)
      requires Valid()
      modifies anim
      ensures Valid()
      ensures anim.log == old(anim.log) + SelectedCommands(selected)
      ensures anim.groups == Run(old(anim.groups), SelectedCommands(selected))
    {
      if selected {
        anim.Issue(RadiusTransition, Play([Target(Radius, Num(8.0))]));
      } else {
        anim.Issue(RadiusTransition, Play([Target(Radius, Num(0.0))]));
      }
      RunAppend(anim.initial, old(anim.log), SelectedCommands(selected));
    }
  }
}
