/** The checkbox of src/components/checkbox.rs: the per-state tween targets,
    the colour table, and the effect that re-aims the check mark whenever the
    state changes, remembering whether the previous state was unchecked. */
module Checkbox {
  import opened Wrappers
  import opened Theme
  import opened Transition
  import MaterialDesign
  import Geometry

  datatype CheckboxState = Unchecked | Intermediate | Checked {

    /** Checked or intermediate. */
    function IntoBool(): (b: bool)
      ensures !b <==> this == Unchecked
    {
      this == Checked || this == Intermediate
    }

    /** Filled states grow in on the accelerating curve, the unchecked
        state shrinks out on the decelerating one. */
    function IntoCurve(): (c: Curve)
      ensures IntoBool() ==> c == MaterialDesign.Easing.EmphasizedAccelerate.AsValue()
      ensures !IntoBool() ==> c == MaterialDesign.Easing.EmphasizedDecelerate.AsValue()
    {
      (if IntoBool() then MaterialDesign.Easing.EmphasizedAccelerate else MaterialDesign.Easing.EmphasizedDecelerate).AsValue()
    }

    function IntoDuration(): (d: nat)
      ensures d == 150 <==> IntoBool()
      ensures d == 350 <==> !IntoBool()
    {
      if IntoBool() then 150 else 350
    }

    function IntoOpacity(): (o: real)
      ensures o == 1.0 <==> IntoBool()
      ensures o == 0.0 <==> !IntoBool()
    {
      if IntoBool() then 1.0 else 0.0
    }

    /** The fill is the full 18 box when filled, 60% of it otherwise. */
    function IntoRadius(): (r: real)
      ensures r == 18.0 <==> IntoBool()
      ensures r == 10.8 <==> !IntoBool()
    {
      if IntoBool() then 18.0 else 18.0 * 0.6
    }

    /** The long stroke: √128 when checked, 10 otherwise. */
    function IntoWidth(): (w: Value)
      ensures w == Sqrt(128) <==> this == Checked
      ensures w == Num(10.0) <==> this != Checked
    {
      if this == Checked then Sqrt(128) else Num(10.0)
    }

    /** The short stroke: √32 when checked, 2 otherwise. */
    function IntoHeight(): (h: Value)
      ensures h == Sqrt(32) <==> this == Checked
      ensures h == Num(2.0) <==> this != Checked
    {
      if this == Checked then Sqrt(32) else Num(2.0)
    }

    /** Flat for the intermediate dash, tilted into a tick otherwise. */
    function IntoRotation(): (r: real)
      ensures r == 0.0 <==> this == Intermediate
      ensures r == -45.0 <==> this != Intermediate
    {
      if this == Intermediate then 0.0 else -45.0
    }

    function IntoOffset(): (o: Value)
      ensures o == Point(4.0, 8.0) <==> this == Intermediate
      ensures o == Point(5.0, 8.0) <==> this != Intermediate
    {
      if this == Intermediate then Point(4.0, 8.0) else Point(5.0, 8.0)
    }
  }

  function FromBool(value: bool): (s: CheckboxState)
    ensures s != Intermediate
  {
    if value then Checked else Unchecked
  }

  /** `from_bool` and `into_bool` are inverse on booleans. */
  lemma BoolRoundTrip(b: bool)
    ensures FromBool(b).IntoBool() == b
  {
  }

  /** The box transition depends on nothing but `into_bool`: filled states
      grow in fast, the unchecked state shrinks out slowly. */
  lemma BoxFollowsIntoBool(s: CheckboxState)
    ensures s.IntoBool() ==>
      s.IntoCurve() == MaterialDesign.Easing.EmphasizedAccelerate.AsValue()
      && s.IntoDuration() == 150 && s.IntoOpacity() == 1.0 && s.IntoRadius() == 18.0
    ensures !s.IntoBool() ==>
      s.IntoCurve() == MaterialDesign.Easing.EmphasizedDecelerate.AsValue()
      && s.IntoDuration() == 350 && s.IntoOpacity() == 0.0 && s.IntoRadius() == 10.8
    ensures s.IntoRadius() <= 18.0 && 0.0 <= s.IntoOpacity() <= 1.0
  {
  }

  /** The mark is flat only for the intermediate state, and full length only
      when checked. */
  lemma MarkShape(s: CheckboxState)
    ensures s.IntoRotation() == 0.0 <==> s == Intermediate
    ensures s.IntoOffset() == Point(4.0, 8.0) <==> s == Intermediate
    ensures s != Intermediate ==> s.IntoOffset() == Point(5.0, 8.0)
    ensures s.IntoRotation() == -45.0 <==> s != Intermediate
    ensures s.IntoWidth() == Sqrt(128) <==> s == Checked
    ensures s.IntoHeight() == Sqrt(32) <==> s == Checked
    ensures s != Checked ==> s.IntoWidth() == Num(10.0) && s.IntoHeight() == Num(2.0)
  {
  }

  // ---------------------------------------------------------------------
  // Colours
  // ---------------------------------------------------------------------

  datatype Palette = Palette(background: Color, color: Color, border: Color)

  /** Fill, mark and border colour. A disabled checkbox ignores `error` and
      hides its border once filled; an enabled one borders itself in its
      own fill colour only in the error palette. */
  function Colors(error: bool, disabled: bool, s: CheckboxState): (p: Palette)
    ensures disabled ==> p.background == WithAlpha(OnSurface, 0.38) && p.color == Of(Surface)
    ensures disabled ==> p.border == WithAlpha(OnSurface, if s.IntoBool() then 0.0 else 0.38)
    ensures !disabled ==> p.background == Of(if error then Error else Primary)
    ensures !disabled ==> (p.border == p.background <==> error)
  {
    if disabled then
      Palette(WithAlpha(OnSurface, 0.38), Of(Surface),
              if s.IntoBool() then WithAlpha(OnSurface, 0.0) else WithAlpha(OnSurface, 0.38))
    else if error then Palette(Of(Error), Of(OnError), Of(Error))
    else Palette(Of(Primary), Of(OnPrimary), Of(OnSurfaceVariant))
  }

  lemma DisabledOverridesError(disabled: bool, s: CheckboxState)
    ensures disabled ==> Colors(true, disabled, s) == Colors(false, disabled, s)
    ensures disabled ==> Colors(true, disabled, s).border.alpha == Some(if s.IntoBool() then 0.0 else 0.38)
    ensures !disabled ==> Colors(true, disabled, s) == Palette(Of(Error), Of(OnError), Of(Error))
    ensures !disabled ==> Colors(false, disabled, s) == Palette(Of(Primary), Of(OnPrimary), Of(OnSurfaceVariant))
  {
  }

  function StateLayerColor(error: bool, s: CheckboxState): (c: Color)
    ensures error ==> c == Of(Error)
    ensures !error ==> c == Of(if s.IntoBool() then Primary else OnSurface)
  {
    if error then Of(Error) else if s.IntoBool() then Of(Primary) else Of(OnSurface)
  }

  /** The state layer over an enabled checkbox, shifted back over the 11
      padding on both axes. A disabled checkbox has none. */
  function StateLayerOf(error: bool, disabled: bool, s: CheckboxState): (r: Option<Geometry.Placement>)
    ensures r.Some? <==> !disabled
    ensures r.Some? ==> r.value.color == StateLayerColor(error, s) && r.value.left == -11 && r.value.top == Some(-11)
    ensures r.Some? && !error ==> r.value.color == Of(if s == Unchecked then OnSurface else Primary)
  {
    if disabled then None else Some(Geometry.Placement(StateLayerColor(error, s), -11, Some(-11)))
  }

  // ---------------------------------------------------------------------
  // The state-change effect
  // ---------------------------------------------------------------------

  /** `rect_transition` and `checkmark_transition`. */
  datatype Handle = Rect | Checkmark

  /** "radius", "opacity", "rotation", "offset", "width" and "height". */
  datatype Name = Radius | Opacity | Rotation | Offset | Width | Height

  type Handles = map<Handle, Group<Name>>
  type Log = seq<Issued<Handle, Name>>

  /** The handles as mounted with state `s`: every tween at rest at the
      state's value. */
  function Mounted(s: CheckboxState): (gs: Handles)
    ensures WellFormed(gs)
  {
    var c, d := s.IntoCurve(), s.IntoDuration();
    map[
      Rect := map[
        Radius := Tween(Num(s.IntoRadius()), Num(s.IntoRadius()), c, d),
        Opacity := Tween(Num(s.IntoOpacity()), Num(s.IntoOpacity()), Linear, 50)],
      Checkmark := map[
        Rotation := Tween(Num(s.IntoRotation()), Num(s.IntoRotation()), c, d),
        Offset := Tween(s.IntoOffset(), s.IntoOffset(), c, d),
        Width := Tween(s.IntoWidth(), s.IntoWidth(), c, d),
        Height := Tween(s.IntoHeight(), s.IntoHeight(), c, d)]]
  }

  predicate WellFormed(gs: Handles) {
    Rect in gs && Radius in gs[Rect] && Opacity in gs[Rect]
    && Checkmark in gs && Rotation in gs[Checkmark] && Offset in gs[Checkmark]
    && Width in gs[Checkmark] && Height in gs[Checkmark]
  }

  lemma RunKeepsWellFormed(gs: Handles, log: Log)
    requires WellFormed(gs)
    ensures WellFormed(Run(gs, log))
  {
    RunKeepsTween(gs, log, Rect, Radius);
    RunKeepsTween(gs, log, Rect, Opacity);
    RunKeepsTween(gs, log, Checkmark, Rotation);
    RunKeepsTween(gs, log, Checkmark, Offset);
    RunKeepsTween(gs, log, Checkmark, Width);
    RunKeepsTween(gs, log, Checkmark, Height);
  }

  /** The stroke collapses before growing, when a checkbox that was
      unchecked becomes checked. */
  function Collapse(previousUnchecked: bool, s: CheckboxState): Log {
    if previousUnchecked && s == Checked then [Issued(Checkmark, ForcedSet(Width, Num(0.0)))] else []
  }

  /** The mark is aimed at the state's shape. */
  function Retarget(s: CheckboxState): Log {
    [ Issued(Checkmark, Set(Rotation, Num(s.IntoRotation()))),
      Issued(Checkmark, Set(Offset, s.IntoOffset())),
      Issued(Checkmark, Set(Width, s.IntoWidth())),
      Issued(Checkmark, Set(Height, s.IntoHeight())) ]
  }

  function MarkCommands(previousUnchecked: bool, s: CheckboxState): Log {
    if s == Unchecked then []
    else Collapse(previousUnchecked, s) + Retarget(s) + [Issued(Checkmark, PlayAll)]
  }

  function BoxCommand(s: CheckboxState): Issued<Handle, Name> {
    Issued(Rect, Play([Target(Radius, Num(s.IntoRadius())), Target(Opacity, Num(s.IntoOpacity()))]))
  }

  /** What the effect issues for the new state `s`. */
  function EffectCommands(previousUnchecked: bool, s: CheckboxState): Log {
    MarkCommands(previousUnchecked, s) + [BoxCommand(s)]
  }

  /** An unchecked box leaves the mark alone; the box itself is always
      played, last, to the state's radius and opacity. */
  lemma UncheckedLeavesMarkAlone(previousUnchecked: bool, s: CheckboxState)
    ensures var cs := EffectCommands(previousUnchecked, s);
      |cs| > 0 && cs[|cs| - 1] == BoxCommand(s)
      && (forall k :: 0 <= k < |cs| - 1 ==> cs[k].handle == Checkmark)
      && (s == Unchecked <==> forall k :: 0 <= k < |cs| ==> cs[k].handle != Checkmark)
  {
    var cs := EffectCommands(previousUnchecked, s);
    if s != Unchecked {
      var m := MarkCommands(previousUnchecked, s);
      assert m[|m| - 1].handle == Checkmark;
      assert cs[|m| - 1] == m[|m| - 1];
    }
  }

  /** The width is forced to 0 exactly when an unchecked box becomes
      checked. */
  lemma CollapseOnlyFromUnchecked(previousUnchecked: bool, s: CheckboxState)
    ensures Issued(Checkmark, ForcedSet(Width, Num(0.0))) in EffectCommands(previousUnchecked, s)
      <==> previousUnchecked && s == Checked
  {
    var cs := EffectCommands(previousUnchecked, s);
    var f := Issued(Checkmark, ForcedSet(Width, Num(0.0)));
    if previousUnchecked && s == Checked {
      assert cs[0] == f;
    } else {
      assert forall k :: 0 <= k < |cs| ==> cs[k] != f;
    }
  }

  /** Four sets on the mark, each changing the one target it names. */
  lemma MarkSets(gs: Handles, r: Value, o: Value, w: Value, h: Value)
    requires WellFormed(gs)
    ensures Run(gs, [ Issued(Checkmark, Set(Rotation, r)), Issued(Checkmark, Set(Offset, o)),
                      Issued(Checkmark, Set(Width, w)), Issued(Checkmark, Set(Height, h)) ])
      == gs[Checkmark := gs[Checkmark]
           [Rotation := gs[Checkmark][Rotation].(target := r)]
           [Offset := gs[Checkmark][Offset].(target := o)]
           [Width := gs[Checkmark][Width].(target := w)]
           [Height := gs[Checkmark][Height].(target := h)]]
  {
    var c0, c1, c2, c3 := Issued(Checkmark, Set(Rotation, r)), Issued(Checkmark, Set(Offset, o)),
                          Issued(Checkmark, Set(Width, w)), Issued(Checkmark, Set(Height, h));
    var m := gs[Checkmark];
    var m2 := m[Rotation := m[Rotation].(target := r)][Offset := m[Offset].(target := o)];
    var m4 := m2[Width := m[Width].(target := w)][Height := m[Height].(target := h)];
    RunSetTwo(gs, Checkmark, Rotation, r, Offset, o);
    var g2 := gs[Checkmark := m2];
    RunSetTwo(g2, Checkmark, Width, w, Height, h);
    assert g2[Checkmark := m4] == gs[Checkmark := m4];
    assert [c0, c1, c2, c3] == [c0, c1] + [c2, c3];
    RunAppend(gs, [c0, c1], [c2, c3]);
  }

  /** The collapse puts the width at rest at 0 and changes nothing else. */
  lemma CollapseEffect(gs: Handles, previousUnchecked: bool, s: CheckboxState)
    requires WellFormed(gs)
    ensures Run(gs, Collapse(previousUnchecked, s))
      == if previousUnchecked && s == Checked
         then gs[Checkmark := gs[Checkmark][Width := gs[Checkmark][Width].(value := Num(0.0), target := Num(0.0))]]
         else gs
  {
    var f := Issued(Checkmark, ForcedSet(Width, Num(0.0)));
    RunShort(gs, f, f, f);
    StepSetOne(gs, Checkmark, Width, Num(0.0));
  }

  /** Collapse, retarget, play-all: the mark aims at the state's shape; the
      box is untouched. */
  lemma MarkEffect(gs: Handles, previousUnchecked: bool, s: CheckboxState)
    requires WellFormed(gs) && s != Unchecked
    ensures var after := Run(gs, MarkCommands(previousUnchecked, s));
      WellFormed(after) && after[Rect] == gs[Rect]
      && after[Checkmark][Rotation] == gs[Checkmark][Rotation].(target := Num(s.IntoRotation()))
      && after[Checkmark][Offset] == gs[Checkmark][Offset].(target := s.IntoOffset())
      && after[Checkmark][Height] == gs[Checkmark][Height].(target := s.IntoHeight())
      && after[Checkmark][Width]
         == if previousUnchecked && s == Checked
            then gs[Checkmark][Width].(value := Num(0.0), target := s.IntoWidth())
            else gs[Checkmark][Width].(target := s.IntoWidth())
  {
    var col := Collapse(previousUnchecked, s);
    CollapseEffect(gs, previousUnchecked, s);
    var g0 := Run(gs, col);
    MarkSets(g0, Num(s.IntoRotation()), s.IntoOffset(), s.IntoWidth(), s.IntoHeight());
    var g1 := Run(g0, Retarget(s));
    RunAppend(gs, col, Retarget(s));
    var p := Issued(Checkmark, PlayAll);
    RunAppend(gs, col + Retarget(s), [p]);
    RunShort(g1, p, p, p);
    StepKeepsTweens(g1, Checkmark);
    RunKeepsWellFormed(gs, MarkCommands(previousUnchecked, s));
  }

  lemma BoxEffect(gs: Handles, s: CheckboxState)
    requires WellFormed(gs)
    ensures Run(gs, [BoxCommand(s)]) == gs[Rect := gs[Rect]
      [Radius := gs[Rect][Radius].(target := Num(s.IntoRadius()))]
      [Opacity := gs[Rect][Opacity].(target := Num(s.IntoOpacity()))]]
  {
    var c := BoxCommand(s);
    RunShort(gs, c, c, c);
    StepPlayTwo(gs, Rect, Radius, Num(s.IntoRadius()), Opacity, Num(s.IntoOpacity()));
  }

  /** After the effect every tween of the mark aims at the new state's shape
      (the width having been brought to rest at 0 first when an unchecked box
      becomes checked), and the box aims at the new radius and opacity. An
      unchecked state leaves the mark as it was. */
  lemma EffectAimsAtState(gs: Handles, previousUnchecked: bool, s: CheckboxState)
    requires WellFormed(gs)
    ensures var after := Run(gs, EffectCommands(previousUnchecked, s));
      WellFormed(after)
      && after[Rect] == gs[Rect]
           [Radius := gs[Rect][Radius].(target := Num(s.IntoRadius()))]
           [Opacity := gs[Rect][Opacity].(target := Num(s.IntoOpacity()))]
      && (s == Unchecked ==> after[Checkmark] == gs[Checkmark])
      && (s != Unchecked ==>
            after[Checkmark][Rotation] == gs[Checkmark][Rotation].(target := Num(s.IntoRotation()))
            && after[Checkmark][Offset] == gs[Checkmark][Offset].(target := s.IntoOffset())
            && after[Checkmark][Height] == gs[Checkmark][Height].(target := s.IntoHeight())
            && after[Checkmark][Width]
               == if previousUnchecked && s == Checked
                  then gs[Checkmark][Width].(value := Num(0.0), target := s.IntoWidth())
                  else gs[Checkmark][Width].(target := s.IntoWidth()))
  {
    var mark := MarkCommands(previousUnchecked, s);
    RunAppend(gs, mark, [BoxCommand(s)]);
    if s != Unchecked {
      MarkEffect(gs, previousUnchecked, s);
    } else {
      assert mark == [];
    }
    var g := Run(gs, mark);
    BoxEffect(g, s);
  }

  /** Every command of the effect is one the handles accept. */
  lemma EffectAccepted(gs: Handles, previousUnchecked: bool, s: CheckboxState)
    requires WellFormed(gs)
    ensures Accepts(gs, EffectCommands(previousUnchecked, s))
  {
  }

  /** The checkbox: the flag remembering the previous state, the two
      transition handles, its `disabled` prop and the clicks it has
      forwarded to `on_click`. `seen` is the sequence of states the effect
      has run on. */
  class Checkbox {
    var previousUnchecked: bool
    ghost var seen: seq<CheckboxState>
    const anim: Animator<Handle, Name>
    const disabled: bool
    var clicks: nat

    ghost predicate Valid()
      reads this, anim
    {
      anim.Valid() && WellFormed(anim.initial)
      && previousUnchecked == (seen != [] && seen[|seen| - 1] == Unchecked)
    }

    /** Mounted with state `s`. */
    constructor (s: CheckboxState, disabled: bool)
      ensures Valid() && fresh(anim)
      ensures previousUnchecked == false && seen == []
      ensures anim.groups == Mounted(s) && anim.log == []
      ensures this.disabled == disabled && clicks == 0
    {
      previousUnchecked := false;
      seen := [];
      anim := new Animator(Mounted(s));
      this.disabled := disabled;
      clicks := 0;
    }

    /** A click reaches `on_click` only when enabled. */
    method Click()
      modifies this
      ensures clicks == old(clicks) + (if disabled then 0 else 1)
      ensures previousUnchecked == old(previousUnchecked) && seen == old(seen)
    {
      if !disabled {
        clicks := clicks + 1;
      }
    }

    /** The effect, run at mount and whenever the state prop changes. The
        stroke is collapsed exactly when the state it last ran on was
        unchecked and the new state is checked. */
    method StateEffect(s: CheckboxState)
      requires Valid()
      modifies this, anim
      ensures Valid() && seen == old(seen) + [s]
      ensures previousUnchecked == (s == Unchecked) && clicks == old(clicks)
      ensures anim.log == old(anim.log) + EffectCommands(old(previousUnchecked), s)
      ensures anim.groups == Run(old(anim.groups), EffectCommands(old(previousUnchecked), s))
      ensures (Issued(Checkmark, ForcedSet(Width, Num(0.0))) in EffectCommands(old(previousUnchecked), s))
        <==> old(seen) != [] && old(seen)[|old(seen)| - 1] == Unchecked && s == Checked
    {
      var cs := EffectCommands(previousUnchecked, s);
      CollapseOnlyFromUnchecked(previousUnchecked, s);
      EffectAccepted(anim.initial, previousUnchecked, s);
      anim.IssueAll(cs);
      previousUnchecked := s == Unchecked;
      seen := seen + [s];
      assert seen[|seen| - 1] == s;
    }
  }
}
