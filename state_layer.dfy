/** The hover/press overlay of src/components/state_layer.rs: a background
    whose opacity follows the interaction state, and a ripple that restarts
    from its start geometry on every press and fades once it has settled. */
module StateLayer {
  import opened Transition
  import opened Geometry

  datatype State = Idle | Hover | Press {

    /** Position in the declaration order (the derived `Ord`). */
    function Rank(): nat {
      match this
      case Idle => 0
      case Hover => 1
      case Press => 2
    }

    function IsPress(): (b: bool)
      ensures b <==> this == Press
    {
      this == Press
    }

    /** The background opacity of the state. */
    function Opacity(): (o: real)
      ensures 0.0 <= o <= 0.1
      ensures o == 0.0 <==> this == Idle
      ensures o == 0.08 <==> this == Hover
      ensures o == 0.1 <==> this == Press
    {
      match this
      case Idle => 0.0
      case Hover => 0.08
      case Press => 0.1
    }
  }

  /** The background gets more opaque along Idle < Hover < Press. */
  lemma OpacityStrictlyIncreasing(a: State, b: State)
    requires a.Rank() < b.Rank()
    ensures a.Opacity() < b.Opacity()
  {
  }

  /** The three transition handles of the component: `transition`,
      `ripple_opacity_transition` and `ripple_transition`. */
  datatype Handle = Background | RippleOpacity | RippleGrowth

  /** The tweens "opacity", "radius" and "origin". */
  datatype Name = Opacity | Radius | Origin

  type Handles = map<Handle, Group<Name>>
  type Log = seq<Issued<Handle, Name>>

  /** The handles as `use_transition` creates them at mount. */
  function Mounted(): (gs: Handles)
    ensures WellFormed(gs)
  {
    map[
      Background := map[Opacity := Tween(Num(0.0), Num(0.0), Linear, 15)],
      RippleOpacity := map[Opacity := Tween(Num(0.0), Num(0.0), Linear, 75)],
      RippleGrowth := map[
        Radius := Tween(Num(0.0), Num(0.0), FastOutSlowIn, 450),
        Origin := Tween(Point(0.0, 0.0), Point(0.0, 0.0), FastOutSlowIn, 450)]]
  }

  /** Every handle holds the tweens the component reads from it. */
  predicate WellFormed(gs: Handles) {
    Background in gs && Opacity in gs[Background]
    && RippleOpacity in gs && Opacity in gs[RippleOpacity]
    && RippleGrowth in gs && Radius in gs[RippleGrowth] && Origin in gs[RippleGrowth]
  }

  lemma RunKeepsWellFormed(gs: Handles, log: Log)
    requires WellFormed(gs)
    ensures WellFormed(Run(gs, log))
  {
    RunKeepsTween(gs, log, Background, Opacity);
    RunKeepsTween(gs, log, RippleOpacity, Opacity);
    RunKeepsTween(gs, log, RippleGrowth, Radius);
    RunKeepsTween(gs, log, RippleGrowth, Origin);
  }

  /** What a pointer-down issues, in order: the ripple is put back at its
      start, aimed at its end, and launched. */
  function PressCommands(info: RippleInfo): Log {
    Restart(info) + Aim(info) + Launch()
  }

  /** The ripple at rest at the start geometry, invisible, with a 75 ms
      fade-in. */
  function Restart(info: RippleInfo): Log {
    [ Issued(RippleOpacity, SetDuration(Opacity, 75)),
      Issued(RippleOpacity, ForcedSet(Opacity, Num(0.0))),
      Issued(RippleGrowth, ForcedSet(Radius, Num(info.radius))),
      Issued(RippleGrowth, ForcedSet(Origin, Point(info.start.x, info.start.y))) ]
  }

  function Aim(info: RippleInfo): Log {
    [ Issued(RippleGrowth, Set(Radius, Num(info.FinalRadius()))),
      Issued(RippleGrowth, Set(Origin, Point(info.end.x, info.end.y))) ]
  }

  function Launch(): Log {
    [ Issued(RippleOpacity, Play([Target(Opacity, Num(0.1))])),
      Issued(RippleGrowth, PlayAll) ]
  }

  /** What the background effect issues. */
  function BackgroundCommands(s: State): Log {
    [Issued(Background, Play([Target(Opacity, Num(s.Opacity()))]))]
  }

  /** What the deferred fade issues: nothing while the ripple still grows or
      the pointer is still down. */
  function FadeCommands(ripplePlaying: bool, s: State): Log {
    if !ripplePlaying && !s.IsPress()
    then [Issued(RippleOpacity, SetDuration(Opacity, 150)),
          Issued(RippleOpacity, Play([Target(Opacity, Num(0.0))]))]
    else []
  }

  lemma PressAccepted(gs: Handles, info: RippleInfo)
    requires WellFormed(gs)
    ensures Accepts(gs, PressCommands(info))
  {
  }

  lemma RestartEffect(gs: Handles, info: RippleInfo)
    requires WellFormed(gs)
    ensures var g := Run(gs, Restart(info));
      WellFormed(g)
      && g[RippleOpacity][Opacity] == gs[RippleOpacity][Opacity].(value := Num(0.0), target := Num(0.0), duration := 75)
      && g[RippleGrowth][Radius] == gs[RippleGrowth][Radius].(value := Num(info.radius), target := Num(info.radius))
      && g[RippleGrowth][Origin] == gs[RippleGrowth][Origin].(value := Point(info.start.x, info.start.y), target := Point(info.start.x, info.start.y))
      && g[Background] == gs[Background]
  {
    var cs := Restart(info);
    assert cs == [cs[0], cs[1], cs[2]] + [cs[3]];
    RunSnoc(gs, [cs[0], cs[1], cs[2]], cs[3]);
    RunShort(gs, cs[0], cs[1], cs[2]);
  }

  lemma AimEffect(gs: Handles, info: RippleInfo)
    requires WellFormed(gs)
    ensures Run(gs, Aim(info)) == gs[RippleGrowth := gs[RippleGrowth]
      [Radius := gs[RippleGrowth][Radius].(target := Num(info.FinalRadius()))]
      [Origin := gs[RippleGrowth][Origin].(target := Point(info.end.x, info.end.y))]]
  {
    var cs := Aim(info);
    var v := Num(info.FinalRadius());
    var g := gs[RippleGrowth];
    var g1 := g[Radius := g[Radius].(target := v)];
    var g2 := g1[Origin := g1[Origin].(target := Point(info.end.x, info.end.y))];
    assert Step(gs, cs[0]) == gs[RippleGrowth := g1] by {
      assert cs[0].command == Set(Radius, v);
      assert Apply(g, Set(Radius, v)) == g1;
    }
    assert Step(gs[RippleGrowth := g1], cs[1]) == gs[RippleGrowth := g2] by {
      assert Known(g1.Keys, cs[1].command);
      assert Apply(g1, cs[1].command) == g2;
      assert gs[RippleGrowth := g1][RippleGrowth := g2] == gs[RippleGrowth := g2];
    }
    RunShort(gs, cs[0], cs[1], cs[1]);
  }

  lemma LaunchEffect(gs: Handles)
    requires WellFormed(gs)
    ensures Run(gs, Launch()) == gs[RippleOpacity := gs[RippleOpacity][Opacity := gs[RippleOpacity][Opacity].(target := Num(0.1))]]
  {
    var cs := Launch();
    RunShort(gs, cs[0], cs[1], cs[1]);
    StepPlayOne(gs, RippleOpacity, Opacity, Num(0.1));
    StepKeepsTweens(Step(gs, cs[0]), RippleGrowth);
  }

  /** Whatever state the ripple was in, a press leaves it at rest at the
      start geometry with opacity 0, aiming at the end geometry and at
      opacity 0.1 within 75 ms; the background is untouched. */
  lemma PressRestartsRipple(gs: Handles, info: RippleInfo)
    requires WellFormed(gs)
    ensures var after := Run(gs, PressCommands(info));
      WellFormed(after)
      && after[RippleOpacity][Opacity] == gs[RippleOpacity][Opacity].(value := Num(0.0), target := Num(0.1), duration := 75)
      && after[RippleGrowth][Radius] == gs[RippleGrowth][Radius].(value := Num(info.radius), target := Num(info.FinalRadius()))
      && after[RippleGrowth][Origin] == gs[RippleGrowth][Origin].(value := Point(info.start.x, info.start.y), target := Point(info.end.x, info.end.y))
      && after[Background] == gs[Background]
  {
    var g1 := Run(gs, Restart(info));
    RestartEffect(gs, info);
    var g2 := Run(g1, Aim(info));
    AimEffect(g1, info);
    LaunchEffect(g2);
    RunAppend(gs, Restart(info), Aim(info));
    RunAppend(gs, Restart(info) + Aim(info), Launch());
  }

  /** After the background effect the overlay heads for the opacity of the
      current state, and nothing else changes. */
  lemma BackgroundFollowsState(gs: Handles, s: State)
    requires WellFormed(gs)
    ensures Run(gs, BackgroundCommands(s))
      == gs[Background := gs[Background][Opacity := gs[Background][Opacity].(target := Num(s.Opacity()))]]
  {
    var c := BackgroundCommands(s)[0];
    RunSnoc(gs, [], c);
    assert [] + [c] == BackgroundCommands(s);
    StepPlayOne(gs, Background, Opacity, Num(s.Opacity()));
  }

  /** The fade fires exactly when the ripple has stopped and the pointer is
      not pressed; it then sends the ripple to opacity 0 within 150 ms. */
  lemma FadeOnlyWhenSettled(gs: Handles, ripplePlaying: bool, s: State)
    requires WellFormed(gs)
    ensures FadeCommands(ripplePlaying, s) != [] <==> !ripplePlaying && s != Press
    ensures Run(gs, FadeCommands(ripplePlaying, s))
      == if !ripplePlaying && s != Press
         then gs[RippleOpacity := gs[RippleOpacity][Opacity := gs[RippleOpacity][Opacity].(target := Num(0.0), duration := 150)]]
         else gs
  {
    var cs := FadeCommands(ripplePlaying, s);
    if cs != [] {
      var g := gs[RippleOpacity];
      var g1 := g[Opacity := g[Opacity].(duration := 150)];
      var g2 := g[Opacity := g[Opacity].(target := Num(0.0), duration := 150)];
      assert Step(gs, cs[0]) == gs[RippleOpacity := g1] by {
        assert Known(g.Keys, cs[0].command);
        assert Apply(g, cs[0].command) == g1;
      }
      assert Step(gs[RippleOpacity := g1], cs[1]) == gs[RippleOpacity := g2] by {
        StepPlayOne(gs[RippleOpacity := g1], RippleOpacity, Opacity, Num(0.0));
        assert g1[Opacity := g1[Opacity].(target := Num(0.0))] == g2;
        assert gs[RippleOpacity := g1][RippleOpacity := g2] == gs[RippleOpacity := g2];
      }
      RunShort(gs, cs[0], cs[1], cs[1]);
    }
  }

  /** The state layer: its interaction state and its transition handles. */
  class StateLayer {
    var state: State
    const anim: Animator<Handle, Name>

    ghost predicate Valid()
      reads anim
    {
      anim.Valid() && WellFormed(anim.initial)
    }

    constructor ()
      ensures Valid() && fresh(anim)
      ensures state == Idle && anim.groups == Mounted() && anim.log == []
    {
      state := Idle;
      anim := new Animator(Mounted());
    }

    method PointerEnter()
      modifies this
      ensures state == Hover
    {
      state := Hover;
    }

    method PointerLeave()
      modifies this
      ensures state == Idle
    {
      state := Idle;
    }

    method PointerUp()
      modifies this
      ensures state == Hover
    {
      state := Hover;
    }

    /** `info` is the ripple geometry of the press. */
    method PointerDown(info: RippleInfo)
      requires Valid()
      modifies this, anim
      ensures Valid() && state == Press
      ensures anim.log == old(anim.log) + PressCommands(info)
      ensures anim.groups == Run(old(anim.groups), PressCommands(info))
    {
      PressAccepted(anim.initial, info);
      anim.IssueAll(PressCommands(info));
      state := Press;
    }

    /** The effect that runs whenever `state` changes. */
    method BackgroundEffect()
      requires Valid()
      modifies anim
      ensures Valid()
      ensures anim.log == old(anim.log) + BackgroundCommands(state)
      ensures anim.groups == Run(old(anim.groups), BackgroundCommands(state))
    {
      anim.Issue(Background, Play([Target(Opacity, Num(state.Opacity()))]));
      RunAppend(anim.initial, old(anim.log), BackgroundCommands(state));
    }

    /** The effect that runs whenever `state` or the ripple's playing flag
        changes; `ripplePlaying` is `ripple_transition.is_playing()`. */
    method RippleFadeEffect(ripplePlaying: bool)
      requires Valid()
      modifies anim
      ensures Valid()
      ensures anim.log == old(anim.log) + FadeCommands(ripplePlaying, state)
      ensures anim.groups == Run(old(anim.groups), FadeCommands(ripplePlaying, state))
    {
      if !ripplePlaying && !state.IsPress() {
        anim.Issue(RippleOpacity, SetDuration(Opacity, 150));
        anim.Issue(RippleOpacity, Play([Target(Opacity, Num(0.0))]));
      }
      RunAppend(anim.initial, old(anim.log), FadeCommands(ripplePlaying, state));
    }
  }
}
