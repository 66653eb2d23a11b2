/** The ripple of src/components/ripple.rs: a hand-written animated number
    (`AdvancedAnimNum`) that grows the ripple, and the Inactive / Hovering /
    Holding machine whose handlers and effects drive it and two opacity
    transitions. */
module Ripple {
  import opened Wrappers
  import opened Transition
  import opened Geometry

  type i32 = x: int | -0x8000_0000 <= x < 0x8000_0000
  type u64 = x: nat | x < 0x1_0000_0000_0000_0000

  datatype RippleState = Inactive | Hovering | Holding {

    function IsHolding(): (b: bool)
      ensures b <==> this == Holding
    {
      this.Holding?
    }
  }

  /** The direction an animation runs in (`AnimDirection`). */
  datatype Direction = Forward | Reverse

  // ---------------------------------------------------------------------
  // AdvancedAnimNum, as a value
  // ---------------------------------------------------------------------

  /** The fields of an `AdvancedAnimNum`; `time` is in milliseconds. */
  datatype AnimNum = AnimNum(origin: real, destination: real, time: u64, curve: Curve, value: real)

  /** `n as i32` on an unsigned integer: the low 32 bits, read as two's
      complement. */
  function AsI32(n: nat): (r: i32)
    ensures n < 0x8000_0000 ==> r == n
    ensures (n - r) % 0x1_0000_0000 == 0
  {
    var m := n % 0x1_0000_0000;
    if m < 0x8000_0000 then m else m - 0x1_0000_0000
  }

  /** The direction's start and end: swapped when reversing. */
  function Ends(a: AnimNum, d: Direction): (real, real) {
    match d
    case Forward => (a.origin, a.destination)
    case Reverse => (a.destination, a.origin)
  }

  /** `is_finished`: past the duration, and at or beyond the direction's
      end. The duration is compared as an `i32`, so a duration of 2^31 ms or
      more wraps negative and only the end condition is left. */
  function Finished(a: AnimNum, index: i32, d: Direction): (b: bool)
    ensures b ==> index > AsI32(a.time)
    ensures a.time < 0x8000_0000 ==>
      (b <==> index > a.time && (if d.Forward? then a.value >= a.destination else a.value <= a.origin))
    ensures 0x8000_0000 <= a.time < 0x1_0000_0000 && index >= 0 ==>
      (b <==> (if d.Forward? then a.value >= a.destination else a.value <= a.origin))
  {
    match d
    case Forward => index > AsI32(a.time) && a.value >= a.destination
    case Reverse => index > AsI32(a.time) && a.value <= a.origin
  }

  /** `freya_transition`'s `lerp` on numbers. */
  function Lerp(from: real, to: real, t: real): (r: real)
    ensures t == 0.0 ==> r == from
    ensures t == 1.0 ==> r == to
  {
    from + (to - from) * t
  }

  function Min(x: real, y: real): (r: real)
    ensures r <= x && r <= y && (r == x || r == y)
  {
    if x <= y then x else y
  }

  /** The progress fed to the curve: the index clamped to the duration, as a
      fraction of it. */
  function Progress(index: i32, time: u64): (p: real)
    requires time > 0
    ensures p <= 1.0
    ensures index >= time ==> p == 1.0
    ensures 0 <= index ==> 0.0 <= p
    ensures index == 0 ==> p == 0.0
  {
    Min(index as real, time as real) / time as real
  }

  /** The state `prepare` leaves: the value at the direction's start. */
  function Prepared(a: AnimNum, d: Direction): (r: AnimNum)
    ensures r.value == Ends(a, d).0
    ensures r == a.(value := r.value)
  {
    a.(value := match d case Forward => a.origin case Reverse => a.destination)
  }

  /** The state `advance` leaves. A zero duration with a real curve divides
      zero by zero in the source; the caller keeps away from that case. */
  function Advanced(a: AnimNum, index: i32, d: Direction, ease: (Curve, real) -> real): (r: AnimNum)
    requires a.time > 0 || a.curve.Instant? || Finished(a, index, d)
    ensures r == a.(value := r.value)
  {
    if Finished(a, index, d) then a
    else
      var (from, to) := Ends(a, d);
      a.(value := if a.curve.Instant? then to else Lerp(from, to, ease(a.curve, Progress(index, a.time))))
  }

  /** Once finished, advancing changes nothing. */
  lemma AdvanceFinishedIsNoOp(a: AnimNum, index: i32, d: Direction, ease: (Curve, real) -> real)
    requires Finished(a, index, d)
    ensures Advanced(a, index, d, ease) == a
  {
  }

  /** `Curve::None` jumps straight to the end of the direction. */
  lemma InstantSnapsToEnd(a: AnimNum, index: i32, d: Direction, ease: (Curve, real) -> real)
    requires a.curve.Instant? && !Finished(a, index, d)
    ensures Advanced(a, index, d, ease).value == (if d.Forward? then a.destination else a.origin)
  {
  }

  /** Any other curve lerps between the direction's ends at the eased
      progress. */
  lemma CurveLerpsBetweenEnds(a: AnimNum, index: i32, d: Direction, ease: (Curve, real) -> real)
    requires !a.curve.Instant? && a.time > 0 && !Finished(a, index, d)
    ensures var (from, to) := if d.Forward? then (a.origin, a.destination) else (a.destination, a.origin);
      Advanced(a, index, d, ease).value == from + (to - from) * ease(a.curve, Progress(index, a.time))
  {
  }

  /** With a curve that ends at 1, the index reaching the duration puts the
      value at the end of the direction. */
  lemma AdvanceReachesEnd(a: AnimNum, index: i32, d: Direction, ease: (Curve, real) -> real)
    requires a.time > 0 && index >= a.time
    requires ease(a.curve, 1.0) == 1.0
    ensures Advanced(a, index, d, ease).value
      == if Finished(a, index, d) then a.value else if d.Forward? then a.destination else a.origin
  {
  }

  /** Past the duration, and once the value is at the end, the animation
      counts as finished for every later index. */
  lemma FinishedStaysFinished(a: AnimNum, i: i32, j: i32, d: Direction)
    requires Finished(a, i, d) && i <= j
    ensures Finished(a, j, d)
  {
  }

  /** An animation run to the end settles: the next tick past the duration
      finds it finished. */
  lemma AdvanceSettles(a: AnimNum, i: i32, j: i32, d: Direction, ease: (Curve, real) -> real)
    requires 0 < a.time < 0x8000_0000 && i >= a.time && j > a.time
    requires a.curve.Instant? || ease(a.curve, 1.0) == 1.0
    ensures Finished(Advanced(a, i, d, ease), j, d)
  {
    if !a.curve.Instant? {
      AdvanceReachesEnd(a, i, d, ease);
    }
  }

  // ---------------------------------------------------------------------
  // AdvancedAnimNum, in place
  // ---------------------------------------------------------------------

  class AdvancedAnimNum {
    const origin: real
    const destination: real
    const time: u64
    const curve: Curve
    var value: real

    function Snapshot(): AnimNum
      reads this
    {
      AnimNum(origin, destination, time, curve, value)
    }

    constructor (origin: real, destination: real, time: u64, curve: Curve)
      ensures Snapshot() == AnimNum(origin, destination, time, curve, origin)
    {
      this.origin := origin;
      this.destination := destination;
      this.time := time;
      this.curve := curve;
      this.value := origin;
    }

    function AsF32(): (v: real)
      reads this
      ensures v == Snapshot().value
    {
      value
    }

    /** There is no text form: the source panics. */
    function AsString(): (r: Option<string>)
      ensures r.None?
    {
      None
    }

    method Prepare(d: Direction)
      modifies this
      ensures Snapshot() == Prepared(old(Snapshot()), d)
    {
      match d {
        case Forward => value := origin;
        case Reverse => value := destination;
      }
    }

    function IsFinished(index: i32, d: Direction): (b: bool)
      reads this
      ensures b == Finished(Snapshot(), index, d)
    {
      match d
      case Forward => index > AsI32(time) && value >= destination
      case Reverse => index > AsI32(time) && value <= origin
    }

    method Advance(index: i32, d: Direction, ease: (Curve, real) -> real)
      requires time > 0 || curve.Instant? || IsFinished(index, d)
      modifies this
      ensures Snapshot() == Advanced(old(Snapshot()), index, d, ease)
    {
      if !IsFinished(index, d) {
        var (from, to) := match d
          case Forward => (origin, destination)
          case Reverse => (destination, origin);
        if curve.Instant? {
          value := to;
        } else {
          var t := time as real;
          value := Lerp(from, to, ease(curve, Min(index as real, t) / t));
        }
      }
    }
  }

  // ---------------------------------------------------------------------
  // The Ripple component
  // ---------------------------------------------------------------------

  /** The growth animation `use_animation` builds from the ripple geometry:
      radius, x and y, each 450 ms on cubic(0.2, 0, 0, 1), from the start
      geometry to the end geometry, each part starting at rest at its
      origin. */
  function Growth(info: RippleInfo): (g: (AnimNum, AnimNum, AnimNum))
    ensures var (r, x, y) := g;
      r.origin == r.value == info.radius && r.destination == info.radius * info.scale
      && x.origin == x.value == info.start.x && x.destination == info.end.x
      && y.origin == y.value == info.start.y && y.destination == info.end.y
      && r.time == x.time == y.time == 450
      && r.curve == x.curve == y.curve == Cubic(0.2, 0.0, 0.0, 1.0)
  {
    var c := Cubic(0.2, 0.0, 0.0, 1.0);
    (AnimNum(info.radius, info.FinalRadius(), 450, c, info.radius),
     AnimNum(info.start.x, info.end.x, 450, c, info.start.x),
     AnimNum(info.start.y, info.end.y, 450, c, info.start.y))
  }

  /** `background_animation`, `opacity_animation` and the growth
      `animation`, which has no tweens of its own here. */
  datatype Handle = BackgroundAnimation | OpacityAnimation | Animation

  /** The tweens "background" and "opacity". */
  datatype Name = Background | Opacity

  type Handles = map<Handle, Group<Name>>
  type Log = seq<Issued<Handle, Name>>

  function Mounted(): (gs: Handles)
    ensures WellFormed(gs)
  {
    map[
      BackgroundAnimation := map[Background := Tween(Num(0.0), Num(0.0), Linear, 15)],
      OpacityAnimation := map[Opacity := Tween(Num(0.0), Num(0.0), Linear, 75)],
      Animation := map[]]
  }

  predicate WellFormed(gs: Handles) {
    BackgroundAnimation in gs && Background in gs[BackgroundAnimation]
    && OpacityAnimation in gs && Opacity in gs[OpacityAnimation]
    && Animation in gs
  }

  lemma RunKeepsWellFormed(gs: Handles, log: Log)
    requires WellFormed(gs)
    ensures WellFormed(Run(gs, log))
  {
    RunKeepsTween(gs, log, BackgroundAnimation, Background);
    RunKeepsTween(gs, log, OpacityAnimation, Opacity);
    RunKeepsHandle(gs, log, Animation);
  }

  /** Pointer-up fades the ripple out only when the growth has stopped. */
  function UpCommands(running: bool): Log {
    if !running then [Issued(OpacityAnimation, Play([Target(Opacity, Num(0.0))]))] else []
  }

  function EnterCommands(): Log {
    [Issued(BackgroundAnimation, Play([Target(Background, Num(0.08))]))]
  }

  function LeaveCommands(): Log {
    [ Issued(Animation, Reset),
      Issued(BackgroundAnimation, Play([Target(Background, Num(0.0))])),
      Issued(OpacityAnimation, Play([Target(Opacity, Num(0.0))])) ]
  }

  /** The fade once the growth has stopped and the pointer is up. */
  function FadeCommands(running: bool, s: RippleState): Log {
    if !running && !s.IsHolding()
    then [ Issued(OpacityAnimation, SetDuration(Opacity, 150)),
           Issued(OpacityAnimation, Play([Target(Opacity, Num(0.0))])) ]
    else []
  }

  /** The slow fade-in and the growth while the pointer is held. */
  function HoldCommands(s: RippleState): Log {
    if s == Holding
    then [ Issued(OpacityAnimation, SetDuration(Opacity, 375)),
           Issued(OpacityAnimation, Play([Target(Opacity, Num(0.12))])),
           Issued(Animation, Start) ]
    else []
  }

  /** The two effects never both act on the same state. */
  lemma EffectsAreExclusive(running: bool, s: RippleState)
    ensures FadeCommands(running, s) == [] || HoldCommands(s) == []
    ensures HoldCommands(s) != [] <==> s == Holding
    ensures FadeCommands(running, s) != [] <==> !running && s != Holding
  {
  }

  /** Leaving resets the growth and sends both opacities to 0. */
  lemma LeaveSilences(gs: Handles)
    requires WellFormed(gs)
    ensures var after := Run(gs, LeaveCommands());
      after == gs[BackgroundAnimation := gs[BackgroundAnimation][Background := gs[BackgroundAnimation][Background].(target := Num(0.0))]]
                 [OpacityAnimation := gs[OpacityAnimation][Opacity := gs[OpacityAnimation][Opacity].(target := Num(0.0))]]
  {
    var cs := LeaveCommands();
    RunShort(gs, cs[0], cs[1], cs[2]);
    StepKeepsTweens(gs, Animation);
    StepPlayOne(gs, BackgroundAnimation, Background, Num(0.0));
    StepPlayOne(Step(gs, cs[1]), OpacityAnimation, Opacity, Num(0.0));
  }

  /** While held, the ripple fades in to 0.12 over 375 ms and the growth
      starts; the background is untouched. */
  lemma HoldFadesIn(gs: Handles, s: RippleState)
    requires WellFormed(gs)
    ensures Run(gs, HoldCommands(s))
      == if s == Holding
         then gs[OpacityAnimation := gs[OpacityAnimation][Opacity := gs[OpacityAnimation][Opacity].(target := Num(0.12), duration := 375)]]
         else gs
  {
    var cs := HoldCommands(s);
    if s == Holding {
      var g := gs[OpacityAnimation];
      var g1 := g[Opacity := g[Opacity].(duration := 375)];
      var g2 := g[Opacity := g[Opacity].(target := Num(0.12), duration := 375)];
      assert Step(gs, cs[0]) == gs[OpacityAnimation := g1] by {
        assert Known(g.Keys, cs[0].command);
        assert Apply(g, cs[0].command) == g1;
      }
      assert Step(gs[OpacityAnimation := g1], cs[1]) == gs[OpacityAnimation := g2] by {
        StepPlayOne(gs[OpacityAnimation := g1], OpacityAnimation, Opacity, Num(0.12));
        assert g1[Opacity := g1[Opacity].(target := Num(0.12))] == g2;
        assert gs[OpacityAnimation := g1][OpacityAnimation := g2] == gs[OpacityAnimation := g2];
      }
      StepKeepsTweens(gs[OpacityAnimation := g2], Animation);
      RunShort(gs, cs[0], cs[1], cs[2]);
    }
  }

  /** The fade sends the ripple to opacity 0 over 150 ms. */
  lemma FadeFadesOut(gs: Handles, running: bool, s: RippleState)
    requires WellFormed(gs)
    ensures Run(gs, FadeCommands(running, s))
      == if !running && s != Holding
         then gs[OpacityAnimation := gs[OpacityAnimation][Opacity := gs[OpacityAnimation][Opacity].(target := Num(0.0), duration := 150)]]
         else gs
  {
    var cs := FadeCommands(running, s);
    if cs != [] {
      var g := gs[OpacityAnimation];
      var g1 := g[Opacity := g[Opacity].(duration := 150)];
      var g2 := g[Opacity := g[Opacity].(target := Num(0.0), duration := 150)];
      assert Step(gs, cs[0]) == gs[OpacityAnimation := g1] by {
        assert Known(g.Keys, cs[0].command);
        assert Apply(g, cs[0].command) == g1;
      }
      assert Step(gs[OpacityAnimation := g1], cs[1]) == gs[OpacityAnimation := g2] by {
        StepPlayOne(gs[OpacityAnimation := g1], OpacityAnimation, Opacity, Num(0.0));
        assert g1[Opacity := g1[Opacity].(target := Num(0.0))] == g2;
        assert gs[OpacityAnimation := g1][OpacityAnimation := g2] == gs[OpacityAnimation := g2];
      }
      RunShort(gs, cs[0], cs[1], cs[1]);
    }
  }

  class Ripple {
    var state: RippleState
    var info: RippleInfo
    const anim: Animator<Handle, Name>

    ghost predicate Valid()
      reads anim
    {
      anim.Valid() && WellFormed(anim.initial)
    }

    constructor ()
      ensures Valid() && fresh(anim)
      ensures state == Inactive && info == RippleInfo(Point2D(0.0, 0.0), Point2D(0.0, 0.0), 0.0, 0.0)
      ensures anim.groups == Mounted() && anim.log == []
    {
      state := Inactive;
      info := RippleInfo(Point2D(0.0, 0.0), Point2D(0.0, 0.0), 0.0, 0.0);
      anim := new Animator(Mounted());
    }

    /** `info` is the geometry of the press; no command is issued. */
    method PointerDown(info: RippleInfo)
      modifies this
      ensures this.info == info && state == Holding
    {
      this.info := info;
      state := Holding;
    }

    /** `running` is `animation.is_running()`. */
    method PointerUp(running: bool)
      requires Valid()
      modifies this, anim
      ensures Valid() && state == Hovering && info == old(info)
      ensures anim.log == old(anim.log) + UpCommands(running)
      ensures anim.groups == Run(old(anim.groups), UpCommands(running))
    {
      if !running {
        anim.Issue(OpacityAnimation, Play([Target(Opacity, Num(0.0))]));
      }
      RunAppend(anim.initial, old(anim.log), UpCommands(running));
      state := Hovering;
    }

    method PointerEnter()
      requires Valid()
      modifies this, anim
      ensures Valid() && state == Hovering && info == old(info)
      ensures anim.log == old(anim.log) + EnterCommands()
      ensures anim.groups == Run(old(anim.groups), EnterCommands())
    {
      anim.Issue(BackgroundAnimation, Play([Target(Background, Num(0.08))]));
      RunAppend(anim.initial, old(anim.log), EnterCommands());
      state := Hovering;
    }

    method PointerLeave()
      requires Valid()
      modifies this, anim
      ensures Valid() && state == Inactive && info == old(info)
      ensures anim.log == old(anim.log) + LeaveCommands()
      ensures anim.groups == Run(old(anim.groups), LeaveCommands())
    {
      anim.IssueAll(LeaveCommands());
      state := Inactive;
    }

    /** The effect on `state` and the growth's running flag. */
    method FadeEffect(running: bool)
      requires Valid()
      modifies anim
      ensures Valid()
      ensures anim.log == old(anim.log) + FadeCommands(running, state)
      ensures anim.groups == Run(old(anim.groups), FadeCommands(running, state))
    {
      if !running && !state.IsHolding() {
        anim.IssueAll(FadeCommands(running, state));
      } else {
        assert old(anim.log) + [] == old(anim.log);
      }
    }

    /** The effect on `state` that starts the growth while held. */
    method HoldEffect()
      requires Valid()
      modifies anim
      ensures Valid()
      ensures anim.log == old(anim.log) + HoldCommands(state)
      ensures anim.groups == Run(old(anim.groups), HoldCommands(state))
    {
      if state == Holding {
        anim.IssueAll(HoldCommands(state));
      } else {
        assert old(anim.log) + [] == old(anim.log);
      }
    }
  }
}
