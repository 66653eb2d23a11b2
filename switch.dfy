/** The switch of src/components/switch.rs: a pointer state machine, the
    colours chosen by `toggled`, and two effects that play the handle's size
    and position. `on_toggle` is the parent's callback; the model counts its
    calls. */
module Switch {
  import opened Theme
  import opened Transition
  import MaterialDesign

  datatype SwitchState = Idle | Hovering | Pressed

  /** The pointer events the switch listens to. */
  datatype Event = Enter | Leave | Down | Up

  /** The state an event leaves behind, whatever the state before. */
  function Next(e: Event): (s: SwitchState)
    ensures e == Enter || e == Up <==> s == Hovering
    ensures e == Leave <==> s == Idle
    ensures e == Down <==> s == Pressed
  {
    match e
    case Enter => Hovering
    case Leave => Idle
    case Down => Pressed
    case Up => Hovering
  }

  /** Whether the event calls `on_toggle`. */
  function Fires(e: Event): (b: bool)
    ensures b <==> e == Up
  {
    e.Up?
  }

  /** The state after a trace of events starting from `s`. */
  function StateAfter(s: SwitchState, trace: seq<Event>): SwitchState
    decreases |trace|
  {
    if trace == [] then s else StateAfter(Next(trace[0]), trace[1..])
  }

  /** How many times a trace calls `on_toggle`. */
  function Toggles(trace: seq<Event>): nat
    decreases |trace|
  {
    if trace == [] then 0 else (if Fires(trace[0]) then 1 else 0) + Toggles(trace[1..])
  }

  /** Only the last event of a trace decides the state. */
  lemma {:induction false} LastEventDecides(s: SwitchState, trace: seq<Event>)
    requires trace != []
    ensures StateAfter(s, trace) == Next(trace[|trace| - 1])
    decreases |trace|
  {
    if |trace| > 1 {
      LastEventDecides(Next(trace[0]), trace[1..]);
    }
  }

  /** `on_toggle` fires once per pointer-up and never otherwise. */
  lemma {:induction false} TogglesCountUps(trace: seq<Event>)
    ensures Toggles(trace) == multiset(trace)[Up]
    decreases |trace|
  {
    if trace != [] {
      TogglesCountUps(trace[1..]);
      assert trace == [trace[0]] + trace[1..];
      assert multiset(trace) == multiset([trace[0]]) + multiset(trace[1..]);
    }
  }

  /** The calls of two traces add up. */
  lemma {:induction false} TogglesAppend(a: seq<Event>, b: seq<Event>)
    ensures Toggles(a + b) == Toggles(a) + Toggles(b)
    decreases |a|
  {
    if a == [] {
      assert a + b == b;
    } else {
      assert (a + b)[0] == a[0];
      assert (a + b)[1..] == a[1..] + b;
      TogglesAppend(a[1..], b);
    }
  }

  datatype Palette = Palette(background: Color, handle: Color, border: Color)

  function Colors(toggled: bool): (p: Palette)
    ensures toggled ==> p == Palette(Of(Primary), Of(OnPrimary), Of(Primary))
    ensures !toggled ==> p == Palette(Of(SurfaceContainerHighest), Of(Outline), Of(Outline))
  {
    if toggled then Palette(Of(Primary), Of(OnPrimary), Of(Primary))
    else Palette(Of(SurfaceContainerHighest), Of(Outline), Of(Outline))
  }

  /** The track's "2 inner" border. */
  function TrackBorder(toggled: bool): (b: Border)
    ensures b.width == 2 && b.color == Colors(toggled).border
  {
    Inner(2, Colors(toggled).border)
  }

  /** The handle's diameter at rest: larger when on. */
  function RestRadius(toggled: bool): real {
    if toggled then 24.0 else 16.0
  }

  /** The handle's diameter the state plays to. */
  function RadiusTarget(s: SwitchState, toggled: bool): (r: real)
    ensures r == 16.0 || r == 24.0 || r == 28.0
    ensures r == 28.0 <==> s == Pressed
    ensures r == 16.0 <==> s == Idle && !toggled
    ensures s == Idle ==> r == RestRadius(toggled)
  {
    match s
    case Idle => RestRadius(toggled)
    case Hovering => 24.0
    case Pressed => 28.0
  }

  /** Pressing gives the largest handle. */
  lemma PressedIsLargest(s: SwitchState, t: bool, t': bool)
    ensures RadiusTarget(s, t) <= RadiusTarget(Pressed, t')
    ensures RestRadius(t) <= RadiusTarget(Hovering, t')
  {
  }

  /** The handle's horizontal offset: at the right end when on. */
  function OffsetTarget(toggled: bool): (x: real)
    ensures x == 21.0 <==> toggled
    ensures x == 0.0 <==> !toggled
  {
    if toggled then 21.0 else 0.0
  }

  /** `radius_transition` and `offset_transition`. */
  datatype Handle = RadiusTransition | OffsetTransition

  datatype Name = Radius | Offset

  type Handles = map<Handle, Group<Name>>
  type Log = seq<Issued<Handle, Name>>

  const OffsetCurve: Curve := Cubic(0.175, 0.885, 0.32, 1.275)

  /** The handles as mounted with `toggled`. */
  function Mounted(toggled: bool): (gs: Handles)
    ensures WellFormed(gs)
    ensures gs[RadiusTransition][Radius] == Tween(Num(RestRadius(toggled)), Num(RestRadius(toggled)),
                                                  MaterialDesign.Easing.Standard.AsValue(), 250)
    ensures gs[OffsetTransition][Offset] == Tween(Num(OffsetTarget(toggled)), Num(OffsetTarget(toggled)),
                                                  OffsetCurve, 300)
  {
    map[
      RadiusTransition := map[Radius := Tween(Num(RestRadius(toggled)), Num(RestRadius(toggled)),
                                              MaterialDesign.Easing.Standard.AsValue(), 250)],
      OffsetTransition := map[Offset := Tween(Num(OffsetTarget(toggled)), Num(OffsetTarget(toggled)),
                                              OffsetCurve, 300)]]
  }

  predicate WellFormed(gs: Handles) {
    RadiusTransition in gs && Radius in gs[RadiusTransition]
    && OffsetTransition in gs && Offset in gs[OffsetTransition]
  }

  function OffsetCommands(toggled: bool): Log {
    [Issued(OffsetTransition, Play([Target(Offset, Num(OffsetTarget(toggled)))]))]
  }

  function RadiusCommands(s: SwitchState, toggled: bool): Log {
    [Issued(RadiusTransition, Play([Target(Radius, Num(RadiusTarget(s, toggled)))]))]
  }

  /** Each effect re-aims its one tween and changes nothing else; neither
      changes a duration, so the 250 and 300 ms of the mount stay. */
  lemma EffectsAimOneTween(gs: Handles, s: SwitchState, toggled: bool)
    requires WellFormed(gs)
    ensures Run(gs, OffsetCommands(toggled)) == gs[OffsetTransition := gs[OffsetTransition]
      [Offset := gs[OffsetTransition][Offset].(target := Num(OffsetTarget(toggled)))]]
    ensures Run(gs, RadiusCommands(s, toggled)) == gs[RadiusTransition := gs[RadiusTransition]
      [Radius := gs[RadiusTransition][Radius].(target := Num(RadiusTarget(s, toggled)))]]
  {
    var o, r := OffsetCommands(toggled)[0], RadiusCommands(s, toggled)[0];
    RunShort(gs, o, o, o);
    RunShort(gs, r, r, r);
    StepPlayOne(gs, OffsetTransition, Offset, Num(OffsetTarget(toggled)));
    StepPlayOne(gs, RadiusTransition, Radius, Num(RadiusTarget(s, toggled)));
  }

  /** Right after mount, the offset effect and an idle radius effect play
      each tween to where it already rests. */
  lemma MountIsAtRest(toggled: bool)
    ensures Run(Mounted(toggled), OffsetCommands(toggled)) == Mounted(toggled)
    ensures Run(Mounted(toggled), RadiusCommands(Idle, toggled)) == Mounted(toggled)
  {
    var gs := Mounted(toggled);
    EffectsAimOneTween(gs, Idle, toggled);
    var o, r := gs[OffsetTransition], gs[RadiusTransition];
    assert o[Offset].(target := Num(OffsetTarget(toggled))) == o[Offset];
    assert o[Offset := o[Offset]] == o;
    assert gs[OffsetTransition := o] == gs;
    assert r[Radius].(target := Num(RadiusTarget(Idle, toggled))) == r[Radius];
    assert r[Radius := r[Radius]] == r;
    assert gs[RadiusTransition := r] == gs;
  }

  /** The switch: its pointer state, how often it has asked its parent to
      toggle, and its two transition handles. */
  class Switch {
    var state: SwitchState
    var toggleRequests: nat
    const anim: Animator<Handle, Name>

    ghost predicate Valid()
      reads anim
    {
      anim.Valid() && WellFormed(anim.initial)
    }

    constructor (toggled: bool)
      ensures Valid() && fresh(anim)
      ensures state == Idle && toggleRequests == 0
      ensures anim.groups == Mounted(toggled) && anim.log == []
    {
      state := Idle;
      toggleRequests := 0;
      anim := new Animator(Mounted(toggled));
    }

    method PointerEnter()
      modifies this
      ensures state == Next(Enter) && toggleRequests == old(toggleRequests)
    {
      state := Hovering;
    }

    method PointerLeave()
      modifies this
      ensures state == Next(Leave) && toggleRequests == old(toggleRequests)
    {
      state := Idle;
    }

    method PointerDown()
      modifies this
      ensures state == Next(Down) && toggleRequests == old(toggleRequests)
    {
      state := Pressed;
    }

    /** Back to hovering, and once to `on_toggle`. */
    method PointerUp()
      modifies this
      ensures state == Next(Up) && toggleRequests == old(toggleRequests) + 1
    {
      state := Hovering;
      toggleRequests := toggleRequests + 1;
    }

    /** The effect that runs whenever `toggled` changes. */
    method ToggledEffect(toggled: bool)
      requires Valid()
      modifies anim
      ensures Valid()
      ensures anim.log == old(anim.log) + OffsetCommands(toggled)
      ensures anim.groups == Run(old(anim.groups), OffsetCommands(toggled))
    {
      anim.Issue(OffsetTransition, Play([Target(Offset, Num(OffsetTarget(toggled)))]));
      RunAppend(anim.initial, old(anim.log), OffsetCommands(toggled));
    }

    /** The effect that runs whenever `state` changes; `toggled` is the
        value the effect reads. */
    method StateEffect(toggled: bool)
      requires Valid()
      modifies anim
      ensures Valid()
      ensures anim.log == old(anim.log) + RadiusCommands(state, toggled)
      ensures anim.groups == Run(old(anim.groups), RadiusCommands(state, toggled))
    {
      match state {
        case Idle => anim.Issue(RadiusTransition, Play([Target(Radius, Num(if toggled then 24.0 else 16.0))]));
        case Hovering => anim.Issue(RadiusTransition, Play([Target(Radius, Num(24.0))]));
        case Pressed => anim.Issue(RadiusTransition, Play([Target(Radius, Num(28.0))]));
      }
      RunAppend(anim.initial, old(anim.log), RadiusCommands(state, toggled));
    }
  }
}
