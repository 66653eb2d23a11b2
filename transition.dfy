/** An abstract model of the `freya_transition` crate as the components use it.
    The crate's own code (tween scheduling, `is_playing`, curve evaluation) is
    not part of this model. A transition handle is a map from tween name to
    {value, target, curve, duration}; a component names its handles by a type
    `H` and its tweens by a type `N` of its own. Every call a component makes on a handle is recorded, in
    order, as a command in one log per component, so that the order of calls
    on different handles can be stated. */
module Transition {

  /** An easing curve. It is data only: how a curve maps progress to eased
      progress is the crate's business and enters the model as a parameter
      `ease: (Curve, real) -> real` wherever a curve is evaluated. */
  datatype Curve =
    | Instant                       // `Curve::None`: snap to the end
    | Linear
    | FastOutSlowIn
    | EaseInOutCubicEmphasized
    | Cubic(x1: real, y1: real, x2: real, y2: real)

  /** The value of a tween: a number, a point, or the square root of a
      constant, which the model keeps unevaluated. */
  datatype Value = Num(n: real) | Sqrt(radicand: nat) | Point(x: real, y: real)

  datatype Tween = Tween(value: Value, target: Value, curve: Curve, duration: nat)

  /** One transition handle: tween name to tween. A component names its
      tweens by a type `N` of its own. */
  type Group<N> = map<N, Tween>

  datatype Target<N> = Target(name: N, value: Value)

  datatype Command<N> =
    | SetDuration(name: N, ms: nat)    // set_duration
    | ForcedSet(name: N, value: Value) // forced_set: jump without animating
    | Set(name: N, value: Value)       // set: a new target, not yet played
    | Play(targets: seq<Target<N>>)    // play: animate the named tweens to new targets
    | PlayAll                          // play_all: replay every tween to its target
    | Start                            // start of a `use_animation` handle
    | Reset                            // reset of a `use_animation` handle

  /** A command issued on the handle called `handle`. */
  datatype Issued<H, N> = Issued(handle: H, command: Command<N>)

  /** Every tween the command names is among `names`, the tweens registered
      on its handle; the crate fails fast on an unknown name. */
  predicate Known<N>(names: set<N>, c: Command<N>) {
    match c
    case SetDuration(n, _) => n in names
    case ForcedSet(n, _) => n in names
    case Set(n, _) => n in names
    case Play(ts) => forall k :: 0 <= k < |ts| ==> ts[k].name in names
    case _ => true
  }

  function PlayTargets<N(==)>(g: Group<N>, ts: seq<Target<N>>): (r: Group<N>)
    requires forall k :: 0 <= k < |ts| ==> ts[k].name in g
    ensures r.Keys == g.Keys
    decreases |ts|
  {
    if ts == [] then g
    else
      var n := ts[0].name;
      var g' := g[n := g[n].(target := ts[0].value)];
      assert g'.Keys == g.Keys;
      PlayTargets(g', ts[1..])
  }

  /** What a command does to the abstract state of its handle. A forced set
      puts the tween at rest at the value; set and play change the target;
      the remaining commands change only what happens over time. */
  function Apply<N(==)>(g: Group<N>, c: Command<N>): (r: Group<N>)
    requires Known(g.Keys, c)
    ensures r.Keys == g.Keys
  {
    match c
    case SetDuration(n, ms) => g[n := g[n].(duration := ms)]
    case ForcedSet(n, v) => g[n := g[n].(value := v, target := v)]
    case Set(n, v) => g[n := g[n].(target := v)]
    case Play(ts) => PlayTargets(g, ts)
    case _ => g
  }

  /** The effect of one issued command on all handles of a component; a
      command the crate would refuse is not applied. */
  function Step<H(==), N(==)>(gs: map<H, Group<N>>, i: Issued<H, N>): map<H, Group<N>> {
    if i.handle in gs && Known(gs[i.handle].Keys, i.command)
    then gs[i.handle := Apply(gs[i.handle], i.command)]
    else gs
  }

  /** The handles after issuing `log` in order. */
  function Run<H(==), N(==)>(gs: map<H, Group<N>>, log: seq<Issued<H, N>>): map<H, Group<N>>
    decreases |log|
  {
    if log == [] then gs else Step(Run(gs, log[..|log| - 1]), log[|log| - 1])
  }

  /** Every command of `cs` is on a handle of `gs` and names only tweens
      registered on it. */
  predicate Accepts<H(==), N>(gs: map<H, Group<N>>, cs: seq<Issued<H, N>>) {
    forall k :: 0 <= k < |cs| ==> cs[k].handle in gs && Known(gs[cs[k].handle].Keys, cs[k].command)
  }

  lemma {:induction false} RunKeepsHandle<H, N>(gs: map<H, Group<N>>, log: seq<Issued<H, N>>, h: H)
    requires h in gs
    ensures h in Run(gs, log)
    decreases |log|
  {
    if log != [] {
      RunKeepsHandle(gs, log[..|log| - 1], h);
    }
  }

  lemma StepKeepsTween<H, N>(gs: map<H, Group<N>>, i: Issued<H, N>, h: H, n: N)
    requires h in gs && n in gs[h]
    ensures h in Step(gs, i) && n in Step(gs, i)[h]
  {
  }

  lemma {:induction false} RunKeepsTween<H, N>(gs: map<H, Group<N>>, log: seq<Issued<H, N>>, h: H, n: N)
    requires h in gs && n in gs[h]
    ensures h in Run(gs, log) && n in Run(gs, log)[h]
    decreases |log|
  {
    if log != [] {
      RunKeepsTween(gs, log[..|log| - 1], h, n);
      StepKeepsTween(Run(gs, log[..|log| - 1]), log[|log| - 1], h, n);
    }
  }

  function LastTarget<N(==)>(ts: seq<Target<N>>, n: N, otherwise: Value): Value
    decreases |ts|
  {
    if ts == [] then otherwise
    else LastTarget(ts[1..], n, if ts[0].name == n then ts[0].value else otherwise)
  }

  lemma {:induction false} PlayTargetsAt<N>(g: Group<N>, ts: seq<Target<N>>, n: N)
    requires forall k :: 0 <= k < |ts| ==> ts[k].name in g
    requires n in g
    ensures PlayTargets(g, ts)[n] == g[n].(target := LastTarget(ts, n, g[n].target))
    decreases |ts|
  {
    if ts != [] {
      var m := ts[0].name;
      var g' := g[m := g[m].(target := ts[0].value)];
      assert g'.Keys == g.Keys;
      PlayTargetsAt(g', ts[1..], n);
    }
  }

  /** A play changes only the target, and only of the tweens it names: the
      last entry for a name wins, and a tween it does not name is untouched. */
  lemma PlayChangesOnlyNamedTargets<N>(g: Group<N>, ts: seq<Target<N>>, n: N)
    requires forall k :: 0 <= k < |ts| ==> ts[k].name in g
    requires n in g
    ensures var t := Apply(g, Play(ts))[n];
      t.value == g[n].value && t.curve == g[n].curve && t.duration == g[n].duration
    ensures (forall k :: 0 <= k < |ts| ==> ts[k].name != n) ==> Apply(g, Play(ts))[n] == g[n]
    ensures |ts| > 0 && ts[|ts| - 1].name == n ==> Apply(g, Play(ts))[n].target == ts[|ts| - 1].value
  {
    PlayTargetsAt(g, ts, n);
    LastTargetFacts(ts, n, g[n].target);
  }

  lemma {:induction false} LastTargetFacts<N>(ts: seq<Target<N>>, n: N, otherwise: Value)
    ensures (forall k :: 0 <= k < |ts| ==> ts[k].name != n) ==> LastTarget(ts, n, otherwise) == otherwise
    ensures |ts| > 0 && ts[|ts| - 1].name == n ==> LastTarget(ts, n, otherwise) == ts[|ts| - 1].value
    decreases |ts|
  {
    if ts != [] {
      LastTargetFacts(ts[1..], n, if ts[0].name == n then ts[0].value else otherwise);
    }
  }

  /** Playing a tween to the target it already has changes nothing. */
  lemma PlayToCurrentTargetIsIdempotent<N>(g: Group<N>, n: N, v: Value)
    requires n in g && g[n].target == v
    ensures Apply(g, Play([Target(n, v)])) == g
  {
    var ts := [Target(n, v)];
    assert g[n := g[n].(target := v)] == g;
    assert ts[1..] == [];
    assert PlayTargets(g, ts) == PlayTargets(g, []);
  }

  /** A forced set is read back exactly. */
  lemma ForcedSetIsReadBack<N>(g: Group<N>, n: N, x: Value)
    requires n in g
    ensures Apply(g, ForcedSet(n, x))[n].value == x
    ensures Apply(g, ForcedSet(n, x))[n].target == x
  {
  }

  /** A play of one tween changes only that tween's target. */
  lemma StepPlayOne<H, N>(gs: map<H, Group<N>>, h: H, n: N, v: Value)
    requires h in gs && n in gs[h]
    ensures Step(gs, Issued(h, Play([Target(n, v)]))) == gs[h := gs[h][n := gs[h][n].(target := v)]]
  {
    var ts := [Target(n, v)];
    var g := gs[h];
    var g' := g[n := g[n].(target := v)];
    assert ts[1..] == [];
    assert PlayTargets(g, ts) == PlayTargets(g', []);
  }

  /** A play of two targets on one handle changes just those two targets. */
  lemma StepPlayTwo<H, N>(gs: map<H, Group<N>>, h: H, a: N, va: Value, b: N, vb: Value)
    requires h in gs && a in gs[h] && b in gs[h]
    ensures var m := gs[h][a := gs[h][a].(target := va)];
      Step(gs, Issued(h, Play([Target(a, va), Target(b, vb)]))) == gs[h := m[b := m[b].(target := vb)]]
  {
    var ts := [Target(a, va), Target(b, vb)];
    var m := gs[h][a := gs[h][a].(target := va)];
    var m' := m[b := m[b].(target := vb)];
    assert ts[1..] == [Target(b, vb)] && ts[1..][1..] == [];
    assert PlayTargets(gs[h], ts) == PlayTargets(m, ts[1..]);
    assert PlayTargets(m, ts[1..]) == PlayTargets(m', []);
  }

  /** A set changes the one target it names. */
  lemma StepSetOne<H, N>(gs: map<H, Group<N>>, h: H, n: N, v: Value)
    requires h in gs && n in gs[h]
    ensures Step(gs, Issued(h, Set(n, v))) == gs[h := gs[h][n := gs[h][n].(target := v)]]
    ensures Step(gs, Issued(h, ForcedSet(n, v))) == gs[h := gs[h][n := gs[h][n].(value := v, target := v)]]
  {
  }

  /** Two sets on one handle, each changing the one target it names. */
  lemma RunSetTwo<H, N>(gs: map<H, Group<N>>, h: H, a: N, va: Value, b: N, vb: Value)
    requires h in gs && a in gs[h] && b in gs[h]
    ensures var m := gs[h][a := gs[h][a].(target := va)];
      Run(gs, [Issued(h, Set(a, va)), Issued(h, Set(b, vb))]) == gs[h := m[b := m[b].(target := vb)]]
  {
    var m := gs[h][a := gs[h][a].(target := va)];
    RunShort(gs, Issued(h, Set(a, va)), Issued(h, Set(b, vb)), Issued(h, Set(b, vb)));
    StepSetOne(gs, h, a, va);
    StepSetOne(gs[h := m], h, b, vb);
    assert gs[h := m][h := m[b := m[b].(target := vb)]] == gs[h := m[b := m[b].(target := vb)]];
  }

  /** Play-all, start and reset change no target, value or duration. */
  lemma StepKeepsTweens<H, N>(gs: map<H, Group<N>>, h: H)
    ensures Step(gs, Issued(h, PlayAll)) == gs
    ensures Step(gs, Issued(h, Start)) == gs
    ensures Step(gs, Issued(h, Reset)) == gs
  {
  }

  lemma RunSnoc<H, N>(gs: map<H, Group<N>>, log: seq<Issued<H, N>>, i: Issued<H, N>)
    ensures Run(gs, log + [i]) == Step(Run(gs, log), i)
  {
    assert (log + [i])[..|log|] == log;
  }

  /** Short logs, one command at a time. */
  lemma RunShort<H, N>(gs: map<H, Group<N>>, a: Issued<H, N>, b: Issued<H, N>, c: Issued<H, N>)
    ensures Run(gs, [a]) == Step(gs, a)
    ensures Run(gs, [a, b]) == Step(Step(gs, a), b)
    ensures Run(gs, [a, b, c]) == Step(Step(Step(gs, a), b), c)
  {
    RunSnoc(gs, [], a);
    assert [] + [a] == [a];
    RunSnoc(gs, [a], b);
    assert [a] + [b] == [a, b];
    RunSnoc(gs, [a, b], c);
    assert [a, b] + [c] == [a, b, c];
  }

  lemma {:induction false} RunAppend<H, N>(gs: map<H, Group<N>>, a: seq<Issued<H, N>>, b: seq<Issued<H, N>>)
    ensures Run(gs, a + b) == Run(Run(gs, a), b)
    decreases |b|
  {
    if b == [] {
      assert a + b == a;
    } else {
      var b' := b[..|b| - 1];
      var x := b[|b| - 1];
      assert a + b == (a + b') + [x];
      assert b == b' + [x];
      RunSnoc(gs, a + b', x);
      RunAppend(gs, a, b');
      RunSnoc(Run(gs, a), b', x);
    }
  }

  /** The transition handles of one component and the commands issued on
      them so far. The handles' state is always what the log made of the
      state at mount. */
  class Animator<H(==), N(==)> {
    var groups: map<H, Group<N>>
    var log: seq<Issued<H, N>>
    ghost const initial: map<H, Group<N>>

    ghost predicate Valid()
      reads this
    {
      groups == Run(initial, log)
    }

    constructor (groups: map<H, Group<N>>)
      ensures Valid() && initial == groups
      ensures this.groups == groups && log == []
    {
      this.groups := groups;
      this.log := [];
      this.initial := groups;
    }

    /** Issues `c` on `handle`; the handles and their tweens are the ones
        registered at mount, since no command adds or removes any. */
    method Issue(handle: H, c: Command<N>)
      requires Valid()
      requires handle in initial && Known(initial[handle].Keys, c)
      modifies this
      ensures Valid()
      ensures groups == Step(old(groups), Issued(handle, c))
      ensures log == old(log) + [Issued(handle, c)]
    {
      RunSnoc(initial, log, Issued(handle, c));
      groups := Step(groups, Issued(handle, c));
      log := log + [Issued(handle, c)];
    }

    /** Issues the commands of `cs` one after the other. */
    method IssueAll(cs: seq<Issued<H, N>>)
      requires Valid() && Accepts(initial, cs)
      modifies this
      ensures Valid()
      ensures groups == Run(old(groups), cs)
      ensures log == old(log) + cs
    {
      var k := 0;
      while k < |cs|
        invariant 0 <= k <= |cs|
        invariant Valid()
        invariant log == old(log) + cs[..k]
        invariant groups == Run(old(groups), cs[..k])
      {
        assert cs[..k + 1] == cs[..k] + [cs[k]];
        RunSnoc(old(groups), cs[..k], cs[k]);
        Issue(cs[k].handle, cs[k].command);
        k := k + 1;
      }
      assert cs[..k] == cs;
    }
  }
}
