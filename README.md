# freya-material, modelled in Dafny

This project models the logic of freya-material. freya-material is a library of
Material Design 3 components for the Freya UI framework. Almost all of the library
is declarative view code. What this project models is its decision logic:

- the pointer state machines of the ripple, the state layer, the switch, the radio
  button and the navigation rail item;
- the commands that their handlers and effects issue on their transition handles,
  and the order of those commands;
- the checkbox's check-mark effect, including the flag that remembers whether the
  previous state was unchecked;
- the hand-written animated number `AdvancedAnimNum`;
- the design tokens: elevation shadows, easing curves and durations, shapes and the
  type scale;
- the style tables of the buttons, icon buttons and chips;
- the `as_rgba` colour serialiser.

Module layout:

- `Wrappers`, `Format`, `Theme`, `Geometry` hold shared values. These are an option
  type, decimal text, colour roles, and ripple geometry with state layer placement.
- `Transition` is an abstract model of the `freya_transition` crate. It plays the
  part of a library that this repository calls but does not contain. A transition
  handle is a map from tween name to tween (value, target, curve, duration). The
  class `Transition.Animator` holds a component's handles and the log of every
  command issued on them. Its invariant says the handles are always what the log
  made of the handles at mount.
- Each core source file has one module: `MaterialDesign`, `Lib`, `Typography`,
  `Ripple`, `StateLayer`, `Checkbox`, `Switch`, `NavigationRail`, `RadioButton`,
  `Button`, `IconButton` and `Chips`.
- Where the source changes state, the model is a class. Pointer handlers become
  methods that rewrite the state fields. A reactive effect becomes an explicit step
  method, to be called after the state it reads has changed. Each such method
  states its new state as a specification function of the old one. The lemmas next
  to the method then say what that function does to every tween.

## Model

| member | source | states |
|---|---|---|
| Ripple.RippleState.IsHolding | src/components/ripple.rs:19-23 | true exactly for `Holding` |
| Ripple.AsI32 | src/components/ripple.rs:127 | `as i32` on the millisecond count: below 2^31 it keeps the number, and it is always congruent to it modulo 2^32 |
| Ripple.Lerp | src/components/ripple.rs:145-148 | progress 0 gives the start and progress 1 gives the end |
| Ripple.Progress | src/components/ripple.rs:137-147 | `min(index, time) / time` is at most 1, is 1 once the index reaches the duration, is 0 at index 0 and is non-negative for a non-negative index |
| Ripple.Prepared | src/components/ripple.rs:115-122 | `prepare` puts the value at the direction's start (origin forward, destination reverse) and changes no other field |
| Ripple.Advanced | src/components/ripple.rs:135-155 | `advance` changes only the value |
| Ripple.AdvanceFinishedIsNoOp | src/components/ripple.rs:136 | once `is_finished` holds, advancing changes nothing |
| Ripple.InstantSnapsToEnd | src/components/ripple.rs:143-144 | `Curve::None` jumps to the direction's end: destination forward, origin reverse |
| Ripple.CurveLerpsBetweenEnds | src/components/ripple.rs:138-148 | any other curve lerps between the direction-swapped ends at the eased progress `curve(min(i, time) / time)` |
| Ripple.AdvanceReachesEnd | src/components/ripple.rs:135-149 | once the index reaches the duration, and with a curve that ends at 1, the value is at the direction's end (or unchanged if already finished) |
| Ripple.FinishedStaysFinished | src/components/ripple.rs:124-133 | finished at index i means finished at every later index |
| Ripple.Finished | src/components/ripple.rs:124-133 | `is_finished` compares the index with the duration cast to `i32`: below 2^31 ms it holds exactly when the index is past the duration and the value is at or beyond the direction's end; from 2^31 to 2^32 ms the duration wraps negative and, for a non-negative index, only the end condition is left |
| Ripple.AdvanceSettles | src/components/ripple.rs:124-155 | an advance past the duration leaves the number finished at every later tick |
| Ripple.Growth | src/components/ripple.rs:177-200 | the growth's three numbers run 450 ms on cubic(0.2, 0, 0, 1), from the start geometry to the end geometry (radius to radius·scale), each starting at rest at its origin |
| Ripple.AdvancedAnimNum.constructor | src/components/ripple.rs:91-99 | `new` keeps origin, destination, time and curve as given and starts the value at the origin |
| Ripple.AdvancedAnimNum.AsF32 | src/components/ripple.rs:107-109 | the current value |
| Ripple.AdvancedAnimNum.AsString | src/components/ripple.rs:111-113 | there is no text form |
| Ripple.AdvancedAnimNum.Prepare | src/components/ripple.rs:115-122 | the new fields are `Prepared` of the old ones |
| Ripple.AdvancedAnimNum.IsFinished | src/components/ripple.rs:124-133 | forward: index > time and value ≥ destination; reverse: index > time and value ≤ origin |
| Ripple.AdvancedAnimNum.Advance | src/components/ripple.rs:135-155 | the new fields are `Advanced` of the old ones |
| Ripple.Mounted | src/components/ripple.rs:169-200 | the handles at mount hold the "background" and "opacity" tweens and the growth animation |
| Ripple.EffectsAreExclusive | src/components/ripple.rs:240-254 | the hold effect acts exactly while holding; the fade acts exactly when the growth has stopped and the pointer is not held; the two never both act |
| Ripple.LeaveSilences | src/components/ripple.rs:231-238 | leaving resets the growth and sends the background and the ripple opacity to 0, changing nothing else |
| Ripple.HoldFadesIn | src/components/ripple.rs:247-254 | while holding, the opacity gets duration 375 and target 0.12 and the growth starts; otherwise nothing changes |
| Ripple.FadeFadesOut | src/components/ripple.rs:240-245 | with the growth stopped and the pointer not held, the opacity gets duration 150 and target 0; otherwise nothing changes |
| Ripple.Ripple.PointerDown | src/components/ripple.rs:206-215 | stores the press geometry and moves to `Holding`; no command |
| Ripple.Ripple.PointerUp | src/components/ripple.rs:217-223 | moves to `Hovering` and plays the opacity to 0 exactly when the growth is not running |
| Ripple.Ripple.PointerEnter | src/components/ripple.rs:225-229 | plays the background to 0.08 and moves to `Hovering` |
| Ripple.Ripple.PointerLeave | src/components/ripple.rs:231-238 | resets the growth, plays both opacities to 0, in that order, and moves to `Inactive` |
| Ripple.Ripple.FadeEffect | src/components/ripple.rs:240-245 | issues exactly the fade commands for the current state |
| Ripple.Ripple.HoldEffect | src/components/ripple.rs:247-254 | issues exactly the hold commands for the current state |
| StateLayer.State.Opacity | src/components/state_layer.rs:24-31 | between 0 and 0.1; 0 exactly when idle, 0.08 exactly when hovered and 0.1 exactly when pressed |
| StateLayer.State.IsPress | src/components/state_layer.rs:20-22 | true exactly for `Press` |
| StateLayer.OpacityStrictlyIncreasing | src/components/state_layer.rs:9-32 | the opacity grows strictly along Idle < Hover < Press |
| StateLayer.Mounted | src/components/state_layer.rs:99-108 | the three handles hold the tweens the component reads |
| StateLayer.PressAccepted | src/components/state_layer.rs:116-127 | every pointer-down command names a registered tween |
| StateLayer.RestartEffect | src/components/state_layer.rs:119-122 | the first four commands put the ripple at rest, invisible, at its start geometry, with a 75 ms fade-in |
| StateLayer.AimEffect | src/components/state_layer.rs:123-124 | the sets aim the radius at radius·scale and the origin at the end position |
| StateLayer.LaunchEffect | src/components/state_layer.rs:125-126 | the plays aim the ripple opacity at 0.1 and replay the growth |
| StateLayer.PressRestartsRipple | src/components/state_layer.rs:116-127 | whatever came before, a press leaves the ripple at value 0 aiming at 0.1 within 75 ms, at rest at the start geometry aiming at the end, and the background untouched |
| StateLayer.BackgroundFollowsState | src/components/state_layer.rs:131-133 | the background aims at the current state's opacity and nothing else changes |
| StateLayer.FadeOnlyWhenSettled | src/components/state_layer.rs:135-140 | the fade fires exactly when the ripple is not playing and the state is not `Press`, and then aims the ripple opacity at 0 within 150 ms |
| StateLayer.StateLayer.PointerEnter | src/components/state_layer.rs:110 | the state becomes `Hover` whatever it was |
| StateLayer.StateLayer.PointerLeave | src/components/state_layer.rs:111 | the state becomes `Idle` whatever it was |
| StateLayer.StateLayer.PointerUp | src/components/state_layer.rs:112-114 | the state becomes `Hover` whatever it was |
| StateLayer.StateLayer.PointerDown | src/components/state_layer.rs:116-129 | issues the eight press commands in source order and moves to `Press` |
| StateLayer.StateLayer.BackgroundEffect | src/components/state_layer.rs:131-133 | plays the background to the state's opacity |
| StateLayer.StateLayer.RippleFadeEffect | src/components/state_layer.rs:135-140 | issues exactly the deferred fade |
| Checkbox.CheckboxState.IntoBool | src/components/checkbox.rs:87-89 | false exactly for `Unchecked` |
| Checkbox.FromBool | src/components/checkbox.rs:79-85 | never yields `Intermediate` |
| Checkbox.BoolRoundTrip | src/components/checkbox.rs:79-89 | `into_bool(from_bool(b)) == b` |
| Checkbox.CheckboxState.IntoCurve | src/components/checkbox.rs:14-21 | emphasized accelerate exactly when `into_bool` holds, else emphasized decelerate |
| Checkbox.CheckboxState.IntoDuration | src/components/checkbox.rs:23-29 | 150 ms exactly when `into_bool` holds, 350 ms exactly when it does not |
| Checkbox.CheckboxState.IntoOpacity | src/components/checkbox.rs:31-37 | 1 exactly when `into_bool` holds, 0 exactly when it does not |
| Checkbox.CheckboxState.IntoRadius | src/components/checkbox.rs:39-45 | 18 exactly when `into_bool` holds, 18·0.6 = 10.8 exactly when it does not |
| Checkbox.CheckboxState.IntoWidth | src/components/checkbox.rs:47-53 | √128 exactly when checked, 10 exactly otherwise |
| Checkbox.CheckboxState.IntoHeight | src/components/checkbox.rs:55-61 | √32 exactly when checked, 2 exactly otherwise |
| Checkbox.CheckboxState.IntoRotation | src/components/checkbox.rs:63-69 | 0 exactly for the intermediate dash, −45 exactly otherwise |
| Checkbox.CheckboxState.IntoOffset | src/components/checkbox.rs:71-77 | (4, 8) exactly for the intermediate dash, (5, 8) exactly otherwise |
| Checkbox.BoxFollowsIntoBool | src/components/checkbox.rs:14-45 | curve, duration, opacity and radius depend on `into_bool` alone: (accelerate, 150, 1, 18) or (decelerate, 350, 0, 18·0.6) |
| Checkbox.MarkShape | src/components/checkbox.rs:47-77 | rotation 0 and offset (4, 8) exactly when intermediate, else −45 and (5, 8); the √128 and √32 strokes exactly when checked, else 10 and 2 |
| Checkbox.Colors | src/components/checkbox.rs:104-116 | disabled: fill on_surface at 0.38, mark surface, border on_surface at alpha 0 when filled and 0.38 when unchecked; enabled: fill error or primary, and the border has the fill's colour exactly in the error palette |
| Checkbox.DisabledOverridesError | src/components/checkbox.rs:104-116 | disabled ignores `error`; the disabled border alpha is 0 when filled and 0.38 when unchecked; the enabled palettes are the error and the primary ones |
| Checkbox.StateLayerColor | src/components/checkbox.rs:118-124 | error first, then primary when filled, else on_surface |
| Checkbox.StateLayerOf | src/components/checkbox.rs:263-271 | a state layer exactly when not disabled, in the state layer colour, placed at (−11, −11) |
| Checkbox.UncheckedLeavesMarkAlone | src/components/checkbox.rs:186-206 | the box command always comes last, every earlier command is on the mark, and the mark gets no command exactly when the new state is unchecked |
| Checkbox.CollapseOnlyFromUnchecked | src/components/checkbox.rs:190-192 | the forced width 0 is issued exactly when the flag is set and the new state is checked |
| Checkbox.MarkSets | src/components/checkbox.rs:194-197 | the four sets each change only the target they name |
| Checkbox.CollapseEffect | src/components/checkbox.rs:190-192 | the collapse puts the width at rest at 0, or changes nothing |
| Checkbox.MarkEffect | src/components/checkbox.rs:189-200 | the mark aims at the state's shape, the width starting from 0 after a collapse, and the box is untouched |
| Checkbox.BoxEffect | src/components/checkbox.rs:203-206 | the box aims at the state's radius and opacity |
| Checkbox.EffectAimsAtState | src/components/checkbox.rs:186-206 | after the effect the box aims at the new radius and opacity, and the mark aims at the new shape or, when unchecked, is left as it was |
| Checkbox.EffectAccepted | src/components/checkbox.rs:186-206 | every command of the effect names a registered tween |
| Checkbox.Checkbox.constructor | src/components/checkbox.rs:93-102 | the flag starts false, the handles are the mounted ones, the log is empty, `disabled` is kept and no click has been forwarded |
| Checkbox.Checkbox.Click | src/components/checkbox.rs:221-223 | `on_click` is called once per click exactly when not disabled, and the effect state is untouched |
| Checkbox.Checkbox.StateEffect | src/components/checkbox.rs:186-209 | issues the effect's commands; the width is forced to 0 exactly when the state the effect last ran on was unchecked and the new one is checked; the flag becomes (state == Unchecked); the click count is kept |
| Switch.Next | src/components/switch.rs:48-55 | enter and up lead to `Hovering`, leave to `Idle`, down to `Pressed`, whatever the state before |
| Switch.Fires | src/components/switch.rs:51-55 | only pointer-up calls `on_toggle` |
| Switch.LastEventDecides | src/components/switch.rs:48-55 | after any non-empty trace the state is what the last event sets |
| Switch.TogglesCountUps | src/components/switch.rs:48-55 | a trace calls `on_toggle` exactly as often as it holds pointer-ups |
| Switch.TogglesAppend | src/components/switch.rs:48-55 | the calls of two traces add up |
| Switch.Colors | src/components/switch.rs:20-28 | (primary, on_primary, primary) when toggled, (surface_container_highest, outline, outline) otherwise |
| Switch.TrackBorder | src/components/switch.rs:80 | a 2 wide inner border in the border colour |
| Switch.RadiusTarget | src/components/switch.rs:64-72 | always 16, 24 or 28; 28 exactly when pressed; 16 exactly when idle and off; idle plays to the resting size |
| Switch.PressedIsLargest | src/components/switch.rs:64-72 | pressed is the largest target, and hover is at least the resting size |
| Switch.OffsetTarget | src/components/switch.rs:60-62 | 21 exactly when toggled, else 0 |
| Switch.Mounted | src/components/switch.rs:30-46 | the handle mounts at rest at the resting size with 250 ms on the standard easing, and at the offset target with 300 ms on cubic(0.175, 0.885, 0.32, 1.275) |
| Switch.EffectsAimOneTween | src/components/switch.rs:60-72 | each effect changes only its own tween's target, so the durations stay |
| Switch.MountIsAtRest | src/components/switch.rs:30-62 | right after mount, the offset effect and an idle radius effect change nothing |
| Switch.Switch.PointerEnter | src/components/switch.rs:48 | the state becomes `Hovering`; no toggle |
| Switch.Switch.PointerLeave | src/components/switch.rs:49 | the state becomes `Idle`; no toggle |
| Switch.Switch.PointerDown | src/components/switch.rs:50 | the state becomes `Pressed`; no toggle |
| Switch.Switch.PointerUp | src/components/switch.rs:51-55 | the state becomes `Hovering` and `on_toggle` is called once |
| Switch.Switch.ToggledEffect | src/components/switch.rs:60-62 | plays the offset to the target for `toggled` |
| Switch.Switch.StateEffect | src/components/switch.rs:64-72 | plays the radius to the target for the state |
| NavigationRail.Colors | src/components/navigation_rail.rs:19-33 | active: (secondary_container, on_surface, on_secondary_container); inactive: transparent, with text and icon both on_surface when hovered, else on_surface_variant |
| NavigationRail.ActiveIgnoresHover | src/components/navigation_rail.rs:19-33 | hover changes the colours of an inactive item only |
| NavigationRail.PillHeight | src/components/navigation_rail.rs:44-45 | 32 with a label, 56 without |
| NavigationRail.IndicatorHeight | src/components/navigation_rail.rs:126-130 | fixed at the pill height with a label, the radius without one |
| NavigationRail.LabelOpacity | src/components/navigation_rail.rs:155-159 | 1 whenever the label is always shown, else the tween's opacity |
| NavigationRail.IconMargin | src/components/navigation_rail.rs:110-114 | the icon offset only when the label is hidden by default and present, else 0 |
| NavigationRail.Icon | src/components/navigation_rail.rs:136-143 | the icon is filled exactly when the item is active, in on_secondary_container when active and in the label's colour otherwise |
| NavigationRail.IconShowsActive | src/components/navigation_rail.rs:19-33 | whatever the hover, an active item's icon differs from an inactive one's in fill and in colour |
| NavigationRail.ShowLabel | src/components/navigation_rail.rs:11 | `always_show_label` defaults to true |
| NavigationRail.ContainerBackground | src/components/navigation_rail.rs:184 | the given colour, else surface |
| NavigationRail.RadiusTarget | src/components/navigation_rail.rs:78-86 | 56 exactly when active, else 0 |
| NavigationRail.Duration | src/components/navigation_rail.rs:52 | the third medium duration, 350 ms |
| NavigationRail.MountedRelativeToTargets | src/components/navigation_rail.rs:47-70 | the indicator mounts at its target; the label mounts at the opposite of its target |
| NavigationRail.LabelCommandedOnlyWhenHidden | src/components/navigation_rail.rs:78-92 | the indicator is always played, first; the label is played, second, exactly when it is hidden by default and present |
| NavigationRail.EffectAimsAtActive | src/components/navigation_rail.rs:78-92 | after the effect the indicator aims at its target; the label aims at (0, 1) when active and (12, 0) otherwise, or is untouched when not animated |
| NavigationRail.ShownLabelStaysPut | src/components/navigation_rail.rs:82-90 | an item that always shows its label never commands the label, and renders it at opacity 1 with no margin |
| NavigationRail.NavigationRailItem.constructor | src/components/navigation_rail.rs:11-17 | not hovered; `always_show_label` defaults to true; a label is present exactly when given |
| NavigationRail.NavigationRailItem.PointerEnter | src/components/navigation_rail.rs:41 | hovered becomes true |
| NavigationRail.NavigationRailItem.PointerLeave | src/components/navigation_rail.rs:42 | hovered becomes false |
| NavigationRail.NavigationRailItem.ActiveEffect | src/components/navigation_rail.rs:78-92 | issues exactly the effect's commands for `active` |
| RadioButton.RingColor | src/components/radio_button.rs:16-25 | disabled (on_surface at 0.38), then selected (primary), then hovered (on_surface), else on_surface_variant |
| RadioButton.ColorPriority | src/components/radio_button.rs:16-25 | each flag hides every lower one, and hover is visible when nothing outranks it |
| RadioButton.StateLayerOf | src/components/radio_button.rs:63-71 | a state layer exactly when not disabled, in the ring colour an enabled button would have, placed at (−10, −10) |
| RadioButton.RadiusTarget | src/components/radio_button.rs:41-47 | 8 exactly when selected, else 0 |
| RadioButton.Mounted | src/components/radio_button.rs:30-37 | the dot mounts at 0 with the third medium duration, 350 ms |
| RadioButton.EffectAimsAtSelection | src/components/radio_button.rs:41-47 | the effect aims the dot at the selection and changes nothing else |
| RadioButton.MountedSelectionGrows | src/components/radio_button.rs:30-47 | after the mount-time effect an unselected dot is at rest, while a selected one grows from 0 towards 8 |
| RadioButton.RadioButton.constructor | src/components/radio_button.rs:6-37 | not hovered, `disabled` kept, no click forwarded, and the dot's handle mounted with an empty log |
| RadioButton.RadioButton.PointerEnter | src/components/radio_button.rs:27 | hovered becomes true |
| RadioButton.RadioButton.PointerLeave | src/components/radio_button.rs:28 | hovered becomes false |
| RadioButton.RadioButton.Click | src/components/radio_button.rs:59-61 | `on_click` is called once per click exactly when not disabled |
| RadioButton.RadioButton.SelectedEffect | src/components/radio_button.rs:41-47 | plays the radius to the selection's target |
| Button.ContainerOrBorder | src/components/button.rs:24-52 | a container exactly for elevated, filled and tonal; a border exactly for outlined (outline when enabled, on_surface at 0.12 when disabled); never both |
| Button.DisabledLooks | src/components/button.rs:37-51 | every disabled style writes in on_surface at 0.38, and the disabled contained styles share the on_surface at 0.12 container |
| Button.EnabledLooksDistinct | src/components/button.rs:24-52 | no two enabled styles look alike |
| Button.Padding | src/components/button.rs:56-62 | 12 exactly for text buttons, else 24 |
| Button.PaddingLeft | src/components/button.rs:56-62 | 16 exactly with an icon on a non-text button, else the padding, never more |
| Button.StateLayerLeft | src/components/button.rs:95-102 | the state layer is shifted by −12 to −24: −12 exactly for text, −16 exactly with an icon on a non-text button |
| Button.Shadow | src/components/button.rs:77-86 | a level 1 shadow exactly for an enabled elevated button |
| Button.LookOf | src/components/button.rs:24-52 | a container exactly for elevated, filled and tonal, a border exactly for outlined, and the content colour is on_surface at 0.38 exactly when disabled |
| Button.StateLayerOf | src/components/button.rs:94-101 | a state layer exactly when not disabled, in the enabled content colour, shifted left by the state layer offset and not vertically |
| Button.Button.constructor | src/components/button.rs:14-20 | keeps `disabled`; no click has been forwarded |
| Button.Button.Click | src/components/button.rs:90-92 | `on_click` is called once per click exactly when not disabled |
| IconButton.DisabledIgnoresSelected | src/components/icon_button.rs:23-68 | a disabled button ignores `selected` and writes in on_surface at 0.38 |
| IconButton.UntoggledLooksLikeItsDefault | src/components/icon_button.rs:24-62 | a button without `selected` looks unselected when standard or outlined, and selected when filled or tonal |
| IconButton.DisabledFilledLikeTonal | src/components/icon_button.rs:35-54 | disabled filled and disabled tonal look the same |
| IconButton.BorderOnlyWhenOutlined | src/components/icon_button.rs:55-67 | a border exactly on an outlined button that is unselected or disabled; never a border and a container together |
| IconButton.SelectionIsVisible | src/components/icon_button.rs:23-68 | selecting changes the look of every enabled style |
| IconButton.IconFilled | src/components/icon_button.rs:102 | `selected` when given, else the icon's own flag |
| IconButton.LookOf | src/components/icon_button.rs:23-68 | the content colour is on_surface at 0.38 exactly when disabled, and a border appears only on an outlined button, without a container |
| IconButton.StateLayerOf | src/components/icon_button.rs:89-97 | a state layer exactly when not disabled, in the enabled content colour, placed at (−8, −8) |
| IconButton.IconButton.constructor | src/components/icon_button.rs:13-19 | keeps `disabled`; no click has been forwarded |
| IconButton.IconButton.Click | src/components/icon_button.rs:85-87 | `on_click` is called once per click exactly when not disabled |
| Chips.AssistFrame | src/components/chips.rs:17-25 | filled or outlined, never both; elevated exactly when `elevated`, then on surface_container_low at level 1; any border is the 1 wide outline |
| Chips.FilterFrame | src/components/chips.rs:101-119 | filled or outlined, never both; level 1 exactly when elevated; filled with secondary_container when selected; a border only when neither selected nor elevated |
| Chips.InputFrame | src/components/chips.rs:201-205 | filled or outlined, never both; never elevated; a container exactly when selected, in secondary_container |
| Chips.FilterElevationIgnoresSelection | src/components/chips.rs:17-119 | selection does not change a filter chip's elevation, and an unselected filter chip is framed exactly like an assist chip |
| Chips.ContentColor | src/components/chips.rs:121-125 | on_surface for assist chips; on_secondary_container when a filter or input chip is selected, else on_surface_variant |
| Chips.LeadingIconColor | src/components/chips.rs:213-217 | primary except on an unselected input chip, which uses on_surface_variant |
| Chips.LeftPadding | src/components/chips.rs:219-225 | 4 beside an input chip's avatar, else 8 beside a leading icon, else 16 |
| Chips.RightPadding | src/components/chips.rs:127-129 | 8 on input chips; on others 8 exactly with a trailing icon, else 16 |
| Chips.PaddingShrinksWithContent | src/components/chips.rs:219-225 | more leading content never means more padding, and only input chips look at the avatar |
| Chips.StateLayerLeft | src/components/chips.rs:246-251 | the state layer is shifted back by exactly the left padding |
| Chips.ChipShape | src/components/chips.rs:236-240 | full exactly for an input chip with an avatar, else small |
| Chips.InputLeading | src/components/chips.rs:253-273 | the avatar wins over the leading icon |
| Chips.InputTrailingIcon | src/components/chips.rs:298-314 | the given icon, else "star" |
| Chips.ClickTarget | src/components/chips.rs:289 | an input chip binds `on_click` to its trailing area only |
| MaterialDesign.Elevation.AsValue | src/material_design.rs:12-21 | at most 12, and 0 exactly for level 0 |
| MaterialDesign.Elevation.AsShadow | src/material_design.rs:27-64 | as written: levels 0 and 1 draw their own level-scale shadow, level 2 (3 dp) draws level 3's, and levels 3 to 5 all draw level 5's |
| MaterialDesign.Elevation.AsShadowIntended | src/material_design.rs:27-64 | the shadow text on the level scale, which agrees with the dp arithmetic below level 2 |
| MaterialDesign.ElevationValueStrictlyIncreasing | src/material_design.rs:1-21 | the dp value grows strictly along the declaration order |
| MaterialDesign.Clamp | src/material_design.rs:32-54 | `i32::clamp`: within the bounds, and the input itself when it is within them |
| MaterialDesign.ShadowOf | src/material_design.rs:30-62 | the five shadow numbers are at most 4, 4, 8, 12 and 6; five zeros at level 0 and below; the level-5 shadow (4, 4, 8, 12, 6) from 5 on |
| MaterialDesign.ShadowText | src/material_design.rs:64 | the text is longer than 29 characters, and with one-digit key numbers and ambient offset its thirtieth character is that offset |
| MaterialDesign.ShadowMonotone | src/material_design.rs:31-62 | every shadow number is non-decreasing in the level value |
| MaterialDesign.ShadowSaturates | src/material_design.rs:31-62 | from level value 5 on every clamp has saturated |
| MaterialDesign.ElevationShadowMonotone | src/material_design.rs:28-62 | as written, every shadow number is non-decreasing along the elevation order |
| MaterialDesign.TopLevelsShareOneShadow | src/material_design.rs:27-64 | as written, levels 3, 4 and 5 produce the same shadow text |
| MaterialDesign.Level2DrawsLevel3Shadow | src/material_design.rs:12-64 | as written, level 2 does not draw its own level-scale shadow |
| MaterialDesign.ShadowTable | src/material_design.rs:31-62 | the material-web table for levels 1 to 5 |
| MaterialDesign.ShadowGrowsWithLevel | src/material_design.rs:31-62 | on the level scale every shadow number grows with the level |
| MaterialDesign.AmbientOffsetStrictlyGrows | src/material_design.rs:47-57 | on levels 0 to 5 the ambient y offset grows strictly |
| MaterialDesign.LevelZeroShadowText | src/material_design.rs:27-64 | `Level0.as_shadow()` is "0 0 0 0 rgb(0, 0, 0, 0.3), 0 0 0 0 rgb(0, 0, 0, 0.15)" |
| MaterialDesign.LevelOneShadowText | src/material_design.rs:27-64 | `Level1.as_shadow()` is "0 1 2 0 rgb(0, 0, 0, 0.3), 0 1 3 1 rgb(0, 0, 0, 0.15)" |
| MaterialDesign.ShadowTextSeparates | src/material_design.rs:64 | shadows with different one-digit ambient offsets are written differently |
| MaterialDesign.DistinctLevelsDistinctText | src/material_design.rs:28-64 | on the level scale distinct levels give distinct text |
| MaterialDesign.LevelsDrawDistinctShadows | src/material_design.rs:28-64 | on the level scale every elevation draws a shadow of its own |
| MaterialDesign.EasingCurvesDistinct | src/material_design.rs:85-102 | the six presets are six distinct curves |
| MaterialDesign.Easing.AsValue | src/material_design.rs:85-102 | no preset is `Curve::None`; `Emphasized` exactly is the emphasized ease-in-out, and every other preset is a cubic Bézier |
| MaterialDesign.EasingDuration.AsValue | src/material_design.rs:117-125 | four durations in strictly increasing order, between 50 and 1000 ms |
| MaterialDesign.DurationTiersOrdered | src/material_design.rs:117-125 | every duration of a lower tier is shorter than every duration of a higher one |
| MaterialDesign.ShapeValuesDistinct | src/material_design.rs:149-165 | no two shapes share a corner text |
| MaterialDesign.Shape.AsValue | src/material_design.rs:149-165 | a non-empty text of digits and spaces that neither starts nor ends with a space; 9999 exactly for `Full` |
| MaterialDesign.GetTypeScale | src/material_design.rs:237-267 | total; always Roboto; size < line height < 2·size; weight in {400, 500, 700}, 700 exactly for a prominent large or medium label |
| MaterialDesign.ProminentOnlyBoldsLabels | src/material_design.rs:259-265 | `prominent` matters only for large and medium labels, where it raises the weight from 500 to 700 and changes nothing else |
| Typography.GetTypeScale | src/components/typography.rs:21-91 | always Roboto; weight in {400, 500, 700}, 700 exactly for a prominent large or medium label; size < line height < 2·size |
| Typography.AgreesWithMaterialDesign | src/components/typography.rs:21-91 | this copy returns the same tuple as the one in src/material_design.rs on all 30 inputs |
| Typography.ProminentIgnoredElsewhere | src/components/typography.rs:26-48 | `prominent` is ignored outside large and medium labels |
| Typography.LineHeight | src/components/typography.rs:112 | `line_height / size` on unsigned integers: the largest whole number of font sizes that fit in the line height |
| Typography.LineHeightIsAlwaysOne | src/components/typography.rs:54-112 | as written, the truncating division gives 1 for every entry and does not give back the line height |
| Typography.LineHeightIntended | src/components/typography.rs:112 | the undivided ratio, which times the font size is the line height in pixels |
| Typography.LineHeightIntendedRecoversPixels | src/components/typography.rs:54-112 | for every entry the undivided ratio is strictly between 1 and 2 and multiplies back to the line height |
| Typography.Render | src/components/typography.rs:105-112 | family, weight and size are passed through; the line height written is a whole number n with n·size ≤ line height < (n + 1)·size, so 1 whenever the line height is between one and two sizes |
| Typography.RenderIntended | src/components/typography.rs:105-112 | family, weight and size are passed through, and the line height times the size is the line height in pixels |
| Typography.RenderIgnoresTracking | src/components/typography.rs:105 | the tracking is dropped |
| Typography.TypographyText | src/components/typography.rs:98-117 | as written: Roboto, size 11 to 57, line height 1 for every entry, weight 700 exactly for a prominent non-small label; no props give Roboto 400 at 14 with line height 1 |
| Typography.TypographyTextIntended | src/components/typography.rs:98-117 | with the undivided ratio: Roboto, size 11 to 57, line height strictly between 1 and 2; no props give Roboto 400 at 14 with 20/14 |
| Typography.Defaults | src/components/typography.rs:100-102 | Body, Medium and not prominent resolve to ("Roboto", 400, 14, 0.25, 20) in both tables |
| Lib.AsRgba | src/lib.rs:56-63 | 15 to 23 characters, exactly three commas, and parsing it back gives red, green, blue and alpha, with alpha last as a raw byte |
| Format.Decimal | src/lib.rs:58-61 | Rust's `{}` for an unsigned integer: digits only, no leading zero |
| Format.ParseDecimalInvertsDecimal | src/lib.rs:58-61 | the decimal text of every number reads back as that number |

## Left out

- `f32` arithmetic is modelled as exact `real` arithmetic. Rounding, NaN and infinities are not modelled.
- `freya_transition` is not part of this repository. Scheduling, interpolation over time, `is_playing` / `is_running` and `Curve::transform` are left out. A curve is data only. Where a curve is evaluated it is an uninterpreted parameter `ease`. `lerp` is taken to be `a + (b − a)·t`.
- `Transition.Animator.Issue`: the crate fails on an unknown tween name. The model makes that a precondition instead, and every component proves its commands meet it.
- `Transition.Animator.IssueAll` issues a sequence of commands in one call. The source calls the handle once per command. The log and the final state are the same.
- `is_playing()` and `is_running()` become boolean parameters of the effects that read them. Drawing and reading tween values over time are not modelled.
- Effects are explicit step methods. Which framework signal triggers an effect, and when it runs, is left to the caller.
- Ripple geometry is not part of this model. `RippleInfo::new`, `get_size` and `RipplePosition::new` use `floor`, `hypot` and an unguarded division by the initial size. The geometry enters as a value.
- `Ripple.Advanced` requires a positive duration unless the curve is `Curve::None` or the number is finished. With a zero duration the source divides zero by zero.
- The `println!` debug output in ripple.rs is I/O and is left out.
- `Checkbox.CheckboxState.IntoWidth` / `IntoHeight`: √128 and √32 are kept as unevaluated constants (`Sqrt(128)`, `Sqrt(32)`).
- Colour text formats are not modelled: `Display` of `Argb` versus `as_rgba`, and the "1 inner …" border strings. Colours are scheme roles with an optional alpha.
- The scheme itself (`material_colors`, `use_material_theme`, `set_material_theme`) is not part of this model.
- Font embedding is not part of this model.
- `on_click`, `on_toggle` and other callbacks are modelled as counters of the calls that reach them. The event data passed to them is not modelled.
- All `rsx!` layout, sizes and node references are left out, apart from the numbers the components compute.
- `Elevation::into_shadows` is not part of this model. It is used by Surface and Button, but src/material_design.rs does not define it. That is why `Button.Shadow` returns the elevation level rather than shadow text.
- The older top-level component copies (src/button.rs, src/icon_button.rs, src/switch.rs, src/fab.rs, src/rail.rs, src/side_sheet.rs, src/search.rs) are not part of this model. The crate does not declare them.
- `into_value` and `into_shadow` only forward to `as_value` and `as_shadow`, so they get no members of their own.
- The Easing presets' cubic control points are data only.

## Findings

| source | as written | input that shows it | evidently intended | confidence | as-written member | corrected member |
|---|---|---|---|---|---|---|
| src/components/typography.rs:112 | `line_height / size` divides two `usize`s, so it truncates | Display Large: 64 / 57 = 1, and every other entry also gives 1 | the line height as a multiple of the font size (64/57 ≈ 1.12), so each entry keeps its own line spacing | not executed | Typography.LineHeightIsAlwaysOne | Typography.LineHeightIntendedRecoversPixels |
| src/material_design.rs:28 | the material-web clamp arithmetic is fed `as_value()`, the elevation in dp (0, 1, 3, 6, 8, 12) | Level3, Level4 and Level5 (6, 8, 12) all saturate every clamp and give the level-5 shadow "0 4 4 0 …, 0 8 12 6 …"; Level2 (3 dp) draws the level-3 shadow | the arithmetic is written for the level number 0–5; fed that, every level gets its own shadow | not executed | MaterialDesign.Elevation.AsShadow | MaterialDesign.LevelsDrawDistinctShadows |
