# MoonPhase scene engine and selector widgets, in Dafny

This project models the logic of a SwiftUI/SceneKit Moon-phase viewer.

The first part is its scene engine. It takes a signed day offset and the
current instant. From these it derives:

- the instant the scene shows;
- the Earth's angle around the Sun;
- the Moon's angle around the Earth;
- the Earth's rotation about its axis;
- the Sun's counter-rotation.

It then places the camera in one of two views, the Moon view and the full
view of the solar system. The Sun's visibility and the star background
change with the view, either at once or from a closure run after a delay.

The second part is the index logic of two selector widgets: the
three-position `ViewSelectorSlider` and the `SlingshotMultipleValueToggle`.

## How the model is laid out

| Dafny module (file) | models |
|---|---|
| `Wrappers` (`wrappers.dfy`) | Swift optionals and `??` |
| `Orbit` (`orbit.dfy`) | the orbit computation shared by both scene variants: `Int()` truncation, the day/hour split, the calendar fallbacks and the four angle formulas |
| `Scene` (`scene.dfy`) | SceneKit values, kept symbolic: transforms, axis-angle rotations, animation records, deferred closures |
| `SolarSystemCamera` (`solar_system_camera_scene.dfy`) | `SolarSystemCameraScene` |
| `SolarSystemPlanets` (`solar_system_planet_scene.dfy`) | `SolarSystemPlanetScene` |
| `Content` (`content_view.dfy`) | `PlanetScene` and `ContentView` |
| `ViewSelector` (`view_selector_slider.dfy`) | `ViewSelectorSlider` |
| `Slingshot` (`slingshot_toggle.dfy`) | `SlingshotMultipleValueToggle` and `SlingshotSliderCircle` |

How the Swift code is represented:

- **Numbers.** `Double` and `CGFloat` are exact reals. `Double.pi` is the
  constant `Pi`, written out as 3.141592653589793.
- **Classes and state.** Each scene class and each widget is a Dafny
  `class`. Its stored properties are fields, and its methods reassign them
  as the Swift methods do.
- **Scene nodes.** The nodes are private to their scene and never shared,
  so the node properties the code changes are fields of the scene itself.
  These are the pivot, Earth and Sun rotations, the Sun's opacity and
  `background.contents`.
- **Camera transforms.** A transform is a sequence of symbolic factors
  (`RotateY`, `RotateX`, `Translate`) whose matrix product, read left to
  right, is the transform. `SCNMatrix4Mult(f, t)` is `[f] + t`, so the
  factor the code multiplies in first is last in the sequence.
- **Animations.** Every `CABasicAnimation` the code adds is appended to a
  list as (from, to, duration).
- **Deferred closures.** Every `asyncAfter` closure is appended to `pending`
  as (instant scheduled, delay, effect). Its deadline is the sum of the
  first two. The main queue's turns are explicit: `RunDue(now)` runs every
  closure whose deadline has passed, earliest deadline first, and the
  closure scheduled first on a tie. `clock` is the instant of the latest
  turn, and closures are scheduled at that instant. `Settle` gives the
  visible state once every pending closure has run, in the same order.
- **Subclassing.** `SolarSystemPlanetScene` wraps a `SolarSystemCameraScene`
  (`camera`) and calls it where the Swift overrides call `super`. The
  overridden `backgroundImage()` becomes a constructor argument of the
  camera scene. The planet scene's constructor repeats what Swift's dynamic
  dispatch does inside `super.init()`: the nodes are rotated and the Sun is
  hidden before the orbit is resolved a second time.
- **Foreign inputs.** The calendar (`date(byAdding:)` and `ordinality`) and
  MoonKit's Moon age are parameters holding function values. `Date()` is a
  parameter `now`.

Behaviour of the code worth noting:

- **Splitting the offset.** The day part is `Int(addedTime)`, which
  truncates toward zero. So a negative offset gives non-positive days and
  hours.
- **Hour ordinal.** The hour comes from `ordinality(of: .hour, in: .day)`.
  The model takes the ordinal from the calendar as it is.
- **Pending closures are never cancelled.** Suppose `expanded` is toggled
  to the full view and back within 1 s. The star background scheduled 1 s
  after the first toggle still runs after the Moon view has cleared it.
  `Content.ToggleTwiceKeepsStars` shows this; `Content.SlowToggleClearsStars`
  shows that a slower return leaves the background empty.
- **Sun closures with different delays.** In `SolarSystemPlanetScene` the
  Moon view hides the Sun after 0.2 s and the full view shows it after
  0.5 s. A return to the Moon view less than 0.3 s after a move to the full
  view therefore ends with the Sun shown. `SolarSystemPlanets.QuickReturnShowsSun`
  shows this.
- **Background in the planet scene.** In `SolarSystemPlanetScene` the
  background is never swapped. It stays empty in both views, and only the
  Sun's opacity changes.
- **Durations.** `SolarSystemCameraScene` and its subclass use 0.5 s for
  the Moon view and 1 s for the centred Moon view. `PlanetScene` uses 1 s
  for both of its moves.

Two details of the code as written:

- **Tap handler.** `ViewSelectorSlider`'s tap handler sets `dragging` to
  true and then to false. What keeps the highlight on screen is the delayed
  animation of the second assignment. The stored value is false at the end
  of every tap.
- **Shown value of the slingshot toggle.** `animatedValue` starts at 0
  whatever the binding holds. It only follows `selectedValue` when that
  value changes.

The tap and drag handlers of `ViewSelectorSlider` repeat the same
three-zone test (ViewSelectorSlider.swift:55-76 and :90-111), with
identical thresholds. The model states the test once, as `Zone`, and both
handlers use it. Likewise, the slingshot toggle's selection circle and its
icons compute their x position with the same expression
(SlingshotMultipleValueToggle.swift:56-58 and :107-109). That expression is
`IconOffset` for both.

## Model

| member | source | states |
|---|---|---|
| `Orbit.Trunc` | MoonPhase/PlanetSceneKit/SolarSystemCameraScene.swift:58-59 | `Int()` truncates toward zero: the result has the sign of its argument and lies less than 1 closer to zero |
| `Orbit.SplitOffset` | MoonPhase/PlanetSceneKit/SolarSystemCameraScene.swift:58-59 | `extraDay` is `addedTime` truncated; `extraHour` lies in [-23, 23]; both are 0 or have the sign of `addedTime` |
| `Orbit.SplitIsTruncatedHours` | MoonPhase/PlanetSceneKit/SolarSystemCameraScene.swift:58-62 | `extraDay*24 + extraHour` is `addedTime*24` truncated toward zero: never further from zero than asked, less than one hour short |
| `Orbit.ResolveDate` | MoonPhase/PlanetSceneKit/SolarSystemCameraScene.swift:61-62 | when both additions succeed the hour addition's result is shown; a failed day addition continues from the current instant; a failed hour addition yields the current instant; nothing is reported |
| `Orbit.ResolvedDateWithinAnHour` | MoonPhase/PlanetSceneKit/SolarSystemCameraScene.swift:58-62 | with fixed-length days and hours, the shown instant lies between now and the requested instant, less than an hour short of it |
| `Orbit.Ordinal` | MoonPhase/PlanetSceneKit/SolarSystemCameraScene.swift:64-65 | a missing ordinality reads as 0 |
| `Orbit.EarthAroundSun` | MoonPhase/PlanetSceneKit/SolarSystemCameraScene.swift:70 | for day ordinals 1..366 the angle lies in (0, 366/365.25·2π]; a missing ordinal gives angle 0 |
| `Orbit.Resolve` | MoonPhase/PlanetSceneKit/SolarSystemCameraScene.swift:64-73 | the date is `ResolveDate` of the truncating split; the orbit angle is `EarthAroundSun` of the day ordinal (0 when missing); the Sun's angle cancels it; the Moon's angle is `MoonAroundEarth`; the Earth's axial angle plus the Moon's angle is the hour ordinal as a fraction of a turn |
| `Orbit.MoonAngleIsPeriodic` | MoonPhase/PlanetSceneKit/SolarSystemCameraScene.swift:71 | adding 29.53059 days to the offset adds exactly 2π to the Moon's angle |
| `Orbit.MoonAngleIgnoresCalendar` | MoonPhase/PlanetSceneKit/SolarSystemCameraScene.swift:71 | the Moon's angle depends only on the captured age and the offset, not on the current instant or the calendar |
| `SolarSystemCamera.SolarSystemCameraScene.constructor` | MoonPhase/PlanetSceneKit/SolarSystemCameraScene.swift:24-46 | the initial age is the age now; the background is the overridable image; the orbit is resolved for offset 0; the camera ends in the uncentred Moon view with no animation |
| `SolarSystemCamera.SolarSystemCameraScene.MovePlanetsInSolarSystem` | MoonPhase/PlanetSceneKit/SolarSystemCameraScene.swift:56-74 | the stored date and angles are those of `Orbit.Resolve` for the captured age; the Moon age is re-read for the new date; the initial age, camera and background are untouched; `animated` changes nothing |
| `SolarSystemCamera.SolarSystemCameraScene.MoveCameraToMoonView` | MoonPhase/PlanetSceneKit/SolarSystemCameraScene.swift:76-93 | the transform is RotY(orbit)·Translate(0,0,-42)·RotY(moon+π)·Translate(0, centred ? -0.5 : -1, 0) in that order of multiplication; when animated, one animation from the old to the stored transform lasting 1 s centred or 0.5 s otherwise |
| `SolarSystemCamera.SolarSystemCameraScene.MoveCameraToFullView` | MoonPhase/PlanetSceneKit/SolarSystemCameraScene.swift:95-111 | the transform is RotY(orbit)·Translate(0,70,-34)·RotX(-π/2); when animated, one 1 s animation ending at the stored transform |
| `SolarSystemPlanets.MoonIllumination` | MoonPhase/PlanetSceneKit/SolarSystemPlanetScene.swift:55-61 | the folded illumination is 0 at ages 0 and 29.53059, within [0, 100] over the month, and 100 exactly at half a month |
| `SolarSystemPlanets.IlluminationIsSymmetric` | MoonPhase/PlanetSceneKit/SolarSystemPlanetScene.swift:56-60 | illumination(29.53059 − age) = illumination(age) |
| `SolarSystemPlanets.EarthNodeAngleMatchesDirectFormula` | MoonPhase/PlanetSceneKit/SolarSystemPlanetScene.swift:93 | −0.22 + π + the stored axial angle equals the single-file scene's direct Earth formula (ContentView.swift:186) |
| `SolarSystemPlanets.SunCounterRotates` | MoonPhase/PlanetSceneKit/SolarSystemPlanetScene.swift:71-113 | the Sun node's angle plus the solar-system pivot's angle is 0, about the same axis |
| `SolarSystemPlanets.SolarSystemPlanetScene.constructor` | MoonPhase/PlanetSceneKit/SolarSystemPlanetScene.swift:19-41 | the Earth system sits at z = −42, the camera's translation; after init the orbit is that of offset 0, the camera is in the Moon view, the Sun is hidden, the background is empty, nothing is animated or pending |
| `SolarSystemPlanets.SolarSystemPlanetScene.RotateNodes` | MoonPhase/PlanetSceneKit/SolarSystemPlanetScene.swift:71-113 | every node's stored rotation is its target whether or not animated; when animated, the pivots and the Earth each get one 1 s animation from their old rotation |
| `SolarSystemPlanets.SolarSystemPlanetScene.MovePlanetsInSolarSystem` | MoonPhase/PlanetSceneKit/SolarSystemPlanetScene.swift:67-114 | the camera scene's orbit update for the captured age, then the node rotations; when animated, one 1 s animation each for the solar-system pivot, the Earth-system pivot and the Earth, from the old rotation to the stored one; the Sun's opacity, the schedule and the camera are untouched |
| `SolarSystemPlanets.SolarSystemPlanetScene.MoveCameraToMoonView` | MoonPhase/PlanetSceneKit/SolarSystemPlanetScene.swift:116-128 | the camera scene's Moon view; Sun opacity 0 at once when not animated, else a closure scheduled 0.2 s later; once the closures this call scheduled have run, the Sun is hidden and the background empty; orbit, ages and nodes are untouched |
| `SolarSystemPlanets.SolarSystemPlanetScene.MoveCameraToFullView` | MoonPhase/PlanetSceneKit/SolarSystemPlanetScene.swift:130-142 | the camera scene's full view; Sun opacity 1 at once when not animated, else a closure scheduled 0.5 s later; the background stays empty; orbit, ages and nodes are untouched |
| `SolarSystemPlanets.SolarSystemPlanetScene.RunDue` | MoonPhase/PlanetSceneKit/SolarSystemPlanetScene.swift:122-137 | the main queue's turn: the Sun closures whose deadline has passed run earliest first, the others stay pending; the nodes are untouched |
| `SolarSystemPlanets.QuickReturnShowsSun` | MoonPhase/PlanetSceneKit/SolarSystemPlanetScene.swift:116-142 | a move to the Moon view less than 0.3 s after an animated move to the full view ends with the Sun shown, since the 0.2 s hide runs before the 0.5 s show |
| `Content.MoonIllumination` | MoonPhase/ContentView.swift:154-156 | the linear illumination: 0 at age 0, 100 at 29.53059, within [0, 100] in between |
| `Content.IlluminationVariantsDiffer` | MoonPhase/ContentView.swift:154-156 | the folded variant is twice the linear one while waxing and 200 minus twice it while waning |
| `Content.PlanetScene.constructor` | MoonPhase/ContentView.swift:107-144 | the Earth system sits at z = −36, the Moon view's translation; the scene starts in the Moon view for offset 0 with the Sun hidden, the background empty, nothing animated or pending |
| `Content.PlanetScene.MovePlanetsInSolarSystem` | MoonPhase/ContentView.swift:169-220 | the same truncating split and angles as `Orbit.Resolve`; the Earth node is at −0.22 + π + hour/24·2π − moon; the rotations reach their targets whether or not animated |
| `Content.PlanetScene.RotateNodes` | MoonPhase/ContentView.swift:188-219 | the pivots follow the stored angles; when animated, three 1 s rotation animations from the old rotations |
| `Content.PlanetScene.MoveCameraToMoonView` | MoonPhase/ContentView.swift:222-246 | the transform is RotY·Translate(0,0,-36)·RotY(moon+π)·Translate(0,-1,0); the background is cleared at once; Sun opacity 0 at once, or 0.5 s later when animated |
| `Content.PlanetScene.MoveCameraToFullView` | MoonPhase/ContentView.swift:248-277 | the transform is RotY·Translate(0,70,-30)·RotX(-π/2); stars and Sun at once, or stars after 1 s and the Sun after 0.5 s when animated; settled, both are shown |
| `Content.ContentView.constructor` | MoonPhase/ContentView.swift:14-16 | not expanded, offset 0; the scene's initial age is the age now, its orbit that of offset 0, in the Moon view with the Sun hidden, the background empty and nothing pending |
| `Content.ContentView.ToggleExpanded` | MoonPhase/ContentView.swift:30-36 | the due closures run, then `expanded` flips; the full-view move runs exactly when the old value was false, the Moon-view move otherwise, both animated, with their closures scheduled now; orbit, ages and nodes are untouched; the camera always shows the view `expanded` selects |
| `Content.ContentView.SlideDays` | MoonPhase/ContentView.swift:37-44 | within the slider's ±29.53059 range; a changed value recomputes the orbit for that offset and the captured age and re-places the camera for the current view, nothing animated or scheduled; an unchanged value changes nothing but the due closures; the captured age is kept |
| `Content.FullViewClosures` | MoonPhase/ContentView.swift:262-270 | an animated full view schedules the stars at 1 s and then the Sun at 0.5 s, so the Sun's closure is due first |
| `Content.MoonViewClosure` | MoonPhase/ContentView.swift:237-240 | an animated Moon view schedules the Sun hidden 0.5 s later |
| `Content.FullViewClosuresSettle` | MoonPhase/ContentView.swift:262-270 | whatever the state, once the full view's closures have run the Sun is shown over the stars |
| `Content.MoonViewClosureSettles` | MoonPhase/ContentView.swift:237-244 | once the Moon view's closure has run the Sun is hidden and the background untouched |
| `Content.PlanetScene.RunDue` | MoonPhase/ContentView.swift:237-270 | the main queue's turn: the closures whose deadline has passed run earliest first, the others stay pending; angles, ages, nodes and camera are untouched |
| `Content.QuickReturnKeepsStars` | MoonPhase/ContentView.swift:237-270 | a return to the Moon view less than 1 s after the full view settles to the stars shown and the Sun hidden |
| `Content.SlowReturnClearsStars` | MoonPhase/ContentView.swift:237-270 | a return 1 s or more after the full view settles to an empty background and the Sun hidden |
| `Content.ToggleToFullView` | MoonPhase/ContentView.swift:30-36 | a first toggle of a fresh view expands it and schedules the full view's two closures, with the Sun still hidden and no background |
| `Content.ToggleThereAndBack` | MoonPhase/ContentView.swift:30-36 | two toggles `gap` apart leave the view not expanded, the Moon view's closure after what is left of the full view's, and the background cleared |
| `Content.ToggleTwiceKeepsStars` | MoonPhase/ContentView.swift:263-265 | the background closure of a superseded full-view move is not cancelled: after two toggles within 1 s the settled Moon view shows the stars |
| `Content.SlowToggleClearsStars` | MoonPhase/ContentView.swift:244 | after two toggles 1 s or more apart the settled Moon view has no background |
| `Scene.NextToRun` | MoonPhase/ContentView.swift:263-270 | the closure the main queue runs next has the earliest deadline, and was scheduled first among those with that deadline |
| `Scene.RunUntil` | MoonPhase/ContentView.swift:263-270 | after the main queue's turn at t every closure still pending is due after t and was pending before; with no background closure pending the background is unchanged |
| `Scene.RunUntilKeepsLaterClosures` | MoonPhase/ContentView.swift:263-270 | a turn only removes closures, and keeps every closure not yet due, as often as it was pending |
| `Scene.RunUntilAllDue` | MoonPhase/ContentView.swift:263-270 | a turn at which every closure is due runs them all and leaves nothing pending |
| `Scene.RunUntilNoneDue` | MoonPhase/ContentView.swift:263-270 | a turn at which no closure is due changes nothing |
| `Scene.RunUntilKeepsOutcome` | MoonPhase/ContentView.swift:263-270 | running the due closures early does not change the state once all have run |
| `Scene.LastToRun` | MoonPhase/ContentView.swift:263-270 | the closure that runs last among those setting a property, and none exactly when no closure sets it |
| `Scene.LastToRunWins` | MoonPhase/ContentView.swift:263-270 | once every closure has run, the Sun's opacity and the background each show the value set by the last closure to run that sets it, and keep their value when none does |
| `Scene.SettleToLast` | MoonPhase/ContentView.swift:263-270 | given the closures that run last for each property, the settled state shows their values |
| `ViewSelector.Zone` | MoonPhase/CustomViews/ViewSelectorSlider.swift:55-76 | every x falls in one of the zones 0, 1, 2 |
| `ViewSelector.ZoneIsMonotone` | MoonPhase/CustomViews/ViewSelectorSlider.swift:55-76 | a touch further right never selects a zone further left |
| `ViewSelector.CirclePosition` | MoonPhase/CustomViews/ViewSelectorSlider.swift:32-35 | on a track at least 40 wide the circle's centre stays 20 (its radius) inside both ends |
| `ViewSelector.CircleLiesInItsZone` | MoonPhase/CustomViews/ViewSelectorSlider.swift:32-35 | on a track wider than 120, touching the circle's centre selects the value it shows |
| `ViewSelector.TapGateOpen` | MoonPhase/CustomViews/ViewSelectorSlider.swift:89 | a tap counts only if an earlier touch exists and was less than 5 s ago |
| `ViewSelector.ViewSelectorSlider.constructor` | MoonPhase/CustomViews/ViewSelectorSlider.swift:15-18 | value 0, not dragging, no earlier touch, nothing reported |
| `ViewSelector.ViewSelectorSlider.Select` | MoonPhase/CustomViews/ViewSelectorSlider.swift:55-76 | the value becomes the zone; the callback runs once with it exactly when it differs from the old value |
| `ViewSelector.ViewSelectorSlider.DragChanged` | MoonPhase/CustomViews/ViewSelectorSlider.swift:49-77 | marks the touch time and dragging, then selects the zone under the finger, reporting a change only |
| `ViewSelector.ViewSelectorSlider.DragEnded` | MoonPhase/CustomViews/ViewSelectorSlider.swift:44-48 | dragging ends; nothing else changes |
| `ViewSelector.ViewSelectorSlider.TapEnded` | MoonPhase/CustomViews/ViewSelectorSlider.swift:88-120 | selects the zone only when the gate is open, otherwise keeps value and reports; always records the touch time |
| `ViewSelector.FirstTapSelectsNothing` | MoonPhase/CustomViews/ViewSelectorSlider.swift:89 | a first tap, with no earlier touch, leaves value 0 and reports nothing |
| `Slingshot.IconWidth` | MoonPhase/CustomViews/SlingshotMultipleValueToggle.swift:56-57 | `w·(1 + 1/(n−1))/n` equals `w/(n−1)`, positive for a positive width |
| `Slingshot.IconOffset` | MoonPhase/CustomViews/SlingshotMultipleValueToggle.swift:107-109 | icon i sits at `i·w/(n−1)`; the selection circle for k uses the same offset (:58) |
| `Slingshot.IconsSpanTrack` | MoonPhase/CustomViews/SlingshotMultipleValueToggle.swift:105-113 | the first icon sits at 0 and the last at w |
| `Slingshot.DragDistance` | MoonPhase/CustomViews/SlingshotMultipleValueToggle.swift:73 | the drag distance is the finger's offset from the circle in half icon widths |
| `Slingshot.ClampDrag` | MoonPhase/CustomViews/SlingshotMultipleValueToggle.swift:75-80 | at index 0 the distance is never negative, at index n−1 never positive, elsewhere unchanged |
| `Slingshot.Step` | MoonPhase/CustomViews/SlingshotMultipleValueToggle.swift:86-90 | up exactly when d > 1, down exactly when d < −1, at most one step |
| `Slingshot.StepStaysOnIcons` | MoonPhase/CustomViews/SlingshotMultipleValueToggle.swift:75-90 | after a clamped drag the index stays in [0, n−1] |
| `Slingshot.LeftBulge` | MoonPhase/CustomViews/SlingshotMultipleValueToggle.swift:148 | the left bulge lies in [−h, 0] |
| `Slingshot.RightBulge` | MoonPhase/CustomViews/SlingshotMultipleValueToggle.swift:154 | the right bulge lies in [0, h] |
| `Slingshot.LeftBulgeIsClampedDrag` | MoonPhase/CustomViews/SlingshotMultipleValueToggle.swift:148 | the left bulge equals clamp(d·h, −h, 0) |
| `Slingshot.RightBulgeIsClampedDrag` | MoonPhase/CustomViews/SlingshotMultipleValueToggle.swift:154 | the right bulge equals clamp(d·h, 0, h) |
| `Slingshot.SlingshotMultipleValueToggle.constructor` | MoonPhase/CustomViews/SlingshotMultipleValueToggle.swift:12-25 | bound to a valid index; the shown value starts at 0 and the drag distance at 0 |
| `Slingshot.SlingshotMultipleValueToggle.SelectedValueChanged` | MoonPhase/CustomViews/SlingshotMultipleValueToggle.swift:38-42 | a changed selection is copied into `animatedValue` |
| `Slingshot.SlingshotMultipleValueToggle.DragChanged` | MoonPhase/CustomViews/SlingshotMultipleValueToggle.swift:72-91 | the stored distance is the clamped drag distance measured from the shown icon; the index takes one `Step` and stays on an icon (a `nat`, so the `UInt` never underflows) |
| `Slingshot.SlingshotMultipleValueToggle.DragEnded` | MoonPhase/CustomViews/SlingshotMultipleValueToggle.swift:67-71 | the drag distance returns to 0 |
| `Slingshot.SlingshotMultipleValueToggle.IconTapped` | MoonPhase/CustomViews/SlingshotMultipleValueToggle.swift:114-118 | tapping icon i (not the one shown) selects i |

## Left out

- Node, geometry, material and light construction (`createSun`, `createMoon`, `createEarth`) and the Sun's sine-driven colour action are not modelled: they are rendering and floating-point trigonometry. The Moon node's fixed rotation is left out with them.
- Matrix entries of `SCNMatrix4MakeRotation` and `SCNMatrix4Mult` are not computed. Transforms stay symbolic factor lists, and `Float` conversions of the angles are exact.
- `Calendar.current` date arithmetic and `ordinality` are not modelled. They are function-valued parameters. Within one call, the several `Date()` reads are taken as one instant `now`.
- MoonKit's `Moon` (age, phase, distance) is not modelled: it is a foreign library. The age comes from a parameter, so `moonPhase()`, `moonDistance()` and `displayingDate()`, which only return MoonKit's values or the stored date, are left out.
- Animation easing and interpolation are not modelled. Only durations and (from, to) values are recorded. The main queue's turns happen only where a caller runs `RunDue`; the widgets' own `withAnimation` delays are left out.
- The rotation animation added to the Sun node at SolarSystemPlanetScene.swift:105-112 is not recorded, because its `toValue` is the scalar `sunRotationAroundAxis` rather than a rotation vector. The stored Sun rotation at :113 is modelled.
- SwiftUI layout, gradients, animation modifiers, the `UIViewRepresentable` wrappers and gesture recognisers are not modelled. Touch coordinates, track widths and timestamps are inputs.
- IEEE rounding, and `Int()` trapping on NaN or overflow, are not modelled. The slider range keeps offsets far from both.
- The widgets' `onValueChanged` callback and `selectedValue` binding owner are outside the model. Calls to the callback are recorded in `reported`.
