/**
 * `ContentView.swift`: the single-file `PlanetScene` (an earlier variant
 * of the scene engine, with the Earth system 36 units from the Sun and a
 * background that is swapped with the view) and the `ContentView` that
 * drives it from its `expanded` flag and its `days` slider.
 */
module Content {
  import opened Orbit
  import opened Scene
  import SolarSystemPlanets

  /** How far the Earth system sits from the Sun along -z in this variant. */
  const EarthSystemDistance: real := 36.0

  /** `moonIllumination()` of this variant: the age as a share of the synodic month. */
  function MoonIllumination(age: real): (r: real)
    ensures 0.0 <= age <= SynodicMonth ==> 0.0 <= r <= 100.0
    ensures age == 0.0 ==> r == 0.0
    ensures age == SynodicMonth ==> r == 100.0
  {
    age / SynodicMonth * 100.0
  }

  /**
   * The two illumination formulas are distinct: on the waxing half the
   * folded one is twice the linear one, on the waning half it falls again.
   */
  lemma IlluminationVariantsDiffer(age: real)
    requires 0.0 <= age <= SynodicMonth
    ensures age <= SynodicMonth / 2.0 ==> SolarSystemPlanets.MoonIllumination(age) == 2.0 * MoonIllumination(age)
    ensures age > SynodicMonth / 2.0 ==> SolarSystemPlanets.MoonIllumination(age) == 200.0 - 2.0 * MoonIllumination(age)
  {
  }

  /** The closures an animated move to the full view schedules at `t`: the stars, then the Sun. */
  function FullViewClosures(t: Instant): (p: seq<Delayed>)
    ensures |p| == 2 && p[1].Deadline() < p[0].Deadline()
    ensures p[0].effect == SetBackground(StarsImage) && p[1].effect == SetSunOpacity(1.0)
  {
    [Delayed(t, 1.0, SetBackground(StarsImage)), Delayed(t, 0.5, SetSunOpacity(1.0))]
  }

  /** The closure an animated move to the Moon view schedules at `t`: hide the Sun. */
  function MoonViewClosure(t: Instant): (d: Delayed)
    ensures d.Deadline() == t + 0.5 && d.effect == SetSunOpacity(0.0)
  {
    Delayed(t, 0.5, SetSunOpacity(0.0))
  }

  /** Whatever the state, the full view's closures settle to the Sun shown over the stars. */
  lemma FullViewClosuresSettle(v: Visibility, t: Instant)
    ensures Settle(v, FullViewClosures(t)) == Visibility(1.0, StarsImage)
  {
    var p := FullViewClosures(t);
    SettleTwo(v, p[0], p[1]);
  }

  /** The Moon view's closure settles to the Sun hidden, the background untouched. */
  lemma MoonViewClosureSettles(v: Visibility, t: Instant)
    ensures Settle(v, [MoonViewClosure(t)]) == Visibility(0.0, v.background)
  {
    SettleOne(v, MoonViewClosure(t));
  }

  class PlanetScene {
    var earthRotationAroundSun: real
    var moonRotationAroundEarth: real

    var date: Instant
    /** `moonDetails.info.age`: the Moon's age at `date`. */
    var moonAge: real
    /** The Moon's age when the scene was built; never updated afterwards. */
    var initialMoonAge: real

    /** `earthSystem.position`. */
    const earthSystemPosition: (real, real, real)
    /** `solarSystem.rotation`, `earthSystem.rotation`, `earthNode.rotation`. */
    var solarSystemRotation: Rotation
    var earthSystemRotation: Rotation
    var earthRotation: Rotation
    /** `sunNode.opacity` and `background.contents`. */
    var sunOpacity: real
    var background: Background
    /** `cameraNode.transform`. */
    var cameraTransform: Transform
    var cameraAnimations: seq<TransformAnimation>
    var nodeAnimations: seq<RotationAnimation>
    /** Closures handed to `asyncAfter` that have not run yet, in the order they were scheduled. */
    var pending: seq<Delayed>
    /** The main queue's clock at its latest turn. */
    var clock: Instant

    /** The pivots always agree with the stored angles. */
    ghost predicate Valid()
      reads this
    {
      && solarSystemRotation == AboutY(earthRotationAroundSun)
      && earthSystemRotation == AboutY(moonRotationAroundEarth)
    }

    function Visible(): Visibility
      reads this`sunOpacity, this`background
    {
      Visibility(sunOpacity, background)
    }

    /** The camera transform of the Moon view for the stored angles. */
    function MoonView(): Transform
      reads this
    {
      [Translate(0.0, -1.0, 0.0), RotateY(moonRotationAroundEarth + Pi),
       Translate(0.0, 0.0, -EarthSystemDistance), RotateY(earthRotationAroundSun)]
    }

    /** The camera transform of the full view for the stored angles. */
    function FullView(): Transform
      reads this
    {
      [RotateX(-Pi / 2.0), Translate(0.0, 70.0, -30.0), RotateY(earthRotationAroundSun)]
    }

    /**
     * `init()`: capture the current instant and Moon age, resolve the orbit
     * for offset 0 and show the Moon view with the Sun hidden and no
     * background, none of it animated.
     */
    constructor (now: Instant, cal: Calendar, ageAt: MoonAgeSource)
      ensures Valid()
      ensures earthSystemPosition == (0.0, 0.0, -EarthSystemDistance)
      ensures initialMoonAge == ageAt(now)
      ensures var s := Resolve(now, 0.0, ageAt(now), cal);
        && date == s.date && earthRotationAroundSun == s.earthAroundSun && moonRotationAroundEarth == s.moonAroundEarth
        && earthRotation == AboutY(-0.22 + Pi + s.earthAroundAxis)
      ensures moonAge == ageAt(date)
      ensures cameraTransform == MoonView() && sunOpacity == 0.0 && background == NoImage
      ensures cameraAnimations == [] && nodeAnimations == [] && pending == [] && clock == now
    {
      earthRotationAroundSun, moonRotationAroundEarth := 0.0, 0.0;
      earthSystemPosition := (0.0, 0.0, -36.0);
      solarSystemRotation, earthSystemRotation, earthRotation := NoRotation, NoRotation, NoRotation;
      sunOpacity, background := 1.0, NoImage;
      cameraTransform := Identity;
      cameraAnimations, nodeAnimations, pending := [], [], [];
      clock := now;
      date := now;
      moonAge := ageAt(now);
      initialMoonAge := ageAt(now);
      new;
      MovePlanetsInSolarSystem(0.0, false, now, cal, ageAt);
      MoveCameraToMoonView(false);
    }

    /**
     * `movePlanetsInSolarSystem(addedTime:animated:)`: show the instant
     * `addedTime` days away from `now` and turn the nodes to match.
     */
    method MovePlanetsInSolarSystem(addedTime: real, animated: bool, now: Instant, cal: Calendar, ageAt: MoonAgeSource)
      modifies this`date, this`moonAge, this`earthRotationAroundSun, this`moonRotationAroundEarth,
        this`solarSystemRotation, this`earthSystemRotation, this`earthRotation, this`nodeAnimations
      ensures Valid()
      ensures var s := Resolve(now, addedTime, old(initialMoonAge), cal);
        && date == s.date && earthRotationAroundSun == s.earthAroundSun && moonRotationAroundEarth == s.moonAroundEarth
        && earthRotation == AboutY(-0.22 + Pi + s.earthAroundAxis)
      ensures earthRotation == AboutY(EarthNodeAngle(Ordinal(cal.hourOfDay(date)), moonRotationAroundEarth))
      ensures moonAge == ageAt(date) && initialMoonAge == old(initialMoonAge)
      ensures nodeAnimations == old(nodeAnimations) + if animated then
        [ RotationAnimation(SolarSystemPivot, old(solarSystemRotation), solarSystemRotation, 1.0),
          RotationAnimation(EarthSystemPivot, old(earthSystemRotation), earthSystemRotation, 1.0),
          RotationAnimation(EarthBody, old(earthRotation), earthRotation, 1.0) ]
        else []
      ensures Visible() == old(Visible()) && pending == old(pending) && clock == old(clock)
      ensures cameraTransform == old(cameraTransform) && cameraAnimations == old(cameraAnimations)
    {
      var extraDay := Trunc(addedTime);
      var extraHour := Trunc((addedTime - extraDay as real) * 24.0);

      var todayAddedDay := cal.addDays(now, extraDay).GetOr(now);
      var todayAddedDayAndHour := cal.addHours(todayAddedDay, extraHour).GetOr(now);

      var day := Ordinal(cal.dayOfYear(todayAddedDayAndHour));
      var hour := Ordinal(cal.hourOfDay(todayAddedDayAndHour));

      date := todayAddedDayAndHour;
      moonAge := ageAt(date);

      earthRotationAroundSun := day / DaysPerYear * 2.0 * Pi;
      moonRotationAroundEarth := (initialMoonAge + addedTime) / SynodicMonth * 2.0 * Pi;

      var earthAngle := -0.22 + Pi + hour / 24.0 * 2.0 * Pi - moonRotationAroundEarth;
      ghost var s := Resolve(now, addedTime, initialMoonAge, cal);
      assert date == s.date && hour == Ordinal(cal.hourOfDay(s.date));
      assert earthAngle == EarthNodeAngle(hour, moonRotationAroundEarth) == -0.22 + Pi + s.earthAroundAxis;

      RotateNodes(earthAngle, animated);
    }

    /** The node half of `movePlanetsInSolarSystem`: turn the pivots and the Earth. */
    method RotateNodes(earthAngle: real, animated: bool)
      modifies this`solarSystemRotation, this`earthSystemRotation, this`earthRotation, this`nodeAnimations
      ensures Valid() && earthRotation == AboutY(earthAngle)
      ensures nodeAnimations == old(nodeAnimations) + if animated then
        [ RotationAnimation(SolarSystemPivot, old(solarSystemRotation), solarSystemRotation, 1.0),
          RotationAnimation(EarthSystemPivot, old(earthSystemRotation), earthSystemRotation, 1.0),
          RotationAnimation(EarthBody, old(earthRotation), earthRotation, 1.0) ]
        else []
      ensures earthRotationAroundSun == old(earthRotationAroundSun) && moonRotationAroundEarth == old(moonRotationAroundEarth)
      ensures date == old(date) && moonAge == old(moonAge) && initialMoonAge == old(initialMoonAge)
      ensures Visible() == old(Visible()) && pending == old(pending) && clock == old(clock)
      ensures cameraTransform == old(cameraTransform) && cameraAnimations == old(cameraAnimations)
    {
      var solarSystemTarget := AboutY(earthRotationAroundSun);
      if animated {
        nodeAnimations := nodeAnimations + [RotationAnimation(SolarSystemPivot, solarSystemRotation, solarSystemTarget, 1.0)];
      }
      solarSystemRotation := solarSystemTarget;

      var earthSystemTarget := AboutY(moonRotationAroundEarth);
      if animated {
        nodeAnimations := nodeAnimations + [RotationAnimation(EarthSystemPivot, earthSystemRotation, earthSystemTarget, 1.0)];
      }
      earthSystemRotation := earthSystemTarget;

      var earthTarget := AboutY(earthAngle);
      if animated {
        nodeAnimations := nodeAnimations + [RotationAnimation(EarthBody, earthRotation, earthTarget, 1.0)];
      }
      earthRotation := earthTarget;
    }

    /**
     * `moveCameraToMoonView(animated:)`: the background is cleared at once;
     * the Sun is hidden at once, or 0.5 s into an animated move.
     */
    method MoveCameraToMoonView(animated: bool)
      requires Valid()
      modifies this`cameraTransform, this`cameraAnimations, this`pending, this`sunOpacity, this`background
      ensures Valid()
      ensures cameraTransform == MoonView()
      ensures cameraAnimations == old(cameraAnimations)
        + if animated then [TransformAnimation(old(cameraTransform), cameraTransform, 1.0)] else []
      ensures background == NoImage
      ensures animated ==> sunOpacity == old(sunOpacity) && pending == old(pending) + [MoonViewClosure(clock)]
      ensures !animated ==> sunOpacity == 0.0 && pending == old(pending)
      ensures earthRotationAroundSun == old(earthRotationAroundSun) && moonRotationAroundEarth == old(moonRotationAroundEarth)
      ensures date == old(date) && moonAge == old(moonAge) && initialMoonAge == old(initialMoonAge)
      ensures earthRotation == old(earthRotation) && nodeAnimations == old(nodeAnimations) && clock == old(clock)
    {
      var transform := Mult(RotateY(earthRotationAroundSun), Identity);
      transform := Mult(Translate(0.0, 0.0, -36.0), transform);
      transform := Mult(RotateY(moonRotationAroundEarth + Pi), transform);
      transform := Mult(Translate(0.0, -1.0, 0.0), transform);

      if animated {
        cameraAnimations := cameraAnimations + [TransformAnimation(cameraTransform, transform, 1.0)];
        pending := pending + [Delayed(clock, 0.5, SetSunOpacity(0.0))];
      } else {
        sunOpacity := 0.0;
      }
      background := NoImage;
      cameraTransform := transform;
    }

    /**
     * `moveCameraToFullView(animated:)`: the Sun is shown and the star
     * background restored, at once, or 0.5 s and 1 s into an animated move.
     */
    method MoveCameraToFullView(animated: bool)
      requires Valid()
      modifies this`cameraTransform, this`cameraAnimations, this`pending, this`sunOpacity, this`background
      ensures Valid()
      ensures cameraTransform == FullView()
      ensures cameraAnimations == old(cameraAnimations)
        + if animated then [TransformAnimation(old(cameraTransform), cameraTransform, 1.0)] else []
      ensures animated ==> (sunOpacity == old(sunOpacity) && background == old(background)
        && pending == old(pending) + FullViewClosures(clock))
      ensures !animated ==> sunOpacity == 1.0 && background == StarsImage && pending == old(pending)
      ensures earthRotationAroundSun == old(earthRotationAroundSun) && moonRotationAroundEarth == old(moonRotationAroundEarth)
      ensures date == old(date) && moonAge == old(moonAge) && initialMoonAge == old(initialMoonAge)
      ensures earthRotation == old(earthRotation) && nodeAnimations == old(nodeAnimations) && clock == old(clock)
    {
      var transform := Mult(RotateY(earthRotationAroundSun), Identity);
      transform := Mult(Translate(0.0, 70.0, -30.0), transform);
      transform := Mult(RotateX(-Pi / 2.0), transform);
      assert transform == FullView();

      if animated {
        cameraAnimations := cameraAnimations + [TransformAnimation(cameraTransform, transform, 1.0)];
        pending := pending + [Delayed(clock, 1.0, SetBackground(StarsImage))];
        pending := pending + [Delayed(clock, 0.5, SetSunOpacity(1.0))];
        assert pending == old(pending) + FullViewClosures(clock);
      } else {
        background := StarsImage;
        sunOpacity := 1.0;
      }

      cameraTransform := transform;
    }

    /**
     * The main queue's turn at `now`: the closures whose deadline has
     * passed run, earliest deadline first; the others stay scheduled.
     */
    method RunDue(now: Instant)
      requires Valid() && clock <= now
      modifies this`sunOpacity, this`background, this`pending, this`clock
      ensures Valid() && clock == now && DueAfter(pending, now)
      ensures (Visible(), pending) == RunUntil(old(Visible()), old(pending), now)
      ensures earthRotationAroundSun == old(earthRotationAroundSun) && moonRotationAroundEarth == old(moonRotationAroundEarth)
      ensures date == old(date) && moonAge == old(moonAge) && initialMoonAge == old(initialMoonAge)
      ensures earthRotation == old(earthRotation) && nodeAnimations == old(nodeAnimations)
      ensures cameraTransform == old(cameraTransform) && cameraAnimations == old(cameraAnimations)
    {
      var r := RunUntil(Visible(), pending, now);
      sunOpacity, background, pending := r.0.sunOpacity, r.0.background, r.1;
      clock := now;
      assert Visible() == r.0;
    }
  }

  /** The days slider's range: one synodic month either way. */
  ghost predicate InSliderRange(days: real)
  {
    -SynodicMonth <= days <= SynodicMonth
  }

  class ContentView {
    const scene: PlanetScene
    /** `@State expanded`: the full view is selected. */
    var expanded: bool
    /** `@State days`: the slider's day offset. */
    var days: real

    /** The camera always shows the view `expanded` selects. */
    ghost predicate Valid()
      reads this, scene
    {
      && scene.Valid()
      && InSliderRange(days)
      && scene.cameraTransform == if expanded then scene.FullView() else scene.MoonView()
    }

    /** The view's `@StateObject` scene is built with the view: the Moon view at offset 0. */
    constructor (now: Instant, cal: Calendar, ageAt: MoonAgeSource)
      ensures Valid() && fresh(scene)
      ensures !expanded && days == 0.0
      ensures scene.initialMoonAge == ageAt(now) && scene.moonAge == ageAt(scene.date)
      ensures var s := Resolve(now, 0.0, ageAt(now), cal);
        && scene.date == s.date && scene.earthRotationAroundSun == s.earthAroundSun
        && scene.moonRotationAroundEarth == s.moonAroundEarth
        && scene.earthRotation == AboutY(-0.22 + Pi + s.earthAroundAxis)
      ensures scene.earthSystemPosition == (0.0, 0.0, -EarthSystemDistance)
      ensures scene.sunOpacity == 0.0 && scene.background == NoImage
      ensures scene.pending == [] && scene.clock == now
      ensures scene.cameraAnimations == [] && scene.nodeAnimations == []
    {
      scene := new PlanetScene(now, cal, ageAt);
      expanded := false;
      days := 0.0;
    }

    /**
     * The button toggles `expanded` at instant `now`, once the main queue
     * has run the closures due by then; `onChange(of: expanded)` then runs
     * the full-view move when the old value was false and the Moon-view
     * move otherwise, both animated.
     */
    method ToggleExpanded(now: Instant)
      requires Valid() && scene.clock <= now
      modifies this, scene
      ensures Valid() && scene.clock == now
      ensures expanded == !old(expanded) && days == old(days)
      ensures scene.cameraAnimations == old(scene.cameraAnimations) + [TransformAnimation(old(scene.cameraTransform), scene.cameraTransform, 1.0)]
      ensures var r := RunUntil(old(scene.Visible()), old(scene.pending), now);
        && (old(expanded) ==> (scene.pending == r.1 + [MoonViewClosure(now)]
              && scene.Visible() == Visibility(r.0.sunOpacity, NoImage)))
        && (!old(expanded) ==> (scene.pending == r.1 + FullViewClosures(now)
              && scene.Visible() == r.0))
      ensures scene.date == old(scene.date) && scene.earthRotationAroundSun == old(scene.earthRotationAroundSun)
      ensures scene.moonRotationAroundEarth == old(scene.moonRotationAroundEarth) && scene.earthRotation == old(scene.earthRotation)
      ensures scene.moonAge == old(scene.moonAge) && scene.initialMoonAge == old(scene.initialMoonAge)
      ensures scene.nodeAnimations == old(scene.nodeAnimations)
    {
      scene.RunDue(now);
      var oldValue := expanded;
      expanded := !expanded;
      if oldValue {
        scene.MoveCameraToMoonView(true);
      } else {
        scene.MoveCameraToFullView(true);
      }
    }

    /**
     * The slider sets `days` at instant `now`, once the main queue has run
     * the closures due by then; when the value changed, `onChange(of: days)`
     * resolves the orbit for the new offset and re-places the camera for the
     * current view, none of it animated.
     */
    method SlideDays(newValue: real, now: Instant, cal: Calendar, ageAt: MoonAgeSource)
      requires Valid() && InSliderRange(newValue) && scene.clock <= now
      modifies this, scene
      ensures Valid() && scene.clock == now
      ensures days == newValue && expanded == old(expanded)
      ensures scene.initialMoonAge == old(scene.initialMoonAge)
      ensures var r := RunUntil(old(scene.Visible()), old(scene.pending), now);
        && scene.pending == r.1
        && (newValue == old(days) ==> scene.Visible() == r.0)
        && (newValue != old(days) ==>
              scene.Visible() == (if expanded then Visibility(1.0, StarsImage) else Visibility(0.0, NoImage)))
      ensures newValue != old(days) ==>
        var s := Resolve(now, newValue, old(scene.initialMoonAge), cal);
        && scene.date == s.date
        && scene.earthRotationAroundSun == s.earthAroundSun
        && scene.moonRotationAroundEarth == s.moonAroundEarth
        && scene.earthRotation == AboutY(-0.22 + Pi + s.earthAroundAxis)
        && scene.moonAge == ageAt(scene.date)
      ensures newValue == old(days) ==> (scene.date == old(scene.date) && scene.moonAge == old(scene.moonAge)
        && scene.earthRotationAroundSun == old(scene.earthRotationAroundSun)
        && scene.moonRotationAroundEarth == old(scene.moonRotationAroundEarth)
        && scene.earthRotation == old(scene.earthRotation)
        && scene.cameraTransform == old(scene.cameraTransform))
      ensures scene.cameraAnimations == old(scene.cameraAnimations) && scene.nodeAnimations == old(scene.nodeAnimations)
    {
      scene.RunDue(now);
      if newValue != days {
        days := newValue;
        scene.MovePlanetsInSolarSystem(newValue, false, now, cal, ageAt);
        if expanded {
          scene.MoveCameraToFullView(false);
        } else {
          scene.MoveCameraToMoonView(false);
        }
      }
    }
  }

  /**
   * A return to the Moon view less than 1 s after the move to the full
   * view: the star closure is still scheduled and runs after the Moon view
   * cleared the background, while the Sun ends hidden.
   */
  lemma QuickReturnKeepsStars(v: Visibility, now: Instant, gap: real)
    requires 0.0 <= gap < 1.0
    ensures var r := RunUntil(v, FullViewClosures(now), now + gap);
      Settle(Visibility(r.0.sunOpacity, NoImage), r.1 + [MoonViewClosure(now + gap)]) == Visibility(0.0, StarsImage)
  {
    if gap < 0.5 {
      NoClosureDueYet(v, now, gap);
    } else {
      SunClosureDueOnly(v, now, gap);
    }
  }

  /** Less than 0.5 s after the full view's move neither of its closures has run. */
  lemma NoClosureDueYet(v: Visibility, now: Instant, gap: real)
    requires 0.0 <= gap < 0.5
    ensures var r := RunUntil(v, FullViewClosures(now), now + gap);
      Settle(Visibility(r.0.sunOpacity, NoImage), r.1 + [MoonViewClosure(now + gap)]) == Visibility(0.0, StarsImage)
  {
    var p, t := FullViewClosures(now), now + gap;
    RunUntilNoneDue(v, p, t);
    var q := p + [MoonViewClosure(t)];
    SettleToLast(Visibility(v.sunOpacity, NoImage), q, 2, 0);
  }

  /** Between 0.5 s and 1 s after the full view's move only its Sun closure has run. */
  lemma SunClosureDueOnly(v: Visibility, now: Instant, gap: real)
    requires 0.5 <= gap < 1.0
    ensures var r := RunUntil(v, FullViewClosures(now), now + gap);
      Settle(Visibility(r.0.sunOpacity, NoImage), r.1 + [MoonViewClosure(now + gap)]) == Visibility(0.0, StarsImage)
  {
    var p, t := FullViewClosures(now), now + gap;
    assert NextToRun(p) == 1 && Without(p, 1) == [p[0]];
    RunUntilNoneDue(Apply(v, p[1].effect), [p[0]], t);
    var q := [p[0], MoonViewClosure(t)];
    SettleToLast(Visibility(1.0, NoImage), q, 1, 0);
  }

  /**
   * A return to the Moon view 1 s or more after the move to the full view:
   * both closures have run, and the Moon view's cleared background stays.
   */
  lemma SlowReturnClearsStars(v: Visibility, now: Instant, gap: real)
    requires 1.0 <= gap
    ensures var r := RunUntil(v, FullViewClosures(now), now + gap);
      Settle(Visibility(r.0.sunOpacity, NoImage), r.1 + [MoonViewClosure(now + gap)]) == Visibility(0.0, NoImage)
  {
    var p := FullViewClosures(now);
    RunUntilAllDue(v, p, now + gap);
    SettleOne(Visibility(Settle(v, p).sunOpacity, NoImage), MoonViewClosure(now + gap));
  }

  /** A fresh view toggled to the full view at `now`: both of its closures are pending. */
  method ToggleToFullView(now: Instant, cal: Calendar, ageAt: MoonAgeSource) returns (view: ContentView)
    ensures fresh(view) && fresh(view.scene)
    ensures view.Valid() && view.expanded && view.scene.clock == now
    ensures view.scene.pending == FullViewClosures(now)
    ensures view.scene.Visible() == Visibility(0.0, NoImage)
  {
    view := new ContentView(now, cal, ageAt);
    RunUntilNoneDue(view.scene.Visible(), [], now);
    view.ToggleExpanded(now);
  }

  /**
   * A fresh view toggled to the full view at `now` and back `gap` later:
   * what is left of the full view's closures, plus the Moon view's own.
   */
  method ToggleThereAndBack(now: Instant, gap: real, cal: Calendar, ageAt: MoonAgeSource) returns (view: ContentView)
    requires 0.0 <= gap
    ensures view.Valid() && !view.expanded
    ensures var r := RunUntil(Visibility(0.0, NoImage), FullViewClosures(now), now + gap);
      && view.scene.pending == r.1 + [MoonViewClosure(now + gap)]
      && view.scene.Visible() == Visibility(r.0.sunOpacity, NoImage)
  {
    view := ToggleToFullView(now, cal, ageAt);
    view.ToggleExpanded(now + gap);
  }

  /**
   * Toggling to the full view and back within 1 s: nothing cancels the star
   * background scheduled 1 s after the first toggle, so it runs after the
   * Moon view has cleared the background, and the settled Moon view shows
   * the stars with the Sun hidden.
   */
  method ToggleTwiceKeepsStars(now: Instant, gap: real, cal: Calendar, ageAt: MoonAgeSource) returns (settled: Visibility, expanded: bool)
    requires 0.0 <= gap < 1.0
    ensures !expanded
    ensures settled == Visibility(0.0, StarsImage)
  {
    var view := ToggleThereAndBack(now, gap, cal, ageAt);
    QuickReturnKeepsStars(Visibility(0.0, NoImage), now, gap);
    expanded := view.expanded;
    settled := Settle(view.scene.Visible(), view.scene.pending);
  }

  /**
   * Toggling back after the full view's closures have all run: the Moon
   * view clears the background for good, and the settled Moon view shows
   * neither the stars nor the Sun.
   */
  method SlowToggleClearsStars(now: Instant, gap: real, cal: Calendar, ageAt: MoonAgeSource) returns (settled: Visibility, expanded: bool)
    requires 1.0 <= gap
    ensures !expanded
    ensures settled == Visibility(0.0, NoImage)
  {
    var view := ToggleThereAndBack(now, gap, cal, ageAt);
    SlowReturnClearsStars(Visibility(0.0, NoImage), now, gap);
    expanded := view.expanded;
    settled := Settle(view.scene.Visible(), view.scene.pending);
  }
}
