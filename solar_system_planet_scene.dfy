/**
 * `SolarSystemPlanetScene`: the camera scene extended with the Sun, the
 * Earth and the Moon. The solar-system pivot holds the Sun and the
 * Earth-system pivot; the Earth-system pivot holds the Earth and the Moon.
 * The extension is modelled as a scene that wraps a
 * `SolarSystemCameraScene` (`camera`), calling it where the Swift
 * overrides call `super`.
 */
module SolarSystemPlanets {
  import opened Orbit
  import opened Scene
  import opened SolarSystemCamera

  /**
   * `moonIllumination()`: the Moon's age as a fraction of half a synodic
   * month, folded back once it passes 1, as a percentage.
   */
  function MoonIllumination(age: real): (r: real)
    ensures 0.0 <= age <= SynodicMonth ==> 0.0 <= r <= 100.0
    ensures 0.0 <= age <= SynodicMonth ==> (r == 100.0 <==> age == SynodicMonth / 2.0)
    ensures age == 0.0 || age == SynodicMonth ==> r == 0.0
  {
    var moonAge := age / (SynodicMonth / 2.0);
    var folded := if moonAge > 1.0 then 2.0 - moonAge else moonAge;
    folded * 100.0
  }

  /** Waxing and waning ages the same distance from new moon are equally lit. */
  lemma IlluminationIsSymmetric(age: real)
    ensures MoonIllumination(SynodicMonth - age) == MoonIllumination(age)
  {
  }

  /** The Earth node's angle equals the direct formula of the single-file scene. */
  lemma EarthNodeAngleMatchesDirectFormula(now: Instant, addedTime: real, initialMoonAge: real, cal: Calendar)
    ensures var s := Resolve(now, addedTime, initialMoonAge, cal);
      -0.22 + Pi + s.earthAroundAxis == EarthNodeAngle(Ordinal(cal.hourOfDay(s.date)), s.moonAroundEarth)
  {
  }

  class SolarSystemPlanetScene {
    const camera: SolarSystemCameraScene
    /** `earthSystem.position`. */
    const earthSystemPosition: (real, real, real)

    /** `solarSystem.rotation`, `earthSystem.rotation`, `earthNode.rotation`, `sunNode.rotation`. */
    var solarSystemRotation: Rotation
    var earthSystemRotation: Rotation
    var earthRotation: Rotation
    var sunRotation: Rotation
    /** `sunNode.opacity`. */
    var sunOpacity: real
    /** Rotation animations added to the nodes, oldest first. */
    var nodeAnimations: seq<RotationAnimation>
    /** Closures handed to `asyncAfter` that have not run yet, in the order they were scheduled. */
    var pending: seq<Delayed>
    /** The main queue's clock at its latest turn. */
    var clock: Instant

    /** Every closure still scheduled is due after the latest turn and only sets the Sun's opacity. */
    ghost predicate Queued()
      reads this`pending, this`clock
    {
      && DueAfter(pending, clock)
      && forall d :: d in pending ==> d.effect.SetSunOpacity?
    }

    /**
     * The node rotations always agree with the camera scene's angles, and
     * the background stays empty.
     */
    ghost predicate Valid()
      reads this, camera
    {
      && camera.Valid()
      && camera.background == NoImage
      && Queued()
      && solarSystemRotation == AboutY(camera.earthRotationAroundSun)
      && earthSystemRotation == AboutY(camera.moonRotationAroundEarth)
      && earthRotation == AboutY(-0.22 + Pi + camera.earthRotationAroundAxis)
      && sunRotation == AboutY(camera.sunRotationAroundAxis)
    }

    function Visible(): Visibility
      reads this`sunOpacity, camera`background
    {
      Visibility(sunOpacity, camera.background)
    }

    /** The four node rotations, as one value. */
    function Rotations(): (Rotation, Rotation, Rotation, Rotation)
      reads this
    {
      (solarSystemRotation, earthSystemRotation, earthRotation, sunRotation)
    }

    /**
     * `init()`. The camera scene's initialiser dispatches to the overrides
     * below, so its `movePlanetsInSolarSystem()` also rotates the nodes and
     * its `moveCameraToMoonView()` also hides the Sun; then the orbit is
     * resolved once more.
     */
    constructor (now: Instant, cal: Calendar, ageAt: MoonAgeSource)
      ensures Valid() && fresh(camera)
      ensures camera.initialMoonAge == ageAt(now)
      ensures camera.Orbit() == Resolve(now, 0.0, ageAt(now), cal)
      ensures earthSystemPosition == (0.0, 0.0, -EarthSystemDistance)
      ensures camera.cameraTransform == [Translate(0.0, -1.0, 0.0), RotateY(camera.moonRotationAroundEarth + Pi),
                                         Translate(0.0, 0.0, -EarthSystemDistance), RotateY(camera.earthRotationAroundSun)]
      ensures sunOpacity == 0.0 && camera.background == NoImage
      ensures camera.cameraAnimations == [] && nodeAnimations == [] && pending == [] && clock == now
    {
      earthSystemPosition := (0.0, 0.0, -42.0);
      solarSystemRotation, earthSystemRotation := NoRotation, NoRotation;
      earthRotation, sunRotation := NoRotation, NoRotation;
      sunOpacity := 1.0;
      nodeAnimations, pending := [], [];
      clock := now;
      camera := new SolarSystemCameraScene(NoImage, now, cal, ageAt);
      new;
      RotateNodes(false);
      sunOpacity := 0.0;
      MovePlanetsInSolarSystem(0.0, false, now, cal, ageAt);
    }

    /** The node half of `movePlanetsInSolarSystem`: turn every node to the stored angles. */
    method RotateNodes(animated: bool)
      requires camera.Valid() && camera.background == NoImage && Queued()
      modifies this`solarSystemRotation, this`earthSystemRotation, this`earthRotation, this`sunRotation, this`nodeAnimations
      ensures Valid()
      ensures nodeAnimations == old(nodeAnimations) + if animated then
        [ RotationAnimation(SolarSystemPivot, old(solarSystemRotation), solarSystemRotation, 1.0),
          RotationAnimation(EarthSystemPivot, old(earthSystemRotation), earthSystemRotation, 1.0),
          RotationAnimation(EarthBody, old(earthRotation), earthRotation, 1.0) ]
        else []
      ensures sunOpacity == old(sunOpacity) && pending == old(pending) && clock == old(clock)
    {
      var solarSystemTarget := AboutY(camera.earthRotationAroundSun);
      if animated {
        nodeAnimations := nodeAnimations + [RotationAnimation(SolarSystemPivot, solarSystemRotation, solarSystemTarget, 1.0)];
      }
      solarSystemRotation := solarSystemTarget;

      var earthSystemTarget := AboutY(camera.moonRotationAroundEarth);
      if animated {
        nodeAnimations := nodeAnimations + [RotationAnimation(EarthSystemPivot, earthSystemRotation, earthSystemTarget, 1.0)];
      }
      earthSystemRotation := earthSystemTarget;

      var earthTarget := AboutY(-0.22 + Pi + camera.earthRotationAroundAxis);
      if animated {
        nodeAnimations := nodeAnimations + [RotationAnimation(EarthBody, earthRotation, earthTarget, 1.0)];
      }
      earthRotation := earthTarget;

      sunRotation := AboutY(camera.sunRotationAroundAxis);
    }

    /** `movePlanetsInSolarSystem(addedTime:animated:)`. */
    method MovePlanetsInSolarSystem(addedTime: real, animated: bool, now: Instant, cal: Calendar, ageAt: MoonAgeSource)
      requires Valid()
      modifies camera, this`solarSystemRotation, this`earthSystemRotation, this`earthRotation, this`sunRotation, this`nodeAnimations
      ensures Valid()
      ensures camera.Orbit() == Resolve(now, addedTime, old(camera.initialMoonAge), cal)
      ensures camera.moonAge == ageAt(camera.date) && camera.initialMoonAge == old(camera.initialMoonAge)
      ensures camera.cameraTransform == old(camera.cameraTransform) && camera.cameraAnimations == old(camera.cameraAnimations)
      ensures sunOpacity == old(sunOpacity) && pending == old(pending) && clock == old(clock)
      ensures nodeAnimations == old(nodeAnimations) + if animated then
        [ RotationAnimation(SolarSystemPivot, old(solarSystemRotation), solarSystemRotation, 1.0),
          RotationAnimation(EarthSystemPivot, old(earthSystemRotation), earthSystemRotation, 1.0),
          RotationAnimation(EarthBody, old(earthRotation), earthRotation, 1.0) ]
        else []
    {
      camera.MovePlanetsInSolarSystem(addedTime, animated, now, cal, ageAt);
      RotateNodes(animated);
    }

    /**
     * `moveCameraToMoonView(animated:centered:)`: the Sun is hidden at once,
     * or 0.2 s into an animated move while the camera looks away.
     */
    method MoveCameraToMoonView(animated: bool, centered: bool)
      requires Valid()
      modifies camera, this`pending, this`sunOpacity
      ensures Valid()
      ensures camera.cameraTransform == [Translate(0.0, if centered then -0.5 else -1.0, 0.0), RotateY(camera.moonRotationAroundEarth + Pi),
                                         Translate(0.0, 0.0, -EarthSystemDistance), RotateY(camera.earthRotationAroundSun)]
      ensures camera.cameraAnimations == old(camera.cameraAnimations)
        + if animated then [TransformAnimation(old(camera.cameraTransform), camera.cameraTransform, if centered then 1.0 else 0.5)] else []
      ensures camera.Orbit() == old(camera.Orbit()) && camera.moonAge == old(camera.moonAge)
      ensures camera.initialMoonAge == old(camera.initialMoonAge)
      ensures Rotations() == old(Rotations()) && nodeAnimations == old(nodeAnimations) && clock == old(clock)
      ensures animated ==> sunOpacity == old(sunOpacity) && pending == old(pending) + [Delayed(clock, 0.2, SetSunOpacity(0.0))]
      ensures !animated ==> sunOpacity == 0.0 && pending == old(pending)
      ensures Settle(Visible(), pending[|old(pending)|..]) == Visibility(0.0, NoImage)
    {
      camera.MoveCameraToMoonView(animated, centered);
      if animated {
        DueAfterAppend(pending, [Delayed(clock, 0.2, SetSunOpacity(0.0))], clock);
        pending := pending + [Delayed(clock, 0.2, SetSunOpacity(0.0))];
      } else {
        sunOpacity := 0.0;
      }
    }

    /**
     * `moveCameraToFullView(animated:)`: the Sun is shown at once, or 0.5 s
     * into an animated move.
     */
    method MoveCameraToFullView(animated: bool)
      requires Valid()
      modifies camera, this`pending, this`sunOpacity
      ensures Valid()
      ensures camera.cameraTransform == [RotateX(-Pi / 2.0), Translate(0.0, 70.0, -34.0), RotateY(camera.earthRotationAroundSun)]
      ensures camera.cameraAnimations == old(camera.cameraAnimations)
        + if animated then [TransformAnimation(old(camera.cameraTransform), camera.cameraTransform, 1.0)] else []
      ensures camera.Orbit() == old(camera.Orbit()) && camera.moonAge == old(camera.moonAge)
      ensures camera.initialMoonAge == old(camera.initialMoonAge)
      ensures Rotations() == old(Rotations()) && nodeAnimations == old(nodeAnimations) && clock == old(clock)
      ensures animated ==> sunOpacity == old(sunOpacity) && pending == old(pending) + [Delayed(clock, 0.5, SetSunOpacity(1.0))]
      ensures !animated ==> sunOpacity == 1.0 && pending == old(pending)
      ensures Settle(Visible(), pending[|old(pending)|..]) == Visibility(1.0, NoImage)
    {
      camera.MoveCameraToFullView(animated);
      if animated {
        DueAfterAppend(pending, [Delayed(clock, 0.5, SetSunOpacity(1.0))], clock);
        pending := pending + [Delayed(clock, 0.5, SetSunOpacity(1.0))];
      } else {
        sunOpacity := 1.0;
      }
    }

    /**
     * The main queue's turn at `now`: the closures whose deadline has
     * passed run, earliest deadline first; the others stay scheduled.
     */
    method RunDue(now: Instant)
      requires Valid() && clock <= now
      modifies this`sunOpacity, this`pending, this`clock
      ensures Valid() && clock == now
      ensures (Visible(), pending) == RunUntil(old(Visible()), old(pending), now)
      ensures Rotations() == old(Rotations()) && nodeAnimations == old(nodeAnimations)
    {
      var r := RunUntil(Visible(), pending, now);
      RunUntilKeepsLaterClosures(Visible(), pending, now);
      assert forall d :: d in r.1 ==> d in pending;
      sunOpacity, pending := r.0.sunOpacity, r.1;
      clock := now;
    }
  }

  /** The Sun turns against the solar system, so it keeps facing the same way. */
  lemma SunCounterRotates(s: SolarSystemPlanetScene)
    requires s.Valid()
    ensures s.sunRotation.angle + s.solarSystemRotation.angle == 0.0
    ensures s.sunRotation.y == s.solarSystemRotation.y == 1.0
  {
  }

  /**
   * The Sun-hiding closure of the Moon view (0.2 s) can run before the
   * Sun-showing closure of a full view begun less than 0.3 s earlier
   * (0.5 s): once both have run, the Moon view shows the Sun.
   */
  method QuickReturnShowsSun(now: Instant, gap: real, cal: Calendar, ageAt: MoonAgeSource) returns (settled: Visibility)
    requires 0.0 <= gap < 0.3
    ensures settled == Visibility(1.0, NoImage)
  {
    var scene := new SolarSystemPlanetScene(now, cal, ageAt);
    scene.MoveCameraToFullView(true);
    scene.RunDue(now + gap);
    scene.MoveCameraToMoonView(true, false);
    var showSun, hideSun := Delayed(now, 0.5, SetSunOpacity(1.0)), Delayed(now + gap, 0.2, SetSunOpacity(0.0));
    assert scene.pending == [showSun, hideSun];
    assert RunsNoLater(scene.pending, 1, 0);
    LastToRunIsUnique(scene.pending, Opacity, 0);
    LastToRunWins(scene.Visible(), scene.pending);
    settled := Settle(scene.Visible(), scene.pending);
  }
}
