/**
 * `SolarSystemCameraScene`: the camera-only scene. It stores the four
 * orbital angles for the instant it shows and moves its camera between
 * the Moon view and the full view of the solar system.
 */
module SolarSystemCamera {
  import opened Wrappers
  import opened Orbit
  import opened Scene

  /** How far the Earth system sits from the Sun along -z. */
  const EarthSystemDistance: real := 42.0

  class SolarSystemCameraScene {
    var earthRotationAroundSun: real
    var moonRotationAroundEarth: real
    var earthRotationAroundAxis: real
    var sunRotationAroundAxis: real

    var date: Instant
    /** `moonDetails.info.age`: the Moon's age at `date`. */
    var moonAge: real
    /** The Moon's age when the scene was built; never updated afterwards. */
    var initialMoonAge: real

    /** `background.contents`. */
    var background: Background
    /** `cameraNode.transform`. */
    var cameraTransform: Transform
    /** The animations added to the camera node, oldest first. */
    var cameraAnimations: seq<TransformAnimation>

    /** The stored angles and date, as one value. */
    function Orbit(): (s: OrbitalState)
      reads this
      ensures s.date == date && s.earthAroundSun == earthRotationAroundSun
      ensures s.moonAroundEarth == moonRotationAroundEarth
      ensures s.earthAroundAxis == earthRotationAroundAxis && s.sunAroundAxis == sunRotationAroundAxis
    {
      OrbitalState(date, earthRotationAroundSun, moonRotationAroundEarth, earthRotationAroundAxis, sunRotationAroundAxis)
    }

    /** The Sun's own angle always undoes the solar system's rotation. */
    ghost predicate Valid()
      reads this
    {
      sunRotationAroundAxis == -earthRotationAroundSun
    }

    /**
     * `init()`: capture the current instant and Moon age, set the
     * background from `backgroundImage` (the overridable
     * `backgroundImage()`), resolve the orbit for offset 0 and place the
     * camera in the Moon view, none of it animated.
     */
    constructor (backgroundImage: Background, now: Instant, cal: Calendar, ageAt: MoonAgeSource)
      ensures Valid()
      ensures initialMoonAge == ageAt(now)
      ensures Orbit() == Resolve(now, 0.0, ageAt(now), cal)
      ensures moonAge == ageAt(date)
      ensures background == backgroundImage
      ensures cameraTransform == [Translate(0.0, -1.0, 0.0), RotateY(moonRotationAroundEarth + Pi),
                                  Translate(0.0, 0.0, -EarthSystemDistance), RotateY(earthRotationAroundSun)]
      ensures cameraAnimations == []
    {
      earthRotationAroundSun, moonRotationAroundEarth := 0.0, 0.0;
      earthRotationAroundAxis, sunRotationAroundAxis := 0.0, 0.0;
      cameraTransform := Identity;
      cameraAnimations := [];
      date := now;
      moonAge := ageAt(now);
      initialMoonAge := ageAt(now);
      new;
      background := backgroundImage;
      MovePlanetsInSolarSystem(0.0, false, now, cal, ageAt);
      MoveCameraToMoonView(false, false);
    }

    /**
     * `movePlanetsInSolarSystem(addedTime:animated:)`: show the instant
     * `addedTime` days away from `now`. Nothing here depends on `animated`.
     */
    method MovePlanetsInSolarSystem(addedTime: real, animated: bool, now: Instant, cal: Calendar, ageAt: MoonAgeSource)
      modifies this
      ensures Valid()
      ensures Orbit() == Resolve(now, addedTime, initialMoonAge, cal)
      ensures moonAge == ageAt(date)
      ensures initialMoonAge == old(initialMoonAge) && background == old(background)
      ensures cameraTransform == old(cameraTransform) && cameraAnimations == old(cameraAnimations)
    {
      var extraDay := Trunc(addedTime);
      var extraHour := Trunc((addedTime - extraDay as real) * 24.0);

      var todayAddedDay := cal.addDays(now, extraDay).GetOr(now);
      var todayAddedDayAndHour := cal.addHours(todayAddedDay, extraHour).GetOr(now);

      var day := Ordinal(cal.dayOfYear(todayAddedDayAndHour));
      var hour := Ordinal(cal.hourOfDay(todayAddedDayAndHour));

      date := todayAddedDayAndHour;
      moonAge := ageAt(date);

      earthRotationAroundSun := day / DaysPerYear * 2.0 * Pi;
      moonRotationAroundEarth := (initialMoonAge + addedTime) / SynodicMonth * 2.0 * Pi;
      earthRotationAroundAxis := hour / 24.0 * 2.0 * Pi - moonRotationAroundEarth;
      sunRotationAroundAxis := -earthRotationAroundSun;
    }

    /**
     * `moveCameraToMoonView(animated:centered:)`: look at the Moon from the
     * Earth, a unit below it, or half a unit when `centered`.
     */
    method MoveCameraToMoonView(animated: bool, centered: bool)
      modifies this
      ensures cameraTransform == [Translate(0.0, if centered then -0.5 else -1.0, 0.0), RotateY(moonRotationAroundEarth + Pi),
                                  Translate(0.0, 0.0, -EarthSystemDistance), RotateY(earthRotationAroundSun)]
      ensures cameraAnimations == old(cameraAnimations)
        + if animated then [TransformAnimation(old(cameraTransform), cameraTransform, if centered then 1.0 else 0.5)] else []
      ensures Orbit() == old(Orbit()) && moonAge == old(moonAge) && initialMoonAge == old(initialMoonAge)
      ensures background == old(background)
    {
      var transform := Mult(RotateY(earthRotationAroundSun), Identity);
      transform := Mult(Translate(0.0, 0.0, -EarthSystemDistance), transform);
      transform := Mult(RotateY(moonRotationAroundEarth + Pi), transform);
      transform := Mult(Translate(0.0, if centered then -0.5 else -1.0, 0.0), transform);

      if animated {
        cameraAnimations := cameraAnimations + [TransformAnimation(cameraTransform, transform, if centered then 1.0 else 0.5)];
      }

      cameraTransform := transform;
    }

    /** `moveCameraToFullView(animated:)`: look down on the whole solar system. */
    method MoveCameraToFullView(animated: bool)
      modifies this
      ensures cameraTransform == [RotateX(-Pi / 2.0), Translate(0.0, 70.0, -34.0), RotateY(earthRotationAroundSun)]
      ensures cameraAnimations == old(cameraAnimations)
        + if animated then [TransformAnimation(old(cameraTransform), cameraTransform, 1.0)] else []
      ensures Orbit() == old(Orbit()) && moonAge == old(moonAge) && initialMoonAge == old(initialMoonAge)
      ensures background == old(background)
    {
      var transform := Mult(RotateY(earthRotationAroundSun), Identity);
      transform := Mult(Translate(0.0, 70.0, -34.0), transform);
      transform := Mult(RotateX(-Pi / 2.0), transform);

      if animated {
        cameraAnimations := cameraAnimations + [TransformAnimation(cameraTransform, transform, 1.0)];
      }

      cameraTransform := transform;
    }
  }
}
