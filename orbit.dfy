/**
 * Orbital state of the two scene engines: splitting a signed day offset
 * into whole days and whole hours, resolving the shifted instant through
 * the calendar, and the four rotation angles derived from it.
 *
 * Foundation's `Calendar.current`, `Date()` and MoonKit's `Moon` are not
 * part of this model: the calendar and the Moon age are passed in as
 * function values and the current instant as a number.
 */
module Orbit {
  import opened Wrappers

  /** `Double.pi`, written out to the precision a Double keeps. */
  const Pi: real := 3.141592653589793
  /** The synodic month in days, the Moon's age period. */
  const SynodicMonth: real := 29.53059
  /** The length of a year in days used for the Earth's orbit. */
  const DaysPerYear: real := 365.25

  /** An absolute instant, in seconds. */
  type Instant = real

  /**
   * The calendar operations the scenes use. `addDays` and `addHours`
   * stand for `Calendar.current.date(byAdding:value:to:)`, which may fail;
   * `dayOfYear` and `hourOfDay` stand for `ordinality(of:in:for:)`, which
   * may have no answer.
   */
  datatype Calendar = Calendar(
    addDays: (Instant, int) -> Option<Instant>,
    addHours: (Instant, int) -> Option<Instant>,
    dayOfYear: Instant -> Option<int>,
    hourOfDay: Instant -> Option<int>)

  /** MoonKit's `Moon(date).info.age`: the Moon's age in days at an instant. */
  type MoonAgeSource = Instant -> real

  /** A calendar with fixed-length days and hours and no failures. */
  ghost predicate Uniform(cal: Calendar)
  {
    && (forall t: Instant, n: int :: cal.addDays(t, n) == Some(t + n as real * 86400.0))
    && (forall t: Instant, n: int :: cal.addHours(t, n) == Some(t + n as real * 3600.0))
  }

  /** Swift's `Int(x)` on a `Double`: truncation toward zero. */
  function Trunc(x: real): (r: int)
    ensures 0.0 <= x ==> 0 <= r && r as real <= x < r as real + 1.0
    ensures x <= 0.0 ==> r <= 0 && r as real - 1.0 < x <= r as real
  {
    if x >= 0.0 then x.Floor else -((-x).Floor)
  }

  /** Truncation commutes with adding a whole number of the same sign. */
  lemma {:induction false} TruncShift(n: int, y: real)
    requires (0 <= n && 0.0 <= y) || (n <= 0 && y <= 0.0)
    ensures Trunc(n as real + y) == n + Trunc(y)
  {
    var k := Trunc(y);
    var m := Trunc(n as real + y);
    if 0 <= n && 0.0 <= y {
      assert m as real <= n as real + y < m as real + 1.0;
      assert (n + k) as real <= n as real + y < (n + k) as real + 1.0;
    } else {
      assert m as real - 1.0 < n as real + y <= m as real;
      assert (n + k) as real - 1.0 < n as real + y <= (n + k) as real;
    }
  }

  /** The whole days and whole hours a day offset is split into. */
  datatype Offset = Offset(days: int, hours: int)

  /**
   * The offset in days split into whole days (truncated toward zero) and
   * the whole hours of the remaining fraction of a day (also truncated).
   */
  function SplitOffset(addedTime: real): (o: Offset)
    ensures o.days == Trunc(addedTime)
    ensures -23 <= o.hours <= 23
    ensures 0.0 <= addedTime ==> 0 <= o.days && 0 <= o.hours
    ensures addedTime <= 0.0 ==> o.days <= 0 && o.hours <= 0
  {
    var extraDay := Trunc(addedTime);
    var extraHour := Trunc((addedTime - extraDay as real) * 24.0);
    Offset(extraDay, extraHour)
  }

  /**
   * The total shift in hours is the requested offset in hours truncated
   * toward zero: never further from zero than asked, and less than one
   * hour short of it.
   */
  lemma {:induction false} SplitIsTruncatedHours(addedTime: real)
    ensures var o := SplitOffset(addedTime);
      && o.days * 24 + o.hours == Trunc(addedTime * 24.0)
      && (0.0 <= addedTime ==> addedTime * 24.0 - 1.0 < (o.days * 24 + o.hours) as real <= addedTime * 24.0)
      && (addedTime <= 0.0 ==> addedTime * 24.0 <= (o.days * 24 + o.hours) as real < addedTime * 24.0 + 1.0)
  {
    var d := Trunc(addedTime);
    var frac := (addedTime - d as real) * 24.0;
    assert addedTime * 24.0 == (d * 24) as real + frac;
    TruncShift(d * 24, frac);
  }

  /**
   * The instant the scene shows: the current instant plus the whole days,
   * then plus the whole hours. A failed day addition continues from the
   * current instant; a failed hour addition yields the current instant.
   */
  function ResolveDate(now: Instant, o: Offset, cal: Calendar): (r: Instant)
    ensures cal.addDays(now, o.days).Some? && cal.addHours(cal.addDays(now, o.days).value, o.hours).Some?
      ==> r == cal.addHours(cal.addDays(now, o.days).value, o.hours).value
    ensures cal.addDays(now, o.days).None? ==> r == cal.addHours(now, o.hours).GetOr(now)
    ensures cal.addHours(cal.addDays(now, o.days).GetOr(now), o.hours).None? ==> r == now
  {
    var todayAddedDay := cal.addDays(now, o.days).GetOr(now);
    cal.addHours(todayAddedDay, o.hours).GetOr(now)
  }

  /**
   * With a uniform calendar the shown instant lies between the current
   * instant and the requested one, less than an hour short of the latter.
   */
  lemma ResolvedDateWithinAnHour(now: Instant, addedTime: real, cal: Calendar)
    requires Uniform(cal)
    ensures var r := ResolveDate(now, SplitOffset(addedTime), cal);
      && (0.0 <= addedTime ==> now <= r <= now + addedTime * 86400.0 < r + 3600.0)
      && (addedTime <= 0.0 ==> r - 3600.0 < now + addedTime * 86400.0 <= r <= now)
  {
    var o := SplitOffset(addedTime);
    SplitIsTruncatedHours(addedTime);
    assert cal.addDays(now, o.days) == Some(now + o.days as real * 86400.0);
    var t := now + o.days as real * 86400.0;
    assert cal.addHours(t, o.hours) == Some(t + o.hours as real * 3600.0);
    assert ResolveDate(now, o, cal) == now + (o.days * 24 + o.hours) as real * 3600.0;
  }

  /** The four angles of one resolved instant, and that instant. */
  datatype OrbitalState = OrbitalState(
    date: Instant,
    earthAroundSun: real,
    moonAroundEarth: real,
    earthAroundAxis: real,
    sunAroundAxis: real)

  /** `Double(ordinality ?? 0)`. */
  function Ordinal(o: Option<int>): (r: real)
    ensures o.None? ==> r == 0.0
    ensures o.Some? ==> r == o.value as real
  {
    o.GetOr(0) as real
  }

  /** The Earth's angle around the Sun for a day-of-year ordinal. */
  function EarthAroundSun(day: real): (a: real)
    ensures 1.0 <= day <= 366.0 ==> 0.0 < a <= 366.0 / DaysPerYear * 2.0 * Pi
    ensures day == 0.0 ==> a == 0.0
  {
    day / DaysPerYear * 2.0 * Pi
  }

  /** The Moon's angle around the Earth: its age in synodic months, in radians. */
  function MoonAroundEarth(initialMoonAge: real, addedTime: real): real
  {
    (initialMoonAge + addedTime) / SynodicMonth * 2.0 * Pi
  }

  /**
   * The state `movePlanetsInSolarSystem(addedTime:)` stores, for the
   * current instant `now`, the Moon age captured at construction and the
   * calendar.
   */
  function Resolve(now: Instant, addedTime: real, initialMoonAge: real, cal: Calendar): (s: OrbitalState)
    ensures s.sunAroundAxis + s.earthAroundSun == 0.0
    ensures s.moonAroundEarth == MoonAroundEarth(initialMoonAge, addedTime)
    ensures s.earthAroundAxis + s.moonAroundEarth == Ordinal(cal.hourOfDay(s.date)) / 24.0 * 2.0 * Pi
    ensures s.date == ResolveDate(now, SplitOffset(addedTime), cal)
    ensures s.earthAroundSun == EarthAroundSun(Ordinal(cal.dayOfYear(s.date)))
    ensures cal.dayOfYear(s.date).None? ==> s.earthAroundSun == 0.0
  {
    var date := ResolveDate(now, SplitOffset(addedTime), cal);
    var day := Ordinal(cal.dayOfYear(date));
    var hour := Ordinal(cal.hourOfDay(date));
    var earthAroundSun := EarthAroundSun(day);
    var moonAroundEarth := MoonAroundEarth(initialMoonAge, addedTime);
    OrbitalState(date, earthAroundSun, moonAroundEarth, hour / 24.0 * 2.0 * Pi - moonAroundEarth, -earthAroundSun)
  }

  /**
   * The Earth body's angle in the single-file scene: its axial tilt
   * correction, half a turn to face the textured side, the hour of the
   * day, less the Moon's angle.
   */
  function EarthNodeAngle(hour: real, moonAroundEarth: real): real
  {
    -0.22 + Pi + hour / 24.0 * 2.0 * Pi - moonAroundEarth
  }

  /** Adding one synodic month to the offset turns the Moon by exactly one full turn. */
  lemma MoonAngleIsPeriodic(now: Instant, addedTime: real, initialMoonAge: real, cal: Calendar)
    ensures Resolve(now, addedTime + SynodicMonth, initialMoonAge, cal).moonAroundEarth
         == Resolve(now, addedTime, initialMoonAge, cal).moonAroundEarth + 2.0 * Pi
  {
  }

  /**
   * The Moon's angle depends on the offset and the captured age only: not
   * on the current instant, nor on the calendar.
   */
  lemma MoonAngleIgnoresCalendar(now: Instant, now': Instant, addedTime: real, initialMoonAge: real, cal: Calendar, cal': Calendar)
    ensures Resolve(now, addedTime, initialMoonAge, cal).moonAroundEarth
         == Resolve(now', addedTime, initialMoonAge, cal').moonAroundEarth
  {
  }
}
