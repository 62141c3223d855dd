/** The validity-window calculator of utl/timerange.go.

    Instants and durations are integers counting nanoseconds, as Go's
    `time.Duration` does. Instants count from Go's zero `time.Time`, so that
    value is `ZeroTime` (0). The wall-clock read `time.Now()` is the parameter
    `now`. */
module TimeRange {
  import opened Wrappers

  const Nanosecond: int := 1
  const Hour: int := 3_600_000_000_000 * Nanosecond

  const DurationDay: int := Hour * 24
  const DurationWeek: int := Hour * 24 * 7
  const DurationYear: int := Hour * 24 * 365

  const DurationDayOpt: string := "d"
  const DurationWeekOpt: string := "w"
  const DurationYearOpt: string := "y"

  /** The zero `time.Time`: the value of a named `time.Time` result never assigned. */
  const ZeroTime: int := 0

  /** An absolute validity window `[since, till]`. */
  datatype Window = Window(since: int, till: int)

  /** The three unit symbols the switch recognises. */
  predicate IsUnit(unit: string) {
    unit == DurationDayOpt || unit == DurationWeekOpt || unit == DurationYearOpt
  }

  /** The `switch unit` of GetValidityPeriod: a unit symbol to its exact duration. */
  function UnitDuration(unit: string): (r: Result<int>)
    ensures r.Success? <==> IsUnit(unit)
    ensures r.Failure? ==> r.error == InvalidUnit(unit)
    ensures r.Success? ==> r.value > 0 && r.value % DurationDay == 0
  {
    if unit == DurationDayOpt then Success(DurationDay)
    else if unit == DurationWeekOpt then Success(DurationWeek)
    else if unit == DurationYearOpt then Success(DurationYear)
    else Failure(InvalidUnit(unit))
  }

  /** GetValidityPeriod as its authors intended: an unknown unit is an error and
      yields no window; otherwise the window starts at `now` and lasts `validFor`
      units. */
  function GetValidityPeriod(validFor: int, unit: string, now: int): (r: Result<Window>)
    ensures r.Success? <==> IsUnit(unit)
    ensures r.Failure? ==> r.error == InvalidUnit(unit)
    ensures r.Success? ==> r.value.since == now
    ensures r.Success? ==> r.value.till - r.value.since == validFor * UnitDuration(unit).value
    ensures r.Success? && validFor > 0 ==> r.value.since < r.value.till
  {
    var d :- UnitDuration(unit);
    Success(Window(now, now + d * validFor))
  }

  /** GetValidityPeriod as written. The guard `if err != nil` is inverted, and
      inside it `:=` declares fresh `since` and `till` that shadow the named
      results, so the window computed there is thrown away. The named results keep
      their zero values whatever the unit, and the error alone depends on the
      unit. */
  function GetValidityPeriodAsWritten(validFor: int, unit: string, now: int): (r: (int, int, Option<Error>))
    ensures r.0 == ZeroTime && r.1 == ZeroTime
    ensures r.2.None? <==> IsUnit(unit)
    ensures r.2.Some? ==> r.2.value == InvalidUnit(unit)
  {
    var since, till := ZeroTime, ZeroTime;
    var err := if UnitDuration(unit).Failure? then Some(UnitDuration(unit).error) else None;
    // The block under `if err != nil` only assigns locals that go out of scope.
    (since, till, err)
  }

  /** The units map to 24h, 7 x 24h and 365 x 24h exactly. */
  lemma UnitDurations()
    ensures UnitDuration("d") == Success(24 * Hour)
    ensures UnitDuration("w") == Success(7 * 24 * Hour)
    ensures UnitDuration("y") == Success(365 * 24 * Hour)
  {
  }

  /** A week is exactly seven days and a year exactly 365 days: no leap-year
      adjustment. */
  lemma NoLeapAdjustment()
    ensures DurationWeek == 7 * DurationDay
    ensures DurationYear == 365 * DurationDay
  {
  }

  /** On success the window is `[now, now + validFor * duration(unit)]`. */
  lemma WindowOnSuccess(validFor: int, unit: string, now: int)
    requires IsUnit(unit)
    ensures GetValidityPeriod(validFor, unit, now)
         == Success(Window(now, now + validFor * UnitDuration(unit).value))
  {
  }

  /** For a fixed unit and `now`, a larger count gives a strictly later `till`. */
  lemma TillStrictlyMonotone(v1: int, v2: int, unit: string, now: int)
    requires IsUnit(unit) && v1 < v2
    ensures GetValidityPeriod(v1, unit, now).value.till < GetValidityPeriod(v2, unit, now).value.till
  {
  }

  /** The bug in the code as written: a valid unit and a positive count produce no
      error, yet the window returned is the empty one at the zero time instead of
      the window that starts at `now`. */
  lemma AsWrittenReturnsEmptyWindow(validFor: int, unit: string, now: int)
    requires IsUnit(unit) && validFor > 0
    ensures GetValidityPeriodAsWritten(validFor, unit, now) == (ZeroTime, ZeroTime, None)
    ensures GetValidityPeriod(validFor, unit, now).Success?
    ensures GetValidityPeriod(validFor, unit, now).value.since < GetValidityPeriod(validFor, unit, now).value.till
  {
  }

  /** The calendar example: one year from `now` lasts 365 days, however many days
      the calendar year has. */
  lemma OneYearIs365Days(now: int)
    ensures GetValidityPeriod(1, "y", now) == Success(Window(now, now + 365 * DurationDay))
  {
  }
}
