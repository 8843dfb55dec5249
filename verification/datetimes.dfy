/** The slice of `java.time.LocalDateTime` the codec touches: a naive date-time
    reduced to year, month, day, second of day and nano of second, with the
    range checks `LocalDateTime.of` and `with(field, value)` perform. */
module DateTimes {
  import opened Wrappers
  import opened Arithmetic

  const SECONDS_PER_DAY: int := 86_400
  const NANOS_PER_SECOND: int := 1_000_000_000

  datatype DateTime = DateTime(year: int, month: int, day: int, secondOfDay: int, nano: int)
  {
    /** The invariant every `LocalDateTime` satisfies. */
    predicate Valid() {
      && 1 <= month <= 12
      && 1 <= day <= DaysInMonth(year, month)
      && 0 <= secondOfDay < SECONDS_PER_DAY
      && 0 <= nano < NANOS_PER_SECOND
    }
  }

  /** `isBefore`: chronological order, field by field from the year down to
      the nano of second. */
  predicate Before(a: DateTime, b: DateTime) {
    || a.year < b.year
    || (a.year == b.year && a.month < b.month)
    || (a.year == b.year && a.month == b.month && a.day < b.day)
    || (a.year == b.year && a.month == b.month && a.day == b.day
        && a.secondOfDay < b.secondOfDay)
    || (a.year == b.year && a.month == b.month && a.day == b.day
        && a.secondOfDay == b.secondOfDay && a.nano < b.nano)
  }

  /** Proleptic Gregorian leap years. */
  predicate IsLeapYear(year: int) {
    year % 4 == 0 && (year % 100 != 0 || year % 400 == 0)
  }

  function DaysInMonth(year: int, month: int): (n: int)
    requires 1 <= month <= 12
    ensures 28 <= n <= 31
    ensures n == 29 <==> month == 2 && IsLeapYear(year)
  {
    if month == 2 then (if IsLeapYear(year) then 29 else 28)
    else if month == 4 || month == 6 || month == 9 || month == 11 then 30
    else 31
  }

  /** The sub-second fields the precision tiers read and write. */
  datatype Field = MilliOfSecond | MicroOfSecond | NanoOfSecond
  {
    /** Nanoseconds per unit of the field. */
    function Unit(): (u: int)
      ensures u > 0 && NANOS_PER_SECOND % u == 0
    {
      match this
      case MilliOfSecond => 1_000_000
      case MicroOfSecond => 1_000
      case NanoOfSecond => 1
    }

    /** Largest value the field accepts: one second, less one unit. */
    function Max(): (m: int)
      ensures (m + 1) * Unit() == NANOS_PER_SECOND
    {
      match this
      case MilliOfSecond => 999
      case MicroOfSecond => 999_999
      case NanoOfSecond => 999_999_999
    }
  }

  /** `LocalDateTime.get(field)`. */
  function Get(t: DateTime, f: Field): (v: int)
    requires t.Valid()
    ensures 0 <= v <= f.Max()
    ensures v * f.Unit() <= t.nano < (v + 1) * f.Unit()
  {
    t.nano / f.Unit()
  }

  /** `LocalDateTime.of(year, month, day, 0, 0)`: midnight of that date, or
      `None` where the library throws because the month or day is out of range. */
  function Of(year: int, month: int, day: int): (r: Option<DateTime>)
    ensures r.Some? <==> 1 <= month <= 12 && 1 <= day <= DaysInMonth(year, month)
    ensures r.Some? ==> r.value.Valid() && r.value == DateTime(year, month, day, 0, 0)
  {
    if 1 <= month <= 12 && 1 <= day <= DaysInMonth(year, month)
    then Some(DateTime(year, month, day, 0, 0))
    else None
  }

  /** `with(SECOND_OF_DAY, v)`: same date and nano of second, or `None` where
      the library throws because `v` is not a second of the day. */
  function WithSecondOfDay(t: DateTime, v: int): (r: Option<DateTime>)
    requires t.Valid()
    ensures r.Some? <==> 0 <= v < SECONDS_PER_DAY
    ensures r.Some? ==> r.value.Valid() && r.value == t.(secondOfDay := v)
  {
    if 0 <= v < SECONDS_PER_DAY then Some(t.(secondOfDay := v)) else None
  }

  /** `with(field, v)` for a sub-second field: the whole nano of second becomes
      `v` units (finer digits are cleared), or `None` where the library throws
      because `v` is outside the field's range. */
  function With(t: DateTime, f: Field, v: int): (r: Option<DateTime>)
    requires t.Valid()
    ensures r.Some? <==> 0 <= v <= f.Max()
    ensures r.Some? ==> r.value.Valid() && Get(r.value, f) == v
    ensures r.Some? ==> r.value == t.(nano := v * f.Unit())
  {
    if 0 <= v <= f.Max() then
      var u := t.(nano := v * f.Unit());
      assert u.nano < NANOS_PER_SECOND by {
        MulLeftMonotone(v + 1, f.Max() + 1, f.Unit());
      }
      Some(u)
    else None
  }
}
