/**
 * The part of the JavaScript `Date` object the timeline engine relies on.
 *
 * A date is an instant: a day number counted from 1970-01-01 (day 0, a
 * Thursday) plus the milliseconds elapsed since that day's midnight.  The
 * engine only ever moves a date by whole days (`setDate(getDate() + n)`),
 * which keeps the time of day, reads its weekday (`getDay()`), compares two
 * dates (`<`, which compares milliseconds) and subtracts them.
 */
module Calendar {

  /** Milliseconds in one calendar day, the source's `1000 * 60 * 60 * 24`. */
  const MsPerDay: int := 86_400_000

  /** Milliseconds since midnight. */
  type TimeOfDay = t: int | 0 <= t < 86_400_000

  datatype Instant = Instant(day: int, time: TimeOfDay)

  /** Milliseconds since the epoch, the number a `Date` converts to. */
  function ToMs(t: Instant): int {
    t.day * MsPerDay + t.time
  }

  /** The instant at a number of milliseconds since the epoch. */
  function FromMs(ms: int): (t: Instant)
    ensures ToMs(t) == ms
  {
    Instant(ms / MsPerDay, ms % MsPerDay)
  }

  /** `new Date(seconds * 1000)`: a numeric job field holds Unix seconds. */
  function FromUnixSeconds(seconds: int): (t: Instant)
    ensures ToMs(t) == seconds * 1000
  {
    FromMs(seconds * 1000)
  }

  /** `getDay()`: 0 is Sunday, 6 is Saturday; day 0 was a Thursday. */
  function DayOfWeek(day: int): (w: int)
    ensures 0 <= w < 7
    ensures day == 0 ==> w == 4
  {
    (day + 4) % 7
  }

  /** The weekdays follow each other in a seven-day cycle. */
  lemma DayOfWeekNext(day: int)
    ensures DayOfWeek(day + 1) == (DayOfWeek(day) + 1) % 7
  {
  }

  predicate IsWeekendDay(day: int) {
    DayOfWeek(day) == 0 || DayOfWeek(day) == 6
  }

  /** `a < b` on two `Date` objects, a comparison of their milliseconds. */
  predicate Before(a: Instant, b: Instant) {
    ToMs(a) < ToMs(b)
  }

  /** Comparing milliseconds is comparing the day first and the time of day second. */
  lemma BeforeByDay(a: Instant, b: Instant)
    ensures Before(a, b) <==> a.day < b.day || (a.day == b.day && a.time < b.time)
  {
  }

  /** `setDate(getDate() + n)`: the same time of day, n calendar days later. */
  function ShiftDays(t: Instant, n: int): (r: Instant)
    ensures ToMs(r) == ToMs(t) + n * MsPerDay
  {
    Instant(t.day + n, t.time)
  }

  /**
   * `Math.round((later - earlier) / MsPerDay)`: the difference in days,
   * rounded to the nearest integer with halves rounded up.
   */
  function RoundedDayDiff(later: Instant, earlier: Instant): (n: int)
    ensures 2 * n * MsPerDay - MsPerDay <= 2 * (ToMs(later) - ToMs(earlier)) < 2 * n * MsPerDay + MsPerDay
  {
    (2 * (ToMs(later) - ToMs(earlier)) + MsPerDay) / (2 * MsPerDay)
  }

  /** Two instants at the same time of day are a whole number of days apart. */
  lemma RoundedDayDiffWholeDays(later: Instant, earlier: Instant)
    requires later.time == earlier.time
    ensures RoundedDayDiff(later, earlier) == later.day - earlier.day
  {
  }

  /** A change of at least one whole day never rounds to zero days. */
  lemma RoundedDayDiffNonZero(later: Instant, earlier: Instant)
    requires ToMs(later) - ToMs(earlier) >= MsPerDay || ToMs(earlier) - ToMs(later) >= MsPerDay
    ensures RoundedDayDiff(later, earlier) != 0
  {
  }

  /**
   * A mutable `Date`: the engine's helpers move one in place with
   * `setDate` and read its weekday with `getDay`.
   */
  class Date {
    var day: int
    var time: TimeOfDay

    /** `new Date(t)`: a fresh copy of an instant. */
    constructor (t: Instant)
      ensures Value() == t
    {
      day := t.day;
      time := t.time;
    }

    function Value(): Instant
      reads this
    {
      Instant(day, time)
    }

    /** `getDate()`, as a day number rather than a day of the month. */
    function GetDate(): int
      reads this
    {
      day
    }

    /** `getDay()`: the weekday of the day the object holds. */
    function GetDay(): (w: int)
      reads this
      ensures w == DayOfWeek(Value().day)
    {
      DayOfWeek(day)
    }

    /** `setDate(d)`: move to day d, keeping the time of day. */
    method SetDate(d: int)
      modifies this
      ensures Value() == Instant(d, old(time))
    {
      day := d;
    }
  }
}
