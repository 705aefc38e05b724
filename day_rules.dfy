/**
 * The engine's two day-arithmetic helpers: `addBusinessDays`, which walks
 * forward one calendar day at a time counting only Monday to Friday, and
 * `avoidWeekend`, which pushes a Saturday or Sunday to the next Monday.
 * Each is a method that works on a mutable `Date` as the source does, and
 * is proved equal to a function that the pure parts of the engine use.
 */
module DayRules {
  import opened Calendar

  /** The number of weekdays (Monday to Friday) d with lo < d <= hi. */
  function WeekdaysIn(lo: int, hi: int): nat
    decreases hi - lo
  {
    if hi <= lo then 0 else WeekdaysIn(lo, hi - 1) + (if IsWeekendDay(hi) then 0 else 1)
  }

  lemma {:induction false} WeekdaysInSplit(lo: int, mid: int, hi: int)
    requires lo <= mid <= hi
    ensures WeekdaysIn(lo, hi) == WeekdaysIn(lo, mid) + WeekdaysIn(mid, hi)
    decreases hi - mid
  {
    if mid < hi {
      WeekdaysInSplit(lo, mid, hi - 1);
    }
  }

  /** A run of weekend days ending in one weekday holds exactly one weekday. */
  lemma {:induction false} WeekdaysInRun(lo: int, hi: int)
    requires lo < hi && !IsWeekendDay(hi)
    requires forall k :: lo < k < hi ==> IsWeekendDay(k)
    ensures WeekdaysIn(lo, hi) == 1
  {
    WeekendsOnly(lo, hi - 1);
  }

  lemma {:induction false} WeekendsOnly(lo: int, hi: int)
    requires forall k :: lo < k <= hi ==> IsWeekendDay(k)
    ensures WeekdaysIn(lo, hi) == 0
    decreases hi - lo
  {
    if lo < hi {
      WeekendsOnly(lo, hi - 1);
    }
  }

  /** d is the n-th weekday strictly after start. */
  predicate IsNthBusinessDayAfter(start: int, n: int, d: int) {
    start < d && !IsWeekendDay(d) && WeekdaysIn(start, d) == n
  }

  /** At most one day is the n-th weekday after start. */
  lemma NthBusinessDayUnique(start: int, n: int, d1: int, d2: int)
    requires IsNthBusinessDayAfter(start, n, d1) && IsNthBusinessDayAfter(start, n, d2)
    ensures d1 == d2
  {
    if d1 < d2 {
      WeekdaysInSplit(start, d1, d2);
    } else if d2 < d1 {
      WeekdaysInSplit(start, d2, d1);
    }
  }

  /** The first weekday strictly after day d. */
  function NextBusinessDay(d: int): (r: int)
    ensures d < r <= d + 3 && !IsWeekendDay(r)
    ensures forall k :: d < k < r ==> IsWeekendDay(k)
  {
    if !IsWeekendDay(d + 1) then d + 1
    else if !IsWeekendDay(d + 2) then d + 2
    else d + 3
  }

  /**
   * What `addBusinessDays(t, n)` returns: t itself when n <= 0, otherwise
   * the n-th weekday after t, at t's time of day.
   */
  function BusinessDaysAfter(t: Instant, n: int): (r: Instant)
    ensures r.time == t.time
    ensures n <= 0 ==> r == t
    ensures n > 0 ==> IsNthBusinessDayAfter(t.day, n, r.day)
    decreases n
  {
    if n <= 0 then t
    else
      var prev := BusinessDaysAfter(t, n - 1);
      var next := NextBusinessDay(prev.day);
      WeekdaysInSplit(t.day, prev.day, next);
      WeekdaysInRun(prev.day, next);
      Instant(next, t.time)
  }

  /** More business days never land earlier. */
  lemma {:induction false} BusinessDaysAfterMonotone(t: Instant, n: int, m: int)
    requires n <= m
    ensures BusinessDaysAfter(t, n).day <= BusinessDaysAfter(t, m).day
    decreases m - n
  {
    if n < m {
      BusinessDaysAfterMonotone(t, n, m - 1);
    }
  }

  /**
   * `addBusinessDays(date, days)`: copy the date, then step forward one
   * calendar day at a time, counting the weekdays, until `days` have been
   * counted.
   */
  method AddBusinessDays(date: Instant, days: int) returns (r: Instant)
    ensures r == BusinessDaysAfter(date, days)
    ensures days <= 0 ==> r == date
    ensures days > 0 ==> r.time == date.time && IsNthBusinessDayAfter(date.day, days, r.day)
  {
    var result := new Date(date);
    var daysAdded := 0;
    ghost var target := BusinessDaysAfter(date, days).day;
    while daysAdded < days
      invariant result.time == date.time
      invariant date.day <= result.day <= target
      invariant 0 <= daysAdded && (daysAdded <= days || daysAdded == 0)
      invariant WeekdaysIn(date.day, result.day) == daysAdded
      decreases target - result.day
    {
      // Fewer than `days` weekdays lie in (date, result], so the target is still ahead.
      assert result.day < target;
      result.SetDate(result.GetDate() + 1);
      var dayOfWeek := result.GetDay();
      if dayOfWeek != 0 && dayOfWeek != 6 {
        daysAdded := daysAdded + 1;
      }
    }
    r := result.Value();
    if days > 0 && r.day < target {
      WeekdaysInSplit(date.day, r.day, target);
    }
  }

  /** d is the first weekday on or after day start. */
  predicate IsFirstWeekdayFrom(start: int, d: int) {
    start <= d && !IsWeekendDay(d) && forall k :: start <= k < d ==> IsWeekendDay(k)
  }

  /** At most one day is the first weekday on or after start. */
  lemma FirstWeekdayUnique(start: int, d1: int, d2: int)
    requires IsFirstWeekdayFrom(start, d1) && IsFirstWeekdayFrom(start, d2)
    ensures d1 == d2
  {
  }

  /**
   * What `avoidWeekend(t)` leaves in its argument: the first weekday on or
   * after t, at t's time of day; at most two days later.
   */
  function WeekendAdjusted(t: Instant): (r: Instant)
    ensures r.time == t.time && r.day <= t.day + 2
    ensures IsFirstWeekdayFrom(t.day, r.day)
    ensures !IsWeekendDay(t.day) ==> r == t
  {
    if DayOfWeek(t.day) == 6 then ShiftDays(t, 2)
    else if DayOfWeek(t.day) == 0 then ShiftDays(t, 1)
    else t
  }

  /** Correcting twice is correcting once. */
  lemma WeekendAdjustedIdempotent(t: Instant)
    ensures WeekendAdjusted(WeekendAdjusted(t)) == WeekendAdjusted(t)
  {
  }

  /** Weekend correction keeps the order of days. */
  lemma WeekendAdjustedMonotone(a: Instant, b: Instant)
    requires a.day <= b.day
    ensures WeekendAdjusted(a).day <= WeekendAdjusted(b).day
  {
  }

  /**
   * `avoidWeekend(date)`: moves a Saturday forward two days and a Sunday
   * forward one, in place, and returns the same object.
   */
  method AvoidWeekend(date: Date) returns (same: Date)
    modifies date
    ensures same == date
    ensures date.Value() == WeekendAdjusted(old(date.Value()))
  {
    var dayOfWeek := date.GetDay();
    if dayOfWeek == 6 {
      date.SetDate(date.GetDate() + 2);
    } else if dayOfWeek == 0 {
      date.SetDate(date.GetDate() + 1);
    }
    same := date;
  }
}
