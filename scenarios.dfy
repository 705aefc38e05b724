/**
 * Worked examples of the engine on the built-in templates, with
 * 2026-01-05 (a Monday, day 20458) as the estimate-signed date.
 */
module Scenarios {
  import opened Wrappers
  import opened Calendar
  import opened DayRules
  import opened Templates
  import opened Timeline

  function SignedOn(day: int): JobRecord {
    map[EstimateSignedField := DateText("2026-01-05", Instant(day, 0))]
  }

  /** The business days 1, 3, 5 and 7 after Monday 2026-01-05. */
  lemma BusinessDaysFromMonday()
    ensures IsNthBusinessDayAfter(20458, 1, 20459)
    ensures IsNthBusinessDayAfter(20458, 3, 20461)
    ensures IsNthBusinessDayAfter(20458, 5, 20465)
    ensures IsNthBusinessDayAfter(20458, 7, 20467)
  {
    WeekdaysInSplit(20458, 20461, 20465);
    WeekdaysInSplit(20458, 20465, 20467);
  }

  lemma RepairStepOn(now: Instant, i: int, day: int)
    requires 1 <= i < 5
    requires IsNthBusinessDayAfter(20458, RoofingRepair.steps[i].offsetDays, day)
    ensures var r := ApplyTimeline(SignedOn(20458), RoofingRepair, true, now);
      r.Success? && r.value[i].calculatedDate.day == day
  {
    var r := ApplyTimeline(SignedOn(20458), RoofingRepair, true, now);
    NthBusinessDayUnique(20458, RoofingRepair.steps[i].offsetDays, r.value[i].calculatedDate.day, day);
  }

  /**
   * The repair template in business-day mode: offsets 1, 3, 5 and 7 skip
   * the weekend of 2026-01-10 and 2026-01-11.
   */
  lemma RoofRepairProjection(now: Instant)
    ensures var r := ApplyTimeline(SignedOn(20458), RoofingRepair, true, now);
      && r.Success?
      && |r.value| == 5
      && r.value[0].calculatedDate.day == 20458
      && r.value[1].calculatedDate.day == 20459
      && r.value[2].calculatedDate.day == 20461
      && r.value[3].calculatedDate.day == 20465
      && r.value[4].calculatedDate.day == 20467
  {
    BusinessDaysFromMonday();
    RepairStepOn(now, 1, 20459);
    RepairStepOn(now, 2, 20461);
    RepairStepOn(now, 3, 20465);
    RepairStepOn(now, 4, 20467);
  }

  /**
   * Moving the second step from 2026-01-06 to 2026-01-09 with a cascade
   * shifts the third step from 2026-01-08 by three days onto a Sunday,
   * which is then corrected to Monday 2026-01-12.
   */
  lemma RoofRepairCascade(now: Instant)
    ensures var t := ApplyTimeline(SignedOn(20458), RoofingRepair, true, now).value;
      var r := CascadeTimelineUpdate(t, 1, Instant(20462, 0), t[1].calculatedDate);
      && r[1].calculatedDate.day == 20462
      && r[2].calculatedDate.day == 20465
  {
    RoofRepairProjection(now);
    var t := ApplyTimeline(SignedOn(20458), RoofingRepair, true, now).value;
    RoundedDayDiffWholeDays(Instant(20462, 0), t[1].calculatedDate);
    var r := CascadeTimelineUpdate(t, 1, Instant(20462, 0), t[1].calculatedDate);
    assert IsShiftOf(t[2].calculatedDate, 3, r[2].calculatedDate);
    assert IsWeekendDay(20464) && !IsWeekendDay(20465);
  }

  /** A job with no estimate-signed date fails naming that field. */
  lemma MissingAnchor(now: Instant)
    ensures GetJobTimeline(map[], "roofing_standard", now) == Failure(AnchorDateMissing("first_estimate_signed_date"))
  {
  }
}
