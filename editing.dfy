/**
 * How the timeline page calls the engine when a milestone's date is
 * edited: the card offers a cascade only for a change of at least one day
 * on a step that is neither the last nor the anchor, and announces the
 * shift measured from the date it displays; the page then either records
 * the date on that step alone or cascades it.
 */
module Editing {
  import opened Wrappers
  import opened Calendar
  import opened DayRules
  import opened Timeline

  /** The date a card shows and edits: the actual date when there is one, else the calculated one. */
  function DisplayedDate(step: TimelineStep): (d: Instant)
    ensures step.actualDate.Some? ==> d == step.actualDate.value
    ensures step.actualDate.None? ==> d == step.calculatedDate
  {
    if step.actualDate.Some? then step.actualDate.value else step.calculatedDate
  }

  /** The number of days the cascade dialog says the step was moved by. */
  function AnnouncedShift(step: TimelineStep, newDate: Instant): (n: int)
    ensures 2 * n * MsPerDay - MsPerDay <= 2 * (ToMs(newDate) - ToMs(DisplayedDate(step))) < 2 * n * MsPerDay + MsPerDay
  {
    RoundedDayDiff(newDate, DisplayedDate(step))
  }

  /** The card offers a cascade: a change of at least one day, a later step exists, not the anchor. */
  predicate OffersCascade(timeline: seq<TimelineStep>, index: nat, newDate: Instant)
    requires index < |timeline|
    ensures OffersCascade(timeline, index, newDate) ==>
      index + 1 < |timeline| && !timeline[index].isAnchor && AnnouncedShift(timeline[index], newDate) != 0
  {
    var original := DisplayedDate(timeline[index]);
    && (ToMs(newDate) - ToMs(original) >= MsPerDay || ToMs(original) - ToMs(newDate) >= MsPerDay)
    && index < |timeline| - 1
    && !timeline[index].isAnchor
  }

  /** Recording a date without cascading: the step gets the actual date and is completed; its calculated date stays. */
  function RecordDate(timeline: seq<TimelineStep>, stepIndex: nat, newDate: Instant): (r: seq<TimelineStep>)
    requires stepIndex < |timeline|
    ensures |r| == |timeline|
    ensures forall i :: 0 <= i < |r| && i != stepIndex ==> r[i] == timeline[i]
    ensures r[stepIndex].actualDate == Some(newDate) && r[stepIndex].status == Completed
    ensures r[stepIndex].calculatedDate == timeline[stepIndex].calculatedDate
    ensures r[stepIndex] == timeline[stepIndex].(actualDate := r[stepIndex].actualDate, status := r[stepIndex].status)
  {
    timeline[stepIndex := timeline[stepIndex].(actualDate := Some(newDate), status := Completed)]
  }

  /**
   * The page's date-change handler as written: a cascade measures the
   * shift from the step's calculated date, whatever the card displayed.
   */
  function HandleDateChange(timeline: seq<TimelineStep>, stepIndex: nat, newDate: Instant, shouldCascade: bool)
    : (r: seq<TimelineStep>)
    requires stepIndex < |timeline|
    ensures |r| == |timeline|
    ensures !shouldCascade ==> r == RecordDate(timeline, stepIndex, newDate)
    ensures shouldCascade ==>
      r == CascadeTimelineUpdate(timeline, stepIndex, newDate, timeline[stepIndex].calculatedDate)
  {
    if shouldCascade then
      CascadeTimelineUpdate(timeline, stepIndex, newDate, timeline[stepIndex].calculatedDate)
    else
      RecordDate(timeline, stepIndex, newDate)
  }

  /**
   * The first three steps of the repair template projected from Monday
   * 2026-01-05, after the middle step was recorded as done three days
   * after its calculated date.
   */
  function SampleTimeline(): seq<TimelineStep> {
    var monday := Instant(20458, 0);        // 2026-01-05
    [ TimelineStep("step-0", "Estimate Signed", None, 0, monday, Some(monday), Some("first_estimate_signed_date"), Completed, true, true),
      TimelineStep("step-1", "Materials Ordered", None, 1, Instant(20459, 0), Some(Instant(20462, 0)), None, Completed, false, false),
      TimelineStep("step-2", "Repair Scheduled", None, 3, Instant(20461, 0), None, None, Pending, false, false) ]
  }

  /**
   * As written, moving a completed step's date back onto its calculated
   * day is offered as a three-day cascade, yet the cascade sees no change
   * and returns the timeline untouched: the edit is lost.
   */
  lemma CascadeDropsEdit()
    ensures var t, newDate := SampleTimeline(), Instant(20459, 0);
      && OffersCascade(t, 1, newDate)
      && AnnouncedShift(t[1], newDate) == -3
      && HandleDateChange(t, 1, newDate, true) == t
      && HandleDateChange(t, 1, newDate, true)[1].actualDate != Some(newDate)
  {
  }

  /**
   * As written, a cascade announced as four days moves the later steps by
   * seven: the shift is measured from the calculated date, not from the
   * displayed actual date.
   */
  lemma CascadeShiftDiffersFromAnnounced()
    ensures var t, newDate := SampleTimeline(), Instant(20466, 0);
      && OffersCascade(t, 1, newDate)
      && AnnouncedShift(t[1], newDate) == 4
      && HandleDateChange(t, 1, newDate, true)[2].calculatedDate.day == t[2].calculatedDate.day + 7
  {
  }

  /** The date-change handler measuring a cascade from the date the card displayed and announced. */
  function HandleDateChangeCorrected(timeline: seq<TimelineStep>, stepIndex: nat, newDate: Instant, shouldCascade: bool)
    : (r: seq<TimelineStep>)
    requires stepIndex < |timeline|
    ensures |r| == |timeline|
    ensures !shouldCascade ==> r == RecordDate(timeline, stepIndex, newDate)
    ensures shouldCascade ==>
      r == CascadeTimelineUpdate(timeline, stepIndex, newDate, DisplayedDate(timeline[stepIndex]))
  {
    if shouldCascade then
      CascadeTimelineUpdate(timeline, stepIndex, newDate, DisplayedDate(timeline[stepIndex]))
    else
      RecordDate(timeline, stepIndex, newDate)
  }

  /**
   * With the corrected handler, a cascade the card offered and the user
   * confirmed always records the new date on the edited step, keeps the
   * earlier steps, and moves every later step by exactly the announced
   * number of days (then off a weekend).
   */
  lemma CorrectedCascadeMatchesAnnouncement(timeline: seq<TimelineStep>, stepIndex: nat, newDate: Instant)
    requires stepIndex < |timeline| && OffersCascade(timeline, stepIndex, newDate)
    ensures var r := HandleDateChangeCorrected(timeline, stepIndex, newDate, true);
      && AnnouncedShift(timeline[stepIndex], newDate) != 0
      && r[stepIndex].actualDate == Some(newDate)
      && r[stepIndex].calculatedDate == newDate
      && (forall i :: 0 <= i < stepIndex ==> r[i] == timeline[i])
      && (forall i :: stepIndex < i < |r| ==>
            ShiftedStep(timeline[i], AnnouncedShift(timeline[stepIndex], newDate), r[i]))
  {
  }
}
