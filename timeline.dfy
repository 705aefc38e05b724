/**
 * The timeline engine: `applyTimeline` projects a template onto a job's
 * anchor date, `cascadeTimelineUpdate` applies a date edit and shifts the
 * later milestones, `getJobTimeline` looks a template up by id.  All three
 * build new values and change nothing they are given.
 */
module Timeline {
  import opened Wrappers
  import opened Calendar
  import opened DayRules
  import opened Templates

  /**
   * A job record field as the CRM delivers it: null, a number (Unix
   * seconds) or a date string together with the instant it parses to.
   */
  datatype FieldValue = Null | Seconds(seconds: int) | DateText(text: string, parsed: Instant)

  /** A job record: field name to value; a missing key is `undefined`. */
  type JobRecord = map<string, FieldValue>

  /** JavaScript truthiness: null, the number 0 and the empty string are falsy. */
  predicate IsTruthy(v: FieldValue) {
    match v
    case Null => false
    case Seconds(s) => s != 0
    case DateText(text, _) => text != ""
  }

  /** `typeof v === 'number' ? new Date(v * 1000) : new Date(v)`. */
  function ToDate(v: FieldValue): Instant
    requires IsTruthy(v)
  {
    match v
    case Seconds(s) => FromUnixSeconds(s)
    case DateText(_, parsed) => parsed
  }

  predicate HasValue(job: JobRecord, field: string) {
    field in job && IsTruthy(job[field])
  }

  /** A milestone is synced when its related field is set (`!!step.relatedField`). */
  predicate HasRelatedField(spec: StepSpec) {
    spec.relatedField.Some? && spec.relatedField.value != ""
  }

  datatype Status = Pending | Completed | Overdue | Today

  datatype TimelineStep = TimelineStep(
    id: string,
    name: string,
    description: Option<string>,
    offsetDays: int,
    calculatedDate: Instant,
    actualDate: Option<Instant>,
    relatedField: Option<string>,
    status: Status,
    isSynced: bool,
    isAnchor: bool)

  datatype TimelineError = AnchorDateMissing(field: string) | TemplateNotFound(templateId: string)

  /** The decimal digits of n, most significant first. */
  function Decimal(n: nat): (s: string)
    ensures |s| >= 1 && (|s| == 1 <==> n < 10)
  {
    if n < 10 then [DigitChar(n)] else Decimal(n / 10) + [DigitChar(n % 10)]
  }

  function DigitChar(d: nat): char
    requires d < 10
  {
    (48 + d) as char
  }

  /** The identifier `step-${index}`. */
  function StepId(index: nat): string {
    "step-" + Decimal(index)
  }

  lemma {:induction false} DecimalInjective(a: nat, b: nat)
    requires Decimal(a) == Decimal(b)
    ensures a == b
  {
    if a >= 10 && b >= 10 {
      var sa, sb := Decimal(a), Decimal(b);
      assert sa[|sa| - 1] == DigitChar(a % 10) && sb[|sb| - 1] == DigitChar(b % 10);
      assert sa[..|sa| - 1] == Decimal(a / 10) && sb[..|sb| - 1] == Decimal(b / 10);
      DecimalInjective(a / 10, b / 10);
    } else if a < 10 && b < 10 {
      assert Decimal(a)[0] == DigitChar(a);
    }
  }

  /** Distinct positions get distinct identifiers. */
  lemma StepIdInjective(i: nat, j: nat)
    requires StepId(i) == StepId(j)
    ensures i == j
  {
    var pre := "step-";
    assert StepId(i)[|pre|..] == Decimal(i) && StepId(j)[|pre|..] == Decimal(j);
    DecimalInjective(i, j);
  }

  /**
   * The status rule, in order of precedence: completed when there is an
   * actual date; else overdue when the calculated instant is before now
   * (an earlier hour of today counts); else today when it falls on now's
   * day; else pending, which happens exactly when it is on a later day.
   */
  predicate StatusRule(actual: Option<Instant>, calculated: Instant, now: Instant, s: Status) {
    && (s == Completed <==> actual.Some?)
    && (s == Overdue <==> actual.None? && (calculated.day < now.day || (calculated.day == now.day && calculated.time < now.time)))
    && (s == Today <==> actual.None? && calculated.day == now.day && now.time <= calculated.time)
    && (s == Pending <==> actual.None? && now.day < calculated.day)
  }

  function StatusOf(actual: Option<Instant>, calculated: Instant, now: Instant): (s: Status)
    ensures StatusRule(actual, calculated, now, s)
  {
    BeforeByDay(calculated, now);
    if actual.Some? then Completed
    else if Before(calculated, now) then Overdue
    else if calculated.day == now.day then Today
    else Pending
  }

  /** A step's projected date: the anchor, the offset in business days, or the offset in calendar days moved off a weekend. */
  function CalculatedDate(spec: StepSpec, anchor: Instant, useBusinessDays: bool): Instant {
    if spec.isAnchor then anchor
    else if useBusinessDays then BusinessDaysAfter(anchor, spec.offsetDays)
    else WeekendAdjusted(ShiftDays(anchor, spec.offsetDays))
  }

  /** The actual date a step takes from its related field, if that field holds a value. */
  function ActualDate(job: JobRecord, spec: StepSpec): Option<Instant> {
    if HasRelatedField(spec) && HasValue(job, spec.relatedField.value)
    then Some(ToDate(job[spec.relatedField.value]))
    else None
  }

  /**
   * What `applyTimeline` promises of the step it builds from the index-th
   * milestone.
   */
  predicate ProjectedFrom(job: JobRecord, spec: StepSpec, index: nat, anchor: Instant,
                          useBusinessDays: bool, now: Instant, step: TimelineStep)
  {
    && step.id == StepId(index)
    && step.name == spec.name
    && step.description == spec.description
    && step.offsetDays == spec.offsetDays
    && step.relatedField == spec.relatedField
    && step.isSynced == HasRelatedField(spec)
    && step.isAnchor == spec.isAnchor
    && step.calculatedDate.time == anchor.time
    && (spec.isAnchor ==> step.calculatedDate == anchor)
    && (!spec.isAnchor && useBusinessDays && spec.offsetDays <= 0 ==> step.calculatedDate == anchor)
    && (!spec.isAnchor && useBusinessDays && spec.offsetDays > 0 ==>
          IsNthBusinessDayAfter(anchor.day, spec.offsetDays, step.calculatedDate.day))
    && (!spec.isAnchor && !useBusinessDays ==>
          IsFirstWeekdayFrom(anchor.day + spec.offsetDays, step.calculatedDate.day))
    && (step.actualDate.Some? <==> HasRelatedField(spec) && HasValue(job, spec.relatedField.value))
    && (step.actualDate.Some? ==> step.actualDate.value == ToDate(job[spec.relatedField.value]))
    && StatusRule(step.actualDate, step.calculatedDate, now, step.status)
  }

  /** The callback `applyTimeline` maps over the template's milestones. */
  function ProjectStep(job: JobRecord, spec: StepSpec, index: nat, anchor: Instant,
                       useBusinessDays: bool, now: Instant): (step: TimelineStep)
    ensures ProjectedFrom(job, spec, index, anchor, useBusinessDays, now, step)
  {
    var calculatedDate := CalculatedDate(spec, anchor, useBusinessDays);
    var actualDate := ActualDate(job, spec);
    TimelineStep(
      StepId(index), spec.name, spec.description, spec.offsetDays,
      calculatedDate, actualDate, spec.relatedField,
      StatusOf(actualDate, calculatedDate, now),
      HasRelatedField(spec), spec.isAnchor)
  }

  /**
   * `applyTimeline(job, template, useBusinessDays)`, with the current
   * instant passed in: fails naming the anchor field when the job has no
   * value there, otherwise one step per milestone, in template order.
   */
  function ApplyTimeline(job: JobRecord, template: Template, useBusinessDays: bool, now: Instant)
    : (r: Result<seq<TimelineStep>, TimelineError>)
    ensures r.Failure? <==> !HasValue(job, template.anchorField)
    ensures r.Failure? ==> r.error == AnchorDateMissing(template.anchorField)
    ensures r.Success? ==> |r.value| == |template.steps|
    ensures r.Success? ==> forall i :: 0 <= i < |r.value| ==>
      ProjectedFrom(job, template.steps[i], i, ToDate(job[template.anchorField]), useBusinessDays, now, r.value[i])
  {
    if !HasValue(job, template.anchorField) then
      Failure(AnchorDateMissing(template.anchorField))
    else
      var anchorDate := ToDate(job[template.anchorField]);
      Success(seq(|template.steps|, i requires 0 <= i < |template.steps| =>
        ProjectStep(job, template.steps[i], i, anchorDate, useBusinessDays, now)))
  }

  /** Every step of a projected timeline has its own id. */
  lemma ProjectionIdsDistinct(job: JobRecord, template: Template, useBusinessDays: bool, now: Instant, i: int, j: int)
    requires ApplyTimeline(job, template, useBusinessDays, now).Success?
    requires 0 <= i < j < |template.steps|
    ensures ApplyTimeline(job, template, useBusinessDays, now).value[i].id
         != ApplyTimeline(job, template, useBusinessDays, now).value[j].id
  {
    var steps := ApplyTimeline(job, template, useBusinessDays, now).value;
    if steps[i].id == steps[j].id {
      StepIdInjective(i, j);
    }
  }

  /**
   * On a well-formed template the projected dates run in template order,
   * every step after the anchor falls on a weekday, and the anchor step is
   * completed with the anchor date as its actual date.
   */
  lemma {:induction false} ProjectionChronological(job: JobRecord, template: Template, useBusinessDays: bool, now: Instant)
    requires WellFormed(template)
    requires ApplyTimeline(job, template, useBusinessDays, now).Success?
    ensures var steps := ApplyTimeline(job, template, useBusinessDays, now).value;
      && (forall i, j :: 0 <= i <= j < |steps| ==> steps[i].calculatedDate.day <= steps[j].calculatedDate.day)
      && (forall i :: 0 < i < |steps| && 0 < template.steps[i].offsetDays ==> !IsWeekendDay(steps[i].calculatedDate.day))
      && steps[0].status == Completed
      && steps[0].actualDate == Some(steps[0].calculatedDate)
  {
    var steps := ApplyTimeline(job, template, useBusinessDays, now).value;
    var anchor := ToDate(job[template.anchorField]);
    forall i, j | 0 <= i <= j < |steps|
      ensures steps[i].calculatedDate.day <= steps[j].calculatedDate.day
    {
      CalculatedDaysOrdered(template, anchor, useBusinessDays, i, j);
      assert steps[i] == ProjectStep(job, template.steps[i], i, anchor, useBusinessDays, now);
      assert steps[j] == ProjectStep(job, template.steps[j], j, anchor, useBusinessDays, now);
    }
    assert steps[0] == ProjectStep(job, template.steps[0], 0, anchor, useBusinessDays, now);
  }

  lemma CalculatedDaysOrdered(template: Template, anchor: Instant, useBusinessDays: bool, i: int, j: int)
    requires WellFormed(template) && 0 <= i <= j < |template.steps|
    ensures CalculatedDate(template.steps[i], anchor, useBusinessDays).day
         <= CalculatedDate(template.steps[j], anchor, useBusinessDays).day
  {
    var si, sj := template.steps[i], template.steps[j];
    OffsetsOrdered(template.steps, 0, i);
    OffsetsOrdered(template.steps, i, j);
    if i == j {
    } else if useBusinessDays {
      if i == 0 {
        BusinessDaysAfterMonotone(anchor, 0, sj.offsetDays);
      } else {
        BusinessDaysAfterMonotone(anchor, si.offsetDays, sj.offsetDays);
      }
    } else if i > 0 {
      WeekendAdjustedMonotone(ShiftDays(anchor, si.offsetDays), ShiftDays(anchor, sj.offsetDays));
    }
  }

  /** `getJobTimeline(job, templateId)`: look the template up, then project it in business-day mode. */
  function GetJobTimeline(job: JobRecord, templateId: string, now: Instant)
    : (r: Result<seq<TimelineStep>, TimelineError>)
    ensures templateId !in TimelineTemplates() ==> r == Failure(TemplateNotFound(templateId))
    ensures templateId in TimelineTemplates() ==> r == ApplyTimeline(job, TimelineTemplates()[templateId], true, now)
  {
    if templateId !in TimelineTemplates() then Failure(TemplateNotFound(templateId))
    else ApplyTimeline(job, TimelineTemplates()[templateId], true, now)
  }

  /**
   * For a built-in template, a job with an estimate-signed date gets a
   * timeline in date order whose non-anchor steps all land on weekdays;
   * a job without one fails naming that field.
   */
  lemma GetJobTimelineProperties(job: JobRecord, templateId: string, now: Instant)
    requires templateId in TimelineTemplates()
    ensures var r := GetJobTimeline(job, templateId, now);
      && (r.Failure? <==> !HasValue(job, EstimateSignedField))
      && (r.Failure? ==> r.error == AnchorDateMissing(EstimateSignedField))
      && (r.Success? ==>
            && (forall i, j :: 0 <= i <= j < |r.value| ==> r.value[i].calculatedDate.day <= r.value[j].calculatedDate.day)
            && (forall i :: 0 < i < |r.value| ==> !IsWeekendDay(r.value[i].calculatedDate.day))
            && r.value[0].status == Completed)
  {
    var template := TimelineTemplates()[templateId];
    BuiltInTemplate(templateId);
    if ApplyTimeline(job, template, true, now).Success? {
      ProjectionChronological(job, template, true, now);
    }
  }

  /** A later step shifted by the cascade: the two dates move, nothing else does. */
  predicate ShiftedStep(before: TimelineStep, daysDiff: int, after: TimelineStep) {
    && after == before.(calculatedDate := after.calculatedDate, actualDate := after.actualDate)
    && IsShiftOf(before.calculatedDate, daysDiff, after.calculatedDate)
    && (before.actualDate.None? ==> after.actualDate.None?)
    && (before.actualDate.Some? ==>
          after.actualDate.Some? && IsShiftOf(before.actualDate.value, daysDiff, after.actualDate.value))
  }

  /** `to` is `from` moved by daysDiff days and then off a weekend. */
  predicate IsShiftOf(from: Instant, daysDiff: int, to: Instant) {
    to.time == from.time && IsFirstWeekdayFrom(from.day + daysDiff, to.day)
  }

  function ShiftDate(t: Instant, daysDiff: int): (r: Instant)
    ensures IsShiftOf(t, daysDiff, r)
  {
    WeekendAdjusted(ShiftDays(t, daysDiff))
  }

  function ShiftStep(step: TimelineStep, daysDiff: int): (r: TimelineStep)
    ensures ShiftedStep(step, daysDiff, r)
  {
    step.(calculatedDate := ShiftDate(step.calculatedDate, daysDiff),
          actualDate := if step.actualDate.Some? then Some(ShiftDate(step.actualDate.value, daysDiff)) else None)
  }

  /**
   * `cascadeTimelineUpdate(timeline, changedStepIndex, newDate, originalDate)`:
   * when the rounded day difference is zero the timeline comes back as it
   * is; otherwise earlier steps are kept, the edited step takes newDate as
   * both its actual and its calculated date, and every later step is moved
   * by the difference and off a weekend.  Statuses are not recomputed.
   */
  function CascadeTimelineUpdate(timeline: seq<TimelineStep>, changedStepIndex: int,
                                 newDate: Instant, originalDate: Instant): (r: seq<TimelineStep>)
    ensures |r| == |timeline|
    ensures RoundedDayDiff(newDate, originalDate) == 0 ==> r == timeline
    ensures forall i :: 0 <= i < |r| && i < changedStepIndex ==> r[i] == timeline[i]
    ensures RoundedDayDiff(newDate, originalDate) != 0 && 0 <= changedStepIndex < |r| ==>
      r[changedStepIndex] == timeline[changedStepIndex].(actualDate := Some(newDate), calculatedDate := newDate)
    ensures RoundedDayDiff(newDate, originalDate) != 0 ==> forall i :: 0 <= i < |r| && changedStepIndex < i ==>
      ShiftedStep(timeline[i], RoundedDayDiff(newDate, originalDate), r[i])
    ensures forall i :: 0 <= i < |r| ==> r[i].status == timeline[i].status
  {
    var daysDiff := RoundedDayDiff(newDate, originalDate);
    if daysDiff == 0 then timeline
    else
      seq(|timeline|, i requires 0 <= i < |timeline| =>
        if i < changedStepIndex then timeline[i]
        else if i == changedStepIndex then timeline[i].(actualDate := Some(newDate), calculatedDate := newDate)
        else ShiftStep(timeline[i], daysDiff))
  }

  /** Steps after the edited one that were in date order stay in date order. */
  lemma CascadeKeepsLaterStepsOrdered(timeline: seq<TimelineStep>, changedStepIndex: int,
                                      newDate: Instant, originalDate: Instant)
    requires forall i, j :: changedStepIndex < i <= j < |timeline| && 0 <= i ==>
      timeline[i].calculatedDate.day <= timeline[j].calculatedDate.day
    ensures var r := CascadeTimelineUpdate(timeline, changedStepIndex, newDate, originalDate);
      forall i, j :: changedStepIndex < i <= j < |r| && 0 <= i ==> r[i].calculatedDate.day <= r[j].calculatedDate.day
  {
  }
}
