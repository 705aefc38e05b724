# Project timeline engine, in Dafny

A model of the project timeline engine of the roofing operations dashboard
(`frontend/src/utils/timeline.js`). The engine takes a job record from the CRM
and one of three built-in templates. It projects every milestone's date from
the job's anchor date, which is the date the estimate was signed. Offsets count
business days by default. In calendar-day mode they count calendar days and
then move a weekend result to the next Monday. Each milestone gets a status,
with a fixed precedence between statuses. When a user edits a date, the engine
can cascade the edit: every later milestone moves by the same number of days.

Files:

- `wrappers.dfy`: `Option` and `Result`.
- `calendar.dfy` (module `Calendar`): the part of the JavaScript `Date` the
  engine uses. A date is an instant: a day number counted from 1970-01-01 plus
  the milliseconds since midnight. The weekday is `(day + 4) % 7`, where 0 is
  Sunday. The file also holds a mutable `Date` class with `setDate`/`getDay`,
  millisecond comparison and the rounded day difference.
- `day_rules.dfy` (module `DayRules`): `addBusinessDays` and `avoidWeekend`.
  Each is a method over a mutable `Date`, proved equal to a function. The
  functions are characterised independently of how they compute:
  - business days: "the n-th weekday after the start";
  - weekend avoidance: "the first weekday on or after the day".
- `templates.dfy` (module `Templates`): `TIMELINE_TEMPLATES` and the shape
  every built-in template has.
- `timeline.dfy` (module `Timeline`): `applyTimeline`, the status rule,
  `cascadeTimelineUpdate` and `getJobTimeline`. All are pure functions.
- `editing.dfy` (module `Editing`): how the timeline page and card call the
  engine when a date is edited. This is where the two findings below sit.
- `scenarios.dfy` (module `Scenarios`): worked examples on the repair
  template.

Inputs that the source takes from its environment are parameters here:
- the current instant (`new Date()`);
- the parsed form of a date string.

## Model

| member | source | states |
|---|---|---|
| `Calendar.FromUnixSeconds` | frontend/src/utils/timeline.js:222-225 | a numeric field is Unix seconds: the instant lies `seconds * 1000` ms after the epoch |
| `Calendar.DayOfWeek` | frontend/src/utils/timeline.js:185 | `getDay()`: a weekday number from 0 (Sunday) to 6 (Saturday); day 0, 1970-01-01, is a Thursday (4) |
| `Calendar.DayOfWeekNext` | frontend/src/utils/timeline.js:185 | the next day's weekday is the following one in the seven-day cycle |
| `Calendar.Date.GetDay` | frontend/src/utils/timeline.js:200 | `date.getDay()` is the weekday of the day the object currently holds |
| `Calendar.BeforeByDay` | frontend/src/utils/timeline.js:254 | comparing two dates by milliseconds is comparing the day first and the time of day second |
| `Calendar.ShiftDays` | frontend/src/utils/timeline.js:236-237 | `setDate(getDate() + n)` moves the instant by exactly n days' worth of milliseconds and keeps the time of day |
| `Calendar.RoundedDayDiff` | frontend/src/utils/timeline.js:282 | the result n is `Math.round` of the millisecond difference in days: the difference lies in [n - 1/2, n + 1/2) days |
| `Calendar.RoundedDayDiffWholeDays` | frontend/src/utils/timeline.js:282 | two instants at the same time of day differ by exactly their day numbers |
| `Calendar.RoundedDayDiffNonZero` | frontend/src/components/TimelineCard.jsx:60 | a change of at least one whole day (the card's test) never rounds to zero days |
| `Calendar.Date.SetDate` | frontend/src/utils/timeline.js:184 | `setDate` moves the date to the given day and keeps its time of day |
| `DayRules.BusinessDaysAfter` | frontend/src/utils/timeline.js:179-194 | for n <= 0 the date itself; for n > 0 a weekday strictly after the date, with exactly n weekdays in (date, result]; time of day kept |
| `DayRules.NthBusinessDayUnique` | frontend/src/utils/timeline.js:179-194 | the description "n-th weekday after the start" fixes the day uniquely |
| `DayRules.BusinessDaysAfterMonotone` | frontend/src/utils/timeline.js:179-194 | more business days never land on an earlier day |
| `DayRules.AddBusinessDays` | frontend/src/utils/timeline.js:179-194 | the day-by-day walk over a `Date` returns the date unchanged for days <= 0, and otherwise the days-th weekday after it at the same time of day |
| `DayRules.WeekendAdjusted` | frontend/src/utils/timeline.js:199-209 | the result is the first weekday on or after the date, at most 2 days later, same time of day; a weekday is left unchanged |
| `DayRules.FirstWeekdayUnique` | frontend/src/utils/timeline.js:199-209 | "first weekday on or after d" fixes the day uniquely |
| `DayRules.WeekendAdjustedIdempotent` | frontend/src/utils/timeline.js:199-209 | correcting an already corrected date changes nothing |
| `DayRules.WeekendAdjustedMonotone` | frontend/src/utils/timeline.js:199-209 | weekend correction never swaps the order of two dates |
| `DayRules.AvoidWeekend` | frontend/src/utils/timeline.js:199-209 | moves Saturday +2 and Sunday +1 in place on the given `Date` and returns that same object |
| `Templates.TimelineTemplates` | frontend/src/utils/timeline.js:8-174 | the catalog holds exactly `roofing_standard`, `roofing_repair` and `storm_restoration`, each filed under its own id |
| `Templates.OffsetsOrdered` | frontend/src/utils/timeline.js:15-172 | offsets that never decrease step to step never decrease between any two steps |
| `Templates.BuiltInTemplate` | frontend/src/utils/timeline.js:8-174 | every built-in template sits under its own id. Its first step, and only that one, is the anchor, at offset 0, synced to the anchor field `first_estimate_signed_date`. Later offsets are positive and non-decreasing |
| `Timeline.StatusOf` | frontend/src/utils/timeline.js:248-258 | completed iff there is an actual date; else overdue iff the calculated instant is on an earlier day or earlier today; else today iff on now's day; pending iff on a later day |
| `Timeline.StepIdInjective` | frontend/src/utils/timeline.js:261 | `step-${index}` identifiers of different indices differ |
| `Timeline.ProjectStep` | frontend/src/utils/timeline.js:228-271 | one step: id, copied fields, `isSynced` iff the related field is set, calculated date per mode, actual date iff the related field holds a truthy value, status by the rule |
| `Timeline.ApplyTimeline` | frontend/src/utils/timeline.js:214-275 | fails with `AnchorDateMissing(anchorField)` exactly when the job has no truthy anchor value. Otherwise it returns one step per milestone in template order, each as above: an anchor step sits on the anchor date; business mode gives the offset-th weekday after it; calendar mode gives the first weekday on or after anchor + offset |
| `Timeline.ProjectionIdsDistinct` | frontend/src/utils/timeline.js:228-261 | the steps of a projected timeline have pairwise distinct ids |
| `Timeline.CalculatedDaysOrdered` | frontend/src/utils/timeline.js:231-238 | on a well-formed template, a later milestone's calculated day is never earlier, in either mode |
| `Timeline.ProjectionChronological` | frontend/src/utils/timeline.js:228-272 | on a well-formed template: calculated days run in template order; steps with positive offset are on weekdays; the anchor step is completed with the anchor date as its actual date |
| `Timeline.GetJobTimeline` | frontend/src/utils/timeline.js:316-324 | an unknown template id fails with `TemplateNotFound`; a known one is projected in business-day mode |
| `Timeline.GetJobTimelineProperties` | frontend/src/utils/timeline.js:316-324 | for a built-in template: fails exactly when the estimate-signed date is missing. Otherwise the timeline is in date order, every step after the anchor is on a weekday and the anchor step is completed |
| `Timeline.ShiftDate` | frontend/src/utils/timeline.js:296-301 | a shifted date is the first weekday on or after old day + difference, same time of day |
| `Timeline.ShiftStep` | frontend/src/utils/timeline.js:296-309 | a later step keeps every field except its two dates; the calculated date is shifted; a null actual date stays null and a present one is shifted the same way |
| `Timeline.CascadeTimelineUpdate` | frontend/src/utils/timeline.js:280-311 | same length; the input itself when the rounded difference is 0; earlier steps unchanged; the edited step gets the new date as actual and calculated date and nothing else changes; later steps are shifted as above; no status changes |
| `Timeline.CascadeKeepsLaterStepsOrdered` | frontend/src/utils/timeline.js:287-310 | steps after the edited one that were in date order stay in date order |
| `Editing.DisplayedDate` | frontend/src/components/TimelineCard.jsx:57 | the date the card edits is the actual date when there is one, else the calculated date |
| `Editing.AnnouncedShift` | frontend/src/components/TimelineCard.jsx:319 | the number of days the dialog announces is `Math.round` of the change from the displayed date, halves rounded up |
| `Editing.OffersCascade` | frontend/src/components/TimelineCard.jsx:56-63 | a cascade is offered only for a change of at least one day on a step that is neither the last nor the anchor, and then the announced shift is never zero |
| `Editing.RecordDate` | frontend/src/pages/Timeline.jsx:66-71 | an edit without cascade sets only that step's actual date and marks it completed. Its calculated date and every other step are unchanged |
| `Editing.HandleDateChange` | frontend/src/pages/Timeline.jsx:55-74 | as written: a cascade is computed from the step's calculated date, a plain edit records the date |
| `Editing.CascadeDropsEdit` | frontend/src/pages/Timeline.jsx:58 | an offered 3-day cascade on a completed step comes back unchanged: the edit is lost |
| `Editing.CascadeShiftDiffersFromAnnounced` | frontend/src/pages/Timeline.jsx:58 | a cascade announced as 4 days moves the next step by 7 |
| `Editing.HandleDateChangeCorrected` | frontend/src/components/TimelineCard.jsx:55-67 | the handler with the cascade measured from the displayed date (actual, else calculated) |
| `Editing.CorrectedCascadeMatchesAnnouncement` | frontend/src/components/TimelineCard.jsx:55-67 | corrected: an offered cascade is never a no-op. It records the new date on the step, keeps earlier steps and moves later ones by exactly the announced number of days |
| `Scenarios.RoofRepairProjection` | frontend/src/utils/timeline.js:73-107 | repair template from Monday 2026-01-05: days 2026-01-05, -06, -08, -12, -14 |
| `Scenarios.RoofRepairCascade` | frontend/src/utils/timeline.js:280-311 | moving step 1 from 01-06 to 01-09 shifts step 2 from 01-08 onto Sunday 01-11, corrected to 01-12 |
| `Scenarios.MissingAnchor` | frontend/src/utils/timeline.js:216-220 | a job without `first_estimate_signed_date` fails naming that field |

The page's non-cascade handler (`frontend/src/pages/Timeline.jsx:66-71`) sets
only the actual date and the status and leaves the calculated date as it was;
`Editing.RecordDate` follows it.

## Left out

- Time zones and daylight saving: the local time zone is UTC (offset zero) with no daylight saving, so day numbers, `getDay` and `toDateString` are UTC days and a Unix-seconds value maps straight to its UTC day. Under another offset the source would give a different local day and weekday for part of each day.
- Parsing date strings: a string field carries the instant it parses to. Malformed strings, which yield an invalid `Date` in the source, are not modelled.
- Numeric fields that are not whole numbers, NaN, and values of other JavaScript types (booleans, objects) are not modelled. Truthiness is modelled only for null, numbers and strings.
- The clock: `now` is one parameter for a whole projection. The source reads `new Date()` once per step, so a projection that runs across midnight could see two different nows.
- `Math.round` on floating point: the day difference uses exact integer rounding of the millisecond difference. This agrees for every difference that floating point represents exactly.
- The range of `Date` (±8.64e15 ms) and invalid dates: instants are unbounded.
- `getJobTimeline` is `async`; the model returns the value, not a promise.
- Default arguments (`useBusinessDays = true`, `templateId = 'roofing_standard'`) are passed explicitly.
- Template lookup is map membership: ids that name inherited properties of a JavaScript object (`toString`, `constructor`) are not modelled.
- The template `name`, `description` and `anchorLabel` strings are carried but nothing is stated about them.
- Rendering, CRM synchronisation and persistence of edited timelines belong to the surrounding application and are not part of this model.

## Findings

| source | as written | input that shows it | evidently intended | confidence | as-written member | corrected member |
|---|---|---|---|---|---|---|
| frontend/src/pages/Timeline.jsx:58 | the cascade measures the shift from the step's `calculatedDate`, but the card decides whether to offer a cascade and announces its size from `actualDate` if set, else `calculatedDate` | step calculated 2026-01-06, completed 2026-01-09, moved back to 2026-01-06 with cascade: the card announces -3 days, the engine sees 0 and returns the timeline unchanged, so the edit is lost | record the new date and shift later steps by the announced -3 days | not executed; high | `Editing.CascadeDropsEdit` | `Editing.CorrectedCascadeMatchesAnnouncement` |
| frontend/src/pages/Timeline.jsx:58 | same line: the shift applied differs from the shift announced whenever the step has an actual date different from its calculated date | same step moved to 2026-01-13: announced 4 days, later steps move 7 | later steps move by the announced number of days | not executed; high | `Editing.CascadeShiftDiffersFromAnnounced` | `Editing.CorrectedCascadeMatchesAnnouncement` |
