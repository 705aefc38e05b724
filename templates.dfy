/**
 * The built-in template catalog, `TIMELINE_TEMPLATES`: three templates,
 * each an ordered list of milestone specifications measured in days from
 * an anchor date read from the job record.
 */
module Templates {
  import opened Wrappers

  /**
   * One milestone of a template.  `relatedField` names the job field that
   * holds the milestone's actual date; `isAnchor` marks the milestone whose
   * date is the anchor itself (an absent flag is false).
   */
  datatype StepSpec = StepSpec(
    name: string,
    offsetDays: int,
    relatedField: Option<string>,
    description: Option<string>,
    isAnchor: bool)

  datatype Template = Template(
    id: string,
    name: string,
    description: string,
    anchorField: string,
    anchorLabel: string,
    steps: seq<StepSpec>)

  const EstimateSignedField := "first_estimate_signed_date"

  /** The opening milestone shared by all built-in templates. */
  const EstimateSigned := StepSpec("Estimate Signed", 0, Some(EstimateSignedField), None, true)

  const RoofingStandard := Template(
    "roofing_standard",
    "Standard Roof Replacement",
    "Typical timeline for residential roof replacement",
    EstimateSignedField,
    "Estimate Signed",
    [ EstimateSigned,
      StepSpec("Permits Filed", 2, Some("file_date"), Some("Submit permit application"), false),
      StepSpec("Deposit Received", 5, None, Some("Customer deposit payment due"), false),
      StepSpec("Materials Ordered", 7, None, Some("Order roofing materials"), false),
      StepSpec("Permit Approved", 10, None, Some("Permit approval expected"), false),
      StepSpec("Job Start", 14, None, Some("Crew arrives on site"), false),
      StepSpec("Job Complete", 17, None, Some("Work finished"), false),
      StepSpec("Final Inspection", 20, Some("warranty_and_permit_closed"), Some("City/county inspection"), false),
      StepSpec("Final Payment", 22, Some("paid_in_full_date"), Some("Customer final payment due"), false) ])

  const RoofingRepair := Template(
    "roofing_repair",
    "Roof Repair",
    "Expedited timeline for repairs",
    EstimateSignedField,
    "Estimate Signed",
    [ EstimateSigned,
      StepSpec("Materials Ordered", 1, None, None, false),
      StepSpec("Repair Scheduled", 3, None, None, false),
      StepSpec("Repair Complete", 5, None, None, false),
      StepSpec("Payment Received", 7, Some("paid_in_full_date"), None, false) ])

  const StormRestoration := Template(
    "storm_restoration",
    "Storm Restoration",
    "Insurance claim timeline",
    EstimateSignedField,
    "Estimate Signed",
    [ EstimateSigned,
      StepSpec("Insurance Claim Filed", 1, None, None, false),
      StepSpec("Adjuster Meeting", 7, None, None, false),
      StepSpec("Insurance Approval", 14, None, None, false),
      StepSpec("Permits Filed", 16, Some("file_date"), None, false),
      StepSpec("Deductible Paid", 18, None, None, false),
      StepSpec("Materials Ordered", 20, None, None, false),
      StepSpec("Job Start", 25, None, None, false),
      StepSpec("Job Complete", 30, None, None, false),
      StepSpec("Final Inspection", 33, Some("warranty_and_permit_closed"), None, false),
      StepSpec("Insurance Payment", 40, Some("paid_in_full_date"), None, false) ])

  /** `TIMELINE_TEMPLATES`: the three built-in templates, each filed under its own id. */
  function TimelineTemplates(): (catalog: map<string, Template>)
    ensures catalog.Keys == {"roofing_standard", "roofing_repair", "storm_restoration"}
    ensures forall id :: id in catalog ==> catalog[id].id == id
  {
    map[
      "roofing_standard" := RoofingStandard,
      "roofing_repair" := RoofingRepair,
      "storm_restoration" := StormRestoration]
  }

  /** Offsets never decrease along the template. */
  predicate OffsetsNonDecreasing(steps: seq<StepSpec>) {
    forall i :: 0 < i < |steps| ==> steps[i - 1].offsetDays <= steps[i].offsetDays
  }

  /**
   * The shape the engine's callers rely on: the first milestone, and only
   * it, is the anchor, at offset 0, synced to the anchor field itself; the
   * offsets never decrease.
   */
  predicate WellFormed(t: Template) {
    && |t.steps| > 0
    && t.anchorField != ""
    && t.steps[0].isAnchor
    && t.steps[0].offsetDays == 0
    && t.steps[0].relatedField == Some(t.anchorField)
    && (forall i :: 0 < i < |t.steps| ==> !t.steps[i].isAnchor)
    && OffsetsNonDecreasing(t.steps)
  }

  /** Adjacent non-decreasing offsets are non-decreasing between any two positions. */
  lemma {:induction false} OffsetsOrdered(steps: seq<StepSpec>, i: int, j: int)
    requires OffsetsNonDecreasing(steps) && 0 <= i <= j < |steps|
    ensures steps[i].offsetDays <= steps[j].offsetDays
    decreases j - i
  {
    if i < j {
      OffsetsOrdered(steps, i, j - 1);
    }
  }

  /**
   * Every built-in template is filed under its own id, is well formed,
   * anchors on the estimate-signed date and puts every later milestone a
   * positive number of days after the anchor.
   */
  lemma BuiltInTemplate(id: string)
    requires id in TimelineTemplates()
    ensures var t := TimelineTemplates()[id];
      && t.id == id
      && WellFormed(t)
      && t.anchorField == EstimateSignedField
      && forall i :: 0 < i < |t.steps| ==> 0 < t.steps[i].offsetDays
  {
    if id == "roofing_standard" {
      assert TimelineTemplates()[id] == RoofingStandard;
    } else if id == "roofing_repair" {
      assert TimelineTemplates()[id] == RoofingRepair;
    } else {
      assert TimelineTemplates()[id] == StormRestoration;
    }
  }
}
