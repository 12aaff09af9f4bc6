/**
 * The six-step quote-request wizard (src/components/Wizard.tsx): the form
 * record, the per-step validity rule, the step machine driven by Next and
 * Previous, the progress figure, and the submission that maps the form to an
 * insert payload, calls the lead store, then best-effort sends the e-mail and
 * moves to the summary view. The lead store and the mailer are outside the
 * model: their answers are parameters.
 */
module Wizard {

  import opened Nullable
  import CampaignOptions
  import BudgetSlider
  import PeriodStep
  import NavButtons

  /** `QuoteRequest`, the wizard's `formData`. */
  datatype QuoteRequest = QuoteRequest(
    name: string,
    email: string,
    campaignOptions: seq<string>,
    budget: int,
    mainObjective: string,
    startMonth: string,
    startYear: string,
    endMonth: string,
    endYear: string,
    products: string,
    additionalDetails: string)

  /** The record the wizard mounts with. */
  const InitialForm: QuoteRequest := QuoteRequest("", "", [], 50_000, "", "", "", "", "", "", "")

  /** The step ids, in order; only their number and order matter to the controller. */
  const StepIds: seq<string> := ["objetivo", "inventario", "orcamento", "periodo", "produtos", "contato"]
  const StepCount: int := |StepIds|
  const LastStep: int := StepCount - 1

  /** `canProceed`: the guard of Next on each step; no index outside the six steps passes. */
  predicate CanProceed(step: int, f: QuoteRequest)
    ensures CanProceed(step, f) ==> 0 <= step <= LastStep
  {
    if step == 0 then f.mainObjective != ""
    else if step == 1 then |f.campaignOptions| > 0
    else if step == 2 then f.budget > 0
    else if step == 3 || step == 4 then true
    else if step == 5 then f.name != "" && f.email != ""
    else false
  }

  /** The freshly mounted form is stopped at the objective step and nowhere else before contact. */
  lemma InitialFormGuards()
    ensures !CanProceed(0, InitialForm) && !CanProceed(1, InitialForm)
    ensures CanProceed(2, InitialForm) && CanProceed(3, InitialForm) && CanProceed(4, InitialForm)
    ensures !CanProceed(5, InitialForm)
  {
  }

  /** One field-update callback of a step component: `setFormData({ ...formData, field })`. */
  datatype FieldEdit =
    | SetObjective(objective: string)
    | SetCampaignOptions(options: seq<string>)
    | SetBudget(amount: int)
    | SetStartMonth(startMonth: string)
    | SetStartYear(startYear: string)
    | SetEndMonth(endMonth: string)
    | SetEndYear(endYear: string)
    | SetProducts(products: string)
    | SetAdditionalDetails(details: string)
    | SetName(name: string)
    | SetEmail(email: string)

  /** The step whose component issues the edit. */
  function OwnerStep(e: FieldEdit): int {
    match e
    case SetObjective(_) => 0
    case SetCampaignOptions(_) => 1
    case SetBudget(_) => 2
    case SetStartMonth(_) => 3
    case SetStartYear(_) => 3
    case SetEndMonth(_) => 3
    case SetEndYear(_) => 3
    case SetProducts(_) => 4
    case SetAdditionalDetails(_) => 4
    case SetName(_) => 5
    case SetEmail(_) => 5
  }

  /**
   * The record after one callback: the named field replaced, every other field
   * kept. A step's guard reads only the fields its own component edits.
   */
  function ApplyEdit(f: QuoteRequest, e: FieldEdit): (g: QuoteRequest)
    ensures forall step :: step != OwnerStep(e) ==> (CanProceed(step, g) <==> CanProceed(step, f))
  {
    match e
    case SetObjective(v) => f.(mainObjective := v)
    case SetCampaignOptions(v) => f.(campaignOptions := v)
    case SetBudget(v) => f.(budget := v)
    case SetStartMonth(v) => f.(startMonth := v)
    case SetStartYear(v) => f.(startYear := v)
    case SetEndMonth(v) => f.(endMonth := v)
    case SetEndYear(v) => f.(endYear := v)
    case SetProducts(v) => f.(products := v)
    case SetAdditionalDetails(v) => f.(additionalDetails := v)
    case SetName(v) => f.(name := v)
    case SetEmail(v) => f.(email := v)
  }

  /** Every amount the budget control can hand to the wizard passes the budget step. */
  lemma SliderBudgetsPassGuard(f: QuoteRequest, raw: int, typed: Option<int>)
    requires BudgetSlider.Min <= raw <= BudgetSlider.Max
    ensures CanProceed(2, ApplyEdit(f, SetBudget(BudgetSlider.RoundToStep(raw))))
    ensures CanProceed(2, ApplyEdit(f, SetBudget(BudgetSlider.CommittedValue(typed))))
  {
    BudgetSlider.RoundStaysInRange(raw);
  }

  /**
   * `Math.round(((currentStep + 1) / steps.length) * 100)`. The quotient has
   * fractional part 0, 1/3 or 2/3, never 1/2, so integer arithmetic is exact.
   */
  function ProgressPercentage(step: int): (p: int)
    requires 0 <= step < StepCount
    ensures 6 * p - 3 <= 100 * (step + 1) < 6 * p + 3
  {
    (100 * (step + 1) + 3) / 6
  }

  /** The figures shown on the six steps. */
  lemma ProgressValues()
    ensures ProgressPercentage(0) == 17 && ProgressPercentage(1) == 33 && ProgressPercentage(2) == 50
    ensures ProgressPercentage(3) == 67 && ProgressPercentage(4) == 83 && ProgressPercentage(5) == 100
  {
  }

  /** Progress grows strictly with the step and reaches 100 exactly on the last step. */
  lemma ProgressMonotone(i: int, j: int)
    requires 0 <= i < j < StepCount
    ensures ProgressPercentage(i) < ProgressPercentage(j)
    ensures ProgressPercentage(j) == 100 <==> j == LastStep
  {
  }

  /** The forward arrow is drawn exactly while progress is below 100. */
  lemma ArrowWhileIncomplete(step: int, isSubmitting: bool)
    requires 0 <= step < StepCount
    ensures NavButtons.Render(step, step == LastStep, isSubmitting).showForwardArrow
        <==> ProgressPercentage(step) < 100
  {
    if step < LastStep {
      ProgressMonotone(step, LastStep);
    }
  }

  /** The row sent to `quote_requests.insert`. */
  datatype InsertPayload = InsertPayload(
    name: string,
    email: string,
    campaignOptions: seq<string>,
    budget: int,
    mainObjective: string,
    startDate: Option<string>,
    endDate: Option<string>,
    products: Option<string>,
    additionalDetails: Option<string>)

  /** `month && year ? `${year}-${month}-01` : null`. */
  function PeriodDate(month: string, year: string): (date: Option<string>)
    ensures date.None? <==> month == "" || year == ""
  {
    if month != "" && year != "" then Some(year + "-" + month + "-01") else None
  }

  /** A built date splits back into the year, the month and the fixed day suffix. */
  lemma PeriodDateParts(month: string, year: string)
    requires month != "" && year != ""
    ensures var d := PeriodDate(month, year).value;
      && |d| == |year| + |month| + 4
      && d[..|year|] == year && d[|year|] == '-'
      && d[|year| + 1..|year| + 1 + |month|] == month
      && d[|year| + 1 + |month|..] == "-01"
  {
    var d := PeriodDate(month, year).value;
    assert d == year + "-" + month + "-01";
  }

  /** `text || null`. */
  function NullIfEmpty(text: string): (r: Option<string>)
    ensures r.None? <==> text == ""
    ensures r.GetOr("") == text
  {
    if text == "" then None else Some(text)
  }

  /**
   * The insert payload built from the form. It loses nothing the form held
   * except half-filled periods: the copied fields are equal, emptied texts
   * read back as "", and a date is present exactly when both its month and
   * year were chosen.
   */
  function ToPayload(f: QuoteRequest): (p: InsertPayload)
    ensures p.name == f.name && p.email == f.email && p.campaignOptions == f.campaignOptions
    ensures p.budget == f.budget && p.mainObjective == f.mainObjective
    ensures p.products.GetOr("") == f.products && p.additionalDetails.GetOr("") == f.additionalDetails
    ensures p.products.None? <==> f.products == ""
    ensures p.additionalDetails.None? <==> f.additionalDetails == ""
    ensures p.startDate.Some? <==> f.startMonth != "" && f.startYear != ""
    ensures p.endDate.Some? <==> f.endMonth != "" && f.endYear != ""
  {
    InsertPayload(
      f.name, f.email, f.campaignOptions, f.budget, f.mainObjective,
      PeriodDate(f.startMonth, f.startYear),
      PeriodDate(f.endMonth, f.endYear),
      NullIfEmpty(f.products),
      NullIfEmpty(f.additionalDetails))
  }

  /** The mounted form sends no dates and no free text. */
  lemma InitialPayload()
    ensures ToPayload(InitialForm) == InsertPayload("", "", [], 50_000, "", None, None, None, None)
  {
  }

  /**
   * A date built from the period menus is `YYYY-MM-01`: four digits naming the
   * chosen year, a dash, a two-digit month from 01 to 12, and `-01`.
   */
  lemma MenuDateShape(currentYear: nat, m: nat, y: nat)
    requires 1000 <= currentYear <= 9995 && m < 12 && y < 5
    ensures var d := PeriodDate(PeriodStep.Months[m].value,
                                PeriodStep.DecimalString(PeriodStep.Years(currentYear)[y]));
      && d.Some? && |d.value| == 10
      && PeriodStep.AllDigits(d.value[..4]) && d.value[4] == '-'
      && PeriodStep.AllDigits(d.value[5..7]) && 1 <= PeriodStep.DecimalValue(d.value[5..7]) <= 12
      && d.value[7..] == "-01"
      && PeriodStep.DecimalValue(d.value[..4]) == PeriodStep.Years(currentYear)[y]
  {
    var year := PeriodStep.Years(currentYear)[y];
    var ys := PeriodStep.DecimalString(year);
    var ms := PeriodStep.Months[m].value;
    PeriodStep.MonthCodes();
    PeriodStep.FourDigitYear(year);
    PeriodStep.DecimalStringRoundTrip(year);
    PeriodDateParts(ms, ys);
  }

  /** The row the lead store returns from `insert(...).select().single()`. */
  datatype PersistedLead = PersistedLead(id: string, row: InsertPayload)

  /** The `lead` handed to the summary view: the stored row plus display fields. */
  datatype LeadSummary = LeadSummary(
    lead: PersistedLead,
    objective: string,
    inventory: seq<string>,
    budget: int,
    startDate: string,
    endDate: string,
    notes: string)

  /** `month && year ? `${month}/${year}` : ""`. */
  function SummaryPeriod(month: string, year: string): (text: string)
    ensures text == "" <==> PeriodDate(month, year).None?
  {
    if month != "" && year != "" then month + "/" + year else ""
  }

  /** The summary handed to the next page: the stored lead and the form as the visitor filled it. */
  function BuildSummary(lead: PersistedLead, f: QuoteRequest): (s: LeadSummary)
    ensures s.lead == lead && s.objective == f.mainObjective && s.inventory == f.campaignOptions
    ensures s.budget == f.budget && s.notes == f.additionalDetails
    ensures s.startDate == "" <==> PeriodDate(f.startMonth, f.startYear).None?
    ensures s.endDate == "" <==> PeriodDate(f.endMonth, f.endYear).None?
  {
    LeadSummary(lead, f.mainObjective, f.campaignOptions, f.budget,
                SummaryPeriod(f.startMonth, f.startYear),
                SummaryPeriod(f.endMonth, f.endYear),
                f.additionalDetails)
  }

  /**
   * A summary period is the month, a slash and the year, and it names the same
   * month and year as the date stored for the lead.
   */
  lemma SummaryPeriodParts(month: string, year: string)
    requires month != "" && year != ""
    ensures var t := SummaryPeriod(month, year);
      && |t| == |month| + 1 + |year|
      && t[..|month|] == month && t[|month|] == '/' && t[|month| + 1..] == year
    ensures var t, d := SummaryPeriod(month, year), PeriodDate(month, year).value;
      && t[..|month|] == d[|year| + 1..|year| + 1 + |month|]
      && t[|month| + 1..] == d[..|year|]
  {
    PeriodDateParts(month, year);
    var t := SummaryPeriod(month, year);
    assert t == month + "/" + year;
  }

  /** The summary shows a period exactly when the stored row has the matching date. */
  lemma SummaryAgreesWithPayload(lead: PersistedLead, f: QuoteRequest)
    ensures var s := BuildSummary(lead, f);
      && (s.startDate != "" <==> ToPayload(f).startDate.Some?)
      && (s.endDate != "" <==> ToPayload(f).endDate.Some?)
      && s.budget == ToPayload(f).budget && s.objective == ToPayload(f).mainObjective
  {
  }

  /** What the lead store's insert answered. A thrown error and a returned error are one case. */
  datatype InsertOutcome = Inserted(lead: PersistedLead) | InsertFailed

  /** What the mailer answered; the wizard ignores it. */
  datatype EmailOutcome = EmailSent | EmailFailed

  /** The wizard's visible actions, in the order it performs them. */
  datatype Effect =
    | RequiredFieldToast
    | InsertRequested(payload: InsertPayload)
    | EmailRequested(lead: PersistedLead)
    | NavigatedToSummary(summary: LeadSummary)
    | SubmitErrorToast

  /**
   * The mounted wizard. `inFlight` holds the `formData` each submission
   * captured, for every submission whose insert has not answered yet.
   */
  class Controller {
    var currentStep: int
    var isSubmitting: bool
    var formData: QuoteRequest
    var inFlight: seq<QuoteRequest>
    var effects: seq<Effect>

    ghost predicate Valid()
      reads this
    {
      && 0 <= currentStep <= LastStep
      && (isSubmitting ==> inFlight != [])
      && forall k :: 0 <= k < |inFlight| ==> CanProceed(LastStep, inFlight[k])
    }

    /**
     * The states the page can reach: Next is disabled while submitting and is
     * the only way to start a submission, so at most one insert is
     * outstanding, and one is exactly while `isSubmitting` holds.
     */
    ghost predicate OneSubmission()
      reads this
    {
      |inFlight| <= 1 && (isSubmitting <==> |inFlight| == 1)
    }

    constructor ()
      ensures Valid() && OneSubmission()
      ensures currentStep == 0 && !isSubmitting && formData == InitialForm
      ensures inFlight == [] && effects == []
    {
      currentStep := 0;
      isSubmitting := false;
      formData := InitialForm;
      inFlight := [];
      effects := [];
    }

    /** The percentage shown for the current step. */
    function Progress(): (p: int)
      reads this
      requires Valid()
      ensures 0 < p <= 100
      ensures p == 100 <==> currentStep == LastStep
    {
      if currentStep < LastStep then ProgressMonotone(currentStep, LastStep); ProgressPercentage(currentStep)
      else ProgressPercentage(currentStep)
    }

    /** A step component's callback. */
    method Edit(e: FieldEdit)
      requires Valid()
      modifies this
      ensures Valid()
      ensures formData == ApplyEdit(old(formData), e)
      ensures currentStep == old(currentStep) && isSubmitting == old(isSubmitting)
      ensures inFlight == old(inFlight) && effects == old(effects)
    {
      formData := ApplyEdit(formData, e);
    }

    /**
     * `handleNext`: refused with a toast when the step's guard fails; otherwise
     * one step forward, or on the last step the start of `handleSubmit`:
     * `isSubmitting` set and the insert of the current form requested. Like the
     * source, it does not look at `isSubmitting`.
     */
    method HandleNext()
      requires Valid()
      modifies this
      ensures Valid()
      ensures formData == old(formData)
      ensures !CanProceed(old(currentStep), old(formData)) ==>
        && currentStep == old(currentStep) && isSubmitting == old(isSubmitting)
        && inFlight == old(inFlight) && effects == old(effects) + [RequiredFieldToast]
      ensures CanProceed(old(currentStep), old(formData)) && old(currentStep) < LastStep ==>
        && currentStep == old(currentStep) + 1 && isSubmitting == old(isSubmitting)
        && inFlight == old(inFlight) && effects == old(effects)
      ensures CanProceed(old(currentStep), old(formData)) && old(currentStep) == LastStep ==>
        && currentStep == LastStep && isSubmitting
        && inFlight == old(inFlight) + [old(formData)]
        && effects == old(effects) + [InsertRequested(ToPayload(old(formData)))]
      ensures old(OneSubmission())
        && !NavButtons.Render(old(currentStep), old(currentStep) == LastStep, old(isSubmitting)).nextDisabled
        ==> OneSubmission()
    {
      if !CanProceed(currentStep, formData) {
        effects := effects + [RequiredFieldToast];
        return;
      }
      if currentStep < StepCount - 1 {
        currentStep := currentStep + 1;
      } else {
        isSubmitting := true;
        effects := effects + [InsertRequested(ToPayload(formData))];
        inFlight := inFlight + [formData];
      }
    }

    /** `handlePrevious`: one step back unless on the first; no guard, no field change. */
    method HandlePrevious()
      requires Valid()
      modifies this
      ensures Valid()
      ensures currentStep == if old(currentStep) > 0 then old(currentStep) - 1 else old(currentStep)
      ensures formData == old(formData) && isSubmitting == old(isSubmitting)
      ensures inFlight == old(inFlight) && effects == old(effects)
    {
      if currentStep > 0 {
        currentStep := currentStep - 1;
      }
    }

    /**
     * The rest of `handleSubmit` once the insert of the `k`-th outstanding
     * submission answers. A failure shows the error toast and calls nothing
     * else; a success requests the e-mail and, whatever the mailer answers,
     * navigates to the summary built from the captured form. Either way the
     * `finally` clears `isSubmitting`, and the form and step are untouched.
     */
    method CompleteSubmit(k: nat, insert: InsertOutcome, email: EmailOutcome)
      requires Valid() && k < |inFlight|
      modifies this
      ensures Valid()
      ensures !isSubmitting
      ensures currentStep == old(currentStep) && formData == old(formData)
      ensures inFlight == old(inFlight[..k] + inFlight[k + 1..])
      ensures old(OneSubmission()) ==> OneSubmission() && inFlight == []
      ensures insert.InsertFailed? ==> effects == old(effects) + [SubmitErrorToast]
      ensures insert.Inserted? ==>
        effects == old(effects) + [EmailRequested(insert.lead),
                                   NavigatedToSummary(BuildSummary(insert.lead, old(inFlight[k])))]
    {
      var captured := inFlight[k];
      inFlight := inFlight[..k] + inFlight[k + 1..];
      assert forall j :: 0 <= j < |inFlight| ==> inFlight[j] == old(inFlight)[if j < k then j else j + 1];
      match insert {
        case InsertFailed =>
          effects := effects + [SubmitErrorToast];
        case Inserted(lead) =>
          effects := effects + [EmailRequested(lead)];
          effects := effects + [NavigatedToSummary(BuildSummary(lead, captured))];
      }
      isSubmitting := false;
    }
  }

  /** The objective and inventory answers of the walk-through. */
  const Chosen: QuoteRequest := InitialForm.(mainObjective := "awareness", campaignOptions := ["crm"])

  /** The form of the walk-through once the contact step is filled. */
  const Contact: QuoteRequest := Chosen.(name := "Ana", email := "ana@x.com")

  /** Mount, press Next on the empty objective, then answer the first two steps. */
  method OpenAndChoose() returns (w: Controller)
    ensures fresh(w) && w.Valid()
    ensures w.currentStep == 2 && w.formData == Chosen && !w.isSubmitting && w.inFlight == []
    ensures w.effects == [RequiredFieldToast]
  {
    w := new Controller();
    assert !CanProceed(0, InitialForm);
    w.HandleNext();
    w.Edit(SetObjective("awareness"));
    assert CanProceed(0, w.formData);
    w.HandleNext();
    var options := CampaignOptions.Toggle(w.formData.campaignOptions, "crm");
    assert options == ["crm"];
    w.Edit(SetCampaignOptions(options));
    assert w.formData == Chosen;
    w.HandleNext();
  }

  /** Accept the default budget, skip the period and products steps, and fill the contact step. */
  method AdvanceToContact(w: Controller)
    requires w.Valid() && w.currentStep == 2 && w.formData == Chosen && !w.isSubmitting && w.inFlight == []
    modifies w
    ensures w.Valid()
    ensures w.currentStep == LastStep && w.formData == Contact && !w.isSubmitting && w.inFlight == []
    ensures w.effects == old(w.effects)
  {
    w.HandleNext();
    w.HandleNext();
    w.HandleNext();
    w.Edit(SetName("Ana"));
    w.Edit(SetEmail("ana@x.com"));
  }

  /**
   * The walk-through of the wizard from mount to summary: Next is refused on
   * the empty objective, each filled step then advances, and a successful
   * insert requests the e-mail and leads to the summary even though the
   * mailer fails. `effects` is everything the wizard did, in order.
   */
  method WalkThrough(lead: PersistedLead) returns (payload: InsertPayload, summary: LeadSummary, effects: seq<Effect>)
    ensures payload.mainObjective == "awareness" && payload.campaignOptions == ["crm"]
    ensures payload.budget == 50_000 && payload.name == "Ana" && payload.email == "ana@x.com"
    ensures payload.startDate.None? && payload.endDate.None? && payload.products.None?
    ensures summary.lead == lead && summary.objective == "awareness" && summary.startDate == ""
    ensures effects == [RequiredFieldToast, InsertRequested(payload), EmailRequested(lead),
                        NavigatedToSummary(summary)]
  {
    var w := OpenAndChoose();
    AdvanceToContact(w);
    w.HandleNext();
    w.CompleteSubmit(0, Inserted(lead), EmailFailed);
    payload := ToPayload(Contact);
    summary := BuildSummary(lead, Contact);
    effects := w.effects;
  }
}
