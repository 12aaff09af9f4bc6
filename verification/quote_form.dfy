/**
 * The single-page quote form (src/pages/Index.tsx): every field on one page,
 * an all-at-once required check on submit, and a budget slider with an
 * optional typed override offered at the slider's ceiling.
 */
module QuoteForm {

  import opened Nullable
  import Wizard

  /** A day picked in the date popover; the page only stores it. */
  datatype CalendarDate = CalendarDate(year: int, month: int, day: int)

  /** The page's `QuoteRequest`: dates are picked days instead of month and year codes. */
  datatype FormData = FormData(
    name: string,
    email: string,
    campaignOptions: seq<string>,
    budget: int,
    mainObjective: string,
    startDate: Option<CalendarDate>,
    endDate: Option<CalendarDate>,
    products: string,
    additionalDetails: string)

  const InitialForm: FormData := FormData("", "", [], 50_000, "", None, None, "", "")

  /** The slider's `min` and `max` props; its value is always inside them. */
  const SliderMin: int := 10_000
  const SliderMax: int := 500_000

  /** The check `handleSubmit` makes before anything else. */
  predicate RequiredFilled(f: FormData)
    ensures RequiredFilled(f) ==>
      && f.name != InitialForm.name && f.email != InitialForm.email
      && f.campaignOptions != InitialForm.campaignOptions && f.mainObjective != InitialForm.mainObjective
  {
    f.name != "" && f.email != "" && |f.campaignOptions| > 0 && f.mainObjective != ""
  }

  /**
   * For the same field values, the page's required check is exactly the
   * wizard's objective, inventory and contact guards together.
   */
  lemma RequiredMatchesWizardGuards(f: FormData, w: Wizard.QuoteRequest)
    requires f.name == w.name && f.email == w.email
    requires f.campaignOptions == w.campaignOptions && f.mainObjective == w.mainObjective
    ensures RequiredFilled(f) <==>
      Wizard.CanProceed(0, w) && Wizard.CanProceed(1, w) && Wizard.CanProceed(5, w)
  {
  }

  /** `budgetOverride || formData.budget`: a null or zero override falls back to the slider. */
  function ActualBudget(budgetOverride: Option<int>, budget: int): (b: int)
    ensures budgetOverride.Some? && budgetOverride.value != 0 ==> b == budgetOverride.value
    ensures budgetOverride.None? || budgetOverride.value == 0 ==> b == budget
  {
    if budgetOverride.Some? && budgetOverride.value != 0 then budgetOverride.value else budget
  }

  /** The override field is drawn only while the slider stands at or above 500 000. */
  predicate OverrideOffered(budget: int)
    ensures OverrideOffered(budget) && budget <= SliderMax ==> budget == SliderMax
  {
    budget >= 500_000
  }

  /** Both forms mount with the same values; the page's null dates send no date like the wizard's empty codes. */
  lemma DefaultsMatchWizard()
    ensures InitialForm.name == Wizard.InitialForm.name && InitialForm.email == Wizard.InitialForm.email
    ensures InitialForm.campaignOptions == Wizard.InitialForm.campaignOptions
    ensures InitialForm.budget == Wizard.InitialForm.budget
    ensures InitialForm.mainObjective == Wizard.InitialForm.mainObjective
    ensures InitialForm.products == Wizard.InitialForm.products
    ensures InitialForm.additionalDetails == Wizard.InitialForm.additionalDetails
    ensures InitialForm.startDate.None? && Wizard.ToPayload(Wizard.InitialForm).startDate.None?
    ensures InitialForm.endDate.None? && Wizard.ToPayload(Wizard.InitialForm).endDate.None?
  {
  }

  /** An input callback of the page other than the budget controls. */
  datatype PageEdit =
    | SetName(name: string)
    | SetEmail(email: string)
    | SetObjective(objective: string)
    | SetCampaignOptions(options: seq<string>)
    | SetStartDate(startDate: Option<CalendarDate>)
    | SetEndDate(endDate: Option<CalendarDate>)
    | SetProducts(products: string)
    | SetAdditionalDetails(details: string)

  function ApplyEdit(f: FormData, e: PageEdit): FormData {
    match e
    case SetName(v) => f.(name := v)
    case SetEmail(v) => f.(email := v)
    case SetObjective(v) => f.(mainObjective := v)
    case SetCampaignOptions(v) => f.(campaignOptions := v)
    case SetStartDate(v) => f.(startDate := v)
    case SetEndDate(v) => f.(endDate := v)
    case SetProducts(v) => f.(products := v)
    case SetAdditionalDetails(v) => f.(additionalDetails := v)
  }

  /** The page's visible actions. */
  datatype PageEffect =
    | RequiredFieldsToast
    | SubmissionLogged(submitted: FormData)
    | NavigatedToThanks

  /** The mounted page. */
  class QuotePage {
    var formData: FormData
    var budgetOverride: Option<int>
    var isSubmitting: bool
    var effects: seq<PageEffect>

    /** An override can only exist while the field that sets it is drawn. */
    ghost predicate Valid()
      reads this
    {
      budgetOverride.Some? ==> OverrideOffered(formData.budget)
    }

    constructor ()
      ensures Valid()
      ensures formData == InitialForm && budgetOverride.None? && !isSubmitting && effects == []
    {
      formData := InitialForm;
      budgetOverride := None;
      isSubmitting := false;
      effects := [];
    }

    /** The amount shown under the slider and submitted. */
    function Budget(): (b: int)
      reads this
      ensures b == formData.budget || (budgetOverride.Some? && b == budgetOverride.value)
      ensures Valid() && b != formData.budget ==> OverrideOffered(formData.budget)
    {
      ActualBudget(budgetOverride, formData.budget)
    }

    method Edit(e: PageEdit)
      requires Valid()
      modifies this
      ensures Valid()
      ensures formData == ApplyEdit(old(formData), e)
      ensures budgetOverride == old(budgetOverride) && isSubmitting == old(isSubmitting)
      ensures effects == old(effects) && Budget() == old(Budget())
    {
      formData := ApplyEdit(formData, e);
    }

    /** The slider's `onValueChange`: store the value, then drop any override. */
    method SlideBudget(value: int)
      requires Valid()
      requires SliderMin <= value <= SliderMax
      modifies this
      ensures Valid()
      ensures formData == old(formData).(budget := value) && budgetOverride.None?
      ensures Budget() == value
      ensures isSubmitting == old(isSubmitting) && effects == old(effects)
    {
      formData := formData.(budget := value);
      budgetOverride := None;
    }

    /**
     * The override field's `onChange`, reachable only while the field is drawn.
     * `typed` is `Number` of the entered text, `None` for an empty field.
     */
    method OverrideChanged(typed: Option<int>)
      requires Valid()
      requires OverrideOffered(formData.budget)
      modifies this
      ensures Valid()
      ensures budgetOverride == typed && formData == old(formData)
      ensures typed.Some? && typed.value != 0 ==> Budget() == typed.value
      ensures typed.None? ==> Budget() == formData.budget
      ensures isSubmitting == old(isSubmitting) && effects == old(effects)
    {
      budgetOverride := typed;
    }

    /**
     * `handleSubmit`: refused with a toast, `isSubmitting` untouched, when a
     * required field is missing; otherwise the form is sent with the effective
     * budget, the page moves to the thank-you view, and the `finally` clears
     * `isSubmitting`.
     */
    method HandleSubmit()
      requires Valid()
      modifies this
      ensures Valid()
      ensures formData == old(formData) && budgetOverride == old(budgetOverride)
      ensures !RequiredFilled(old(formData)) ==>
        isSubmitting == old(isSubmitting) && effects == old(effects) + [RequiredFieldsToast]
      ensures RequiredFilled(old(formData)) ==>
        && !isSubmitting
        && effects == old(effects) + [SubmissionLogged(old(formData).(budget := old(Budget()))), NavigatedToThanks]
    {
      if !RequiredFilled(formData) {
        effects := effects + [RequiredFieldsToast];
        return;
      }
      isSubmitting := true;
      effects := effects + [SubmissionLogged(formData.(budget := ActualBudget(budgetOverride, formData.budget)))];
      effects := effects + [NavigatedToThanks];
      isSubmitting := false;
    }
  }
}
