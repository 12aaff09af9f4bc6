# Quote-request wizard: a Dafny model

This project models the client-side logic of a lead-capture app for
advertising-campaign quotes. It covers:

- the six-step quote wizard: form record, per-step guard, Next/Previous
  machine, progress figure, insert payload, and the submission that calls the
  lead store and then best-effort calls the mailer;
- the single-page variant of the form, with its all-at-once required check
  and its budget override;
- the campaign-option toggle and catalog, the objective cards and the period
  menus;
- the tiered budget slider;
- the navigation bar;
- the admin dashboard's list update, status colours and buttons;
- the admin sign-in outcome mapping and its session store.

The backend (database insert, select, update, the credential-check call, the
e-mail service) is outside the model. Each call is a parameter that carries
its answer (`InsertOutcome`, `FetchOutcome`, `UpdateOutcome`, `RpcOutcome`,
`EmailOutcome`). Visible actions (toasts, navigation, outgoing calls) are
appended to an `effects`/`notices` log, so contracts can say what was, and was
not, done.

Files, one module each: `nullable.dfy` (`Option`), `campaign_options.dfy`,
`objective_selector.dfy`, `period_step.dfy`, `budget_slider.dfy`,
`nav_buttons.dfy`, `wizard.dfy`, `quote_form.dfy`, `admin_auth.dfy`,
`admin_dashboard.dfy`.

The code does the following, which one might not expect; the model does the same:

- Neither `handleNext` nor `handlePrevious` looks at `isSubmitting`. The only
  guard is the Next/Submit button, which is disabled while a submission runs
  (src/components/NavButtons.tsx:39); Previous stays live. `Controller.HandleNext`
  has no guard of its own either, so it accepts calls the page cannot make:
  called twice on the last step, it leaves two submissions outstanding in
  `inFlight`. That happens only in the model. The ghost predicate
  `Controller.OneSubmission` states what the page can reach: at most one
  insert outstanding, and one exactly while `isSubmitting` holds. The
  constructor establishes it. `HandleNext` preserves it when called while the
  button is enabled, and `CompleteSubmit` preserves it too.
- The selected campaign options are a list, not a set. The model keeps the
  list and proves set-like behaviour of the toggle about it.
- Progress strictly increases with the step, not just "never decreases".
- `stepFor` uses 5 000 up to and including 50 000, and 10 000 up to and
  including 150 000.
- The forward label in src/components/NavButtons.tsx is stored as
  "Pr√≥ximo": that is "Próximo" saved in the wrong encoding. The model keeps
  the characters the file holds.
- The source rounds progress in floating point. `(100·(i+1)+3) div 6` gives
  the same result: 100·(i+1)/6 has a fractional part of 0, 1/3 or 2/3, never
  1/2.

## Model

| member | source | states |
|---|---|---|
| `CampaignOptions.CatalogIdsDistinct` | src/components/CampaignOptions.tsx:5-51 | the catalog has nine entries whose ids are pairwise distinct |
| `CampaignOptions.RemoveAll` | src/components/CampaignOptions.tsx:61 | the filtered list no longer holds the id; every other id is in it iff it was in the input, and as many times; it is never longer |
| `CampaignOptions.IsSelected` | src/components/CampaignOptions.tsx:70 | `includes`: a card is drawn selected iff its id occurs in the selection list |
| `CampaignOptions.Cards` | src/components/CampaignOptions.tsx:69-70 | one selection flag per catalog card, in catalog order, set iff the card's id is selected |
| `CampaignOptions.Toggle` | src/components/CampaignOptions.tsx:59-65 | the clicked id is selected afterwards iff it was not before; every other id keeps its membership; an unselected id is appended at the end |
| `CampaignOptions.ToggleTwiceRestoresAbsent` | src/components/CampaignOptions.tsx:59-62 | toggling an unselected id twice gives back exactly the original list |
| `CampaignOptions.ToggleTwiceRestoresSet` | src/components/CampaignOptions.tsx:59-62 | toggling any id twice gives back the original set of selected ids |
| `CampaignOptions.ToggleKeepsDistinct` | src/components/CampaignOptions.tsx:59-62 | a duplicate-free selection stays duplicate-free |
| `CampaignOptions.ToggleKeepsOthersInOrder` | src/components/CampaignOptions.tsx:61 | with the toggled id struck out, the list is unchanged: other ids keep membership, multiplicity and order |
| `CampaignOptions.ClickFlipsOneCard` | src/components/CampaignOptions.tsx:59-70 | clicking card k flips card k's flag and no other card's |
| `ObjectiveSelector.ObjectiveCatalog` | src/components/ObjectiveSelector.tsx:4-23 | exactly the ids awareness, consideration, conversion, in that order |
| `ObjectiveSelector.IsSelected` | src/components/ObjectiveSelector.tsx:34 | when a card is selected, no card with another id is |
| `ObjectiveSelector.Highlights` | src/components/ObjectiveSelector.tsx:33-34 | one flag per card; a card is highlighted iff its id equals the current objective |
| `ObjectiveSelector.AtMostOneHighlighted` | src/components/ObjectiveSelector.tsx:34 | no two cards are highlighted together; none is when the objective is "" |
| `ObjectiveSelector.Click` | src/components/ObjectiveSelector.tsx:39 | a click reports the card's id, so that card and no other is highlighted next; clicking the chosen card keeps it (no deselect) |
| `PeriodStep.MonthCodes` | src/components/steps/PeriodStep.tsx:29-42 | twelve month values, each two decimal digits, the i-th denoting i+1, so 01 to 12 in increasing order |
| `PeriodStep.Years` | src/components/steps/PeriodStep.tsx:44-45 | five consecutive years starting at the current year |
| `PeriodStep.DecimalString` | src/components/steps/PeriodStep.tsx:72-76 | `year.toString()`: a non-empty digit string with no leading zero |
| `PeriodStep.DecimalStringRoundTrip` | src/components/steps/PeriodStep.tsx:73 | reading the menu value's digits back gives the year |
| `PeriodStep.FourDigitYear` | src/components/steps/PeriodStep.tsx:44-45 | a year from 1000 to 9999 is written with four digits |
| `BudgetSlider.StepFor` | src/components/ui/BudgetSlider.tsx:7-11 | the granularity is positive and a multiple of 5 000 |
| `BudgetSlider.StepForTiers` | src/components/ui/BudgetSlider.tsx:7-11 | a larger value never gets a smaller step, and each tier's step divides the next tier's |
| `BudgetSlider.RoundToStep` | src/components/ui/BudgetSlider.tsx:22-25 | the rounded value is a multiple of `stepFor(raw)` and the nearest one, halves upwards: raw − step/2 < r ≤ raw + step/2 |
| `BudgetSlider.RoundIsMultipleOfFiveThousand` | src/components/ui/BudgetSlider.tsx:22-25 | every rounded value is a multiple of 5 000 |
| `BudgetSlider.RoundStaysInRange` | src/components/ui/BudgetSlider.tsx:22-25 | a raw value in [10 000, 500 000] rounds into [10 000, 500 000] |
| `BudgetSlider.RoundKeepsTier` | src/components/ui/BudgetSlider.tsx:7-11 | rounding never moves a value into a coarser tier, and the result sits on its own tier's grid |
| `BudgetSlider.RoundIdempotent` | src/components/ui/BudgetSlider.tsx:22-25 | rounding a rounded value leaves it unchanged |
| `BudgetSlider.CommittedValue` | src/components/ui/BudgetSlider.tsx:31-32 | the committed value is at least 10 000; it is the typed number whenever that is at least 10 000, and 10 000 otherwise (NaN, zero, too small) |
| `BudgetSlider.CommitAcceptsAboveMax` | src/components/ui/BudgetSlider.tsx:31-33 | a typed amount above 500 000 is committed as typed |
| `BudgetSlider.Slider.constructor` | src/components/ui/BudgetSlider.tsx:19-20 | not editing, and the input text starts as the value |
| `BudgetSlider.Slider.HandleSlider` | src/components/ui/BudgetSlider.tsx:22-28 | the same rounded value goes to `setValue` and to the input text; it lies in [10 000, 500 000] and is a multiple of 5 000; editing is unchanged |
| `BudgetSlider.Slider.StartEditing` | src/components/ui/BudgetSlider.tsx:71 | opens the number field and changes nothing else |
| `BudgetSlider.Slider.InputChanged` | src/components/ui/BudgetSlider.tsx:64 | only the input text changes |
| `BudgetSlider.Slider.CommitInput` | src/components/ui/BudgetSlider.tsx:30-36 | the value becomes `CommittedValue` of the typed entry, at least 10 000; editing ends |
| `BudgetSlider.Slider.Position` | src/components/ui/BudgetSlider.tsx:45 | the thumb position is the value, or 500 000 when the stored value is larger |
| `NavButtons.Render` | src/components/NavButtons.tsx:24-44 | Previous is drawn iff the step is > 0; Next is disabled iff submitting; the label is "Enviando..." iff last and submitting, "Enviar" iff last and not submitting, otherwise the forward label; the arrow is drawn iff the label is the forward one |
| `NavButtons.LabelDeterminesState` | src/components/NavButtons.tsx:42 | the label alone tells whether the bar is on the last step and, there, whether it is submitting |
| `Wizard.CanProceed` | src/components/Wizard.tsx:156-166 | the per-step guard; no index outside 0..5 passes it |
| `Wizard.InitialFormGuards` | src/components/Wizard.tsx:38-50 | the mounted form fails the objective, inventory and contact guards and passes budget, period and products |
| `Wizard.ApplyEdit` | src/components/Wizard.tsx:58-149 | a step component's callback never changes another step's guard |
| `Wizard.SliderBudgetsPassGuard` | src/components/Wizard.tsx:160 | every amount the budget control can hand over (slider or typed) passes the budget step |
| `Wizard.ProgressPercentage` | src/components/Wizard.tsx:153 | the figure is 100·(i+1)/6 rounded to the nearest integer, halves upwards |
| `Wizard.ProgressValues` | src/components/Wizard.tsx:153 | the six figures are 17, 33, 50, 67, 83, 100 |
| `Wizard.ProgressMonotone` | src/components/Wizard.tsx:153 | progress strictly increases with the step and is 100 only on the last step |
| `Wizard.ArrowWhileIncomplete` | src/components/Wizard.tsx:323-330 | in the wizard, the forward arrow is drawn exactly while progress is below 100 |
| `Wizard.PeriodDate` | src/components/Wizard.tsx:205-206 | the date is null iff the month or the year is "" |
| `Wizard.PeriodDateParts` | src/components/Wizard.tsx:205-206 | a built date splits back into the year, "-", the month and "-01" |
| `Wizard.NullIfEmpty` | src/components/Wizard.tsx:207-208 | null iff the text is ""; reading null back as "" returns the text |
| `Wizard.ToPayload` | src/components/Wizard.tsx:199-209 | copied fields are equal; products and details are null iff empty and otherwise read back unchanged; each date is present iff both its month and year are chosen |
| `Wizard.InitialPayload` | src/components/Wizard.tsx:38-50 | the mounted form would send no dates and no free text |
| `Wizard.MenuDateShape` | src/components/Wizard.tsx:205-206 | a date built from the period menus is `YYYY-MM-01`: four digits naming the chosen year, a month from 01 to 12 |
| `Wizard.SummaryPeriod` | src/components/Wizard.tsx:235-236 | the summary period is "" exactly when the stored date is null |
| `Wizard.SummaryPeriodParts` | src/components/Wizard.tsx:235-236 | a non-empty period is the month, "/" and the year, and names the same month and year as the stored `YYYY-MM-01` date |
| `Wizard.BuildSummary` | src/components/Wizard.tsx:228-238 | the summary carries the stored lead, the objective, options, budget and notes of the form, and a period exactly where a date was stored |
| `Wizard.SummaryAgreesWithPayload` | src/components/Wizard.tsx:228-240 | the summary shows a period iff the stored row has that date, and shows the sent budget and objective |
| `Wizard.Controller.constructor` | src/components/Wizard.tsx:35-50 | step 0, not submitting, the default form, nothing outstanding, no effects; at most one submission outstanding holds |
| `Wizard.Controller.Progress` | src/components/Wizard.tsx:153 | the shown figure is in (0, 100] and is 100 iff on the last step |
| `Wizard.Controller.Edit` | src/components/Wizard.tsx:58-149 | one callback replaces one field of the form; step, flag, outstanding submissions and effects unchanged |
| `Wizard.Controller.HandleNext` | src/components/Wizard.tsx:168-183 | a failed guard shows the toast and changes nothing else; otherwise the step goes up by one, or on the last step the flag is set and the insert of the current form's payload is requested; the step stays in 0..5 and the form is never changed; called while Next is enabled, it keeps at most one submission outstanding |
| `Wizard.Controller.HandlePrevious` | src/components/Wizard.tsx:185-189 | the step goes down by one iff it is > 0, with no guard; nothing else changes |
| `Wizard.Controller.CompleteSubmit` | src/components/Wizard.tsx:191-251 | a failed insert shows the error toast and calls nothing else; a successful one requests the e-mail and goes to the summary whatever the mailer answers; the flag is cleared and the form and step are untouched; from a state the page can reach, it leaves nothing outstanding |
| `Wizard.OpenAndChoose` | src/components/Wizard.tsx:156-183 | from mount, Next on the empty objective only shows the toast; after choosing an objective and toggling one option the wizard stands on the budget step with that form and nothing submitted |
| `Wizard.AdvanceToContact` | src/components/Wizard.tsx:156-183 | the default budget, an empty period and empty products let Next through to the contact step without any effect |
| `Wizard.WalkThrough` | src/components/Wizard.tsx:168-251 | the whole run does exactly: the toast, the insert of awareness, ["crm"], 50 000, Ana, ana@x.com with no dates and no products, the e-mail request, and the summary of that lead with an empty period, although the mailer fails |
| `QuoteForm.RequiredFilled` | src/pages/Index.tsx:49 | a form passes only if name, email, options and objective all differ from their mounted defaults |
| `QuoteForm.RequiredMatchesWizardGuards` | src/pages/Index.tsx:49-56 | the page's required check equals the wizard's objective, inventory and contact guards together |
| `QuoteForm.ActualBudget` | src/pages/Index.tsx:82 | a non-null, non-zero override wins; otherwise the slider's budget |
| `QuoteForm.OverrideOffered` | src/pages/Index.tsx:187 | within the slider's range, the override field is drawn only at the maximum, 500 000 |
| `QuoteForm.DefaultsMatchWizard` | src/pages/Index.tsx:32-42 | the page mounts with the wizard's defaults; its null dates send no date, like the wizard's empty codes |
| `QuoteForm.QuotePage.constructor` | src/pages/Index.tsx:32-44 | default form, no override, not submitting |
| `QuoteForm.QuotePage.Budget` | src/pages/Index.tsx:82 | the effective budget is the slider's or the override; it differs from the slider's only while the override field is drawn |
| `QuoteForm.QuotePage.Edit` | src/pages/Index.tsx:108-293 | one callback replaces one field; the override, the flag and the effective budget are unchanged |
| `QuoteForm.QuotePage.SlideBudget` | src/pages/Index.tsx:166-173 | the budget becomes the slider value, the override is cleared, and the effective budget is the slider value |
| `QuoteForm.QuotePage.OverrideChanged` | src/pages/Index.tsx:187-197 | reachable only when the budget is ≥ 500 000; the override becomes the entry (null for an empty field); a non-zero entry becomes the effective budget, an empty one leaves the slider's budget in force |
| `QuoteForm.QuotePage.HandleSubmit` | src/pages/Index.tsx:46-80 | a missing name, email, objective or option shows the toast and leaves the flag alone; otherwise the form is sent with the effective budget, the page goes to the thank-you view and the flag ends false |
| `AdminAuth.LoginAdmin` | src/utils/adminAuth.ts:11-36 | exactly one of user and error is set; a returned error or a throw gives the server error; null or empty rows give the invalid-credentials error; otherwise the user is the first row |
| `AdminAuth.LoginErrorsAreGeneric` | src/utils/adminAuth.ts:11-36 | the two fixed texts are the only errors |
| `AdminAuth.StoredSession` | src/utils/adminAuth.ts:42-45 | a session exists iff the key is stored, and it is the stored user |
| `AdminAuth.SessionRoundTrip` | src/utils/adminAuth.ts:38-49 | after a write the session is the written user; after a clear there is none |
| `AdminAuth.SessionStore.constructor` | src/utils/adminAuth.ts:38-49 | the store starts with whatever the browser already holds |
| `AdminAuth.SessionStore.SetAdminSession` | src/utils/adminAuth.ts:38-40 | the session key maps to the user; no other key appears or disappears |
| `AdminAuth.SessionStore.GetAdminSession` | src/utils/adminAuth.ts:42-45 | returns the stored session, null without one |
| `AdminAuth.SessionStore.ClearAdminSession` | src/utils/adminAuth.ts:47-49 | the session key is removed; no other key appears or disappears |
| `AdminDashboard.WithStatus` | src/pages/AdminDashboard.tsx:84-86 | same length; each record with the id gets the new status; every other record is identical |
| `AdminDashboard.WithStatusKeepsIds` | src/pages/AdminDashboard.tsx:84-86 | ids, order and all fields but the status survive; matching records carry the new status |
| `AdminDashboard.WithStatusReverts` | src/pages/AdminDashboard.tsx:84-86 | setting back the previous status restores the list exactly |
| `AdminDashboard.WithStatusUnknownId` | src/pages/AdminDashboard.tsx:84-86 | an id matching no record leaves the list unchanged |
| `AdminDashboard.WithStatusIdempotent` | src/pages/AdminDashboard.tsx:84-86 | repeating an update changes nothing more |
| `AdminDashboard.StatusColor` | src/pages/AdminDashboard.tsx:106-114 | gray marks exactly the statuses other than Pendente, Em Andamento, Finalizada and Cancelada |
| `AdminDashboard.StatusColorsDistinguish` | src/pages/AdminDashboard.tsx:106-114 | the four known statuses get four different colours |
| `AdminDashboard.ButtonDisabled` | src/pages/AdminDashboard.tsx:217-237 | when an action button is disabled on a record, the other action buttons are not |
| `AdminDashboard.UpdatedRecordButtons` | src/pages/AdminDashboard.tsx:217-237 | after a record gets a button's status, that button and no other is disabled on it |
| `AdminDashboard.OnMount` | src/pages/AdminDashboard.tsx:32-40 | without a session the page redirects to the login (and draws nothing); with one it loads |
| `AdminDashboard.SessionGate` | src/pages/AdminDashboard.tsx:97-99 | after logout the page turns the visitor away; after a session write it loads |
| `AdminDashboard.Dashboard.constructor` | src/pages/AdminDashboard.tsx:30-31 | empty list, loading |
| `AdminDashboard.Dashboard.FetchQuotes` | src/pages/AdminDashboard.tsx:42-65 | a returned error shows the load-error toast and keeps the list; a throw keeps the list silently; success stores the rows, or [] for null; loading ends in every case |
| `AdminDashboard.Dashboard.UpdateQuoteStatus` | src/pages/AdminDashboard.tsx:67-95 | success replaces the list by `WithStatus` and confirms with the new status; a returned error shows the update-error toast and keeps the list; a throw keeps the list silently; loading is untouched |

## Left out

- Rendering, styling, icons, step questions and labels, toasts' wording, error logging to the `console`, routing: only the decisions that drive them are modelled. The page's `console.log` of the submitted form (src/pages/Index.tsx:62-65) is kept as `SubmissionLogged`, because it is the page's whole submission.
- The database, its SQL and row-level security, and the ordering of the dashboard's select by `created_at`: each call is replaced by its answer.
- The e-mail sending code, the edge function, PDF generation, the admin debug helper and the progress circle's floating-point geometry: these are I/O and drawing, and are not part of this model.
- Locale formatting (`toLocaleString`, date-fns `format`).
- Wizard.Controller.CompleteSubmit: the mailer's `await` is folded into the completion of the insert. Events arriving while only the e-mail is pending are not modelled separately; they see the same state as during the insert.
- Wizard.Controller.CompleteSubmit: a successful submission navigates away and unmounts the wizard. The model keeps the object usable afterwards.
- Wizard.Controller.Edit: React handlers read `formData` from the render that created them. The model applies each edit to the current record, so stale closures are not captured.
- BudgetSlider.Slider.InputChanged: the field text (`string | number`) is held as the number `Number()` reads from it, with `None` for NaN. Fractional amounts and the parsing of text are not modelled.
- BudgetSlider.Slider.HandleSlider: requires the raw value to lie in [10 000, 500 000]. A range input only produces values between its `min` and `max`.
- QuoteForm.QuotePage.SlideBudget: requires the value to lie in the slider's range. The slider's 5 000 step grid is not modelled.
- QuoteForm.QuotePage.HandleSubmit: the one-second placeholder delay and the `catch` branch are left out. Nothing in the `try` can throw short of navigation failing, so `isSubmitting` is true only inside the call.
- QuoteForm.QuotePage.OverrideChanged: the override is stored as `Number(e.target.value)` (src/pages/Index.tsx:197). A number input with no `step` accepts fractions such as 750000.5, so the override, `actualBudget` (line 82) and the logged budget (line 64) can be fractional. The model keeps whole numbers only. The override rule treats every non-zero number alike, so fractions change no decision, only the amount.
- QuoteForm.QuotePage.HandleSubmit: the browser's own validation of the `<form>` is not modelled. The name and email inputs are `required` and the email input is `type="email"` (src/pages/Index.tsx:100-129), so in a browser `handleSubmit` never sees an empty name or email, or a malformed email. The model calls the handler with any form, so its toast branch for those two fields and its acceptance of any non-empty email go beyond what a browser lets through.
- AdminAuth.SessionStore: values pass through `JSON.stringify`/`JSON.parse`. The model stores the user record and takes that round trip as identity. Other keys of the store are modelled with the same value type.
- AdminAuth.LoginAdmin: the username and password reach only the credential-check call, so the model takes that call's answer instead of the credentials.
- AdminDashboard.OnMount: the mount effect is modelled as running once. In the source, `adminUser` is read through `JSON.parse` on every render (src/pages/AdminDashboard.tsx:32), so it is a new object each time and the effect at lines 34-40 re-runs after every render; each successful fetch stores a new array (line 59), which renders again, so the page keeps re-fetching. The model neither captures this repeated fetching nor claims the list settles.
- AdminDashboard.Dashboard.UpdateQuoteStatus: the model maps the list current when the update answers. The source maps the `quotes` captured when the button was clicked (lines 84-86, after the await at lines 69-72), so with two overlapping updates the second answer overwrites the first change in the list until the next fetch. That lost update is not modelled.
- PeriodStep.Years: the current year comes from the clock and is a parameter.
- ObjectiveSelector: drawing the cards cannot change the selection; only `Click`'s result is stored. In a value model this holds by construction, so it is not stated as a separate contract.
