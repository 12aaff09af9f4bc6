/**
 * The wizard's navigation bar (src/components/NavButtons.tsx): which buttons
 * are drawn, which label the forward button carries and when it is disabled.
 * The Previous button has no `disabled` prop at all, so it is never disabled.
 */
module NavButtons {

  const PreviousLabel: string := "Anterior"
  const SendingLabel: string := "Enviando..."
  const SendLabel: string := "Enviar"
  /** The forward label exactly as the file spells it: "Próximo" saved in a wrong encoding. */
  const NextLabel: string := "Pr√≥ximo"

  datatype NavView = NavView(
    showPrevious: bool,      // the Previous button is drawn (an empty box otherwise)
    nextDisabled: bool,      // the Next/Submit button's `disabled` prop
    nextLabel: string,
    showForwardArrow: bool)

  /** What the bar draws for the given props. */
  function Render(currentStep: int, isLastStep: bool, isSubmitting: bool): (v: NavView)
    ensures v.showPrevious <==> currentStep > 0
    ensures v.nextDisabled <==> isSubmitting
    ensures v.nextLabel in {SendingLabel, SendLabel, NextLabel}
    ensures v.nextLabel == SendingLabel <==> isLastStep && isSubmitting
    ensures v.nextLabel == SendLabel <==> isLastStep && !isSubmitting
    ensures v.showForwardArrow <==> v.nextLabel == NextLabel
  {
    NavView(
      currentStep > 0,
      isSubmitting,
      if isLastStep then (if isSubmitting then SendingLabel else SendLabel) else NextLabel,
      !isLastStep)
  }

  /**
   * The label alone tells whether the bar is on the last step and, there,
   * whether a submission is running.
   */
  lemma LabelDeterminesState(step1: int, last1: bool, sub1: bool, step2: int, last2: bool, sub2: bool)
    requires Render(step1, last1, sub1).nextLabel == Render(step2, last2, sub2).nextLabel
    ensures last1 == last2
    ensures last1 ==> sub1 == sub2
  {
    assert SendingLabel != SendLabel && SendingLabel != NextLabel && SendLabel != NextLabel;
  }
}
