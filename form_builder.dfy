/** `FormBuilderService`: the follow-up form that goes with a next action of the unified flow. */
module FormBuilder {
  import opened Wrappers
  import opened MessageFlow

  const FeedbackForm := YesNoForm("Did that help?", "Let us know if this suggestion worked for you",
    "Was this helpful?", "Yes, it worked!", "No, still having issues")

  const ResolutionForm := YesNoForm("Is your issue resolved?", "Please confirm if your problem has been fixed",
    "Is the problem resolved?", "Yes, problem is fixed", "No, still not working")

  const EscalationForm := YesNoForm("Contact Support?", "Would you like us to connect you with a specialist?",
    "Do you want to escalate to human support?", "Yes, please escalate", "No, I'll keep trying")

  /**
   * `build_form`: the three "present" actions get their form, every other
   * action gets none; each form is one required yes/no single-choice question.
   */
  function BuildForm(action: NextAction): (r: Option<GeneratedForm>)
    ensures r.Some? <==> action in {PresentFeedbackForm, PresentResolutionForm, PresentEscalationForm}
    ensures r.Some? ==> IsYesNoForm(r.value)
    ensures action == PresentFeedbackForm ==> r.value.title == "Did that help?"
    ensures action == PresentResolutionForm ==> r.value.fields[0].question == "Is the problem resolved?"
    ensures action == PresentEscalationForm ==> r.value.fields[0].question == "Do you want to escalate to human support?"
  {
    match action
    case PresentFeedbackForm => Some(FeedbackForm)
    case PresentResolutionForm => Some(ResolutionForm)
    case PresentEscalationForm => Some(EscalationForm)
    case _ => None
  }
}
