/**
 * The message-flow records: generated follow-up forms and the assistant's
 * answer (reply, suggested actions, optional form, confidence, metadata),
 * plus the intent and next-action enumerations of the unified flow.
 */
module MessageFlow {
  import opened Wrappers
  import opened Json

  datatype FormOption = FormOption(value: string, caption: string)

  datatype FormField = FormField(
    question: string,
    inputType: string,
    required: bool,
    placeholder: Option<string>,
    options: seq<FormOption>)

  datatype GeneratedForm = GeneratedForm(title: string, description: Option<string>, fields: seq<FormField>)

  /**
   * `AssistantAnswer`. `followUpType` and `followUpReason` are the two
   * attributes the workflow service and the metadata envelope read and write
   * on the answer although the record does not declare them; they are
   * dynamic values, `Null` where never set.
   */
  datatype Answer = Answer(
    reply: string,
    suggestedActions: seq<string>,
    form: Option<GeneratedForm>,
    confidence: Option<real>,
    metadata: Dict,
    followUpType: Value,
    followUpReason: Value)

  /** What the user is trying to do (`UserIntent`). */
  datatype UserIntent =
    | NewProblem | Clarifying | FeedbackPositive | FeedbackNegative | RequestEscalation
    | ConfirmResolved | ConfirmUnresolved | OutOfScope | Unintelligible | Contradictory

  /** What the assistant does next (`NextAction`). */
  datatype NextAction =
    | SuggestSolution | AskClarifyingQuestion | PresentResolutionForm | PresentEscalationForm
    | PresentFeedbackForm | CloseResolved | Escalate | DeclineOutOfScope | RequestClearInput

  function IntentName(i: UserIntent): string {
    match i
    case NewProblem => "new_problem"
    case Clarifying => "clarifying"
    case FeedbackPositive => "feedback_positive"
    case FeedbackNegative => "feedback_negative"
    case RequestEscalation => "request_escalation"
    case ConfirmResolved => "confirm_resolved"
    case ConfirmUnresolved => "confirm_unresolved"
    case OutOfScope => "out_of_scope"
    case Unintelligible => "unintelligible"
    case Contradictory => "contradictory"
  }

  function ActionName(a: NextAction): string {
    match a
    case SuggestSolution => "suggest_solution"
    case AskClarifyingQuestion => "ask_clarifying_question"
    case PresentResolutionForm => "present_resolution_form"
    case PresentEscalationForm => "present_escalation_form"
    case PresentFeedbackForm => "present_feedback_form"
    case CloseResolved => "close_resolved"
    case Escalate => "escalate"
    case DeclineOutOfScope => "decline_out_of_scope"
    case RequestClearInput => "request_clear_input"
  }

  /** `UserIntent(value)`: the enum member with that value, or None where Python raises ValueError. */
  function ParseIntent(s: string): (r: Option<UserIntent>)
    ensures r.Some? ==> IntentName(r.value) == s
    ensures forall i: UserIntent :: IntentName(i) == s ==> r == Some(i)
  {
    if s == "new_problem" then Some(NewProblem)
    else if s == "clarifying" then Some(Clarifying)
    else if s == "feedback_positive" then Some(FeedbackPositive)
    else if s == "feedback_negative" then Some(FeedbackNegative)
    else if s == "request_escalation" then Some(RequestEscalation)
    else if s == "confirm_resolved" then Some(ConfirmResolved)
    else if s == "confirm_unresolved" then Some(ConfirmUnresolved)
    else if s == "out_of_scope" then Some(OutOfScope)
    else if s == "unintelligible" then Some(Unintelligible)
    else if s == "contradictory" then Some(Contradictory)
    else None
  }

  /** `NextAction(value)`: the enum member with that value, or None where Python raises ValueError. */
  function ParseAction(s: string): (r: Option<NextAction>)
    ensures r.Some? ==> ActionName(r.value) == s
    ensures forall a: NextAction :: ActionName(a) == s ==> r == Some(a)
  {
    if s == "suggest_solution" then Some(SuggestSolution)
    else if s == "ask_clarifying_question" then Some(AskClarifyingQuestion)
    else if s == "present_resolution_form" then Some(PresentResolutionForm)
    else if s == "present_escalation_form" then Some(PresentEscalationForm)
    else if s == "present_feedback_form" then Some(PresentFeedbackForm)
    else if s == "close_resolved" then Some(CloseResolved)
    else if s == "escalate" then Some(Escalate)
    else if s == "decline_out_of_scope" then Some(DeclineOutOfScope)
    else if s == "request_clear_input" then Some(RequestClearInput)
    else None
  }

  /** One required single-choice question whose options are "yes" then "no". */
  predicate IsYesNoForm(f: GeneratedForm) {
    |f.fields| == 1
    && f.fields[0].required
    && f.fields[0].inputType == "single_choice"
    && |f.fields[0].options| == 2
    && f.fields[0].options[0].value == "yes"
    && f.fields[0].options[1].value == "no"
  }

  /** A yes/no form with the given texts. */
  function YesNoForm(title: string, description: string, question: string, yesCaption: string, noCaption: string): (f: GeneratedForm)
    ensures IsYesNoForm(f)
    ensures f.title == title && f.fields[0].question == question
  {
    GeneratedForm(title, Some(description),
      [FormField(question, "single_choice", true, None, [FormOption("yes", yesCaption), FormOption("no", noCaption)])])
  }
}
