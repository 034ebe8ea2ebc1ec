/**
 * `FeedbackFlowService`: the deterministic replies to answered follow-up
 * forms, and the optional "did that help?" check-in attached to an answer.
 */
module FeedbackFlow {
  import opened Wrappers
  import opened Json
  import Text
  import opened Store
  import opened MessageFlow
  import opened FormSubmission

  /** `FollowUpHandlingDecision`. */
  datatype Decision = Decision(handled: bool, answer: Option<Answer>, completedStatus: Option<string>)

  const CheckInForm := YesNoForm("Quick check-in", "Let us know if the latest suggestion helped.",
    "Did that help?", "Yes", "No")

  const ConfirmResolutionForm := YesNoForm("Confirm resolution", "We want to be sure you're all set.",
    "Did this fix the problem completely?", "Yes, it's resolved", "Not yet")

  const ResolutionCheckKind := Put(Empty, "form_kind", Str("resolution_check"))

  /** `_build_resolution_prompt`: asks whether the fix was complete, with the resolution form. */
  const ResolutionPrompt := Answer("I'm glad that helped! Did it fix the issue completely?", [],
    Some(ConfirmResolutionForm), None, ResolutionCheckKind, Null, Null)

  /** `_build_resolution_confirmation`: closes the conversation, with no form. */
  const ResolutionConfirmation := Answer(
    "Fantastic—that means everything is resolved. I'll close this conversation now. If anything else comes up, just start a new chat.",
    [], None, None, ResolutionCheckKind, Null, Null)

  /**
   * `handle_form_submission`: the kind is compared lower-cased, None counting
   * as "". Only a helpful feedback answer and a confirmed resolution check are
   * handled; every other combination is left to the normal flow.
   */
  function HandleFormSubmission(result: FormResult): (d: Decision)
    ensures var kind := Text.Lower(result.formKind.GetOr(""));
            d.handled <==> (kind == "feedback" && result.feedbackHelped == Some(true))
                           || (kind == "resolution_check" && result.resolutionConfirmed == Some(true))
    ensures d.handled <==> d.answer.Some?
    ensures !d.handled ==> d.completedStatus.None?
    // a helpful feedback answer asks for a resolution check
    ensures d.handled && d.completedStatus.None? ==>
              d.answer.value.form.Some? && IsYesNoForm(d.answer.value.form.value)
              && Get(d.answer.value.metadata, "form_kind") == Str("resolution_check")
              && d.answer.value.suggestedActions == []
    // a confirmed resolution closes the session as resolved, without a form
    ensures d.completedStatus.Some? ==>
              d.completedStatus == Some("resolved") && d.answer.value.form.None?
              && d.answer.value.suggestedActions == []
              && Text.Lower(result.formKind.GetOr("")) == "resolution_check"
  {
    var kind := Text.Lower(result.formKind.GetOr(""));
    if kind == "feedback" && result.feedbackHelped == Some(true) then
      Decision(true, Some(ResolutionPrompt), None)
    else if kind == "resolution_check" && result.resolutionConfirmed == Some(true) then
      Decision(true, Some(ResolutionConfirmation), Some("resolved"))
    else
      Decision(false, None, None)
  }

  /** A string value that equals `target` once stripped and lower-cased. */
  predicate KindMatches(v: Value, target: string) {
    v.Str? && Text.StripLower(v.s) == target
  }

  /** The message's metadata names the kind at the top level or under "extra". */
  predicate CarriesFormKind(m: Message, target: string) {
    KindMatches(Get(m.metadata, "form_kind"), target)
    || (Get(m.metadata, "extra").Obj? && KindMatches(Get(Get(m.metadata, "extra").d, "form_kind"), target))
  }

  /** Some message among the first `limit` carries the kind (already lower-cased). */
  predicate CarriedWithin(messages: seq<Message>, target: string, limit: int) {
    messages != [] && limit > 0
    && (CarriesFormKind(messages[0], target) || CarriedWithin(messages[1..], target, limit - 1))
  }

  /** The first `limit` messages are the only ones inspected. */
  lemma {:induction false} CarriedWithinIsBounded(messages: seq<Message>, target: string, limit: int)
    ensures CarriedWithin(messages, target, limit) <==>
              exists i :: 0 <= i < |messages| && i < limit && CarriesFormKind(messages[i], target)
  {
    if messages != [] && limit > 0 {
      CarriedWithinIsBounded(messages[1..], target, limit - 1);
      if CarriedWithin(messages[1..], target, limit - 1) {
        var i :| 0 <= i < |messages[1..]| && i < limit - 1 && CarriesFormKind(messages[1..][i], target);
        assert CarriesFormKind(messages[i + 1], target);
      }
      if exists i :: 0 <= i < |messages| && i < limit && CarriesFormKind(messages[i], target) {
        var i :| 0 <= i < |messages| && i < limit && CarriesFormKind(messages[i], target);
        if i > 0 {
          assert CarriesFormKind(messages[1..][i - 1], target);
        }
      }
    }
  }

  predicate RecentFormKindSpec(messages: seq<Message>, kind: string, limit: int) {
    CarriedWithin(messages, Text.Lower(kind), limit)
  }

  /** `_recent_form_kind`: an indexed loop over the messages that stops at `limit`. */
  method RecentFormKind(messages: seq<Message>, kind: string, limit: int) returns (found: bool)
    ensures found <==> RecentFormKindSpec(messages, kind, limit)
  {
    var target := Text.Lower(kind);
    var index := 0;
    assert messages[index..] == messages;
    while index < |messages|
      invariant 0 <= index <= |messages|
      invariant CarriedWithin(messages, target, limit) == CarriedWithin(messages[index..], target, limit - index)
    {
      if index >= limit {
        break;
      }
      ghost var rest := messages[index..];
      assert rest[0] == messages[index] && rest[1..] == messages[index + 1..];
      if CarriesFormKind(messages[index], target) {
        assert CarriedWithin(rest, target, limit - index);
        return true;
      }
      assert CarriedWithin(rest, target, limit - index) == CarriedWithin(rest[1..], target, limit - index - 1);
      index := index + 1;
    }
    assert !CarriedWithin(messages[index..], target, limit - index);
    found := false;
  }

  /**
   * `maybe_attach_feedback_form`: nothing changes when a form is already
   * present, when there are no suggested actions, when one of the two newest
   * prior messages carried a feedback form, or when the random draw exceeds
   * 0.5; otherwise the check-in form is attached and "form_kind" becomes
   * "feedback", every other metadata key kept.
   */
  function FeedbackFormAttached(answer: Answer, priorMessages: seq<Message>, randomDraw: real): Answer {
    if answer.form.Some? || answer.suggestedActions == [] || RecentFormKindSpec(priorMessages, "feedback", 2)
       || randomDraw > 0.5
    then answer
    else answer.(form := Some(CheckInForm), metadata := Put(answer.metadata, "form_kind", Str("feedback")))
  }

  /** The check-in step as the services run it. */
  method MaybeAttachFeedbackForm(answer: Answer, priorMessages: seq<Message>, randomDraw: real)
    returns (updated: Answer)
    ensures updated == FeedbackFormAttached(answer, priorMessages, randomDraw)
    ensures var skip := answer.form.Some? || answer.suggestedActions == []
                        || RecentFormKindSpec(priorMessages, "feedback", 2) || randomDraw > 0.5;
            updated == if skip then answer
                       else answer.(form := Some(CheckInForm),
                                    metadata := Put(answer.metadata, "form_kind", Str("feedback")))
  {
    if answer.form.Some? {
      return answer;
    }
    if answer.suggestedActions == [] {
      return answer;
    }
    var recent := RecentFormKind(priorMessages, "feedback", 2);
    if recent {
      return answer;
    }
    if randomDraw > 0.5 {
      return answer;
    }
    var metadata := Put(answer.metadata, "form_kind", Str("feedback"));
    updated := answer.(metadata := metadata, form := Some(CheckInForm));
  }
}
