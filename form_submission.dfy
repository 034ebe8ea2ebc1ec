/**
 * `FormSubmissionService`: turns the follow-up form submission carried in a
 * user message's metadata into a processing result (summary, whether to skip
 * the reply, form kind, escalation/feedback/resolution answers, metadata
 * updates). The kind comes from the message metadata or from the stored
 * assistant message the submission replies to.
 */
module FormSubmission {
  import opened Wrappers
  import opened Json
  import Text
  import opened Store

  datatype FormResult = FormResult(
    summary: Option<string>,
    skipResponse: bool,
    formKind: Option<string>,
    escalationConfirmed: bool,
    metadataUpdates: Dict,
    resolved: bool,
    feedbackHelped: Option<bool>,
    resolutionConfirmed: Option<bool>)

  /** The result for a message that carries no submission. */
  const Neutral := FormResult(None, false, None, false, Empty, false, None, None)

  predicate IsYes(choice: Option<string>) {
    choice.Some? && choice.value in {"yes", "y", "true"}
  }

  predicate IsNo(choice: Option<string>) {
    choice.Some? && choice.value in {"no", "n", "false"}
  }

  /** A present value is non-empty, stripped and lower-case. */
  predicate Normalized(r: Option<string>) {
    r.Some? ==> r.value != [] && Text.IsNormalized(r.value)
  }

  /** The scalar part of `_normalize_value`: numbers and strings become text, anything else None. */
  function NormalizeAtom(v: Value): (r: Option<string>)
    ensures Normalized(r)
    ensures !(v.Bool? || v.Int? || v.Float? || v.Str?) ==> r.None?
    ensures v.Str? ==> r == (if Text.IsBlank(v.s) then None else Some(Text.StripLower(v.s)))
    ensures v.Bool? ==> r == Some(if v.b then "true" else "false")
  {
    // `str(True).strip().lower()` is "true", `str(False)...` is "false"
    if v.Bool? then Some(if v.b then "true" else "false")
    else if v.Int? || v.Float? || v.Str? then
      var text := Text.StripLower(PyStr(v));
      if text == [] then None else Some(text)
    else None
  }

  /**
   * `_normalize_value`: None and the empty list give None; a list contributes
   * only its first element; numbers (bools included, as in Python) and
   * strings become stripped lower-case text, blank → None; other types → None.
   */
  function NormalizeValue(v: Value): (r: Option<string>)
    ensures Normalized(r)
    ensures v.Null? || v == List([]) || v.Obj? ==> r.None?
    ensures v.List? && v.items != [] ==> r == NormalizeAtom(v.items[0])
    ensures !v.List? ==> r == NormalizeAtom(v)
  {
    if v.List? then (if v.items == [] then None else NormalizeAtom(v.items[0]))
    else NormalizeAtom(v)
  }

  /** `_normalize_text`: only strings, stripped and lower-cased; blank → None. */
  function NormalizeText(v: Value): (r: Option<string>)
    ensures Normalized(r)
    ensures !v.Str? ==> r.None?
    ensures v.Str? ==> (r.None? <==> Text.IsBlank(v.s))
  {
    if !v.Str? then None
    else
      var text := Text.StripLower(v.s);
      if text == [] then None else Some(text)
  }

  /** A non-blank string, stripped and lower-cased. */
  function KindText(v: Value): (r: Option<string>)
    ensures Normalized(r)
    ensures r.Some? <==> v.Str? && !Text.IsBlank(v.s)
  {
    if v.Str? && !Text.IsBlank(v.s) then Some(Text.StripLower(v.s)) else None
  }

  /**
   * `_extract_form_kind`: a top-level "form_kind" string wins, then
   * "extra"."form_kind"; both are stripped and lower-cased and blank ones are ignored.
   */
  function ExtractFormKind(metadata: Value): (r: Option<string>)
    ensures Normalized(r)
    ensures !metadata.Obj? ==> r.None?
    ensures metadata.Obj? && KindText(Get(metadata.d, "form_kind")).Some?
            ==> r == KindText(Get(metadata.d, "form_kind"))
    ensures metadata.Obj? && KindText(Get(metadata.d, "form_kind")).None?
            ==> r == (if Get(metadata.d, "extra").Obj?
                      then KindText(Get(Get(metadata.d, "extra").d, "form_kind")) else None)
  {
    if !metadata.Obj? then None
    else
      var top := KindText(Get(metadata.d, "form_kind"));
      if top.Some? then top
      else
        var extra := Get(metadata.d, "extra");
        if extra.Obj? then KindText(Get(extra.d, "form_kind")) else None
  }

  /** `_extract_form_submission`: the first dict under the two keys, in this order. */
  function ExtractSubmission(metadata: Dict): (r: Option<Dict>)
    ensures Get(metadata, "follow_up_form_response").Obj? ==> r == Some(Get(metadata, "follow_up_form_response").d)
    ensures !Get(metadata, "follow_up_form_response").Obj? && Get(metadata, "follow_up_form_submission").Obj?
            ==> r == Some(Get(metadata, "follow_up_form_submission").d)
    ensures r.None? <==> !Get(metadata, "follow_up_form_response").Obj? && !Get(metadata, "follow_up_form_submission").Obj?
  {
    var first := Get(metadata, "follow_up_form_response");
    if first.Obj? then Some(first.d)
    else
      var second := Get(metadata, "follow_up_form_submission");
      if second.Obj? then Some(second.d) else None
  }

  /**
   * `_resolve_form_kind`: the inline kind of the message metadata wins;
   * otherwise `replied_to` must be a string that parses as a UUID naming a
   * stored message of the same session, and the kind is read from that
   * message's metadata. A failing lookup gives None.
   */
  function ResolveFormKind(messages: seq<Message>, sessionId: Uuid, metadata: Dict, submission: Dict,
                           parseUuid: string -> Option<Uuid>, lookupFails: bool): (r: Option<string>)
    ensures Normalized(r)
    ensures ExtractFormKind(Obj(metadata)).Some? ==> r == ExtractFormKind(Obj(metadata))
    ensures ExtractFormKind(Obj(metadata)).None? && r.Some? ==>
              var replied := Get(submission, "replied_to");
              replied.Str? && parseUuid(replied.s).Some? && !lookupFails
              && MessageAt(messages, parseUuid(replied.s).value).Some?
              && MessageAt(messages, parseUuid(replied.s).value).value.sessionId == sessionId
              && r == ExtractFormKind(Obj(MessageAt(messages, parseUuid(replied.s).value).value.metadata))
    ensures var replied := Get(submission, "replied_to");
            ExtractFormKind(Obj(metadata)).None? && replied.Str? && parseUuid(replied.s).Some? && !lookupFails
            && MessageAt(messages, parseUuid(replied.s).value).Some?
            && MessageAt(messages, parseUuid(replied.s).value).value.sessionId == sessionId
            ==> r == ExtractFormKind(Obj(MessageAt(messages, parseUuid(replied.s).value).value.metadata))
  {
    var inline := ExtractFormKind(Obj(metadata));
    if inline.Some? then inline
    else
      var replied := Get(submission, "replied_to");
      var messageId := if replied.Str? then parseUuid(replied.s) else None;
      if messageId.None? || lookupFails then None
      else
        var message := MessageAt(messages, messageId.value);
        if message.None? || message.value.sessionId != sessionId then None
        else ExtractFormKind(Obj(message.value.metadata))
  }

  /** The normalised "value" of one field entry, when it is a dict that has one. */
  function EntryValue(e: Value): (r: Option<string>)
    ensures Normalized(r)
    ensures r.Some? ==> e.Obj? && Has(e.d, "value")
  {
    if e.Obj? && Has(e.d, "value") then NormalizeValue(Get(e.d, "value")) else None
  }

  /** The choice carried by the fields, as `_first_form_choice` reads them (first truthy one), else the top-level value. */
  function FirstFormChoiceSpec(submission: Dict): (r: Option<string>)
    ensures Normalized(r)
    ensures var fields := Get(submission, "fields");
            (!fields.List? || forall i :: 0 <= i < |fields.items| ==> EntryValue(fields.items[i]).None?)
            ==> r == NormalizeValue(Get(submission, "value"))
    ensures var fields := Get(submission, "fields");
            fields.List? && (exists i :: 0 <= i < |fields.items| && EntryValue(fields.items[i]).Some?)
            ==> exists i :: 0 <= i < |fields.items| && r == EntryValue(fields.items[i]) && r.Some?
                            && forall j :: 0 <= j < i ==> EntryValue(fields.items[j]).None?
  {
    var fields := Get(submission, "fields");
    var fromFields := if fields.List? then FirstFieldValue(fields.items) else None;
    if fromFields.Some? then fromFields else NormalizeValue(Get(submission, "value"))
  }

  /** The normalised "value" of the first dict entry that has a usable one. */
  function FirstFieldValue(entries: seq<Value>): (r: Option<string>)
    ensures Normalized(r)
    ensures r.None? <==> forall i :: 0 <= i < |entries| ==> EntryValue(entries[i]).None?
    ensures r.Some? ==> exists i :: 0 <= i < |entries| && r == EntryValue(entries[i])
                                    && forall j :: 0 <= j < i ==> EntryValue(entries[j]).None?
  {
    if entries == [] then None
    else
      var here := EntryValue(entries[0]);
      var rest := FirstFieldValue(entries[1..]);
      assert forall i :: 1 <= i < |entries| ==> entries[i] == entries[1..][i - 1];
      if here.Some? then here
      else
        assert rest.Some? ==> exists i :: 1 <= i < |entries| && rest == EntryValue(entries[i])
                                           && forall j :: 0 <= j < i ==> EntryValue(entries[j]).None? by {
          if rest.Some? {
            var k :| 0 <= k < |entries[1..]| && rest == EntryValue(entries[1..][k])
                     && forall j :: 0 <= j < k ==> EntryValue(entries[1..][j]).None?;
            assert rest == EntryValue(entries[k + 1]);
          }
        }
        rest
  }

  /** `_first_form_choice`: a loop over the field entries that returns at the first usable value. */
  method FirstFormChoice(submission: Dict) returns (choice: Option<string>)
    ensures choice == FirstFormChoiceSpec(submission)
    ensures Normalized(choice)
  {
    var fields := Get(submission, "fields");
    if fields.List? {
      var i := 0;
      while i < |fields.items|
        invariant 0 <= i <= |fields.items|
        invariant FirstFieldValue(fields.items) == FirstFieldValue(fields.items[i..])
      {
        var entry := fields.items[i];
        assert fields.items[i..][0] == entry && fields.items[i..][1..] == fields.items[i + 1..];
        if entry.Obj? && Has(entry.d, "value") {
          var normalized := NormalizeValue(Get(entry.d, "value"));
          if normalized.Some? {
            assert normalized == EntryValue(entry);
            return normalized;
          }
        }
        i := i + 1;
      }
    }
    choice := NormalizeValue(Get(submission, "value"));
  }

  /** `_maybe_attach_summary`: a present summary is stored with setdefault, never overwriting. */
  function MaybeAttachSummary(updates: Dict, summary: Option<string>): (r: Dict)
    ensures Has(updates, "follow_up_form_summary") || summary.None? || summary == Some("") ==> r == updates
    ensures !Has(updates, "follow_up_form_summary") && summary.Some? && summary.value != ""
            ==> r.vals == updates.vals["follow_up_form_summary" := Str(summary.value)]
  {
    if summary.Some? && summary.value != "" then SetDefault(updates, "follow_up_form_summary", Str(summary.value))
    else updates
  }

  /** `_handle_escalation`: (summary, confirmed); confirmation needs a yes-choice whatever the status. */
  function HandleEscalation(choice: Option<string>, status: Option<string>): (r: (Option<string>, bool))
    ensures r.1 <==> IsYes(choice)
    ensures status == Some("submitted") ==> r.0.Some?
  {
    (EscalationSummary(choice, status), IsYes(choice))
  }

  /** The summary half of `_handle_escalation`: a submitted form always has one. */
  function EscalationSummary(choice: Option<string>, status: Option<string>): (r: Option<string>)
    ensures status == Some("submitted") ==> r.Some?
  {
    if status == Some("submitted") then
      if IsYes(choice) then Some("User approved escalation to a technician. Confirm the hand-off and outline next steps.")
      else if IsNo(choice) then Some("User declined escalation; continue troubleshooting with new ideas.")
      else if choice.Some? then Some("Escalation form submitted with value: " + choice.value + ".")
      else Some("Escalation form submitted without a specific answer.")
    else if IsYes(choice) then Some("User wants escalation to a technician. Confirm the hand-off and set expectations.")
    else if IsNo(choice) then Some("User declined escalation; keep offering alternatives.")
    else if status.Some? then Some("Escalation form status: " + status.value + ".")
    else if choice.Some? then Some("Escalation response value: " + choice.value + ".")
    else None
  }

  /**
   * `_handle_feedback`: (summary, helped). A status other than "submitted"
   * yields no answer even for a yes-choice; without a status the choice decides.
   */
  function HandleFeedback(choice: Option<string>, status: Option<string>): (r: (Option<string>, Option<bool>))
    ensures status.Some? && status != Some("submitted") ==> r.1.None?
    ensures status == Some("submitted") || status.None? ==>
              r.1 == (if IsYes(choice) then Some(true) else if IsNo(choice) then Some(false) else None)
    ensures r.0.None? <==> status.None? && choice.None?
  {
    if status == Some("submitted") then
      if IsYes(choice) then (Some("Feedback: the user said the last suggestion helped."), Some(true))
      else if IsNo(choice) then (Some("Feedback: the user said the last suggestion did not help. Provide a different approach."), Some(false))
      else if choice.Some? then (Some("Feedback response provided: " + choice.value + "."), None)
      else (Some("Feedback form was submitted without a specific answer."), None)
    else if status.Some? then (Some("Feedback form status: " + status.value + "."), None)
    else if choice.Some? then
      if IsYes(choice) then (Some("Feedback response provided: yes."), Some(true))
      else if IsNo(choice) then (Some("Feedback response provided: no."), Some(false))
      else (Some("Feedback response provided: " + choice.value + "."), None)
    else (None, None)
  }

  /** `_handle_resolution_check`: (summary, confirmed), with the same status rule as feedback. */
  function HandleResolutionCheck(choice: Option<string>, status: Option<string>): (r: (Option<string>, Option<bool>))
    ensures status.Some? && status != Some("submitted") ==> r.1.None?
    ensures status == Some("submitted") || status.None? ==>
              r.1 == (if IsYes(choice) then Some(true) else if IsNo(choice) then Some(false) else None)
    ensures r.0.None? <==> status.None? && choice.None?
  {
    if status == Some("submitted") then
      if IsYes(choice) then (Some("Resolution check: the user confirmed the issue is fully resolved."), Some(true))
      else if IsNo(choice) then (Some("Resolution check: the user reported the issue is still present."), Some(false))
      else if choice.Some? then (Some("Resolution check submitted with value: " + choice.value + "."), None)
      else (Some("Resolution check submitted without a specific answer."), None)
    else if status.Some? then (Some("Resolution check status: " + status.value + "."), None)
    else if choice.Some? then
      if IsYes(choice) then (Some("Resolution check response: yes."), Some(true))
      else if IsNo(choice) then (Some("Resolution check response: no."), Some(false))
      else (Some("Resolution check response: " + choice.value + "."), None)
    else (None, None)
  }

  /** The updates every non-neutral result starts from: the kind, when there is one. */
  function KindUpdates(formKind: Option<string>): (r: Dict)
    ensures Has(r, "form_kind") <==> formKind.Some? && formKind.value != ""
    ensures !Has(r, "escalation") && !Has(r, "follow_up_form_summary")
  {
    if formKind.Some? && formKind.value != "" then Put(Empty, "form_kind", Str(formKind.value)) else Empty
  }

  const UserConfirmed := Obj(Put(Empty, "status", Str("user_confirmed")))

  /** The summary key is present exactly when a non-empty summary was attached, and holds it. */
  predicate SummaryStored(r: FormResult) {
    (r.summary.Some? && r.summary.value != "" <==> Has(r.metadataUpdates, "follow_up_form_summary"))
    && (Has(r.metadataUpdates, "follow_up_form_summary") ==>
          Get(r.metadataUpdates, "follow_up_form_summary") == Str(r.summary.value))
  }

  /** `form_submission_service.py` lines 61-80 of `process`: a dismissed form. */
  function Dismissed(formKind: Option<string>): (r: FormResult)
    ensures !r.escalationConfirmed && !r.resolved && r.summary.Some?
    ensures r.skipResponse <==> formKind != Some("escalation")
    ensures r.resolutionConfirmed.None? && r.feedbackHelped.None? && r.formKind == formKind
    ensures !Has(r.metadataUpdates, "escalation")
    ensures Has(r.metadataUpdates, "form_kind") <==> formKind.Some? && formKind.value != ""
    ensures SummaryStored(r)
  {
    var summary :=
      if formKind == Some("escalation") then "Escalation prompt dismissed; continue troubleshooting without involving a technician yet."
      else if formKind == Some("feedback") then "Feedback form dismissed; avoid repeating the last suggestion."
      else "Follow-up form dismissed.";
    FormResult(Some(summary), formKind != Some("escalation"), formKind, false,
               MaybeAttachSummary(KindUpdates(formKind), Some(summary)), false, None, None)
  }

  /** `form_submission_service.py` lines 82-96 of `process`: an escalation form; the confirmation marker is added only for a yes. */
  function Escalation(status: Option<string>, choice: Option<string>): (r: FormResult)
    ensures r.escalationConfirmed <==> IsYes(choice)
    ensures Has(r.metadataUpdates, "escalation") <==> r.escalationConfirmed
    ensures r.escalationConfirmed ==> Get(r.metadataUpdates, "escalation") == UserConfirmed
    ensures !r.skipResponse && !r.resolved && r.resolutionConfirmed.None? && r.feedbackHelped.None?
    ensures r.formKind == Some("escalation") && Has(r.metadataUpdates, "form_kind")
    ensures SummaryStored(r)
  {
    var handled := HandleEscalation(choice, status);
    var updates := EscalationUpdates(handled.1);
    SummaryKeyIsDistinct();
    AttachSummaryKeeps(updates, handled.0, "escalation");
    AttachSummaryKeeps(updates, handled.0, "form_kind");
    FormResult(handled.0, false, Some("escalation"), handled.1, MaybeAttachSummary(updates, handled.0), false, None, None)
  }

  /** Attaching a summary leaves every other key as it was. */
  lemma AttachSummaryKeeps(updates: Dict, summary: Option<string>, k: string)
    requires k != "follow_up_form_summary"
    ensures Has(MaybeAttachSummary(updates, summary), k) <==> Has(updates, k)
    ensures Get(MaybeAttachSummary(updates, summary), k) == Get(updates, k)
  {
  }

  /** The summary key is neither the kind key nor the escalation key. */
  lemma SummaryKeyIsDistinct()
    ensures "follow_up_form_summary" != "escalation" && "follow_up_form_summary" != "form_kind"
  {
    assert |"follow_up_form_summary"| == 22;
  }

  /** The kind, and the confirmation marker for a yes. */
  function EscalationUpdates(confirmed: bool): (r: Dict)
    ensures Has(r, "form_kind") && !Has(r, "follow_up_form_summary")
    ensures Has(r, "escalation") <==> confirmed
    ensures confirmed ==> Get(r, "escalation") == UserConfirmed
  {
    var updates := KindUpdates(Some("escalation"));
    if confirmed then Put(updates, "escalation", UserConfirmed) else updates
  }

  /** `form_submission_service.py` lines 98-110 and 127-138 of `process`: a feedback form, and the generic fallback read like one. */
  function Feedback(formKind: Option<string>, status: Option<string>, choice: Option<string>): (r: FormResult)
    ensures !r.escalationConfirmed && !r.skipResponse && !r.resolved && r.resolutionConfirmed.None?
    ensures r.feedbackHelped == HandleFeedback(choice, status).1
    ensures r.formKind == formKind && !Has(r.metadataUpdates, "escalation")
    ensures Has(r.metadataUpdates, "form_kind") <==> formKind.Some? && formKind.value != ""
    ensures SummaryStored(r)
  {
    var (summary, helped) := HandleFeedback(choice, status);
    FormResult(summary, false, formKind, false, MaybeAttachSummary(KindUpdates(formKind), summary), false, helped, None)
  }

  /** `form_submission_service.py` lines 112-125 of `process`: a resolution check; `resolved` is `bool(resolution_confirmed)`. */
  function ResolutionCheck(status: Option<string>, choice: Option<string>): (r: FormResult)
    ensures r.resolved <==> r.resolutionConfirmed == Some(true)
    ensures r.resolutionConfirmed == HandleResolutionCheck(choice, status).1
    ensures !r.escalationConfirmed && !r.skipResponse && r.feedbackHelped.None?
    ensures r.formKind == Some("resolution_check") && Has(r.metadataUpdates, "form_kind")
    ensures !Has(r.metadataUpdates, "escalation")
    ensures SummaryStored(r)
  {
    var (summary, confirmed) := HandleResolutionCheck(choice, status);
    FormResult(summary, false, Some("resolution_check"), false,
               MaybeAttachSummary(KindUpdates(Some("resolution_check")), summary), confirmed == Some(true), None, confirmed)
  }

  /**
   * The decision table of `process` once kind, status and choice are known:
   * a dismissal, then the escalation, feedback and resolution-check kinds,
   * then the generic fallback that reads the answer like feedback.
   */
  function Interpret(formKind: Option<string>, status: Option<string>, choice: Option<string>): (r: FormResult)
    // a dismissal is never a confirmation or a resolution, and skips the reply except for escalation forms
    ensures status == Some("dismissed") ==>
              !r.escalationConfirmed && !r.resolved && r.summary.Some?
              && (r.skipResponse <==> formKind != Some("escalation"))
    ensures status != Some("dismissed") ==> !r.skipResponse
    // escalation is confirmed exactly for a yes-choice on a non-dismissed escalation form
    ensures r.escalationConfirmed <==>
              formKind == Some("escalation") && status != Some("dismissed") && IsYes(choice)
    ensures Has(r.metadataUpdates, "escalation") <==> r.escalationConfirmed
    ensures r.escalationConfirmed ==> Get(r.metadataUpdates, "escalation") == UserConfirmed
    // only a confirmed resolution check resolves
    ensures r.resolved <==>
              formKind == Some("resolution_check") && status != Some("dismissed") && r.resolutionConfirmed == Some(true)
    ensures r.resolutionConfirmed.Some? ==> formKind == Some("resolution_check")
    ensures r.formKind == formKind
    ensures Has(r.metadataUpdates, "form_kind") <==> formKind.Some? && formKind.value != ""
    ensures SummaryStored(r)
  {
    if status == Some("dismissed") then Dismissed(formKind)
    else if formKind == Some("escalation") then Escalation(status, choice)
    else if formKind == Some("feedback") then Feedback(formKind, status, choice)
    else if formKind == Some("resolution_check") then ResolutionCheck(status, choice)
    else Feedback(formKind, status, choice)
  }

  /** What `process` computes from the stored messages and the message metadata. */
  function ProcessSpec(messages: seq<Message>, sessionId: Uuid, metadata: Dict,
                       parseUuid: string -> Option<Uuid>, lookupFails: bool): FormResult {
    var found := ExtractSubmission(metadata);
    if found.None? || found.value.vals == map[] then Neutral
    else
      Interpret(ResolveFormKind(messages, sessionId, metadata, found.value, parseUuid, lookupFails),
                NormalizeText(Get(found.value, "status")), FirstFormChoiceSpec(found.value))
  }

  /**
   * `process`: no submission dict (or an empty one) gives the neutral result;
   * otherwise the resolved kind, the normalised status and the first choice
   * are interpreted by the decision table.
   */
  method Process(store: ConversationStore, sessionId: Uuid, metadata: Dict,
                 parseUuid: string -> Option<Uuid>, lookupFails: bool) returns (result: FormResult)
    ensures result == ProcessSpec(store.messages, sessionId, metadata, parseUuid, lookupFails)
  {
    var found := ExtractSubmission(metadata);
    if found.None? || found.value.vals == map[] {
      return Neutral;
    }
    var submission := found.value;
    var formKind := ResolveFormKind(store.messages, sessionId, metadata, submission, parseUuid, lookupFails);
    var status := NormalizeText(Get(submission, "status"));
    var choice := FirstFormChoice(submission);
    result := Interpret(formKind, status, choice);
  }
}
