/**
 * `FormHandlerService`: reads the fields of a submitted resolution or
 * escalation form, and closes or escalates the session on an exact "yes".
 */
module FormHandler {
  import opened Wrappers
  import opened Json
  import Text
  import opened Store

  /** What the scan of the fields found: the last resolution and escalation answers. */
  datatype Scan = Scan(isResolved: Option<bool>, escalateConfirmed: Option<bool>)

  /**
   * The handler's outcome. `Crashed` stands for the Python exceptions of
   * malformed input ("fields" that cannot be iterated, a non-dict field, a
   * non-string label that has to be lower-cased).
   */
  datatype Outcome = Crashed | Continue | Act(action: string, reply: string)

  const ResolvedReply := "Great! I'm glad the issue is resolved. Feel free to start a new conversation if you need help again."
  const EscalatedReply := "I've escalated your issue to our support team. They'll reach out to you shortly."

  /** `field.get("field_id") or field.get("id", "")`. */
  function FieldId(field: Dict): Value {
    var primary := Get(field, "field_id");
    if Truthy(primary) then primary else if Has(field, "id") then Get(field, "id") else Str("")
  }

  /** `field.get("label", "")`. */
  function FieldLabel(field: Dict): Value {
    if Has(field, "label") then Get(field, "label") else Str("")
  }

  predicate LabelMentions(caption: Value, phrase: string) {
    caption.Str? && Text.Contains(Text.Lower(caption.s), phrase)
  }

  /** One loop step: `None` when the field makes Python raise. */
  function Step(acc: Scan, field: Value): Option<Scan> {
    if !field.Obj? then None
    else
      var id := FieldId(field.d);
      var caption := FieldLabel(field.d);
      var yes := Get(field.d, "value") == Str("yes");
      if id == Str("is_resolved") then Some(acc.(isResolved := Some(yes)))
      else if !caption.Str? then None
      else if LabelMentions(caption, "problem resolved") then Some(acc.(isResolved := Some(yes)))
      else if id == Str("escalate_confirmed") || LabelMentions(caption, "escalate to human") then
        Some(acc.(escalateConfirmed := Some(yes)))
      else Some(acc)
  }

  /** The loop's result over a prefix of the fields: a left fold of `Step`, so later fields overwrite earlier ones. */
  function ScanFields(fields: seq<Value>): Option<Scan>
    decreases |fields|
  {
    if fields == [] then Some(Scan(None, None))
    else
      var before := ScanFields(fields[..|fields| - 1]);
      if before.None? then None else Step(before.value, fields[|fields| - 1])
  }

  /** The loop over the fields (lines 42-55 of `handle_form_response`). */
  method ScanLoop(fields: seq<Value>) returns (r: Option<Scan>)
    ensures r == ScanFields(fields)
  {
    var acc := Scan(None, None);
    var i := 0;
    while i < |fields|
      invariant 0 <= i <= |fields|
      invariant ScanFields(fields[..i]) == Some(acc)
    {
      assert fields[..i + 1][..i] == fields[..i];
      var next := Step(acc, fields[i]);
      if next.None? {
        assert ScanFields(fields[..i + 1]).None?;
        NoRecovery(fields, i + 1);
        return None;
      }
      acc := next.value;
      i := i + 1;
    }
    assert fields[..i] == fields;
    r := Some(acc);
  }

  /** Once the fold fails it stays failed: the exception ends the handler. */
  lemma {:induction false} NoRecovery(fields: seq<Value>, k: nat)
    requires k <= |fields| && ScanFields(fields[..k]).None?
    ensures ScanFields(fields).None?
    decreases |fields| - k
  {
    if k < |fields| {
      assert fields[..k + 1][..k] == fields[..k];
      assert ScanFields(fields[..k + 1]).None?;
      NoRecovery(fields, k + 1);
    } else {
      assert fields[..k] == fields;
    }
  }

  /**
   * The decision after the loop: a resolution answer decides and escalation
   * is then ignored; "yes" closes or escalates; anything else continues.
   * The second component is the status to write, if any.
   */
  function Decide(scan: Scan): (r: (Outcome, Option<string>))
    ensures scan.isResolved == Some(true) ==> r == (Act("close_resolved", ResolvedReply), Some("resolved"))
    ensures scan.isResolved == Some(false) ==> r == (Continue, None)
    ensures scan.isResolved.None? && scan.escalateConfirmed == Some(true)
            ==> r == (Act("escalate", EscalatedReply), Some("escalated"))
    ensures scan.isResolved.None? && scan.escalateConfirmed != Some(true) ==> r == (Continue, None)
  {
    if scan.isResolved.Some? then
      if scan.isResolved.value then (Act("close_resolved", ResolvedReply), Some("resolved")) else (Continue, None)
    else if scan.escalateConfirmed.Some? then
      if scan.escalateConfirmed.value then (Act("escalate", EscalatedReply), Some("escalated")) else (Continue, None)
    else (Continue, None)
  }

  /**
   * `form_response.get("fields", [])` as the loop iterates it: a list gives
   * its items, a dict its keys and a string its characters (each a string,
   * which the first step cannot read); any other value makes Python raise.
   */
  function FieldsOf(formResponse: Dict): (r: Option<seq<Value>>)
    ensures !Has(formResponse, "fields") ==> r == Some([])
    ensures r.None? <==> Has(formResponse, "fields") && !(Get(formResponse, "fields").List? || Get(formResponse, "fields").Obj? || Get(formResponse, "fields").Str?)
    ensures r.Some? && Has(formResponse, "fields") && Get(formResponse, "fields").List? ==> r.value == Get(formResponse, "fields").items
    ensures r.Some? && Has(formResponse, "fields") && !Get(formResponse, "fields").List? ==> forall v :: v in r.value ==> v.Str?
    ensures r.Some? && Has(formResponse, "fields") && Get(formResponse, "fields").Obj? ==> |r.value| == |Get(formResponse, "fields").d.keys|
    ensures r.Some? && Has(formResponse, "fields") && Get(formResponse, "fields").Str? ==> |r.value| == |Get(formResponse, "fields").s|
  {
    if !Has(formResponse, "fields") then Some([])
    else
      match Get(formResponse, "fields")
      case List(items) => Some(items)
      case Obj(d) => Some(seq(|d.keys|, i requires 0 <= i < |d.keys| => Str(d.keys[i])))
      case Str(text) => Some(seq(|text|, i requires 0 <= i < |text| => Str([text[i]])))
      case _ => None
  }

  /**
   * A dict or a string as "fields": empty, the loop runs zero times and the
   * form continues; otherwise the first item is a string and the handler raises.
   */
  lemma {:induction false} IteratedFieldsOf(formResponse: Dict)
    requires FieldsOf(formResponse).Some? && Has(formResponse, "fields") && !Get(formResponse, "fields").List?
    ensures FieldsOf(formResponse).value == [] ==> ScanFields(FieldsOf(formResponse).value) == Some(Scan(None, None))
    ensures FieldsOf(formResponse).value != [] ==> ScanFields(FieldsOf(formResponse).value).None?
  {
    var fields := FieldsOf(formResponse).value;
    if fields != [] {
      assert ScanFields(fields[..1]).None? by {
        assert fields[..1][..0] == [];
        assert fields[..1][0] == fields[0];
      }
      NoRecovery(fields, 1);
    }
  }

  /**
   * `handle_form_response`: scans the fields, then writes "resolved" or
   * "escalated" on an exact, case-sensitive "yes"; no other change is made.
   */
  method HandleFormResponse(store: ConversationStore, sessionId: Uuid, formResponse: Dict, now: nat)
    returns (outcome: Outcome)
    modifies store
    ensures store.messages == old(store.messages)
    ensures var fields := FieldsOf(formResponse);
            var scan := if fields.None? then None else ScanFields(fields.value);
            if scan.None? then outcome == Crashed && store.sessions == old(store.sessions)
            else
              var (o, status) := Decide(scan.value);
              outcome == o
              && store.sessions == (if status.Some? && sessionId in old(store.sessions)
                                    then old(store.sessions)[sessionId := old(store.sessions)[sessionId].(status := status.value, updatedAt := now)]
                                    else old(store.sessions))
  {
    var fields := FieldsOf(formResponse);
    if fields.None? {
      return Crashed;
    }
    var scan := ScanLoop(fields.value);
    if scan.None? {
      return Crashed;
    }
    var (o, status) := Decide(scan.value);
    if status.Some? {
      store.SetStatus(sessionId, status.value, now);
    }
    outcome := o;
  }

  /** A field answers the resolution question by id, or by a label mentioning "problem resolved". */
  predicate IsResolutionField(f: Dict) {
    FieldId(f) == Str("is_resolved") || LabelMentions(FieldLabel(f), "problem resolved")
  }

  /** A field answers the escalation question (and not the resolution question). */
  predicate IsEscalationField(f: Dict) {
    !IsResolutionField(f)
    && (FieldId(f) == Str("escalate_confirmed") || LabelMentions(FieldLabel(f), "escalate to human"))
  }

  /**
   * The last field of a kind decides that kind's answer: appending a
   * well-formed resolution (escalation) field sets `isResolved`
   * (`escalateConfirmed`) to whether its value is exactly "yes", and leaves
   * the other answer as it was.
   */
  lemma LastFieldWins(fields: seq<Value>, f: Dict)
    requires ScanFields(fields).Some?
    requires FieldLabel(f).Str?
    ensures var before := ScanFields(fields).value;
            var after := ScanFields(fields + [Obj(f)]);
            var yes := Get(f, "value") == Str("yes");
            after.Some?
            && (IsResolutionField(f) ==> after.value == before.(isResolved := Some(yes)))
            && (IsEscalationField(f) ==> after.value == before.(escalateConfirmed := Some(yes)))
            && (!IsResolutionField(f) && !IsEscalationField(f) ==> after.value == before)
  {
    assert (fields + [Obj(f)])[..|fields|] == fields;
  }

  /**
   * A form whose fields are all well-formed dicts of neither kind leaves
   * both answers unset, so the flow continues and no status is written.
   */
  lemma {:induction false} NeitherKindContinues(fields: seq<Value>)
    requires forall i :: 0 <= i < |fields| ==>
               fields[i].Obj? && FieldLabel(fields[i].d).Str? && !IsResolutionField(fields[i].d) && !IsEscalationField(fields[i].d)
    ensures ScanFields(fields) == Some(Scan(None, None))
    ensures Decide(ScanFields(fields).value) == (Continue, None)
    decreases |fields|
  {
    if fields != [] {
      var init := fields[..|fields| - 1];
      assert forall i :: 0 <= i < |init| ==> init[i] == fields[i];
      NeitherKindContinues(init);
    }
  }
}
