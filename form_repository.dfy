/**
 * `ConversationFormRepository`: the dynamic follow-up forms of a session,
 * their fields, the options of single-choice fields and the user's answers.
 * The four tables become sequences whose positions are the row ids, and the
 * clock (`utcnow`) becomes a `now` parameter of every writing operation.
 */
module FormRepository {
  import opened Wrappers
  import opened Json
  import Text
  import Store
  import opened Parsing

  type Uuid = Store.Uuid

  /** `FormStatus`, with its stored text. */
  datatype FormStatus = InProgress | Submitted | Rejected

  function StatusValue(s: FormStatus): string {
    match s
    case InProgress => "in_progress"
    case Submitted => "submitted"
    case Rejected => "rejected"
  }

  /** `FormInputType`, with its stored text. */
  datatype InputType = YesNo | TextInput | SingleChoice

  function InputTypeValue(t: InputType): string {
    match t
    case YesNo => "yes_no"
    case TextInput => "text"
    case SingleChoice => "single_choice"
  }

  datatype FormRow = FormRow(
    sessionId: Uuid,
    title: Option<string>,
    description: Option<string>,
    status: FormStatus,
    rejectionReason: Option<string>,
    createdAt: nat,
    updatedAt: nat,
    submittedAt: Option<nat>,
    rejectedAt: Option<nat>)

  /** A field row; `prompt` is the payload's question as given. */
  datatype FieldRow = FieldRow(
    formId: Uuid,
    prompt: Value,
    inputType: InputType,
    required: bool,
    position: nat,
    placeholder: Option<Value>)

  datatype OptionRow = OptionRow(fieldId: Uuid, value: Value, labelText: Value, position: nat)

  datatype ResponseRow = ResponseRow(
    formId: Uuid,
    fieldId: Uuid,
    selectedOptionId: Option<Uuid>,
    value: Option<string>,
    createdAt: nat,
    updatedAt: nat)

  /** The four tables together, as the read side sees them. */
  datatype Tables = Tables(
    forms: seq<FormRow>,
    fields: seq<FieldRow>,
    options: seq<OptionRow>,
    responses: seq<ResponseRow>)

  // ---------------------------------------------------------------------
  // Status and timestamps
  // ---------------------------------------------------------------------

  /**
   * The timestamps a form's status implies: an open form carries none, a
   * submitted one a submission time and no rejection, a rejected one a
   * rejection time (and whatever submission time it had).
   */
  predicate TimestampsAgree(f: FormRow) {
    match f.status
    case InProgress => f.submittedAt == None && f.rejectedAt == None && f.rejectionReason == None
    case Submitted => f.submittedAt.Some? && f.rejectedAt == None && f.rejectionReason == None
    case Rejected => f.rejectedAt.Some?
  }

  /** The row `set_status` writes back for a form it found. */
  function StatusUpdate(f: FormRow, status: FormStatus, rejectionReason: Option<string>, now: nat): (r: FormRow)
    ensures TimestampsAgree(r)
    ensures r.status == status && r.updatedAt == now
    ensures r.sessionId == f.sessionId && r.title == f.title && r.description == f.description
    ensures r.createdAt == f.createdAt
    ensures status == Submitted ==> r.submittedAt == Some(now)
    ensures status == Rejected ==>
      r.rejectedAt == Some(now) && r.rejectionReason == rejectionReason && r.submittedAt == f.submittedAt
  {
    var touched := f.(status := status, updatedAt := now);
    match status
    case Submitted => touched.(submittedAt := Some(now), rejectedAt := None, rejectionReason := None)
    case Rejected => touched.(rejectedAt := Some(now), rejectionReason := rejectionReason)
    case InProgress => touched.(submittedAt := None, rejectedAt := None, rejectionReason := None)
  }

  /** Setting the same status twice is the same as setting it once, at the later time. */
  lemma StatusUpdateLastWins(f: FormRow, status: FormStatus, reason: Option<string>, t1: nat, t2: nat)
    ensures StatusUpdate(StatusUpdate(f, status, reason, t1), status, reason, t2)
         == StatusUpdate(f, status, reason, t2)
  {
  }

  /** Rejecting a submitted form keeps its submission time. */
  lemma RejectKeepsSubmission(f: FormRow, reason: Option<string>, t1: nat, t2: nat)
    ensures StatusUpdate(StatusUpdate(f, Submitted, None, t1), Rejected, reason, t2).submittedAt == Some(t1)
  {
  }

  // ---------------------------------------------------------------------
  // Answers
  // ---------------------------------------------------------------------

  /** `_normalize_value`: booleans become yes/no, anything else its stripped text, blank none. */
  function NormalizeValue(v: Value): (r: Option<string>)
    ensures v == Null ==> r == None
    ensures v.Bool? ==> r == Some(if v.b then "yes" else "no")
    ensures v.Str? ==> (r == None <==> Text.IsBlank(v.s))
    ensures r.Some? ==> r.value != [] && Text.IsStripped(r.value)
  {
    if v == Null then None
    else if v.Bool? then Some(if v.b then "yes" else "no")
    else
      var text := Text.Strip(PyStr(v));
      if text == [] then None else Some(text)
  }

  /** A normalised answer normalises to itself. */
  lemma NormalizeValueIdempotent(v: Value)
    requires NormalizeValue(v).Some?
    ensures NormalizeValue(Str(NormalizeValue(v).value)) == NormalizeValue(v)
  {
    var t := NormalizeValue(v).value;
    assert PyStr(Str(t)) == t;
    assert Text.Strip(t) == t;
  }

  /** At most one response per (form, field): the unique constraint of the response table. */
  predicate OneResponsePerField(rs: seq<ResponseRow>) {
    forall i, j :: 0 <= i < j < |rs| ==>
      rs[i].formId != rs[j].formId || rs[i].fieldId != rs[j].fieldId
  }

  /** The position of the response to `(formId, fieldId)`, if there is one. */
  function FindResponse(rs: seq<ResponseRow>, formId: Uuid, fieldId: Uuid): (r: Option<nat>)
    ensures r.Some? ==> r.value < |rs| && rs[r.value].formId == formId && rs[r.value].fieldId == fieldId
    ensures r.None? ==> forall i :: 0 <= i < |rs| ==> rs[i].formId != formId || rs[i].fieldId != fieldId
    decreases |rs|
  {
    if rs == [] then None
    else
      var n := |rs| - 1;
      if rs[n].formId == formId && rs[n].fieldId == fieldId then Some(n)
      else FindResponse(rs[..n], formId, fieldId)
  }

  /** The response table after `save_field_response` with an already normalised value. */
  function Upserted(rs: seq<ResponseRow>, formId: Uuid, fieldId: Uuid, value: Option<string>,
                    selectedOptionId: Option<Uuid>, now: nat): (r: seq<ResponseRow>)
    ensures |r| == |rs| + (if FindResponse(rs, formId, fieldId).Some? then 0 else 1)
  {
    match FindResponse(rs, formId, fieldId)
    case Some(i) => rs[i := rs[i].(value := value, selectedOptionId := selectedOptionId, updatedAt := now)]
    case None => rs + [ResponseRow(formId, fieldId, selectedOptionId, value, now, now)]
  }

  /** Saving an answer keeps the table at one response per (form, field). */
  lemma UpsertedKeepsOnePerField(rs: seq<ResponseRow>, formId: Uuid, fieldId: Uuid, value: Option<string>,
                                 selectedOptionId: Option<Uuid>, now: nat)
    requires OneResponsePerField(rs)
    ensures OneResponsePerField(Upserted(rs, formId, fieldId, value, selectedOptionId, now))
  {
    var r := Upserted(rs, formId, fieldId, value, selectedOptionId, now);
    match FindResponse(rs, formId, fieldId)
    case Some(k) =>
      forall i, j | 0 <= i < j < |r|
        ensures r[i].formId != r[j].formId || r[i].fieldId != r[j].fieldId
      {
        assert r[i].formId == rs[i].formId && r[i].fieldId == rs[i].fieldId;
        assert r[j].formId == rs[j].formId && r[j].fieldId == rs[j].fieldId;
      }
    case None =>
      forall i, j | 0 <= i < j < |r|
        ensures r[i].formId != r[j].formId || r[i].fieldId != r[j].fieldId
      {
        if j < |rs| {
          assert r[i] == rs[i] && r[j] == rs[j];
        } else {
          assert r[i] == rs[i];
        }
      }
  }

  /** After saving, the (form, field) pair has a response holding exactly the saved answer. */
  lemma UpsertedHoldsAnswer(rs: seq<ResponseRow>, formId: Uuid, fieldId: Uuid, value: Option<string>,
                            selectedOptionId: Option<Uuid>, now: nat)
    requires OneResponsePerField(rs)
    ensures var r := Upserted(rs, formId, fieldId, value, selectedOptionId, now);
      var found := FindResponse(r, formId, fieldId);
      found.Some?
      && r[found.value].value == value
      && r[found.value].selectedOptionId == selectedOptionId
      && r[found.value].updatedAt == now
  {
    var r := Upserted(rs, formId, fieldId, value, selectedOptionId, now);
    UpsertedKeepsOnePerField(rs, formId, fieldId, value, selectedOptionId, now);
    match FindResponse(rs, formId, fieldId)
    case Some(k) =>
      var found := FindResponse(r, formId, fieldId);
      assert r[k].formId == formId && r[k].fieldId == fieldId;
      assert found.Some?;
    case None =>
      assert r[|rs|].formId == formId && r[|rs|].fieldId == fieldId;
      assert r[..|rs|] == rs;
  }

  /** Saving an answer leaves the response of every other (form, field) pair as it was. */
  lemma UpsertedKeepsOthers(rs: seq<ResponseRow>, formId: Uuid, fieldId: Uuid, value: Option<string>,
                            selectedOptionId: Option<Uuid>, now: nat, otherForm: Uuid, otherField: Uuid)
    requires otherForm != formId || otherField != fieldId
    ensures var r := Upserted(rs, formId, fieldId, value, selectedOptionId, now);
      FindResponse(r, otherForm, otherField) == FindResponse(rs, otherForm, otherField)
  {
    var r := Upserted(rs, formId, fieldId, value, selectedOptionId, now);
    match FindResponse(rs, formId, fieldId)
    case Some(k) =>
      SameKeysSameFind(rs, r, otherForm, otherField);
    case None =>
      assert r[..|rs|] == rs;
  }

  /** Two tables with the same (form, field) column find the same position. */
  lemma {:induction false} SameKeysSameFind(a: seq<ResponseRow>, b: seq<ResponseRow>, formId: Uuid, fieldId: Uuid)
    requires |a| == |b|
    requires forall i :: 0 <= i < |a| ==> a[i].formId == b[i].formId && a[i].fieldId == b[i].fieldId
    ensures FindResponse(a, formId, fieldId) == FindResponse(b, formId, fieldId)
    decreases |a|
  {
    if a != [] {
      var n := |a| - 1;
      SameKeysSameFind(a[..n], b[..n], formId, fieldId);
    }
  }

  // ---------------------------------------------------------------------
  // Creating a form
  // ---------------------------------------------------------------------

  /** `FormInputType(value)` with the fallback to TEXT for anything it rejects. */
  function InputTypeOf(v: Value): (r: InputType)
    ensures r == YesNo <==> v == Str("yes_no")
    ensures r == SingleChoice <==> v == Str("single_choice")
  {
    if v == Str(InputTypeValue(YesNo)) then YesNo
    else if v == Str(InputTypeValue(SingleChoice)) then SingleChoice
    else TextInput
  }

  /** Every input type is read back from its own stored text. */
  lemma InputTypeRoundTrip(t: InputType)
    ensures InputTypeOf(Str(InputTypeValue(t))) == t
  {
  }

  /** The new form row: no empty title, open, not yet submitted nor rejected. */
  function NewForm(sessionId: Uuid, title: string, description: Option<string>, now: nat): (r: FormRow)
    ensures r.status == InProgress && TimestampsAgree(r)
    ensures r.title == None <==> title == []
    ensures r.title.Some? ==> r.title.value == title
  {
    FormRow(sessionId, if title == [] then None else Some(title), description, InProgress, None, now, now, None, None)
  }

  /** The field row written for the payload at `position`. */
  function FieldOf(formId: Uuid, position: nat, p: Dict): (r: FieldRow)
    ensures r.formId == formId && r.position == position
    ensures r.inputType == InputTypeOf(GetOr(p, "input_type", Str(InputTypeValue(TextInput))))
    ensures r.placeholder.Some? <==> Truthy(Get(p, "placeholder"))
  {
    FieldRow(
      formId,
      GetOr(p, "question", Str("")),
      InputTypeOf(GetOr(p, "input_type", Str(InputTypeValue(TextInput)))),
      Truthy(GetOr(p, "required", Bool(false))),
      position,
      if Truthy(Get(p, "placeholder")) then Some(Get(p, "placeholder")) else None)
  }

  /**
   * The option payloads of a field payload, or `None` where iterating
   * `payload.get("options") or []` and calling `.get` on each item raises:
   * a truthy non-list, or a list with an item that is not a dict.
   */
  function OptionPayloads(p: Dict): (r: Option<seq<Dict>>)
    ensures !Truthy(Get(p, "options")) ==> r == Some([])
    ensures r.Some? && Truthy(Get(p, "options")) ==>
      Get(p, "options").List? && |r.value| == |Get(p, "options").items|
  {
    var v := Get(p, "options");
    if !Truthy(v) then Some([])
    else if v.List? && (forall k :: 0 <= k < |v.items| ==> v.items[k].Obj?) then
      Some(seq(|v.items|, k requires 0 <= k < |v.items| => v.items[k].d))
    else None
  }

  /** `payload.get("options") or []` can be iterated: it is falsy or a list. */
  predicate OptionsIterable(p: Dict) {
    !Truthy(Get(p, "options")) || Get(p, "options").List?
  }

  /** The items iterated for the options of a field payload. */
  function OptionItems(p: Dict): seq<Value> {
    var raw := Get(p, "options");
    if Truthy(raw) && raw.List? then raw.items else []
  }

  /** The option row written for the option payload at `position`. */
  function OptionOf(fieldId: Uuid, position: nat, o: Dict): OptionRow {
    OptionRow(
      fieldId,
      GetOr(o, "value", GetOr(o, "label", Str("option"))),
      GetOr(o, "label", GetOr(o, "value", Str("Option"))),
      position)
  }

  /** The option rows of one field, positioned by their index. */
  function OptionsOf(fieldId: Uuid, os: seq<Dict>): (r: seq<OptionRow>)
    ensures |r| == |os|
    ensures forall k :: 0 <= k < |r| ==> r[k].fieldId == fieldId && r[k].position == k
  {
    seq(|os|, k requires 0 <= k < |os| => OptionOf(fieldId, k, os[k]))
  }

  /** Every field payload's options can be read. */
  predicate OptionsReadable(ps: seq<Dict>) {
    forall k :: 0 <= k < |ps| ==> OptionPayloads(ps[k]).Some?
  }

  /** The field rows of a new form, positioned by their index. */
  function StagedFields(formId: Uuid, ps: seq<Dict>): (r: seq<FieldRow>)
    ensures |r| == |ps|
    ensures forall k :: 0 <= k < |r| ==> r[k].formId == formId && r[k].position == k
  {
    seq(|ps|, k requires 0 <= k < |ps| => FieldOf(formId, k, ps[k]))
  }

  /** The option rows of a new form's fields, the first of which gets id `firstField`. */
  function StagedOptions(firstField: nat, ps: seq<Dict>): seq<OptionRow>
    requires OptionsReadable(ps)
    decreases |ps|
  {
    if ps == [] then []
    else
      var n := |ps| - 1;
      StagedOptions(firstField, ps[..n]) + OptionsOf(firstField + n, OptionPayloads(ps[n]).value)
  }

  /** Every staged option belongs to one of the new form's fields. */
  lemma {:induction false} StagedOptionsOwned(firstField: nat, ps: seq<Dict>)
    requires OptionsReadable(ps)
    ensures forall o :: o in StagedOptions(firstField, ps) ==> firstField <= o.fieldId < firstField + |ps|
    decreases |ps|
  {
    if ps != [] {
      var n := |ps| - 1;
      StagedOptionsOwned(firstField, ps[..n]);
      var os := OptionsOf(firstField + n, OptionPayloads(ps[n]).value);
      forall o | o in os ensures o.fieldId == firstField + n {
        var k :| 0 <= k < |os| && os[k] == o;
      }
    }
  }

  // ---------------------------------------------------------------------
  // Table invariants
  // ---------------------------------------------------------------------

  /** Every form's timestamps agree with its status. */
  predicate FormsAgree(forms: seq<FormRow>) {
    forall f :: 0 <= f < |forms| ==> TimestampsAgree(forms[f])
  }

  /** Touching a form's `updated_at` keeps every form's timestamps in agreement. */
  lemma TouchKeepsTimestamps(forms: seq<FormRow>, formId: Uuid, now: nat)
    requires FormsAgree(forms) && formId < |forms|
    ensures FormsAgree(forms[formId := forms[formId].(updatedAt := now)])
  {
    var touched := forms[formId := forms[formId].(updatedAt := now)];
    forall f | 0 <= f < |touched| ensures TimestampsAgree(touched[f]) {
      assert TimestampsAgree(forms[f]);
    }
  }

  /** Every field belongs to an existing form. */
  predicate FieldsInForms(fields: seq<FieldRow>, formCount: nat) {
    forall j :: 0 <= j < |fields| ==> fields[j].formId < formCount
  }

  /**
   * Within a form, the fields are stored in increasing position, so the
   * storage order is the `(form_id, position)` order the context query asks for.
   */
  predicate PositionsIncrease(fields: seq<FieldRow>) {
    forall i, j :: 0 <= i < j < |fields| && fields[i].formId == fields[j].formId ==>
      fields[i].position < fields[j].position
  }

  /** Adding a new form's fields keeps the field invariants. */
  lemma StagedFieldsKeepOrder(fields: seq<FieldRow>, formCount: nat, ps: seq<Dict>)
    requires FieldsInForms(fields, formCount) && PositionsIncrease(fields)
    ensures FieldsInForms(fields + StagedFields(formCount, ps), formCount + 1)
    ensures PositionsIncrease(fields + StagedFields(formCount, ps))
  {
    var all := fields + StagedFields(formCount, ps);
    forall i, j | 0 <= i < j < |all| && all[i].formId == all[j].formId
      ensures all[i].position < all[j].position
    {
      if j < |fields| {
        assert all[i] == fields[i] && all[j] == fields[j];
      }
    }
  }

  // ---------------------------------------------------------------------
  // The context snapshot
  // ---------------------------------------------------------------------

  datatype InputSnapshot = InputSnapshot(question: Value, inputType: InputType, answer: Value)

  datatype FormSnapshot = FormSnapshot(
    formId: string,
    title: string,
    status: FormStatus,
    updatedAt: Option<string>,
    submittedAt: Option<string>,
    rejectedAt: Option<string>,
    rejectionReason: Option<string>,
    inputs: seq<InputSnapshot>)

  /** The form with id `formId` belongs to the session. */
  predicate InSession(t: Tables, sessionId: Uuid, formId: Uuid) {
    formId < |t.forms| && t.forms[formId].sessionId == sessionId
  }

  /**
   * The label of option `optionId` when it is among the options the context
   * query loads: those of fields of the session's forms.
   */
  function VisibleLabel(t: Tables, sessionId: Uuid, optionId: Uuid): Option<Value> {
    if optionId < |t.options| && t.options[optionId].fieldId < |t.fields|
       && InSession(t, sessionId, t.fields[t.options[optionId].fieldId].formId)
    then Some(t.options[optionId].labelText)
    else None
  }

  /** The stored text of a response as a value (`None` as `Null`). */
  function TextValue(s: Option<string>): Value {
    if s.Some? then Str(s.value) else Null
  }

  /** The answer shown for a response: the selected option's label when found, else the stored value. */
  function AnswerOf(t: Tables, sessionId: Uuid, response: ResponseRow): (r: Value)
    ensures response.selectedOptionId.None? ==> r == TextValue(response.value)
    ensures response.selectedOptionId.Some? && VisibleLabel(t, sessionId, response.selectedOptionId.value).None?
      ==> r == TextValue(response.value)
    ensures response.selectedOptionId.Some? && VisibleLabel(t, sessionId, response.selectedOptionId.value).Some?
      ==> r == VisibleLabel(t, sessionId, response.selectedOptionId.value).value
  {
    match response.selectedOptionId
    case None => TextValue(response.value)
    case Some(o) =>
      match VisibleLabel(t, sessionId, o)
      case Some(text) => text
      case None => TextValue(response.value)
  }

  /** The position of the last response stored for a field. */
  function LatestIndex(rs: seq<ResponseRow>, fieldId: Uuid): (r: Option<nat>)
    ensures r.Some? ==> r.value < |rs| && rs[r.value].fieldId == fieldId
    ensures r.Some? ==> forall j :: r.value < j < |rs| ==> rs[j].fieldId != fieldId
    ensures r.None? ==> forall i :: 0 <= i < |rs| ==> rs[i].fieldId != fieldId
    decreases |rs|
  {
    if rs == [] then None
    else
      var n := |rs| - 1;
      if rs[n].fieldId == fieldId then Some(n)
      else
        assert forall k :: 0 <= k < n ==> rs[..n][k] == rs[k];
        LatestIndex(rs[..n], fieldId)
  }

  /** The response `response_by_field` keeps for a field: the last one stored. */
  function LatestForField(rs: seq<ResponseRow>, fieldId: Uuid): (r: Option<ResponseRow>)
    ensures r.Some? ==> r.value in rs && r.value.fieldId == fieldId
    ensures r.None? ==> forall i :: 0 <= i < |rs| ==> rs[i].fieldId != fieldId
    ensures r.Some? ==> exists i :: 0 <= i < |rs| && rs[i] == r.value && forall j :: i < j < |rs| ==> rs[j].fieldId != fieldId
  {
    match LatestIndex(rs, fieldId)
    case None => None
    case Some(i) => Some(rs[i])
  }

  /** The input entry of field `fieldId`, if it has an answer. */
  function InputOf(t: Tables, sessionId: Uuid, fieldId: Uuid): (r: Option<InputSnapshot>)
    requires fieldId < |t.fields|
    ensures r.Some? ==> r.value.answer != Null && r.value.question == t.fields[fieldId].prompt
    ensures LatestForField(t.responses, fieldId).None? ==> r.None?
  {
    match LatestForField(t.responses, fieldId)
    case None => None
    case Some(response) =>
      var answer := AnswerOf(t, sessionId, response);
      if answer == Null then None
      else Some(InputSnapshot(t.fields[fieldId].prompt, t.fields[fieldId].inputType, answer))
  }

  /** The inputs of form `formId` among the first `m` fields, in storage order. */
  function InputsUpTo(t: Tables, sessionId: Uuid, formId: Uuid, m: nat): (r: seq<InputSnapshot>)
    requires m <= |t.fields|
    ensures |r| <= m
    ensures forall k :: 0 <= k < |r| ==> r[k].answer != Null
  {
    if m == 0 then []
    else
      var prefix := InputsUpTo(t, sessionId, formId, m - 1);
      if t.fields[m - 1].formId == formId && InputOf(t, sessionId, m - 1).Some?
      then prefix + [InputOf(t, sessionId, m - 1).value]
      else prefix
  }

  /** A form's inputs are exactly the answered inputs of its fields. */
  lemma {:induction false} InputsOfForm(t: Tables, sessionId: Uuid, formId: Uuid, m: nat, x: InputSnapshot)
    requires m <= |t.fields|
    ensures x in InputsUpTo(t, sessionId, formId, m) <==>
              exists f :: 0 <= f < m && t.fields[f].formId == formId && InputOf(t, sessionId, f) == Some(x)
  {
    if m > 0 {
      var k := m - 1;
      InputsOfForm(t, sessionId, formId, k, x);
      var prefix := InputsUpTo(t, sessionId, formId, k);
      var input := InputOf(t, sessionId, k);
      var here := t.fields[k].formId == formId && input.Some?;
      assert InputsUpTo(t, sessionId, formId, m) == if here then prefix + [input.value] else prefix;
      if x in InputsUpTo(t, sessionId, formId, m) && x !in prefix {
        assert here && x == input.value;
        assert 0 <= k < m && t.fields[k].formId == formId && InputOf(t, sessionId, k) == Some(x);
      }
      if exists f :: 0 <= f < m && t.fields[f].formId == formId && InputOf(t, sessionId, f) == Some(x) {
        var f :| 0 <= f < m && t.fields[f].formId == formId && InputOf(t, sessionId, f) == Some(x);
        if f == k {
          assert here && x == input.value;
        } else {
          assert x in prefix;
        }
      }
    }
  }

  /** `_format_timestamp` over an isoformat oracle. */
  function FormatTimestamp(ts: Option<nat>, isoText: nat -> string): Option<string> {
    if ts.Some? then Some(isoText(ts.value)) else None
  }

  /** The snapshot of form `formId`. */
  function SnapshotOf(t: Tables, sessionId: Uuid, formId: Uuid, uuidText: Uuid -> string,
                      isoText: nat -> string): (r: FormSnapshot)
    requires formId < |t.forms|
    ensures r.status == t.forms[formId].status
    ensures r.title == t.forms[formId].title.GetOr("")
    ensures r.inputs == InputsUpTo(t, sessionId, formId, |t.fields|)
  {
    var f := t.forms[formId];
    FormSnapshot(
      uuidText(formId),
      f.title.GetOr(""),
      f.status,
      Some(isoText(f.updatedAt)),
      FormatTimestamp(f.submittedAt, isoText),
      FormatTimestamp(f.rejectedAt, isoText),
      f.rejectionReason,
      InputsUpTo(t, sessionId, formId, |t.fields|))
  }

  /** The session's forms among the first `n`, in creation order. */
  function SessionForms(t: Tables, sessionId: Uuid, n: nat): (r: seq<Uuid>)
    requires n <= |t.forms|
    ensures |r| <= n
    ensures forall k :: 0 <= k < |r| ==> r[k] < n
    ensures forall f: nat :: f in r <==> f < n && InSession(t, sessionId, f)
    ensures forall i, j :: 0 <= i < j < |r| ==> r[i] < r[j]
  {
    if n == 0 then []
    else
      var prefix := SessionForms(t, sessionId, n - 1);
      if t.forms[n - 1].sessionId == sessionId then prefix + [n - 1] else prefix
  }

  /** The snapshots of the session's forms among the first `n`, one per form, in creation order. */
  function SnapshotsUpTo(t: Tables, sessionId: Uuid, n: nat, uuidText: Uuid -> string,
                         isoText: nat -> string): (r: seq<FormSnapshot>)
    requires n <= |t.forms|
    ensures |r| <= n
    ensures |r| == |SessionForms(t, sessionId, n)|
    ensures forall k :: 0 <= k < |r| ==> r[k] == SnapshotOf(t, sessionId, SessionForms(t, sessionId, n)[k], uuidText, isoText)
  {
    if n == 0 then []
    else
      var prefix := SnapshotsUpTo(t, sessionId, n - 1, uuidText, isoText);
      if t.forms[n - 1].sessionId == sessionId
      then prefix + [SnapshotOf(t, sessionId, n - 1, uuidText, isoText)]
      else prefix
  }

  /** A snapshot is worth showing when it has answers or was submitted or rejected. */
  predicate Shown(s: FormSnapshot) {
    s.inputs != [] || s.status == Rejected || s.status == Submitted
  }

  /** The elements of `xs` that satisfy `p`, in order. */
  function Filter<T>(xs: seq<T>, p: T -> bool): (r: seq<T>)
    ensures |r| <= |xs|
    decreases |xs|
  {
    if xs == [] then []
    else
      var n := |xs| - 1;
      Filter(xs[..n], p) + (if p(xs[n]) then [xs[n]] else [])
  }

  lemma {:induction false} FilterMembers<T>(xs: seq<T>, p: T -> bool, x: T)
    ensures x in Filter(xs, p) <==> x in xs && p(x)
    decreases |xs|
  {
    if xs != [] {
      var n := |xs| - 1;
      FilterMembers(xs[..n], p, x);
      assert xs == xs[..n] + [xs[n]];
    }
  }

  /** `get_form_context`: the shown snapshots of the session's forms. */
  function FormContext(t: Tables, sessionId: Uuid, uuidText: Uuid -> string, isoText: nat -> string): (r: seq<FormSnapshot>)
    ensures |r| <= |t.forms|
    ensures forall s :: s in r <==>
              Shown(s) && exists f :: 0 <= f < |t.forms| && InSession(t, sessionId, f) && s == SnapshotOf(t, sessionId, f, uuidText, isoText)
  {
    var all := SnapshotsUpTo(t, sessionId, |t.forms|, uuidText, isoText);
    assert forall s :: s in Filter(all, Shown) <==> s in all && Shown(s) by {
      forall s
        ensures s in Filter(all, Shown) <==> s in all && Shown(s)
      {
        FilterMembers(all, Shown, s);
      }
    }
    assert forall s :: s in all <==>
             exists f :: 0 <= f < |t.forms| && InSession(t, sessionId, f) && s == SnapshotOf(t, sessionId, f, uuidText, isoText) by {
      var ids := SessionForms(t, sessionId, |t.forms|);
      forall s | s in all
        ensures exists f :: 0 <= f < |t.forms| && InSession(t, sessionId, f) && s == SnapshotOf(t, sessionId, f, uuidText, isoText)
      {
        var k :| 0 <= k < |all| && all[k] == s;
        assert ids[k] in ids;
      }
      forall s | exists f :: 0 <= f < |t.forms| && InSession(t, sessionId, f) && s == SnapshotOf(t, sessionId, f, uuidText, isoText)
        ensures s in all
      {
        var f :| 0 <= f < |t.forms| && InSession(t, sessionId, f) && s == SnapshotOf(t, sessionId, f, uuidText, isoText);
        assert f in ids;
        var k :| 0 <= k < |ids| && ids[k] == f;
        assert all[k] == s;
      }
    }
    Filter(all, Shown)
  }

  /**
   * A field whose every response belongs to its own form shows, after an answer
   * without a selected option is saved, exactly that answer.
   */
  lemma SavedAnswerShows(t: Tables, sessionId: Uuid, formId: Uuid, fieldId: Uuid, v: Value, now: nat)
    requires fieldId < |t.fields|
    requires OneResponsePerField(t.responses)
    requires forall i :: 0 <= i < |t.responses| && t.responses[i].fieldId == fieldId ==> t.responses[i].formId == formId
    requires NormalizeValue(v).Some?
    ensures var t' := t.(responses := Upserted(t.responses, formId, fieldId, NormalizeValue(v), None, now));
      InputOf(t', sessionId, fieldId)
      == Some(InputSnapshot(t.fields[fieldId].prompt, t.fields[fieldId].inputType, Str(NormalizeValue(v).value)))
  {
    var value := NormalizeValue(v);
    var t' := t.(responses := Upserted(t.responses, formId, fieldId, value, None, now));
    SavedResponseLatest(t.responses, formId, fieldId, value, now);
    InputFromLatest(t', sessionId, fieldId, LatestForField(t'.responses, fieldId).value);
  }

  /** An answer read from a response without a selected option is the response's text. */
  lemma InputFromLatest(t: Tables, sessionId: Uuid, fieldId: Uuid, row: ResponseRow)
    requires fieldId < |t.fields|
    requires LatestForField(t.responses, fieldId) == Some(row)
    requires row.selectedOptionId == None && row.value.Some?
    ensures InputOf(t, sessionId, fieldId)
      == Some(InputSnapshot(t.fields[fieldId].prompt, t.fields[fieldId].inputType, Str(row.value.value)))
  {
    assert AnswerOf(t, sessionId, row) == Str(row.value.value);
  }

  /** After saving, the field's latest response is the saved one. */
  lemma SavedResponseLatest(rs: seq<ResponseRow>, formId: Uuid, fieldId: Uuid, value: Option<string>, now: nat)
    requires OneResponsePerField(rs)
    requires forall i :: 0 <= i < |rs| && rs[i].fieldId == fieldId ==> rs[i].formId == formId
    ensures var latest := LatestForField(Upserted(rs, formId, fieldId, value, None, now), fieldId);
      latest.Some? && latest.value.value == value && latest.value.selectedOptionId == None
  {
    var r := Upserted(rs, formId, fieldId, value, None, now);
    match FindResponse(rs, formId, fieldId)
    case Some(k) =>
      forall i | 0 <= i < |r| && i != k ensures r[i].fieldId != fieldId {
        assert r[i] == rs[i];
      }
      LatestIsOnly(r, fieldId, k);
    case None =>
      assert r[|rs|].fieldId == fieldId;
  }

  /** When only position `k` holds a response to `fieldId`, that response is the latest. */
  lemma {:induction false} LatestIsOnly(rs: seq<ResponseRow>, fieldId: Uuid, k: nat)
    requires k < |rs| && rs[k].fieldId == fieldId
    requires forall i :: 0 <= i < |rs| && i != k ==> rs[i].fieldId != fieldId
    ensures LatestForField(rs, fieldId) == Some(rs[k])
    decreases |rs|
  {
    var n := |rs| - 1;
    if k < n {
      LatestIsOnly(rs[..n], fieldId, k);
    }
  }

  // ---------------------------------------------------------------------
  // The repository
  // ---------------------------------------------------------------------

  class ConversationFormRepository {
    var forms: seq<FormRow>
    var fields: seq<FieldRow>
    var options: seq<OptionRow>
    var responses: seq<ResponseRow>

    /** Status timestamps agree, one response per (form, field), fields ordered within their form. */
    ghost predicate Valid()
      reads this
    {
      FormsAgree(forms)
      && OneResponsePerField(responses)
      && FieldsInForms(fields, |forms|)
      && PositionsIncrease(fields)
    }

    function Snapshot(): Tables
      reads this
    {
      Tables(forms, fields, options, responses)
    }

    constructor ()
      ensures Valid() && forms == [] && fields == [] && options == [] && responses == []
    {
      forms := [];
      fields := [];
      options := [];
      responses := [];
    }

    /** `set_status`: `None` for an unknown form, else the form with its new status and timestamps. */
    method SetStatus(formId: Uuid, status: FormStatus, rejectionReason: Option<string>, now: nat)
      returns (r: Option<FormRow>)
      requires Valid()
      modifies this
      ensures Valid()
      ensures fields == old(fields) && options == old(options) && responses == old(responses)
      ensures formId >= |old(forms)| ==> r == None && forms == old(forms)
      ensures formId < |old(forms)| ==>
        r == Some(StatusUpdate(old(forms)[formId], status, rejectionReason, now))
        && forms == old(forms)[formId := r.value]
    {
      if formId >= |forms| {
        return None;
      }
      var form := StatusUpdate(forms[formId], status, rejectionReason, now);
      forms := forms[formId := form];
      r := Some(form);
    }

    /**
     * `save_field_response`: the normalised answer updates the pair's response
     * or is inserted as a new one, and the form, if it exists, is touched.
     */
    method SaveFieldResponse(formId: Uuid, fieldId: Uuid, value: Value, selectedOptionId: Option<Uuid>, now: nat)
      returns (r: ResponseRow)
      requires Valid()
      modifies this
      ensures Valid()
      ensures responses == Upserted(old(responses), formId, fieldId, NormalizeValue(value), selectedOptionId, now)
      ensures r.formId == formId && r.fieldId == fieldId && r.updatedAt == now
      ensures r.value == NormalizeValue(value) && r.selectedOptionId == selectedOptionId
      ensures FindResponse(old(responses), formId, fieldId).None? ==> r.createdAt == now
      ensures fields == old(fields) && options == old(options)
      ensures formId < |old(forms)| ==> forms == old(forms)[formId := old(forms)[formId].(updatedAt := now)]
      ensures formId >= |old(forms)| ==> forms == old(forms)
    {
      var normalized := NormalizeValue(value);
      UpsertedKeepsOnePerField(responses, formId, fieldId, normalized, selectedOptionId, now);
      var existing := FindResponse(responses, formId, fieldId);
      if existing.Some? {
        var i := existing.value;
        r := responses[i].(value := normalized, selectedOptionId := selectedOptionId, updatedAt := now);
        responses := responses[i := r];
      } else {
        r := ResponseRow(formId, fieldId, selectedOptionId, normalized, now, now);
        responses := responses + [r];
      }
      if formId < |forms| {
        TouchKeepsTimestamps(forms, formId, now);
        forms := forms[formId := forms[formId].(updatedAt := now)];
      }
    }

    /**
     * `create_form_with_fields`: a new open form, its fields positioned by
     * index and their options positioned by index. A payload whose options
     * cannot be read raises, and nothing is written.
     */
    method CreateFormWithFields(sessionId: Uuid, title: string, description: Option<string>,
                                payloads: seq<Dict>, now: nat)
      returns (r: Outcome<Uuid>)
      requires Valid()
      modifies this
      ensures Valid()
      ensures !OptionsReadable(payloads) ==>
        r == Raised && forms == old(forms) && fields == old(fields) && options == old(options)
      ensures responses == old(responses)
      ensures OptionsReadable(payloads) ==>
        r == Returned(|old(forms)|)
        && forms == old(forms) + [NewForm(sessionId, title, description, now)]
        && fields == old(fields) + StagedFields(|old(forms)|, payloads)
        && options == old(options) + StagedOptions(|old(fields)|, payloads)
    {
      var formId := |forms|;
      var staged := StageFields(formId, |fields|, payloads);
      if staged.None? {
        return Raised;
      }
      StagedFieldsKeepOrder(fields, formId, payloads);
      forms := forms + [NewForm(sessionId, title, description, now)];
      fields := fields + staged.value.0;
      options := options + staged.value.1;
      r := Returned(formId);
    }

    /** `get_form_context`: one snapshot per form of the session, answered inputs only, shown ones kept. */
    method GetFormContext(sessionId: Uuid, uuidText: Uuid -> string, isoText: nat -> string)
      returns (context: seq<FormSnapshot>)
      ensures context == FormContext(Snapshot(), sessionId, uuidText, isoText)
    {
      var t := Snapshot();
      var all := [];
      var f := 0;
      while f < |t.forms|
        invariant f <= |t.forms|
        invariant all == SnapshotsUpTo(t, sessionId, f, uuidText, isoText)
      {
        if t.forms[f].sessionId == sessionId {
          var inputs := CollectInputs(t, sessionId, f);
          var form := t.forms[f];
          var snapshot := FormSnapshot(
            uuidText(f), form.title.GetOr(""), form.status,
            Some(isoText(form.updatedAt)),
            FormatTimestamp(form.submittedAt, isoText),
            FormatTimestamp(form.rejectedAt, isoText),
            form.rejectionReason,
            inputs);
          assert snapshot == SnapshotOf(t, sessionId, f, uuidText, isoText);
          all := all + [snapshot];
        }
        f := f + 1;
      }
      context := KeepShown(all);
    }
  }

  /** The loop over a form's fields in `get_form_context`: the answered inputs, in field order. */
  method CollectInputs(t: Tables, sessionId: Uuid, formId: Uuid) returns (inputs: seq<InputSnapshot>)
    ensures inputs == InputsUpTo(t, sessionId, formId, |t.fields|)
  {
    inputs := [];
    var j := 0;
    while j < |t.fields|
      invariant j <= |t.fields|
      invariant inputs == InputsUpTo(t, sessionId, formId, j)
    {
      if t.fields[j].formId == formId {
        var input := InputOf(t, sessionId, j);
        if input.Some? {
          inputs := inputs + [input.value];
        }
      }
      j := j + 1;
    }
  }

  /** The closing comprehension of `get_form_context`: the shown snapshots, in order. */
  method KeepShown(all: seq<FormSnapshot>) returns (context: seq<FormSnapshot>)
    ensures context == Filter(all, Shown)
  {
    context := [];
    var k := 0;
    while k < |all|
      invariant k <= |all|
      invariant context == Filter(all[..k], Shown)
    {
      assert all[..k + 1][..k] == all[..k];
      if Shown(all[k]) {
        context := context + [all[k]];
      }
      k := k + 1;
    }
    assert all[..k] == all;
  }

  /**
   * The option rows of one field payload, read item by item as the loop over
   * `payload.get("options") or []` does; `None` where that loop raises.
   */
  method ReadOptions(fieldId: Uuid, p: Dict) returns (r: Option<seq<OptionRow>>)
    ensures OptionPayloads(p).None? ==> r == None
    ensures OptionPayloads(p).Some? ==> r == Some(OptionsOf(fieldId, OptionPayloads(p).value))
  {
    if !OptionsIterable(p) {
      return None;
    }
    var items := OptionItems(p);
    var fieldOptions := [];
    var position := 0;
    while position < |items|
      invariant position <= |items|
      invariant forall k :: 0 <= k < position ==> items[k].Obj?
      invariant |fieldOptions| == position
      invariant forall k :: 0 <= k < position ==> fieldOptions[k] == OptionOf(fieldId, k, items[k].d)
    {
      if !items[position].Obj? {
        return None;
      }
      fieldOptions := fieldOptions + [OptionOf(fieldId, position, items[position].d)];
      position := position + 1;
    }
    ReadOptionsDone(fieldId, p, fieldOptions);
    r := Some(fieldOptions);
  }

  /** The rows read from a well-formed options list are the payloads' option rows. */
  lemma ReadOptionsDone(fieldId: Uuid, p: Dict, fieldOptions: seq<OptionRow>)
    requires OptionsIterable(p)
    requires var items := OptionItems(p);
      |fieldOptions| == |items|
      && (forall k :: 0 <= k < |items| ==> items[k].Obj? && fieldOptions[k] == OptionOf(fieldId, k, items[k].d))
    ensures OptionPayloads(p).Some? && fieldOptions == OptionsOf(fieldId, OptionPayloads(p).value)
  {
    var raw := Get(p, "options");
    var os := OptionPayloads(p);
    if Truthy(raw) {
      assert raw.List? && OptionItems(p) == raw.items;
      assert os.Some?;
      assert |os.value| == |fieldOptions|;
      forall k | 0 <= k < |fieldOptions|
        ensures fieldOptions[k] == OptionOf(fieldId, k, os.value[k])
      {
        assert os.value[k] == raw.items[k].d;
      }
    }
  }

  /**
   * The rows `create_form_with_fields` adds for the field payloads: the fields
   * with ids from `firstField` on, and their options; `None` where reading
   * some payload's options raises.
   */
  method StageFields(formId: Uuid, firstField: nat, payloads: seq<Dict>)
    returns (r: Option<(seq<FieldRow>, seq<OptionRow>)>)
    ensures !OptionsReadable(payloads) ==> r == None
    ensures OptionsReadable(payloads) ==>
      r == Some((StagedFields(formId, payloads), StagedOptions(firstField, payloads)))
  {
    var newFields := [];
    var newOptions := [];
    var position := 0;
    while position < |payloads|
      invariant position <= |payloads|
      invariant OptionsReadable(payloads[..position])
      invariant newFields == StagedFields(formId, payloads[..position])
      invariant newOptions == StagedOptions(firstField, payloads[..position])
    {
      newFields := newFields + [FieldOf(formId, position, payloads[position])];
      var fieldOptions := ReadOptions(firstField + position, payloads[position]);
      if fieldOptions.None? {
        return None;
      }
      StageStep(firstField, formId, payloads, position, newFields, newOptions);
      newOptions := newOptions + fieldOptions.value;
      position := position + 1;
    }
    assert payloads[..position] == payloads;
    r := Some((newFields, newOptions));
  }

  /** One step of staging: the payload at `position` and its option rows. */
  lemma StageStep(firstField: nat, formId: Uuid, payloads: seq<Dict>, position: nat,
                  newFields: seq<FieldRow>, newOptions: seq<OptionRow>)
    requires position < |payloads|
    requires OptionsReadable(payloads[..position]) && OptionPayloads(payloads[position]).Some?
    requires newOptions == StagedOptions(firstField, payloads[..position])
    requires newFields == StagedFields(formId, payloads[..position]) + [FieldOf(formId, position, payloads[position])]
    ensures OptionsReadable(payloads[..position + 1])
    ensures newFields == StagedFields(formId, payloads[..position + 1])
    ensures newOptions + OptionsOf(firstField + position, OptionPayloads(payloads[position]).value)
         == StagedOptions(firstField, payloads[..position + 1])
  {
    var ps := payloads[..position + 1];
    assert ps[..position] == payloads[..position];
    assert ps[position] == payloads[position];
  }

}
