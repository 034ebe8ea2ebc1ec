/**
 * `AssistantMessageMetadata`: the structured view of an assistant answer's
 * metadata, and the dict stored on the assistant message.
 */
module AssistantMetadata {
  import opened Wrappers
  import opened Json
  import Text
  import opened MessageFlow

  datatype MessageMetadata = MessageMetadata(
    suggestedActions: seq<string>,
    followUpForm: Option<GeneratedForm>,
    confidence: Option<real>,
    clientHidden: Option<bool>,
    followUpType: Option<string>,
    followUpReason: Option<string>,
    formKind: Option<string>,
    followUpFormSummary: Option<string>,
    extra: Dict,
    escalation: Option<Dict>,
    ticket: Option<Dict>)

  /** The structured view with every field unset. */
  const Blank := MessageMetadata([], None, None, None, None, None, None, None, Empty, None, None)

  /** The metadata keys `_consume_metadata` takes out of the answer's dict. */
  const KnownKeys: seq<string> := ["client_hidden", "follow_up_type", "follow_up_reason", "form_kind",
                                   "follow_up_form_summary", "escalation", "ticket"]

  /** `_clean_str`: a string with something left after stripping, stripped; None otherwise. */
  function CleanStr(v: Value): (r: Option<string>)
    ensures r.Some? <==> v.Str? && !Text.IsBlank(v.s)
    ensures r.Some? ==> r.value == Text.Strip(v.s) && r.value != [] && Text.IsStripped(r.value)
  {
    if v.Str? && Text.Strip(v.s) != [] then Some(Text.Strip(v.s)) else None
  }

  /** The answer's dict without the known keys: what may become `extra`. */
  function Remaining(metadata: Dict): (r: Dict)
    ensures forall k :: k in r.vals <==> k in metadata.vals && k !in KnownKeys
    ensures forall k :: k in r.vals ==> r.vals[k] == metadata.vals[k]
  {
    RemoveAll(metadata, KnownKeys)
  }

  /**
   * `_consume_metadata`: `client_hidden` only as a bool; the answer's own
   * follow-up type and reason win over the dict's; `form_kind` and the summary
   * when non-blank; `escalation` and `ticket` only as dicts; whatever else is
   * left becomes `extra`, and only when something is left.
   */
  function ConsumeMetadata(m: MessageMetadata, metadata: Dict): (r: MessageMetadata)
    ensures r.suggestedActions == m.suggestedActions && r.followUpForm == m.followUpForm
            && r.confidence == m.confidence
    ensures r.clientHidden == if Get(metadata, "client_hidden").Bool? then Some(Get(metadata, "client_hidden").b)
                              else m.clientHidden
    ensures m.followUpType.Some? ==> r.followUpType == m.followUpType
    ensures m.followUpType.None? ==> r.followUpType == CleanStr(Get(metadata, "follow_up_type"))
    ensures m.followUpReason.Some? ==> r.followUpReason == m.followUpReason
    ensures m.followUpReason.None? ==> r.followUpReason == CleanStr(Get(metadata, "follow_up_reason"))
    ensures r.formKind == OrElse(CleanStr(Get(metadata, "form_kind")), m.formKind)
    ensures r.followUpFormSummary == OrElse(CleanStr(Get(metadata, "follow_up_form_summary")), m.followUpFormSummary)
    ensures r.escalation == if Get(metadata, "escalation").Obj? then Some(Get(metadata, "escalation").d) else m.escalation
    ensures r.ticket == if Get(metadata, "ticket").Obj? then Some(Get(metadata, "ticket").d) else m.ticket
    ensures r.extra == if Remaining(metadata).vals != map[] then Remaining(metadata) else m.extra
  {
    var hidden := Get(metadata, "client_hidden");
    var escalation := Get(metadata, "escalation");
    var ticket := Get(metadata, "ticket");
    var remaining := Remaining(metadata);
    MessageMetadata(
      m.suggestedActions, m.followUpForm, m.confidence,
      if hidden.Bool? then Some(hidden.b) else m.clientHidden,
      if m.followUpType.Some? then m.followUpType else CleanStr(Get(metadata, "follow_up_type")),
      if m.followUpReason.Some? then m.followUpReason else CleanStr(Get(metadata, "follow_up_reason")),
      OrElse(CleanStr(Get(metadata, "form_kind")), m.formKind),
      OrElse(CleanStr(Get(metadata, "follow_up_form_summary")), m.followUpFormSummary),
      if remaining.vals != map[] then remaining else m.extra,
      if escalation.Obj? then Some(escalation.d) else m.escalation,
      if ticket.Obj? then Some(ticket.d) else m.ticket)
  }

  /**
   * `from_answer`: actions, form and confidence copied, the answer's own
   * follow-up type and reason cleaned, then the answer's dict consumed.
   */
  function FromAnswer(answer: Answer): (r: MessageMetadata)
    ensures r.suggestedActions == answer.suggestedActions
    ensures r.followUpForm == answer.form && r.confidence == answer.confidence
    ensures r.followUpType == OrElse(CleanStr(answer.followUpType), CleanStr(Get(answer.metadata, "follow_up_type")))
    ensures r.followUpReason == OrElse(CleanStr(answer.followUpReason), CleanStr(Get(answer.metadata, "follow_up_reason")))
    ensures r.formKind == CleanStr(Get(answer.metadata, "form_kind"))
    ensures Remaining(answer.metadata).vals == map[] ==> r.extra == Empty
  {
    var base := MessageMetadata(answer.suggestedActions, answer.form, answer.confidence, None,
                                CleanStr(answer.followUpType), CleanStr(answer.followUpReason),
                                None, None, Empty, None, None);
    ConsumeMetadata(base, answer.metadata)
  }

  /** A string option as a dumped value: `None` becomes `Null`. */
  function TextValue(s: Option<string>): Value {
    if s.Some? then Str(s.value) else Null
  }

  /** A list of strings as a value. */
  function StrList(xs: seq<string>): (r: Value)
    ensures r.List? && |r.items| == |xs|
    ensures forall i :: 0 <= i < |xs| ==> r.items[i] == Str(xs[i])
  {
    List(StrValues(xs))
  }

  function StrValues(xs: seq<string>): (r: seq<Value>)
    ensures |r| == |xs|
    ensures forall i :: 0 <= i < |xs| ==> r[i] == Str(xs[i])
  {
    if xs == [] then [] else [Str(xs[0])] + StrValues(xs[1..])
  }

  function OptionValues(os: seq<FormOption>): seq<Value> {
    if os == [] then [] else [OptionValue(os[0])] + OptionValues(os[1..])
  }

  function FieldValues(fs: seq<FormField>): seq<Value> {
    if fs == [] then [] else [FieldValue(fs[0])] + FieldValues(fs[1..])
  }

  function OptionValue(o: FormOption): Value {
    Obj(Put(Put(Empty, "value", Str(o.value)), "label", Str(o.caption)))
  }

  function FieldValue(f: FormField): Value {
    Obj(Put(PutUnlessNull(Put(Put(Put(Empty,
      "question", Str(f.question)),
      "input_type", Str(f.inputType)),
      "required", Bool(f.required)),
      "placeholder", TextValue(f.placeholder)),
      "options", List(OptionValues(f.options))))
  }

  /** A generated form dumped without its `None` fields. */
  function FormValue(f: GeneratedForm): Value {
    Obj(Put(PutUnlessNull(Put(Empty,
      "title", Str(f.title)),
      "description", TextValue(f.description)),
      "fields", List(FieldValues(f.fields))))
  }

  /** The keys of the stored dict, in the declaration order of the fields. */
  const FieldOrder: seq<string> := ["suggested_actions", "follow_up_form", "confidence", "client_hidden",
    "follow_up_type", "follow_up_reason", "form_kind", "follow_up_form_summary", "extra", "escalation", "ticket"]

  lemma FieldOrderDistinct()
    ensures Distinct(FieldOrder)
  {
  }

  /**
   * The dumped dict from the eleven dumped field values, in declaration
   * order, with the `Null` ones left out.
   */
  function DumpFields(actions: Value, form: Value, confidence: Value, hidden: Value, followUpType: Value,
                      followUpReason: Value, formKind: Value, summary: Value, extra: Value,
                      escalation: Value, ticket: Value): (r: Dict)
    ensures Get(r, "suggested_actions") == actions && Get(r, "follow_up_form") == form
    ensures Get(r, "confidence") == confidence && Get(r, "client_hidden") == hidden
    ensures Get(r, "follow_up_type") == followUpType && Get(r, "follow_up_reason") == followUpReason
    ensures Get(r, "form_kind") == formKind && Get(r, "follow_up_form_summary") == summary
    ensures Get(r, "extra") == extra && Get(r, "escalation") == escalation && Get(r, "ticket") == ticket
    ensures forall k :: k in r.vals ==> k in FieldOrder && r.vals[k] != Null
    ensures ValidDict(r) && r.keys == KeysIn(FieldOrder, r)
  {
    var vs := [actions, form, confidence, hidden, followUpType, followUpReason, formKind, summary, extra,
               escalation, ticket];
    FieldOrderDistinct();
    FromEntriesLookup(FieldOrder, vs, 0);
    FromEntriesLookup(FieldOrder, vs, 1);
    FromEntriesLookup(FieldOrder, vs, 2);
    FromEntriesLookup(FieldOrder, vs, 3);
    FromEntriesLookup(FieldOrder, vs, 4);
    FromEntriesLookup(FieldOrder, vs, 5);
    FromEntriesLookup(FieldOrder, vs, 6);
    FromEntriesLookup(FieldOrder, vs, 7);
    FromEntriesLookup(FieldOrder, vs, 8);
    FromEntriesLookup(FieldOrder, vs, 9);
    FromEntriesLookup(FieldOrder, vs, 10);
    FromEntriesKeys(FieldOrder, vs);
    FromEntries(FieldOrder, vs)
  }

  function DictOption(d: Option<Dict>): Value {
    if d.Some? then Obj(d.value) else Null
  }

  /**
   * `to_message_metadata`: the fields in declaration order, every `None`
   * left out and `extra` left out when empty. `floatText` is Python's text
   * of a float.
   */
  function ToMessageMetadata(m: MessageMetadata, floatText: real -> string): (r: Dict)
    ensures forall k :: k in r.vals ==> k in FieldOrder && r.vals[k] != Null
    ensures ValidDict(r) && r.keys == KeysIn(FieldOrder, r)
    ensures Get(r, "confidence") == if m.confidence.Some? then Float(m.confidence.value, floatText(m.confidence.value)) else Null
    ensures Get(r, "follow_up_form") == if m.followUpForm.Some? then FormValue(m.followUpForm.value) else Null
    ensures Get(r, "extra") == if m.extra.vals != map[] then Obj(m.extra) else Null
    ensures Get(r, "suggested_actions") == StrList(m.suggestedActions)
    ensures Get(r, "form_kind") == TextValue(m.formKind)
    ensures Get(r, "follow_up_type") == TextValue(m.followUpType)
    ensures Get(r, "follow_up_reason") == TextValue(m.followUpReason)
    ensures Get(r, "follow_up_form_summary") == TextValue(m.followUpFormSummary)
    ensures Has(r, "follow_up_form") <==> m.followUpForm.Some?
    ensures Has(r, "extra") <==> m.extra.vals != map[]
    ensures Get(r, "escalation") == DictOption(m.escalation)
    ensures Get(r, "ticket") == DictOption(m.ticket)
    ensures Get(r, "client_hidden") == if m.clientHidden.Some? then Bool(m.clientHidden.value) else Null
  {
    DumpFields(
      StrList(m.suggestedActions),
      if m.followUpForm.Some? then FormValue(m.followUpForm.value) else Null,
      if m.confidence.Some? then Float(m.confidence.value, floatText(m.confidence.value)) else Null,
      if m.clientHidden.Some? then Bool(m.clientHidden.value) else Null,
      TextValue(m.followUpType), TextValue(m.followUpReason), TextValue(m.formKind),
      TextValue(m.followUpFormSummary),
      if m.extra.vals != map[] then Obj(m.extra) else Null,
      DictOption(m.escalation), DictOption(m.ticket))
  }

  /** The dict stored on an assistant message for an answer. */
  function StoredMetadata(answer: Answer, floatText: real -> string): Dict {
    ToMessageMetadata(FromAnswer(answer), floatText)
  }

  /**
   * How an assistant message stores an answer:
   * `AssistantMessageMetadata.from_answer(answer).to_message_metadata()`.
   */
  function Serializer(floatText: real -> string): Answer -> Dict {
    a => StoredMetadata(a, floatText)
  }

  /** A text field as `_clean_str` leaves it: absent, or non-empty and stripped. */
  predicate Cleaned(s: Option<string>) {
    s.None? || (s.value != [] && Text.IsStripped(s.value))
  }

  /** Every text field of `from_answer`'s result is cleaned. */
  lemma FromAnswerCleaned(answer: Answer)
    ensures var r := FromAnswer(answer);
            Cleaned(r.followUpType) && Cleaned(r.followUpReason) && Cleaned(r.formKind)
            && Cleaned(r.followUpFormSummary)
  {
  }

  /** Cleaning a cleaned text again changes nothing. */
  lemma CleanStrCleaned(s: Option<string>)
    requires Cleaned(s)
    ensures CleanStr(TextValue(s)) == s
  {
  }

  /**
   * Reading the stored dict back through `_consume_metadata` recovers every
   * known field of a structured view whose texts are cleaned: the
   * serialisation loses none of them.
   */
  lemma KnownFieldsRoundTrip(m: MessageMetadata, floatText: real -> string)
    requires Cleaned(m.followUpType) && Cleaned(m.followUpReason)
    requires Cleaned(m.formKind) && Cleaned(m.followUpFormSummary)
    ensures var back := ConsumeMetadata(Blank, ToMessageMetadata(m, floatText));
            back.clientHidden == m.clientHidden
            && back.followUpType == m.followUpType && back.followUpReason == m.followUpReason
            && back.formKind == m.formKind && back.followUpFormSummary == m.followUpFormSummary
            && back.escalation == m.escalation && back.ticket == m.ticket
  {
    CleanStrCleaned(m.followUpType);
    CleanStrCleaned(m.followUpReason);
    CleanStrCleaned(m.formKind);
    CleanStrCleaned(m.followUpFormSummary);
    ConsumeKnown(ToMessageMetadata(m, floatText), m);
  }

  /** `_consume_metadata` from nothing reads each known key of `d` that holds its dumped form. */
  lemma ConsumeKnown(d: Dict, m: MessageMetadata)
    requires Get(d, "client_hidden") == if m.clientHidden.Some? then Bool(m.clientHidden.value) else Null
    requires CleanStr(Get(d, "follow_up_type")) == m.followUpType
    requires CleanStr(Get(d, "follow_up_reason")) == m.followUpReason
    requires CleanStr(Get(d, "form_kind")) == m.formKind
    requires CleanStr(Get(d, "follow_up_form_summary")) == m.followUpFormSummary
    requires Get(d, "escalation") == DictOption(m.escalation) && Get(d, "ticket") == DictOption(m.ticket)
    ensures var back := ConsumeMetadata(Blank, d);
            back.clientHidden == m.clientHidden
            && back.followUpType == m.followUpType && back.followUpReason == m.followUpReason
            && back.formKind == m.formKind && back.followUpFormSummary == m.followUpFormSummary
            && back.escalation == m.escalation && back.ticket == m.ticket
  {
  }

  /**
   * The form kind stored for an answer is the cleaned `form_kind` of the
   * answer's dict, so a later scan for a kind sees it at the top level.
   */
  lemma StoredFormKind(answer: Answer, floatText: real -> string, kind: string)
    requires Get(answer.metadata, "form_kind") == Str(kind) && kind != [] && Text.IsStripped(kind)
    ensures Get(StoredMetadata(answer, floatText), "form_kind") == Str(kind)
  {
  }
}
