/**
 * `ResponseGenerationService`'s reading of the model's reply: the JSON
 * payload is decoded (`json.loads` is an oracle), and the reply text, the
 * suggested actions, the optional follow-up form, the confidence and the
 * leftover metadata are taken out of it. The call to the model itself is
 * not part of this model: the reply object is a parameter.
 */
module ResponseParsing {
  import opened Wrappers
  import opened Json
  import Text
  import opened Parsing
  import opened MessageFlow
  import AssistantMetadata

  const FallbackReply := "I ran into an issue generating a reply."
  const DefaultTitle := "Additional details"

  /** The payload keys `_parse_response` reads itself and keeps out of the metadata. */
  const AnswerKeys := ["reply", "suggested_actions", "follow_up_form", "confidence"]

  /**
   * `_coerce_json`: `{}` for an empty text or a text the decoder rejects;
   * otherwise whatever the fence-stripped text decodes to, dict or not.
   */
  function CoerceJson(text: string, decode: string -> Option<Value>): (r: Value)
    ensures text == [] ==> r == Obj(Empty)
    ensures r == Obj(Empty) || decode(StripCodeFence(text)) == Some(r)
    ensures text != [] && decode(StripCodeFence(text)).Some? ==> r == decode(StripCodeFence(text)).value
  {
    if text == [] then Obj(Empty)
    else
      match decode(StripCodeFence(text))
      case Some(v) => v
      case None => Obj(Empty)
  }

  // ----- `_ensure_list_of_str` -----

  /**
   * What `_ensure_list_of_str` returns: for a list, its items as text,
   * stripped, blanks dropped; for any other truthy value, that value as
   * stripped text (which may be blank); otherwise nothing.
   */
  function StrListOf(v: Value): (r: seq<string>)
    ensures v.List? ==> |r| <= |v.items| && forall k :: 0 <= k < |r| ==> |r[k]| > 0 && Text.IsStripped(r[k])
    ensures !v.List? && Truthy(v) ==> r == [Text.Strip(PyStr(v))]
    ensures !v.List? && !Truthy(v) ==> r == []
  {
    if v.List? then CleanTexts(PyStrs(v.items))
    else if Truthy(v) then [Text.Strip(PyStr(v))]
    else []
  }

  /** `_ensure_list_of_str`, loop for loop. */
  method EnsureListOfStr(v: Value) returns (cleaned: seq<string>)
    ensures cleaned == StrListOf(v)
  {
    if v.List? {
      ghost var texts := PyStrs(v.items);
      cleaned := [];
      var i := 0;
      while i < |v.items|
        invariant 0 <= i <= |v.items|
        invariant cleaned == CleanTexts(texts[..i])
      {
        var text := Text.Strip(PyStr(v.items[i]));
        CleanTextsPrefix(texts, i);
        if |text| > 0 {
          cleaned := cleaned + [text];
        }
        i := i + 1;
      }
      assert texts[..i] == texts;
      return;
    }
    if Truthy(v) {
      return [Text.Strip(PyStr(v))];
    }
    return [];
  }

  // ----- `_parse_form` -----

  /**
   * A value validated as `Optional[str]` by the form records: `None` for
   * `None`, the text for a string; anything else fails validation.
   */
  function OptionalText(v: Value): (r: Outcome<Option<string>>)
    ensures r.Raised? <==> !(v.Null? || v.Str?)
    ensures v.Str? ==> r == Returned(Some(v.s))
    ensures v.Null? ==> r == Returned(None)
  {
    match v
    case Null => Returned(None)
    case Str(s) => Returned(Some(s))
    case _ => Raised
  }

  /** The dicts among the items, in order (`if isinstance(x, dict)`). */
  function Dicts(items: seq<Value>): (r: seq<Dict>)
    ensures |r| <= |items|
    ensures forall k :: 0 <= k < |r| ==> Obj(r[k]) in items
    decreases |items|
  {
    if items == [] then []
    else
      var rest := Dicts(items[..|items| - 1]);
      var last := items[|items| - 1];
      assert forall x :: x in items[..|items| - 1] ==> x in items;
      if last.Obj? then rest + [last.d] else rest
  }

  /**
   * One option: `value` falls back to `label` and then to "option";
   * the caption (`label`) falls back to `value` and then to "Option".
   */
  function OptionOf(o: Dict): (r: FormOption)
    ensures Has(o, "value") ==> r.value == PyStr(o.vals["value"])
    ensures Has(o, "label") ==> r.caption == PyStr(o.vals["label"])
    ensures !Has(o, "value") && Has(o, "label") ==> r.value == r.caption
    ensures !Has(o, "label") && Has(o, "value") ==> r.caption == r.value
    ensures !Has(o, "value") && !Has(o, "label") ==> r == FormOption("option", "Option")
  {
    FormOption(PyStr(GetOr(o, "value", GetOr(o, "label", Str("option")))),
               PyStr(GetOr(o, "label", GetOr(o, "value", Str("Option")))))
  }

  /** The options built from the dict items, in order; other items are skipped. */
  function OptionsOf(elements: seq<Value>): (r: seq<FormOption>)
    ensures |r| == |Dicts(elements)|
  {
    var ds := Dicts(elements);
    seq(|ds|, k requires 0 <= k < |ds| => OptionOf(ds[k]))
  }

  /**
   * One field from a dict item. Iterating options that are a truthy number
   * raises, and so does a placeholder that is neither `None` nor text.
   */
  function FieldOf(item: Dict): (r: Outcome<FormField>)
    ensures r.Raised? <==> ElementsOr(Get(item, "options")).None? || OptionalText(Get(item, "placeholder")).Raised?
    ensures r.Returned? ==>
              && r.value.options == OptionsOf(ElementsOr(Get(item, "options")).value)
              && r.value.required == Truthy(Get(item, "required"))
              && (!Has(item, "type") ==> r.value.inputType == "text")
              && (!Has(item, "question") && !Has(item, "label") ==> r.value.question == "")
  {
    match ElementsOr(Get(item, "options"))
    case None => Raised
    case Some(elements) =>
      match OptionalText(Get(item, "placeholder"))
      case Raised => Raised
      case Returned(placeholder) =>
        Returned(FormField(
          PyStr(GetOr(item, "question", GetOr(item, "label", Str("")))),
          PyStr(GetOr(item, "type", Str("text"))),
          Truthy(GetOr(item, "required", Bool(false))),
          placeholder,
          OptionsOf(elements)))
  }

  /** The fields of the dict items, in order; the first item that raises makes the whole list raise. */
  function FieldsOf(items: seq<Value>): (r: Outcome<seq<FormField>>)
    ensures r.Returned? ==> |r.value| == |Dicts(items)|
    decreases |items|
  {
    if items == [] then Returned([])
    else
      var last := items[|items| - 1];
      match FieldsOf(items[..|items| - 1])
      case Raised => Raised
      case Returned(fields) =>
        if !last.Obj? then Returned(fields)
        else
          match FieldOf(last.d)
          case Raised => Raised
          case Returned(f) => Returned(fields + [f])
  }

  /**
   * What `_parse_form` returns: no form for a non-dict payload or when no
   * dict item yields a field; otherwise a form titled "Additional details"
   * unless the payload names a title.
   */
  function FormOf(v: Value): (r: Outcome<Option<GeneratedForm>>)
    ensures !v.Obj? ==> r == Returned(None)
    ensures r.Returned? && r.value.Some? ==> v.Obj? && r.value.value.fields != []
    ensures r.Returned? && r.value.Some? && !Has(v.d, "title") ==> r.value.value.title == DefaultTitle
    ensures v.Obj? && ElementsOr(Get(v.d, "fields")) == Some([]) ==> r == Returned(None)
  {
    if !v.Obj? then Returned(None)
    else
      match ElementsOr(Get(v.d, "fields"))
      case None => Raised
      case Some(items) =>
        match FieldsOf(items)
        case Raised => Raised
        case Returned(fields) =>
          if fields == [] then Returned(None)
          else
            match OptionalText(Get(v.d, "description"))
            case Raised => Raised
            case Returned(description) =>
              Returned(Some(GeneratedForm(PyStr(GetOr(v.d, "title", Str(DefaultTitle))), description, fields)))
  }

  /** `_parse_form`: one pass over the field items, appending a field per dict item. */
  method ParseForm(payload: Value) returns (r: Outcome<Option<GeneratedForm>>)
    ensures r == FormOf(payload)
  {
    if !payload.Obj? {
      return Returned(None);
    }
    var d := payload.d;
    var elements := ElementsOr(Get(d, "fields"));
    if elements.None? {
      return Raised;
    }
    var items := elements.value;
    var fields: seq<FormField> := [];
    var i := 0;
    while i < |items|
      invariant 0 <= i <= |items|
      invariant FieldsOf(items[..i]) == Returned(fields)
    {
      assert items[..i + 1][..i] == items[..i];
      if items[i].Obj? {
        var field := FieldOf(items[i].d);
        if field.Raised? {
          FieldsRaisedStays(items, i + 1);
          return Raised;
        }
        fields := fields + [field.value];
      }
      i := i + 1;
    }
    assert items[..i] == items;
    if fields == [] {
      return Returned(None);
    }
    var description := OptionalText(Get(d, "description"));
    if description.Raised? {
      return Raised;
    }
    r := Returned(Some(GeneratedForm(PyStr(GetOr(d, "title", Str(DefaultTitle))), description.value, fields)));
  }

  // ----- `_parse_response` -----

  /** `confidence`: `None` where `float(...)` raises, otherwise clamped to [0, 1]. */
  function ConfidenceOf(v: Value, parseFloat: string -> Option<real>): (r: Option<real>)
    ensures r.None? <==> FloatOf(v, parseFloat).None?
    ensures r.Some? ==> 0.0 <= r.value <= 1.0
    ensures r.Some? && 0.0 <= FloatOf(v, parseFloat).value <= 1.0 ==> r.value == FloatOf(v, parseFloat).value
  {
    match FloatOf(v, parseFloat)
    case None => None
    case Some(x) => Some(Clamp(x))
  }

  /** `reply`: the payload's reply when truthy, else the raw text when not empty, else the fixed apology. */
  function ReplyOf(replyValue: Value, rawText: string): (r: string)
    ensures Truthy(replyValue) && replyValue.Str? ==> r == replyValue.s
    ensures !Truthy(replyValue) && rawText != [] ==> r == rawText
    ensures !Truthy(replyValue) && rawText == [] ==> r == FallbackReply
  {
    if Truthy(replyValue) then PyStr(replyValue)
    else if rawText != [] then rawText
    else FallbackReply
  }

  /**
   * The answer `_parse_response` builds from the extracted text and its
   * decoded payload. A payload that is not a dict raises (`payload.get`),
   * and so does a follow-up form that fails to parse.
   */
  function AnswerOf(rawText: string, payload: Value, parseFloat: string -> Option<real>): (r: Outcome<Answer>)
    ensures r.Raised? <==> !payload.Obj? || FormOf(Get(payload.d, "follow_up_form")).Raised?
    ensures r.Returned? ==>
              && r.value.reply == ReplyOf(Get(payload.d, "reply"), rawText)
              && r.value.suggestedActions == StrListOf(Get(payload.d, "suggested_actions"))
              && r.value.form == FormOf(Get(payload.d, "follow_up_form")).value
              && r.value.confidence == ConfidenceOf(Get(payload.d, "confidence"), parseFloat)
              && r.value.followUpType == Null && r.value.followUpReason == Null
    ensures r.Returned? ==> forall k :: k in r.value.metadata.vals <==> k in payload.d.vals && k !in AnswerKeys
    ensures r.Returned? ==> forall k :: k in r.value.metadata.vals ==> r.value.metadata.vals[k] == payload.d.vals[k]
  {
    if !payload.Obj? then Raised
    else
      var p := payload.d;
      match FormOf(Get(p, "follow_up_form"))
      case Raised => Raised
      case Returned(form) =>
        Returned(Answer(
          ReplyOf(Get(p, "reply"), rawText),
          StrListOf(Get(p, "suggested_actions")),
          form,
          ConfidenceOf(Get(p, "confidence"), parseFloat),
          RemoveAll(p, AnswerKeys),
          Null, Null))
  }

  /** `_parse_response`: text, payload, then each part of the answer in turn. */
  method ParseResponse(response: ModelResponse, decode: string -> Option<Value>, parseFloat: string -> Option<real>)
    returns (r: Outcome<Answer>)
    ensures var rawText := ExtractText(response);
            r == AnswerOf(rawText, CoerceJson(rawText, decode), parseFloat)
  {
    var rawText := ExtractText(response);
    var payload := CoerceJson(rawText, decode);
    if !payload.Obj? {
      return Raised;
    }
    var p := payload.d;
    var reply := ReplyOf(Get(p, "reply"), rawText);
    var actions := EnsureListOfStr(Get(p, "suggested_actions"));
    var form := ParseForm(Get(p, "follow_up_form"));
    if form.Raised? {
      return Raised;
    }
    var confidence := ConfidenceOf(Get(p, "confidence"), parseFloat);
    r := Returned(Answer(reply, actions, form.value, confidence, RemoveAll(p, AnswerKeys), Null, Null));
  }

  // ----- properties -----

  /** Once a field item raises, every longer prefix raises too. */
  lemma {:induction false} FieldsRaisedStays(items: seq<Value>, n: nat)
    requires n <= |items| && FieldsOf(items[..n]).Raised?
    ensures FieldsOf(items).Raised?
    decreases |items| - n
  {
    if n < |items| {
      assert items[..n + 1][..n] == items[..n];
      FieldsRaisedStays(items, n + 1);
    } else {
      assert items[..n] == items;
    }
  }

  /** A reply the model wrapped in a code fence is decoded exactly as the bare reply would be. */
  lemma CoerceJsonIgnoresFence(tag: string, body: seq<string>, decode: string -> Option<Value>)
    requires NoBreak(tag)
    requires body != [] && forall k :: 0 <= k < |body| ==> NoBreak(body[k])
    requires Text.IsStripped(Text.Join(body, "\n")) && !Text.StartsWith(Text.Join(body, "\n"), Fence)
    requires Text.Join(body, "\n") != []
    ensures CoerceJson(Fenced(tag, body), decode) == CoerceJson(Text.Join(body, "\n"), decode)
  {
    var bare := Text.Join(body, "\n");
    FenceRoundTrip(tag, body);
    assert Text.Strip(bare) == bare;
    assert StripCodeFence(bare) == bare;
    assert Fenced(tag, body)[0] == '`';
  }

  /** The list form of `_ensure_list_of_str` is idempotent: cleaning a cleaned list changes nothing. */
  lemma StrListIdempotent(v: Value)
    requires v.List?
    ensures var r := StrListOf(v);
            StrListOf(List(seq(|r|, k requires 0 <= k < |r| => Str(r[k])))) == r
  {
    var r := StrListOf(v);
    var items := seq(|r|, k requires 0 <= k < |r| => Str(r[k]));
    assert PyStrs(items) == r;
    CleanTextsOfClean(r);
  }

  /** A blank text outside a list survives as one blank action, where inside a list it is dropped. */
  lemma BlankScalarKept()
    ensures StrListOf(Str(" ")) == [""]
    ensures StrListOf(List([Str(" ")])) == []
  {
    assert Text.Strip(" ") == [];
    assert PyStrs([Str(" ")]) == [" "];
  }

  // ----- the payload shape the model is asked for, and its round trip -----

  /** An option as the model is asked to write it. */
  function WireOption(o: FormOption): Value {
    Obj(Dict(["value", "label"], map["value" := Str(o.value), "label" := Str(o.caption)]))
  }

  function WireOptions(options: seq<FormOption>): (r: seq<Value>)
    ensures |r| == |options|
  {
    seq(|options|, k requires 0 <= k < |options| => WireOption(options[k]))
  }

  /** A field as the model is asked to write it. */
  function WireField(f: FormField): Value {
    var options := WireOptions(f.options);
    Obj(Dict(["question", "type", "required", "placeholder", "options"],
             map["question" := Str(f.question), "type" := Str(f.inputType), "required" := Bool(f.required),
                 "placeholder" := AssistantMetadata.TextValue(f.placeholder), "options" := List(options)]))
  }

  function WireFields(fields: seq<FormField>): (r: seq<Value>)
    ensures |r| == |fields|
  {
    if fields == [] then [] else WireFields(fields[..|fields| - 1]) + [WireField(fields[|fields| - 1])]
  }

  /** A form as the model is asked to write it. */
  function WireForm(g: GeneratedForm): Value {
    var fields := WireFields(g.fields);
    Obj(Dict(["title", "description", "fields"],
             map["title" := Str(g.title), "description" := AssistantMetadata.TextValue(g.description),
                 "fields" := List(fields)]))
  }

  /** A list made only of dicts keeps every one of them. */
  lemma {:induction false} DictsOfDicts(items: seq<Value>)
    requires forall k :: 0 <= k < |items| ==> items[k].Obj?
    ensures Dicts(items) == seq(|items|, k requires 0 <= k < |items| => items[k].d)
    decreases |items|
  {
    if items != [] {
      var n := |items| - 1;
      DictsOfDicts(items[..n]);
    }
  }

  /** Every option the model writes in the asked-for shape is read back as written. */
  lemma OptionRoundTrip(o: FormOption)
    ensures OptionOf(WireOption(o).d) == o
  {
  }

  /** Options written in the asked-for shape are read back as written. */
  lemma OptionsRoundTrip(options: seq<FormOption>)
    ensures ElementsOr(List(WireOptions(options))) == Some(WireOptions(options))
    ensures OptionsOf(WireOptions(options)) == options
  {
    var items := WireOptions(options);
    DictsOfDicts(items);
    var ds := Dicts(items);
    forall k | 0 <= k < |ds|
      ensures OptionOf(ds[k]) == options[k]
    {
      OptionRoundTrip(options[k]);
    }
  }

  /** Every field the model writes in the asked-for shape is read back as written. */
  lemma FieldRoundTrip(f: FormField)
    ensures FieldOf(WireField(f).d) == Returned(f)
  {
    var item := WireField(f).d;
    assert Get(item, "options") == List(WireOptions(f.options));
    OptionsRoundTrip(f.options);
    assert OptionalText(Get(item, "placeholder")) == Returned(f.placeholder);
  }

  /** One more dict item that yields a field appends that field. */
  lemma FieldsSnoc(items: seq<Value>, fields: seq<FormField>, f: FormField)
    requires items != [] && FieldsOf(items[..|items| - 1]) == Returned(fields)
    requires items[|items| - 1].Obj? && FieldOf(items[|items| - 1].d) == Returned(f)
    ensures FieldsOf(items) == Returned(fields + [f])
  {
  }

  /** A list of fields in the asked-for shape is read back as written. */
  lemma {:induction false} FieldsRoundTrip(fields: seq<FormField>)
    ensures FieldsOf(WireFields(fields)) == Returned(fields)
    decreases |fields|
  {
    if fields != [] {
      var n := |fields| - 1;
      var items := WireFields(fields);
      assert items[..n] == WireFields(fields[..n]);
      assert items[n] == WireField(fields[n]);
      FieldsRoundTrip(fields[..n]);
      FieldRoundTrip(fields[n]);
      FieldsSnoc(items, fields[..n], fields[n]);
      LastSplit(fields);
    }
  }

  /** A form with at least one field, written in the asked-for shape, is read back as written. */
  lemma FormRoundTrip(g: GeneratedForm)
    requires g.fields != []
    ensures FormOf(WireForm(g)) == Returned(Some(g))
  {
    var fields := WireFields(g.fields);
    var d := WireForm(g).d;
    assert Get(d, "fields") == List(fields);
    assert ElementsOr(List(fields)) == Some(fields);
    FieldsRoundTrip(g.fields);
    assert OptionalText(Get(d, "description")) == Returned(g.description);
    assert PyStr(GetOr(d, "title", Str(DefaultTitle))) == g.title;
  }
}
