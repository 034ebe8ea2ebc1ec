/**
 * `ConversationContextService`: turns a session's stored conversation into
 * the short list of text events the model is given. User messages, assistant
 * replies with their metadata, image descriptions and answered form prompts
 * become one line each, in that order, and only the last 30 are kept.
 * `json.dumps` is a parameter; the aggregate `get_context` assembles is an
 * input (`None` for an unknown session).
 */
module ConversationContext {
  import opened Wrappers
  import opened Json
  import Text
  import Store
  import opened Parsing

  type Uuid = Store.Uuid

  const EventLimit: nat := 30
  const SnippetLimit: nat := 160
  const DefaultFormTitle := "Follow-up form"
  const DefaultFormStatus := "in_progress"
  const DefaultPrompt := "Prompt"

  /** `ConversationAIContext`. */
  datatype AiContext = AiContext(sessionId: Uuid, events: seq<string>)

  /**
   * The `get_context` dict: the session's messages, its image descriptions
   * and its form snapshots; the last two are read with `isinstance` checks,
   * so they stay untyped values here.
   */
  datatype Aggregate = Aggregate(messages: seq<Store.Message>, imageDescriptions: Value, forms: Value)

  // ---------------------------------------------------------------------
  // Small helpers
  // ---------------------------------------------------------------------

  /** `_normalize_text`: the stripped text of a string, `None` for blanks and non-strings. */
  function NormalizeText(v: Value): (r: Option<string>)
    ensures !v.Str? ==> r == None
    ensures v.Str? ==> (r.None? <==> Text.IsBlank(v.s))
    ensures r.Some? ==> r.value == Text.Strip(v.s)
    ensures r.Some? ==> r.value != [] && Text.IsStripped(r.value)
  {
    if !v.Str? then None
    else
      var cleaned := Text.Strip(v.s);
      if cleaned == [] then None else Some(cleaned)
  }

  /**
   * `_ensure_list`: a list gives its items as stripped text, blanks dropped;
   * `None` gives nothing; any other value its stripped text unless blank.
   */
  function EnsureList(v: Value): (r: seq<string>)
    ensures forall k :: 0 <= k < |r| ==> r[k] != [] && Text.IsStripped(r[k])
    ensures v == Null ==> r == []
    ensures v.List? ==> r == CleanTexts(PyStrs(v.items))
    ensures v != Null && !v.List? ==> (r == [] <==> Text.IsBlank(PyStr(v)))
    ensures v != Null && !v.List? && r != [] ==> r == [Text.Strip(PyStr(v))]
  {
    if v.List? then CleanTexts(PyStrs(v.items))
    else if v == Null then []
    else
      var text := Text.Strip(PyStr(v));
      if text == [] then [] else [text]
  }

  /** `_trim_events`: the last 30 events. */
  function TrimEvents(events: seq<string>): (r: seq<string>)
    ensures |events| <= EventLimit ==> r == events
    ensures |r| == if |events| <= EventLimit then |events| else EventLimit
    ensures r == events[|events| - |r|..]
  {
    if |events| <= EventLimit then events else events[|events| - EventLimit..]
  }

  /** Trimming twice trims nothing more. */
  lemma TrimEventsIdempotent(events: seq<string>)
    ensures TrimEvents(TrimEvents(events)) == TrimEvents(events)
  {
  }

  // ---------------------------------------------------------------------
  // `_summarize_metadata`
  // ---------------------------------------------------------------------

  /** `value in (None, "", [], {})`. */
  predicate EmptyValue(v: Value) {
    v == Null || v == Str("") || v == List([]) || (v.Obj? && v.d.vals == map[])
  }

  /** The keys the summary leaves to their own event parts. */
  predicate IgnoredKey(k: string) {
    k == "suggestions" || k == "actions" || k == "follow_up_form"
  }

  const ExtraPrefix := "extra."

  /** A condensed dict: no ignored key, no empty value. */
  predicate Condensed(c: Dict) {
    forall k :: k in c.vals ==> !IgnoredKey(k) && !EmptyValue(c.vals[k])
  }

  /** A flattened `extra.` key is never one of the ignored keys. */
  lemma ExtraKeyNotIgnored(k: string)
    ensures !IgnoredKey(ExtraPrefix + k)
  {
    assert (ExtraPrefix + k)[0] == 'e';
  }

  /** The entries of an `extra` dict added under `extra.<key>`, empty values skipped. */
  function CondenseExtra(acc: Dict, entries: seq<(string, Value)>): (r: Dict)
    requires Condensed(acc)
    requires forall k :: k in acc.vals ==> k in acc.keys
    ensures Condensed(r)
    ensures forall k :: k in r.vals ==> k in r.keys
    ensures acc.vals.Keys <= r.vals.Keys
    ensures forall j :: 0 <= j < |entries| && !EmptyValue(entries[j].1) ==> ExtraPrefix + entries[j].0 in r.vals
    decreases |entries|
  {
    if entries == [] then acc
    else
      var n := |entries| - 1;
      var prefix := CondenseExtra(acc, entries[..n]);
      assert forall j :: 0 <= j < n ==> entries[..n][j] == entries[j];
      var (k, v) := entries[n];
      if EmptyValue(v) then prefix
      else
        ExtraKeyNotIgnored(k);
        Put(prefix, ExtraPrefix + k, v)
  }

  /** An entry the summary keeps under its own key. */
  predicate KeptAsIs(e: (string, Value)) {
    !IgnoredKey(e.0) && !EmptyValue(e.1) && !(e.0 == "extra" && e.1.Obj?)
  }

  /** An `extra` dict whose entries the summary keeps under `extra.<key>`. */
  predicate Flattened(e: (string, Value)) {
    e.0 == "extra" && e.1.Obj? && !EmptyValue(e.1)
  }

  /** One metadata entry added to the condensed dict. */
  function CondenseStep(acc: Dict, e: (string, Value)): (r: Dict)
    requires Condensed(acc)
    requires forall k :: k in acc.vals ==> k in acc.keys
    ensures Condensed(r)
    ensures forall k :: k in r.vals ==> k in r.keys
    ensures acc.vals.Keys <= r.vals.Keys
    ensures KeptAsIs(e) ==> e.0 in r.vals
    ensures Flattened(e) ==> forall j :: 0 <= j < |Items(e.1.d)| && !EmptyValue(Items(e.1.d)[j].1)
                                         ==> ExtraPrefix + Items(e.1.d)[j].0 in r.vals
  {
    var (k, v) := e;
    if IgnoredKey(k) || EmptyValue(v) then acc
    else if k == "extra" && v.Obj? then CondenseExtra(acc, Items(v.d))
    else Put(acc, k, v)
  }

  /** The `condensed` dict built from the metadata entries. */
  function Condense(entries: seq<(string, Value)>): (r: Dict)
    ensures Condensed(r)
    ensures forall k :: k in r.vals ==> k in r.keys
    ensures forall i :: 0 <= i < |entries| && KeptAsIs(entries[i]) ==> entries[i].0 in r.vals
    ensures forall i, j :: 0 <= i < |entries| && Flattened(entries[i]) && 0 <= j < |Items(entries[i].1.d)|
                           && !EmptyValue(Items(entries[i].1.d)[j].1)
                           ==> ExtraPrefix + Items(entries[i].1.d)[j].0 in r.vals
    decreases |entries|
  {
    if entries == [] then Empty
    else
      var n := |entries| - 1;
      var acc := Condense(entries[..n]);
      assert forall i :: 0 <= i < n ==> entries[..n][i] == entries[i];
      CondenseStep(acc, entries[n])
  }

  /** The text shown for a value: dicts and lists dumped and cut to 160 characters, others `str`. */
  function Snippet(v: Value, dumps: Value -> string): (r: string)
    ensures (v.Obj? || v.List?) ==> |r| <= SnippetLimit
    ensures (v.Obj? || v.List?) && |dumps(v)| <= SnippetLimit ==> r == dumps(v)
    ensures (v.Obj? || v.List?) && |dumps(v)| > SnippetLimit ==>
      |r| == SnippetLimit && r[..SnippetLimit - 3] == dumps(v)[..SnippetLimit - 3]
    ensures !(v.Obj? || v.List?) ==> r == PyStr(v)
  {
    if v.Obj? || v.List? then
      var dumped := dumps(v);
      if |dumped| > SnippetLimit then dumped[..SnippetLimit - 3] + "..." else dumped
    else PyStr(v)
  }

  /** The `key: snippet` pieces of the condensed entries. */
  function Pieces(entries: seq<(string, Value)>, dumps: Value -> string): (r: seq<string>)
    ensures |r| == |entries|
    ensures forall k :: 0 <= k < |r| ==> r[k] == entries[k].0 + ": " + Snippet(entries[k].1, dumps)
  {
    seq(|entries|, k requires 0 <= k < |entries| => entries[k].0 + ": " + Snippet(entries[k].1, dumps))
  }

  /** `_summarize_metadata`: `None` when nothing is left after condensing, else the pieces joined. */
  function MetadataSummary(metadata: Dict, dumps: Value -> string): (r: Option<string>)
    ensures r.None? <==> Condense(Items(metadata)).vals == map[]
    ensures r.Some? ==> r.value == Text.Join(Pieces(Items(Condense(Items(metadata))), dumps), "; ")
    ensures r.Some? ==> forall k :: 0 <= k < |Items(Condense(Items(metadata)))| ==>
              Text.Contains(r.value, Items(Condense(Items(metadata)))[k].0 + ": "
                                     + Snippet(Items(Condense(Items(metadata)))[k].1, dumps))
  {
    var condensed := Condense(Items(metadata));
    var pieces := Pieces(Items(condensed), dumps);
    assert forall k :: 0 <= k < |pieces| ==> Text.Contains(Text.Join(pieces, "; "), pieces[k]) by {
      forall k | 0 <= k < |pieces|
        ensures Text.Contains(Text.Join(pieces, "; "), pieces[k])
      {
        Text.JoinHasParts(pieces, "; ", k);
      }
    }
    if condensed.vals == map[] then None
    else Some(Text.Join(Pieces(Items(condensed), dumps), "; "))
  }

  /** A metadata entry kept as is reaches the condensed dict. */
  lemma KeptKeyCondensed(metadata: Dict, key: string)
    requires key in metadata.vals && key in metadata.keys
    requires KeptAsIs((key, metadata.vals[key]))
    ensures key in Condense(Items(metadata)).vals
  {
    ItemsComplete(metadata, key);
  }

  /** Every kept key shows in the summary as its `key: snippet` piece. */
  lemma SummaryShowsKey(metadata: Dict, dumps: Value -> string, key: string)
    requires key in Condense(Items(metadata)).vals
    ensures MetadataSummary(metadata, dumps).Some?
    ensures Text.Contains(MetadataSummary(metadata, dumps).value,
                          key + ": " + Snippet(Condense(Items(metadata)).vals[key], dumps))
  {
    var condensed := Condense(Items(metadata));
    ItemsComplete(condensed, key);
  }

  /** `_summarize_metadata`, entry by entry as the source loops. */
  method SummarizeMetadata(metadata: Dict, dumps: Value -> string) returns (r: Option<string>)
    ensures r == MetadataSummary(metadata, dumps)
  {
    var entries := Items(metadata);
    var condensed := Empty;
    var i := 0;
    while i < |entries|
      invariant i <= |entries|
      invariant condensed == Condense(entries[..i])
    {
      assert entries[..i + 1][..i] == entries[..i];
      var (key, value) := entries[i];
      if IgnoredKey(key) || EmptyValue(value) {
      } else if key == "extra" && value.Obj? {
        condensed := FlattenExtra(condensed, Items(value.d));
      } else {
        condensed := Put(condensed, key, value);
      }
      i := i + 1;
    }
    assert entries[..i] == entries;
    if condensed.vals == map[] {
      return None;
    }
    var pieces := BuildPieces(Items(condensed), dumps);
    r := Some(Text.Join(pieces, "; "));
  }

  /** The inner loop of `_summarize_metadata`: the `extra` entries flattened into `condensed`. */
  method FlattenExtra(base: Dict, extra: seq<(string, Value)>) returns (condensed: Dict)
    requires Condensed(base) && forall k :: k in base.vals ==> k in base.keys
    ensures condensed == CondenseExtra(base, extra)
  {
    condensed := base;
    var j := 0;
    while j < |extra|
      invariant j <= |extra|
      invariant condensed == CondenseExtra(base, extra[..j])
    {
      assert extra[..j + 1][..j] == extra[..j];
      var (extraKey, extraValue) := extra[j];
      if !EmptyValue(extraValue) {
        condensed := Put(condensed, ExtraPrefix + extraKey, extraValue);
      }
      j := j + 1;
    }
    assert extra[..j] == extra;
  }

  /** The second loop of `_summarize_metadata`: one `key: snippet` piece per condensed entry. */
  method BuildPieces(items: seq<(string, Value)>, dumps: Value -> string) returns (pieces: seq<string>)
    ensures pieces == Pieces(items, dumps)
  {
    pieces := [];
    var k := 0;
    while k < |items|
      invariant k <= |items|
      invariant pieces == Pieces(items[..k], dumps)
    {
      pieces := pieces + [items[k].0 + ": " + Snippet(items[k].1, dumps)];
      k := k + 1;
    }
    assert items[..k] == items;
  }

  // ---------------------------------------------------------------------
  // Gathering events
  // ---------------------------------------------------------------------

  /** The event of an optional line: one event or none. */
  function Listed(e: Option<string>): (r: seq<string>)
    ensures |r| <= 1
    ensures r == [] <==> e.None?
  {
    if e.Some? then [e.value] else []
  }

  /** `events.extend(out)` after the earlier elements, unless either step raised. */
  function Extend<U>(acc: Outcome<seq<U>>, out: Outcome<seq<U>>): Outcome<seq<U>> {
    if acc.Raised? || out.Raised? then Raised else Returned(acc.value + out.value)
  }

  /**
   * A loop that extends one list with each element's events in order; the
   * first element that raises ends it with that exception.
   */
  function Gather<T, U>(xs: seq<T>, f: T -> Outcome<seq<U>>): Outcome<seq<U>>
    decreases |xs|
  {
    if xs == [] then Returned([])
    else Extend(Gather(xs[..|xs| - 1], f), f(xs[|xs| - 1]))
  }

  /** One more element of the loop. */
  lemma GatherSnoc<T, U>(xs: seq<T>, f: T -> Outcome<seq<U>>, i: nat)
    requires i < |xs|
    ensures Gather(xs[..i + 1], f) == Extend(Gather(xs[..i], f), f(xs[i]))
  {
    assert xs[..i + 1][..i] == xs[..i];
  }

  /** The loop raises exactly when one of the elements raises. */
  lemma {:induction false} GatherRaises<T, U>(xs: seq<T>, f: T -> Outcome<seq<U>>)
    ensures Gather(xs, f).Raised? <==> exists k :: 0 <= k < |xs| && f(xs[k]).Raised?
    decreases |xs|
  {
    if xs != [] {
      var n := |xs| - 1;
      GatherRaises(xs[..n], f);
      assert forall k :: 0 <= k < n ==> xs[..n][k] == xs[k];
      if f(xs[n]).Raised? {
        assert exists k :: 0 <= k < |xs| && f(xs[k]).Raised?;
      }
    }
  }

  /** Once a prefix of the loop raises, the whole loop raises. */
  lemma GatherRaisedStays<T, U>(xs: seq<T>, f: T -> Outcome<seq<U>>, i: nat)
    requires i <= |xs| && Gather(xs[..i], f).Raised?
    ensures Gather(xs, f).Raised?
  {
    GatherRaises(xs[..i], f);
    var k :| 0 <= k < i && f(xs[..i][k]).Raised?;
    assert xs[..i][k] == xs[k];
    GatherRaises(xs, f);
  }

  /** When every element contributes at most one event, there are at most as many events as elements. */
  lemma {:induction false} GatherAtMostOne<T, U>(xs: seq<T>, f: T -> Outcome<seq<U>>)
    requires forall x :: f(x).Returned? ==> |f(x).value| <= 1
    ensures Gather(xs, f).Returned? ==> |Gather(xs, f).value| <= |xs|
    decreases |xs|
  {
    if xs != [] {
      GatherAtMostOne(xs[..|xs| - 1], f);
    }
  }

  /** `for x in xs: events.extend(step(x))`, as the source loops. */
  method GatherLoop<T, U>(xs: seq<T>, f: T -> Outcome<seq<U>>) returns (r: Outcome<seq<U>>)
    ensures r == Gather(xs, f)
  {
    var events: seq<U> := [];
    var i := 0;
    while i < |xs|
      invariant i <= |xs|
      invariant Gather(xs[..i], f) == Returned(events)
    {
      GatherSnoc(xs, f, i);
      var out := f(xs[i]);
      if out.Raised? {
        GatherRaisedStays(xs, f, i + 1);
        return Raised;
      }
      events := events + out.value;
      i := i + 1;
    }
    assert xs[..i] == xs;
    r := Returned(events);
  }

  // ---------------------------------------------------------------------
  // Message events
  // ---------------------------------------------------------------------

  /** `Offered form: <title>`, the title falling back when it is falsy. */
  function OfferedForm(form: Dict): string {
    var title := Get(form, "title");
    "Offered form: " + (if Truthy(title) then PyStr(title) else DefaultFormTitle)
  }

  /** A part when `present`, nothing otherwise. */
  function PartIf(present: bool, part: string): (r: seq<string>)
    ensures present <==> r == [part]
    ensures !present <==> r == []
  {
    if present then [part] else []
  }

  /**
   * The parts of an assistant event: each present piece once, in the order
   * reply, suggestions, actions, offered form, form summary, metadata summary.
   */
  function EventParts(reply: Option<string>, suggestions: seq<string>, actions: seq<string>,
                      offered: Option<string>, formSummary: Option<string>, summary: Option<string>): (r: seq<string>)
    ensures reply.Some? ==> |r| > 0 && r[0] == "Assistant reply: " + reply.value
    ensures summary.Some? ==> |r| > 0 && r[|r| - 1] == "Metadata: " + summary.value
    ensures suggestions != [] ==> "Suggestions: " + Text.Join(suggestions, "; ") in r
    ensures actions != [] ==> "Actions: " + Text.Join(actions, "; ") in r
    ensures offered.Some? ==> offered.value in r
    ensures formSummary.Some? ==> "Form summary: " + formSummary.value in r
    ensures r == [] <==> reply.None? && suggestions == [] && actions == [] && offered.None? && formSummary.None? && summary.None?
    ensures |r| <= 6
  {
    PartIf(reply.Some?, "Assistant reply: " + reply.GetOr(""))
    + PartIf(suggestions != [], "Suggestions: " + Text.Join(suggestions, "; "))
    + PartIf(actions != [], "Actions: " + Text.Join(actions, "; "))
    + PartIf(offered.Some?, offered.GetOr(""))
    + PartIf(formSummary.Some?, "Form summary: " + formSummary.GetOr(""))
    + PartIf(summary.Some?, "Metadata: " + summary.GetOr(""))
  }

  /** The parts of an assistant event, read from the message and its `extra` dict. */
  function AssistantParts(m: Store.Message, extra: Dict, dumps: Value -> string): seq<string> {
    var form := Get(m.metadata, "follow_up_form");
    EventParts(NormalizeText(Str(m.content)),
               EnsureList(Get(m.metadata, "suggestions")),
               EnsureList(Get(m.metadata, "actions")),
               if form.Obj? then Some(OfferedForm(form.d)) else None,
               NormalizeText(Get(extra, "form_summary")),
               MetadataSummary(m.metadata, dumps))
  }

  /**
   * `_format_assistant_event`: the parts joined by newlines, `None` without
   * parts; a metadata `extra` that is not a dict makes `.get` raise.
   */
  function AssistantEvent(m: Store.Message, dumps: Value -> string): (r: Outcome<Option<string>>)
    ensures r == Raised <==> Has(m.metadata, "extra") && !m.metadata.vals["extra"].Obj?
    ensures r.Returned? ==> GetOr(m.metadata, "extra", Obj(Empty)).Obj?
    ensures r.Returned? ==>
              var parts := AssistantParts(m, GetOr(m.metadata, "extra", Obj(Empty)).d, dumps);
              (r.value.None? <==> parts == [])
              && (r.value.Some? ==> forall k :: 0 <= k < |parts| ==> Text.Contains(r.value.value, parts[k]))
              && (r.value.Some? && NormalizeText(Str(m.content)).Some? ==>
                    Text.StartsWith(r.value.value, "Assistant reply: " + NormalizeText(Str(m.content)).value))
    ensures r.Returned? && MetadataSummary(m.metadata, dumps).Some? ==>
              r.value.Some? && Text.Contains(r.value.value, "Metadata: " + MetadataSummary(m.metadata, dumps).value)
  {
    var extra := GetOr(m.metadata, "extra", Obj(Empty));
    if !extra.Obj? then Raised
    else
      var parts := AssistantParts(m, extra.d, dumps);
      if parts == [] then Returned(None)
      else
        Text.JoinShowsParts(parts, "\n");
        Returned(Some(Text.Join(parts, "\n")))
  }

  /** The event one stored message contributes: user text, an assistant event, or nothing. */
  function MessageEvent(m: Store.Message, dumps: Value -> string): (r: Outcome<Option<string>>)
    ensures m.role == Store.UserRole ==> r.Returned? && (r.value.None? <==> Text.IsBlank(m.content))
    ensures m.role == Store.AssistantRole ==> r == AssistantEvent(m, dumps)
    ensures m.role != Store.UserRole && m.role != Store.AssistantRole ==> r == Returned(None)
  {
    match m.role
    case UserRole =>
      var normalized := NormalizeText(Str(m.content));
      Returned(if normalized.Some? then Some("User message: " + normalized.value) else None)
    case AssistantRole => AssistantEvent(m, dumps)
    case _ => Returned(None)
  }

  /** One message's contribution to the event list: its event, if it has one. */
  function MessageOutput(m: Store.Message, dumps: Value -> string): (r: Outcome<seq<string>>)
    ensures r.Raised? <==> MessageEvent(m, dumps).Raised?
    ensures r.Returned? ==> |r.value| <= 1
  {
    match MessageEvent(m, dumps)
    case Raised => Raised
    case Returned(e) => Returned(Listed(e))
  }

  function MessageStep(dumps: Value -> string): Store.Message -> Outcome<seq<string>> {
    m => MessageOutput(m, dumps)
  }

  /** The events of the messages, in stored order; raises where one message's event raises. */
  function MessageEvents(ms: seq<Store.Message>, dumps: Value -> string): Outcome<seq<string>> {
    Gather(ms, MessageStep(dumps))
  }

  /** Each message gives at most one event. */
  lemma MessageEventsBounded(ms: seq<Store.Message>, dumps: Value -> string)
    ensures MessageEvents(ms, dumps).Returned? ==> |MessageEvents(ms, dumps).value| <= |ms|
  {
    GatherAtMostOne(ms, MessageStep(dumps));
  }

  /** An assistant message whose metadata holds an `extra` that is not a dict. */
  predicate ExtraNotDict(m: Store.Message) {
    m.role == Store.AssistantRole && Has(m.metadata, "extra") && !m.metadata.vals["extra"].Obj?
  }

  /** The messages raise exactly when one assistant message has a non-dict `extra`. */
  lemma MessageEventsRaise(ms: seq<Store.Message>, dumps: Value -> string)
    ensures MessageEvents(ms, dumps).Raised?
        <==> exists k :: 0 <= k < |ms| && ExtraNotDict(ms[k])
  {
    GatherRaises(ms, MessageStep(dumps));
    assert forall k :: 0 <= k < |ms| ==> (MessageStep(dumps)(ms[k]).Raised? <==> ExtraNotDict(ms[k]));
  }

  // ---------------------------------------------------------------------
  // Image events
  // ---------------------------------------------------------------------

  function ImageEvent(index: nat, text: string): string {
    "Image analysis " + Text.NatToString(index) + ": " + text
  }

  /** Whether a description yields an event: a string that is not blank. */
  predicate Described(v: Value) {
    v.Str? && !Text.IsBlank(v.s)
  }

  /** The event of the description at 1-based position `index`, if it is described. */
  function ImageEntry(index: nat, v: Value): (r: Option<string>)
    ensures r.Some? <==> Described(v)
  {
    if Described(v) then Some(ImageEvent(index, Text.Strip(v.s))) else None
  }

  /** Each element's optional event, given its 1-based position, in list order. */
  function Numbered<T>(xs: seq<T>, event: (nat, T) -> Option<string>): (r: seq<string>)
    ensures |r| <= |xs|
    decreases |xs|
  {
    if xs == [] then []
    else
      var n := |xs| - 1;
      Numbered(xs[..n], event) + Listed(event(n + 1, xs[n]))
  }

  /** The events of the descriptions, numbered from 1 by list position. */
  function ImageEventsOf(items: seq<Value>): seq<string> {
    Numbered(items, ImageEntry)
  }

  /** `_build_image_events`: nothing unless the descriptions are a list. */
  function ImageEvents(descriptions: Value): seq<string> {
    if descriptions.List? then ImageEventsOf(descriptions.items) else []
  }

  lemma NumberedSnoc<T>(xs: seq<T>, event: (nat, T) -> Option<string>, i: nat)
    requires i < |xs|
    ensures Numbered(xs[..i + 1], event) == Numbered(xs[..i], event) + Listed(event(i + 1, xs[i]))
  {
    assert xs[..i + 1][..i] == xs[..i];
  }

  lemma {:induction false} NumberedHas<T>(xs: seq<T>, event: (nat, T) -> Option<string>, k: nat)
    requires k < |xs| && event(k + 1, xs[k]).Some?
    ensures event(k + 1, xs[k]).value in Numbered(xs, event)
    decreases |xs|
  {
    var n := |xs| - 1;
    if k < n {
      assert xs[..n][k] == xs[k];
      NumberedHas(xs[..n], event, k);
    }
  }

  lemma {:induction false} NumberedSource<T>(xs: seq<T>, event: (nat, T) -> Option<string>, e: string) returns (k: nat)
    requires e in Numbered(xs, event)
    ensures k < |xs| && event(k + 1, xs[k]) == Some(e)
    decreases |xs|
  {
    var n := |xs| - 1;
    if e in Numbered(xs[..n], event) {
      k := NumberedSource(xs[..n], event, e);
      assert xs[..n][k] == xs[k];
    } else {
      k := n;
    }
  }

  /** The description at position `k` is event number `k + 1`, whatever was skipped before it. */
  lemma ImageEventNumbered(items: seq<Value>, k: nat)
    requires k < |items| && Described(items[k])
    ensures ImageEvent(k + 1, Text.Strip(items[k].s)) in ImageEventsOf(items)
  {
    NumberedHas(items, ImageEntry, k);
  }

  /** Every image event is that of a described entry, numbered by its position. */
  lemma ImageEventSource(items: seq<Value>, e: string) returns (k: nat)
    requires e in ImageEventsOf(items)
    ensures k < |items| && Described(items[k]) && e == ImageEvent(k + 1, Text.Strip(items[k].s))
  {
    k := NumberedSource(items, ImageEntry, e);
  }

  /** One more description: a non-blank string adds its event, numbered by its position. */
  lemma ImageEventsSnoc(items: seq<Value>, i: nat)
    requires i < |items|
    ensures var v := items[i];
      ImageEventsOf(items[..i + 1])
      == ImageEventsOf(items[..i]) + (if v.Str? && Text.Strip(v.s) != [] then [ImageEvent(i + 1, Text.Strip(v.s))] else [])
  {
    NumberedSnoc(items, ImageEntry, i);
  }

  /** `_build_image_events`, as the source loops. */
  method BuildImageEvents(descriptions: Value) returns (events: seq<string>)
    ensures events == ImageEvents(descriptions)
  {
    events := [];
    if !descriptions.List? {
      return;
    }
    var items := descriptions.items;
    var i := 0;
    while i < |items|
      invariant i <= |items|
      invariant events == ImageEventsOf(items[..i])
    {
      ImageEventsSnoc(items, i);
      var desc := items[i];
      if desc.Str? {
        var cleaned := Text.Strip(desc.s);
        if cleaned != [] {
          events := events + [ImageEvent(i + 1, cleaned)];
        }
      }
      i := i + 1;
    }
    assert items[..i] == items;
  }

  // ---------------------------------------------------------------------
  // Form events
  // ---------------------------------------------------------------------

  /**
   * `(form.get("title") or "Follow-up form").strip() or "Follow-up form"`;
   * `None` where `.strip()` raises on a truthy non-string title.
   */
  function FormTitle(form: Dict): (r: Option<string>)
    ensures !Truthy(Get(form, "title")) ==> r == Some(DefaultFormTitle)
    ensures Get(form, "title").Str? && Text.IsBlank(Get(form, "title").s) ==> r == Some(DefaultFormTitle)
    ensures Get(form, "title").Str? && !Text.IsBlank(Get(form, "title").s) ==> r == Some(Text.Strip(Get(form, "title").s))
    ensures Truthy(Get(form, "title")) && !Get(form, "title").Str? ==> r == None
  {
    var title := Get(form, "title");
    if !Truthy(title) then Some(DefaultFormTitle)
    else if !title.Str? then None
    else
      var stripped := Text.Strip(title.s);
      Some(if stripped == [] then DefaultFormTitle else stripped)
  }

  /** `form.get("status") or "in_progress"`, as text. */
  function FormStatusText(form: Dict): (r: string)
    ensures !Truthy(Get(form, "status")) ==> r == DefaultFormStatus
    ensures Truthy(Get(form, "status")) ==> r == PyStr(Get(form, "status"))
  {
    var status := Get(form, "status");
    if Truthy(status) then PyStr(status) else DefaultFormStatus
  }

  function FormPrefix(title: string, status: string): string {
    "Form '" + title + "' [" + status + "]"
  }

  /** The input items of a form, `None` where iterating `form.get("inputs", []) or []` raises. */
  function InputItems(form: Dict): (r: Option<seq<Value>>)
    ensures !Truthy(Get(form, "inputs")) ==> r == Some([])
    ensures Get(form, "inputs").List? ==> r == Some(Get(form, "inputs").items)
  {
    var inputs := Get(form, "inputs");
    if !Truthy(inputs) then Some([])
    else if inputs.List? then Some(inputs.items)
    else None
  }

  /** The event of one input: its prompt (or "Prompt") and its answer, when it has one. */
  function InputEvent(prefix: string, item: Dict): (r: Option<string>)
    ensures r.Some? <==> NormalizeText(Get(item, "answer")).Some?
  {
    var question := NormalizeText(Get(item, "question")).GetOr(DefaultPrompt);
    match NormalizeText(Get(item, "answer"))
    case None => None
    case Some(answer) => Some(prefix + " prompt '" + question + "': " + answer)
  }

  /** How many of the items are dicts with an answer. */
  function AnsweredCount(items: seq<Value>): (n: nat)
    ensures n <= |items|
    decreases |items|
  {
    if items == [] then 0
    else
      var k := |items| - 1;
      AnsweredCount(items[..k])
      + (if items[k].Obj? && NormalizeText(Get(items[k].d, "answer")).Some? then 1 else 0)
  }

  /** Every item is a dict. */
  predicate AllDicts(items: seq<Value>) {
    forall k :: 0 <= k < |items| ==> items[k].Obj?
  }

  lemma AllDictsSnoc(items: seq<Value>)
    requires items != []
    ensures AllDicts(items) <==> AllDicts(items[..|items| - 1]) && items[|items| - 1].Obj?
  {
    var n := |items| - 1;
    assert forall k :: 0 <= k < n ==> items[..n][k] == items[k];
  }

  /** One input's contribution: a non-dict raises, a dict gives its event if it has one. */
  function InputOutput(prefix: string, item: Value): (r: Outcome<seq<string>>)
    ensures r.Raised? <==> !item.Obj?
    ensures r.Returned? ==> |r.value| <= 1
  {
    if !item.Obj? then Raised else Returned(Listed(InputEvent(prefix, item.d)))
  }

  function InputStep(prefix: string): Value -> Outcome<seq<string>> {
    item => InputOutput(prefix, item)
  }

  /** The events of a form's inputs, in order. */
  function InputEvents(prefix: string, items: seq<Value>): Outcome<seq<string>> {
    Gather(items, InputStep(prefix))
  }

  /** The inputs give events exactly when every item is a dict, one per answered item. */
  lemma {:induction false} InputEventsCount(prefix: string, items: seq<Value>)
    ensures InputEvents(prefix, items).Returned? <==> AllDicts(items)
    ensures InputEvents(prefix, items).Returned? ==> |InputEvents(prefix, items).value| == AnsweredCount(items)
    decreases |items|
  {
    GatherRaises(items, InputStep(prefix));
    if items != [] {
      var n := |items| - 1;
      InputEventsCount(prefix, items[..n]);
      AllDictsSnoc(items);
    }
  }

  /** The events of one entry of the forms list: nothing for a non-dict. */
  function FormEvents(form: Value): (r: Outcome<seq<string>>)
    ensures !form.Obj? ==> r == Returned([])
  {
    if !form.Obj? then Returned([])
    else
      match FormTitle(form.d)
      case None => Raised
      case Some(title) =>
        match InputItems(form.d)
        case None => Raised
        case Some(items) => InputEvents(FormPrefix(title, FormStatusText(form.d)), items)
  }

  /** The events of all forms, in order. */
  function FormsEventsOf(forms: seq<Value>): Outcome<seq<string>> {
    Gather(forms, FormEvents)
  }

  /** `_build_form_events`: nothing unless the forms are a list. */
  function FormsEvents(forms: Value): (r: Outcome<seq<string>>)
    ensures !forms.List? ==> r == Returned([])
  {
    if forms.List? then FormsEventsOf(forms.items) else Returned([])
  }

  /** A form without title or status reads as an open "Follow-up form". */
  lemma FormDefaults(form: Dict)
    requires !Has(form, "title") && !Has(form, "status")
    ensures FormTitle(form) == Some(DefaultFormTitle)
    ensures FormPrefix(FormTitle(form).value, FormStatusText(form)) == "Form 'Follow-up form' [in_progress]"
  {
    assert FormStatusText(form) == DefaultFormStatus;
  }

  /** `_build_form_events`, as the source loops. */
  method BuildFormEvents(forms: Value) returns (r: Outcome<seq<string>>)
    ensures r == FormsEvents(forms)
  {
    if !forms.List? {
      return Returned([]);
    }
    var items := forms.items;
    var events := [];
    var i := 0;
    while i < |items|
      invariant i <= |items|
      invariant FormsEventsOf(items[..i]) == Returned(events)
    {
      GatherSnoc(items, FormEvents, i);
      var formEvents := BuildOneForm(items[i]);
      if formEvents.Raised? {
        GatherRaisedStays(items, FormEvents, i + 1);
        return Raised;
      }
      events := events + formEvents.value;
      i := i + 1;
    }
    assert items[..i] == items;
    r := Returned(events);
  }

  /** The body of the loop over forms: one form's events, input by input. */
  method BuildOneForm(form: Value) returns (r: Outcome<seq<string>>)
    ensures r == FormEvents(form)
  {
    if !form.Obj? {
      return Returned([]);
    }
    var title := FormTitle(form.d);
    if title.None? {
      return Raised;
    }
    var prefix := FormPrefix(title.value, FormStatusText(form.d));
    var inputs := InputItems(form.d);
    if inputs.None? {
      return Raised;
    }
    r := GatherLoop(inputs.value, InputStep(prefix));
  }

  // ---------------------------------------------------------------------
  // `get_ai_context`
  // ---------------------------------------------------------------------

  /** The context of a session: messages, then images, then forms, trimmed to the last 30. */
  function AiContextOf(sessionId: Uuid, aggregate: Option<Aggregate>, dumps: Value -> string): (r: Outcome<AiContext>)
    ensures aggregate.None? ==> r == Returned(AiContext(sessionId, []))
    ensures r.Returned? ==> r.value.sessionId == sessionId && |r.value.events| <= EventLimit
  {
    match aggregate
    case None => Returned(AiContext(sessionId, []))
    case Some(a) =>
      match MessageEvents(a.messages, dumps)
      case Raised => Raised
      case Returned(messageEvents) =>
        match FormsEvents(a.forms)
        case Raised => Raised
        case Returned(formEvents) =>
          Returned(AiContext(sessionId, TrimEvents(messageEvents + ImageEvents(a.imageDescriptions) + formEvents)))
  }

  /** With at most 30 events in all, the context lists the message events first, then images, then forms. */
  lemma EventsInSourceOrder(sessionId: Uuid, a: Aggregate, dumps: Value -> string)
    requires MessageEvents(a.messages, dumps).Returned? && FormsEvents(a.forms).Returned?
    requires |MessageEvents(a.messages, dumps).value| + |ImageEvents(a.imageDescriptions)|
             + |FormsEvents(a.forms).value| <= EventLimit
    ensures var r := AiContextOf(sessionId, Some(a), dumps);
      r.Returned?
      && r.value.events == MessageEvents(a.messages, dumps).value + ImageEvents(a.imageDescriptions)
                           + FormsEvents(a.forms).value
  {
  }

  /** `get_ai_context`: the events gathered loop by loop, then trimmed. */
  method GetAiContext(sessionId: Uuid, aggregate: Option<Aggregate>, dumps: Value -> string)
    returns (r: Outcome<AiContext>)
    ensures r == AiContextOf(sessionId, aggregate, dumps)
  {
    if aggregate.None? {
      return Returned(AiContext(sessionId, []));
    }
    var a := aggregate.value;
    var messageEvents := GatherLoop(a.messages, MessageStep(dumps));
    if messageEvents.Raised? {
      return Raised;
    }
    var events := messageEvents.value;
    var imageEvents := BuildImageEvents(a.imageDescriptions);
    events := events + imageEvents;
    var formEvents := BuildFormEvents(a.forms);
    if formEvents.Raised? {
      return Raised;
    }
    events := events + formEvents.value;
    r := Returned(AiContext(sessionId, TrimEvents(events)));
  }
}
