/**
 * `RecommendationTracker`: the suggested actions of a session's past
 * assistant messages, counted per normalised text (`strip().lower()`), with
 * the text first seen kept for display, and `RecommendationHistory`'s
 * queries over that count.
 */
module RecommendationTracker {
  import opened Wrappers
  import opened Json
  import Text
  import opened Store

  /** `RecommendationRecord`. */
  datatype Record = Record(text: string, count: nat)

  /** `RecommendationHistory.actions`: a dict from normalised action to record, in insertion order. */
  datatype History = History(keys: seq<string>, records: map<string, Record>)

  const EmptyHistory := History([], map[])

  const SummaryHeading := "Suggested actions already attempted:"

  /**
   * Every key is listed once, in the dict's order, and names a record of at
   * least one occurrence whose text is the non-blank, stripped first
   * occurrence and lower-cases to the key.
   */
  ghost predicate ValidHistory(h: History) {
    (forall k :: k in h.records <==> k in h.keys)
    && Distinct(h.keys)
    && (forall k :: k in h.records ==>
          h.records[k].count >= 1 && k != [] && Text.IsStripped(h.records[k].text)
          && Text.Lower(h.records[k].text) == k)
  }

  // ----- RecommendationHistory -----

  /** `normalized_actions`. */
  function NormalizedActions(h: History): (r: set<string>)
    ensures forall k :: k in r <==> k in h.records
  {
    h.records.Keys
  }

  /** The counts of the records under `keys`. */
  function SumCounts(keys: seq<string>, records: map<string, Record>): nat
    decreases |keys|
  {
    if keys == [] then 0
    else
      var k := keys[|keys| - 1];
      SumCounts(keys[..|keys| - 1], records) + (if k in records then records[k].count else 0)
  }

  /** `total_recommendations`: the counts summed over the dict's values. */
  function TotalRecommendations(h: History): nat {
    SumCounts(h.keys, h.records)
  }

  /** `is_empty`. */
  predicate IsEmpty(h: History) {
    h.records == map[]
  }

  /** The line of one record: the first text seen, with " (xN)" only for a repeated action. */
  function FormatRecord(r: Record): (line: string)
    ensures r.count <= 1 ==> line == "- " + r.text
    ensures r.count > 1 ==> line == "- " + r.text + " (x" + Text.NatToString(r.count) + ")"
  {
    "- " + r.text + (if r.count > 1 then " (x" + Text.NatToString(r.count) + ")" else "")
  }

  /** `_format_records` over the records under `keys`. */
  function FormatRecords(keys: seq<string>, records: map<string, Record>): (lines: seq<string>)
    ensures |lines| == |keys|
  {
    if keys == [] then []
    else
      var rest := FormatRecords(keys[1..], records);
      if keys[0] in records then [FormatRecord(records[keys[0]])] + rest else ["- "] + rest
  }

  /** `context_summary`: `None` exactly for an empty history, else the heading and one line per action. */
  function ContextSummary(h: History): (r: Option<string>)
    ensures r.None? <==> IsEmpty(h)
  {
    if IsEmpty(h) then None
    else Some(Text.Join([SummaryHeading] + FormatRecords(h.keys, h.records), "\n"))
  }

  // ----- RecommendationTracker -----

  /** `_normalize`. */
  function Normalize(value: string): string {
    Text.StripLower(value)
  }

  /** The non-blank texts of a list, stringified and stripped, in order. */
  function StrippedTexts(items: seq<Value>): (r: seq<string>)
    ensures |r| <= |items|
    ensures forall i :: 0 <= i < |r| ==> r[i] != [] && Text.IsStripped(r[i])
  {
    if items == [] then []
    else
      var t := Text.Strip(PyStr(items[0]));
      var rest := StrippedTexts(items[1..]);
      assert forall v :: v in items <==> v == items[0] || v in items[1..];
      if t != [] then [t] + rest else rest
  }

  /**
   * `_collect_actions`: from a `suggested_actions` list, every item's
   * stripped text; from a single string, that string stripped; blanks are
   * dropped and anything else gives nothing.
   */
  function CollectActions(metadata: Dict): (r: seq<string>)
    ensures forall i :: 0 <= i < |r| ==> r[i] != [] && Text.IsStripped(r[i])
    ensures !Get(metadata, "suggested_actions").List? && !Get(metadata, "suggested_actions").Str? ==> r == []
  {
    var raw := Get(metadata, "suggested_actions");
    if raw.List? then StrippedTexts(raw.items)
    else if raw.Str? then (if Text.Strip(raw.s) != [] then [Text.Strip(raw.s)] else [])
    else []
  }

  /** One action of `_record`: a blank one is skipped; else its key's count goes up, a new key keeping this text. */
  function RecordOne(h: History, raw: string): (r: History)
    ensures |h.keys| <= |r.keys| <= |h.keys| + 1
  {
    var key := Normalize(raw);
    if key == [] then h
    else if key in h.records then
      History(h.keys, h.records[key := h.records[key].(count := h.records[key].count + 1)])
    else
      History(h.keys + [key], h.records[key := Record(Text.Strip(raw), 1)])
  }

  /** `_record` over a list of actions, in order. */
  function RecordSpec(h: History, values: seq<string>): (r: History)
    decreases |values|
  {
    if values == [] then h else RecordOne(RecordSpec(h, values[..|values| - 1]), values[|values| - 1])
  }

  /** One step of `_record`: `setdefault` the record of the action's key, then `count += 1`. */
  method RecordStep(h: History, raw: string) returns (r: History)
    ensures r == RecordOne(h, raw)
  {
    r := h;
    var normalized := Normalize(raw);
    if normalized == [] {
      return;
    }
    if normalized !in r.records {
      r := History(r.keys + [normalized], r.records[normalized := Record(Text.Strip(raw), 0)]);
    }
    r := History(r.keys, r.records[normalized := r.records[normalized].(count := r.records[normalized].count + 1)]);
  }

  /** `_record`: one step per action, in order. */
  method RecordActions(h: History, values: seq<string>) returns (r: History)
    ensures r == RecordSpec(h, values)
  {
    r := h;
    var i := 0;
    while i < |values|
      invariant 0 <= i <= |values|
      invariant r == RecordSpec(h, values[..i])
    {
      assert values[..i + 1][..i] == values[..i] && values[..i + 1][i] == values[i];
      r := RecordStep(r, values[i]);
      i := i + 1;
    }
    assert values[..i] == values;
  }

  /** What `_aggregate` folds in for one message: the actions of an assistant message, nothing for any other role. */
  function MessageActions(m: Message): (r: seq<string>)
    ensures m.role != AssistantRole ==> r == []
  {
    if m.role != AssistantRole then [] else CollectActions(m.metadata)
  }

  /** `_aggregate` over the messages, in order. */
  function AggregateSpec(messages: seq<Message>): History
    decreases |messages|
  {
    if messages == [] then EmptyHistory
    else
      var n := |messages| - 1;
      RecordSpec(AggregateSpec(messages[..n]), MessageActions(messages[n]))
  }

  /** `_aggregate`. */
  method Aggregate(messages: seq<Message>) returns (h: History)
    ensures h == AggregateSpec(messages)
  {
    h := EmptyHistory;
    var i := 0;
    while i < |messages|
      invariant 0 <= i <= |messages|
      invariant h == AggregateSpec(messages[..i])
    {
      var m := messages[i];
      ghost var prefix := messages[..i + 1];
      assert prefix[..i] == messages[..i] && prefix[i] == m;
      assert AggregateSpec(prefix) == RecordSpec(h, MessageActions(m));
      if m.role == AssistantRole {
        var actions := CollectActions(m.metadata);
        if actions != [] {
          h := RecordActions(h, actions);
        }
      }
      i := i + 1;
    }
    assert messages[..i] == messages;
  }

  /** `build_history`: the first `fetchLimit` (200 by default) messages of the session, oldest first. */
  function BuildHistory(messages: seq<Message>, sessionId: Uuid, fetchLimit: nat): History {
    var listed := MessagesOf(messages, sessionId);
    AggregateSpec(if |listed| <= fetchLimit then listed else listed[..fetchLimit])
  }

  const DefaultFetchLimit: nat := 200

  // ----- properties -----

  /** The number of non-blank texts in `values`. */
  function NonBlank(values: seq<string>): nat
    decreases |values|
  {
    if values == [] then 0
    else NonBlank(values[..|values| - 1]) + (if Normalize(values[|values| - 1]) != [] then 1 else 0)
  }

  lemma {:induction false} SumCountsIgnores(keys: seq<string>, records: map<string, Record>, k: string, rec: Record)
    requires k !in keys
    ensures SumCounts(keys, records[k := rec]) == SumCounts(keys, records)
    decreases |keys|
  {
    if keys != [] {
      SumCountsIgnores(keys[..|keys| - 1], records, k, rec);
    }
  }

  lemma {:induction false} SumCountsBump(keys: seq<string>, records: map<string, Record>, k: string)
    requires k in keys && k in records && Distinct(keys)
    ensures SumCounts(keys, records[k := records[k].(count := records[k].count + 1)]) == SumCounts(keys, records) + 1
    decreases |keys|
  {
    var n := |keys| - 1;
    var bumped := records[k := records[k].(count := records[k].count + 1)];
    if keys[n] == k {
      assert k !in keys[..n];
      SumCountsIgnores(keys[..n], records, k, records[k].(count := records[k].count + 1));
    } else {
      assert k in keys[..n];
      SumCountsBump(keys[..n], records, k);
    }
  }

  /** Recording one action adds one occurrence exactly when the action is not blank. */
  lemma RecordOneCounts(h: History, raw: string)
    requires ValidHistory(h)
    ensures TotalRecommendations(RecordOne(h, raw)) == TotalRecommendations(h) + (if Normalize(raw) != [] then 1 else 0)
  {
    var key := Normalize(raw);
    if key != [] {
      if key in h.records {
        assert RecordOne(h, raw) == History(h.keys, h.records[key := h.records[key].(count := h.records[key].count + 1)]);
        SumCountsBump(h.keys, h.records, key);
      } else {
        var rec := Record(Text.Strip(raw), 1);
        assert RecordOne(h, raw) == History(h.keys + [key], h.records[key := rec]);
        SumCountsAppend(h.keys, h.records, key, rec);
      }
    }
  }

  lemma SumCountsAppend(keys: seq<string>, records: map<string, Record>, k: string, rec: Record)
    requires k !in keys
    ensures SumCounts(keys + [k], records[k := rec]) == SumCounts(keys, records) + rec.count
  {
    assert (keys + [k])[..|keys|] == keys;
    SumCountsIgnores(keys, records, k, rec);
  }

  /** Recording one action adds its key when it is not blank, and no other. */
  lemma RecordOneKeys(h: History, raw: string)
    ensures var key := Normalize(raw);
            RecordOne(h, raw).records.Keys == h.records.Keys + (if key != [] then {key} else {})
  {
  }

  /** Recording one action keeps every earlier record's text. */
  lemma RecordOneKeepsTexts(h: History, raw: string)
    ensures forall k :: k in h.records ==> RecordOne(h, raw).records[k].text == h.records[k].text
  {
    var key := Normalize(raw);
    var r := RecordOne(h, raw);
    if key == [] {
      assert r == h;
    } else if key in h.records {
      var bumped := h.records[key].(count := h.records[key].count + 1);
      assert r.records == h.records[key := bumped];
      assert bumped.text == h.records[key].text;
    } else {
      assert r.records == h.records[key := Record(Text.Strip(raw), 1)];
    }
  }

  /** The counts sum to the number of non-blank actions recorded. */
  lemma {:induction false} RecordCounts(h: History, values: seq<string>)
    requires ValidHistory(h)
    ensures TotalRecommendations(RecordSpec(h, values)) == TotalRecommendations(h) + NonBlank(values)
    decreases |values|
  {
    if values != [] {
      var n := |values| - 1;
      RecordCounts(h, values[..n]);
      RecordValid(h, values[..n]);
      RecordOneCounts(RecordSpec(h, values[..n]), values[n]);
    }
  }

  /** The non-empty keys `norm` gives the actions of `values`. */
  function NewKeys(values: seq<string>, norm: string -> string): set<string>
    decreases |values|
  {
    if values == [] then {}
    else
      var n := |values| - 1;
      var key := norm(values[n]);
      NewKeys(values[..n], norm) + (if key != [] then {key} else {})
  }

  /** A key is new exactly when some action gives it and it is not empty. */
  lemma {:induction false} NewKeysMembers(values: seq<string>, norm: string -> string, k: string)
    ensures k in NewKeys(values, norm) <==> exists i :: 0 <= i < |values| && norm(values[i]) == k && k != []
    decreases |values|
  {
    if values != [] {
      var n := |values| - 1;
      NewKeysMembers(values[..n], norm, k);
      if k in NewKeys(values[..n], norm) {
        var i :| 0 <= i < n && norm(values[..n][i]) == k && k != [];
        assert values[..n][i] == values[i];
      }
      if exists i :: 0 <= i < |values| && norm(values[i]) == k && k != [] {
        var i :| 0 <= i < |values| && norm(values[i]) == k && k != [];
        if i < n {
          assert values[..n][i] == values[i];
        }
      }
    }
  }

  /** Recording adds exactly the keys of the non-blank actions. */
  lemma {:induction false} RecordKeys(h: History, values: seq<string>)
    ensures RecordSpec(h, values).records.Keys == h.records.Keys + NewKeys(values, Normalize)
    decreases |values|
  {
    if values != [] {
      var n := |values| - 1;
      var prev := RecordSpec(h, values[..n]);
      var key := Normalize(values[n]);
      var added: set<string> := if key != [] then {key} else {};
      RecordKeys(h, values[..n]);
      RecordOneKeys(prev, values[n]);
      assert RecordSpec(h, values).records.Keys == prev.records.Keys + added;
      assert NewKeys(values, Normalize) == NewKeys(values[..n], Normalize) + added;
    }
  }

  /** Recording keeps every key's first text. */
  lemma {:induction false} RecordKeepsTexts(h: History, values: seq<string>)
    ensures forall k :: k in h.records ==>
              k in RecordSpec(h, values).records && RecordSpec(h, values).records[k].text == h.records[k].text
    decreases |values|
  {
    if values != [] {
      var n := |values| - 1;
      var prev := RecordSpec(h, values[..n]);
      RecordKeepsTexts(h, values[..n]);
      RecordOneKeys(prev, values[n]);
      RecordOneKeepsTexts(prev, values[n]);
    }
  }

  /** A non-blank action that is all stripped is counted once. */
  lemma NonBlankOfCollected(values: seq<string>)
    requires forall i :: 0 <= i < |values| ==> values[i] != [] && Text.IsStripped(values[i])
    ensures NonBlank(values) == |values|
  {
    if values != [] {
      NonBlankOfCollected(values[..|values| - 1]);
    }
  }

  /** Messages other than the assistant's change nothing: the history is that of the assistant messages alone. */
  lemma {:induction false} OnlyAssistantMessagesCount(messages: seq<Message>, m: Message)
    requires m.role != AssistantRole
    ensures AggregateSpec(messages + [m]) == AggregateSpec(messages)
  {
    assert (messages + [m])[..|messages|] == messages;
  }

  /** The total is the number of non-blank actions over all assistant messages. */
  lemma {:induction false} AggregateCounts(messages: seq<Message>)
    ensures TotalRecommendations(AggregateSpec(messages)) == ActionCount(messages)
    decreases |messages|
  {
    if messages != [] {
      var n := |messages| - 1;
      AggregateCounts(messages[..n]);
      AggregateValid(messages[..n]);
      RecordCounts(AggregateSpec(messages[..n]), MessageActions(messages[n]));
      NonBlankOfCollected(MessageActions(messages[n]));
    }
  }

  /** How many actions the messages' metadata carry. */
  function ActionCount(messages: seq<Message>): nat
    decreases |messages|
  {
    if messages == [] then 0
    else ActionCount(messages[..|messages| - 1]) + |MessageActions(messages[|messages| - 1])|
  }

  /** An empty history has no recommendations; a non-empty one has at least one. */
  lemma {:induction false} EmptyIffNoRecommendations(h: History)
    requires ValidHistory(h)
    ensures IsEmpty(h) <==> TotalRecommendations(h) == 0
  {
    if !IsEmpty(h) {
      var k :| k in h.records;
      SumCountsPositive(h.keys, h.records, k);
    }
  }

  lemma {:induction false} SumCountsPositive(keys: seq<string>, records: map<string, Record>, k: string)
    requires k in keys && k in records && records[k].count >= 1
    ensures SumCounts(keys, records) >= 1
    decreases |keys|
  {
    var n := |keys| - 1;
    if keys[n] != k {
      assert k in keys[..n];
      SumCountsPositive(keys[..n], records, k);
    }
  }

  /** Recording one action keeps the history well formed. */
  lemma RecordOneValid(h: History, raw: string)
    requires ValidHistory(h)
    ensures ValidHistory(RecordOne(h, raw))
  {
    var key := Normalize(raw);
    var r := RecordOne(h, raw);
    if key != [] && key !in h.records {
      assert Text.Lower(Text.Strip(raw)) == key;
      assert r.records == h.records[key := Record(Text.Strip(raw), 1)];
      assert r.keys == h.keys + [key];
      assert key !in h.keys;
      assert Distinct(r.keys);
    } else if key != [] {
      assert r.records.Keys == h.records.Keys;
      assert r.keys == h.keys;
    }
  }

  lemma {:induction false} RecordValid(h: History, values: seq<string>)
    requires ValidHistory(h)
    ensures ValidHistory(RecordSpec(h, values))
    decreases |values|
  {
    if values != [] {
      RecordValid(h, values[..|values| - 1]);
      RecordOneValid(RecordSpec(h, values[..|values| - 1]), values[|values| - 1]);
    }
  }

  /** Every history `_aggregate` builds is well formed. */
  lemma {:induction false} AggregateValid(messages: seq<Message>)
    ensures ValidHistory(AggregateSpec(messages))
    decreases |messages|
  {
    if messages != [] {
      var n := |messages| - 1;
      AggregateValid(messages[..n]);
      RecordValid(AggregateSpec(messages[..n]), MessageActions(messages[n]));
    }
  }
}
