/**
 * Usage accounting for model calls: reading the usage payload of a model
 * response, resolving the pricing entry of a model name, computing the
 * costs per million tokens, and embedding the usage record in message
 * metadata. Amounts are exact reals; the pricing table is a parameter, an
 * ordered list of entries with their per-million-token rates.
 */
module UsageMetrics {
  import opened Wrappers
  import opened Json
  import Text

  /** One entry of the pricing table: rates per one million tokens (a missing rate is 0). */
  datatype PricingEntry = PricingEntry(key: string, inputRate: real, outputRate: real)

  /**
   * The `usage` attribute of a response: absent, a dict, or an object whose
   * `model_dump`, `dict` and `to_dict` methods, tried in that order, give a
   * value (`None` when the method is missing or raises).
   */
  datatype RawUsage = NoUsageAttribute | UsageDict(d: Dict) | UsageObject(dumps: seq<Option<Value>>)

  /** A model response as far as usage goes: its `usage` and its `model` attribute. */
  datatype Response = Response(usage: RawUsage, model: Option<string>)

  /** `ModelUsageDetails`; the currency is always the default "USD". */
  datatype UsageDetails = UsageDetails(
    model: string,
    inputTokens: int,
    outputTokens: int,
    totalTokens: int,
    costInput: Option<real>,
    costOutput: Option<real>,
    costTotal: Option<real>,
    pricingModel: Option<string>,
    rawUsage: Dict,
    requestType: string)

  const Currency := "USD"

  /** What `extract_usage_details` gives: `None`, the details, or an exception. */
  datatype Extraction = NoUsage | Extracted(details: UsageDetails) | Raises

  // ----- the usage payload -----

  /** The first dump that is a dict, tried in order. */
  function FirstDictDump(dumps: seq<Option<Value>>): (r: Dict)
    ensures r != Empty ==> exists i :: 0 <= i < |dumps| && dumps[i] == Some(Obj(r))
  {
    if dumps == [] then Empty
    else if dumps[0].Some? && dumps[0].value.Obj? then dumps[0].value.d
    else
      var r := FirstDictDump(dumps[1..]);
      assert r != Empty ==> exists i :: 1 <= i < |dumps| && dumps[i] == Some(Obj(r)) by {
        if r != Empty {
          var i :| 0 <= i < |dumps[1..]| && dumps[1..][i] == Some(Obj(r));
          assert dumps[i + 1] == Some(Obj(r));
        }
      }
      r
  }

  /** `normalize_usage_dict`: `{}` for no usage, the dict itself, or the first dump that is a dict. */
  function NormalizeUsageDict(raw: RawUsage): Dict {
    match raw
    case NoUsageAttribute => Empty
    case UsageDict(d) => d
    case UsageObject(dumps) => FirstDictDump(dumps)
  }

  /** A dump that is a dict comes before every other dict dump it shadows. */
  lemma {:induction false} FirstDictDumpIsFirst(dumps: seq<Option<Value>>, i: nat)
    requires i < |dumps| && dumps[i].Some? && dumps[i].value.Obj?
    requires forall j :: 0 <= j < i ==> !(dumps[j].Some? && dumps[j].value.Obj?)
    ensures FirstDictDump(dumps) == dumps[i].value.d
  {
    if i > 0 {
      assert !(dumps[0].Some? && dumps[0].value.Obj?);
      FirstDictDumpIsFirst(dumps[1..], i - 1);
    }
  }

  /** Python's `int(x)` of a float: truncation toward zero. */
  function TruncateReal(x: real): (n: int)
    ensures x >= 0.0 ==> n as real <= x < n as real + 1.0
    ensures x < 0.0 ==> n as real - 1.0 < x <= n as real
  {
    if x >= 0.0 then x.Floor else -((-x).Floor)
  }

  /**
   * `int(v or 0)`: a falsy value is 0; a number is truncated; a non-empty
   * text is parsed (`None` when `int` raises); a non-empty list or dict
   * makes `int` raise.
   */
  function TokenCount(v: Value, parseInt: string -> Option<int>): (r: Option<int>)
    ensures !Truthy(v) ==> r == Some(0)
    ensures v.Int? ==> r == Some(v.i)
  {
    if !Truthy(v) then Some(0)
    else
      match v
      case Bool(b) => Some(1)
      case Int(i) => Some(i)
      case Float(x, _) => Some(TruncateReal(x))
      case Str(s) => parseInt(s)
      case _ => None
  }

  // ----- pricing -----

  /** The position of the first entry at or after `from` whose lower-cased key starts `lowered`. */
  function PrefixMatch(lowered: string, pricing: seq<PricingEntry>, from: nat): (k: nat)
    requires from <= |pricing|
    ensures from <= k <= |pricing|
    ensures k < |pricing| ==> Text.StartsWith(lowered, Text.Lower(pricing[k].key))
    ensures forall j :: from <= j < k ==> !Text.StartsWith(lowered, Text.Lower(pricing[j].key))
    decreases |pricing| - from
  {
    if from == |pricing| then from
    else if Text.StartsWith(lowered, Text.Lower(pricing[from].key)) then from
    else PrefixMatch(lowered, pricing, from + 1)
  }

  predicate HasKey(pricing: seq<PricingEntry>, key: string) {
    exists i :: 0 <= i < |pricing| && pricing[i].key == key
  }

  /**
   * `match_pricing_key`: no key for an empty name; the name itself when it
   * is a key; else the first key, in table order, that is a case-insensitive
   * prefix of the name (the first, not the longest).
   */
  function MatchPricingKey(modelName: string, pricing: seq<PricingEntry>): (r: Option<string>)
    ensures r.Some? ==> HasKey(pricing, r.value)
  {
    if modelName == [] then None
    else if HasKey(pricing, modelName) then Some(modelName)
    else
      var k := PrefixMatch(Text.Lower(modelName), pricing, 0);
      if k < |pricing| then Some(pricing[k].key) else None
  }

  /** The entry a key names: the first with that key. */
  function EntryFor(pricing: seq<PricingEntry>, key: string): (r: Option<PricingEntry>)
    ensures r.Some? ==> r.value in pricing && r.value.key == key
    ensures r.None? <==> !HasKey(pricing, key)
  {
    if pricing == [] then None
    else if pricing[0].key == key then Some(pricing[0])
    else
      var r := EntryFor(pricing[1..], key);
      assert HasKey(pricing, key) <==> HasKey(pricing[1..], key) by {
        if HasKey(pricing, key) {
          var i :| 0 <= i < |pricing| && pricing[i].key == key;
          assert i > 0 && pricing[1..][i - 1].key == key;
        }
        if HasKey(pricing[1..], key) {
          var i :| 0 <= i < |pricing[1..]| && pricing[1..][i].key == key;
          assert pricing[i + 1].key == key;
        }
      }
      r
  }

  /** `(tokens / 1_000_000.0) * rate if rate else 0.0`. */
  function TokenCost(tokens: int, rate: real): (r: real)
    ensures r == tokens as real * rate / 1000000.0
    ensures tokens >= 0 && rate >= 0.0 ==> r >= 0.0
  {
    if rate != 0.0 then (tokens as real / 1000000.0) * rate else 0.0
  }

  /** The costs and the pricing key of `compute_usage_cost`. */
  datatype Costs = Costs(input: Option<real>, output: Option<real>, total: Option<real>, key: Option<string>)

  const Unpriced := Costs(None, None, None, None)

  /**
   * `compute_usage_cost`: unpriced (every part `None`) for an empty table or
   * a name no key matches (or only the empty key, which is falsy); otherwise
   * the two token costs, their sum and the key.
   */
  function ComputeUsageCost(modelName: string, inputTokens: int, outputTokens: int, pricing: seq<PricingEntry>): (r: Costs)
    ensures var m := MatchPricingKey(modelName, pricing);
            pricing == [] || m.None? || m == Some([]) <==> r == Unpriced
    ensures r.key.Some? ==> r.key == MatchPricingKey(modelName, pricing) && r.key.value != []
    ensures r.key.Some? ==> r.input.Some? && r.output.Some? && r.total == Some(r.input.value + r.output.value)
    ensures r.key.Some? ==> EntryFor(pricing, r.key.value).Some?
    ensures r.key.Some? ==> r.input == Some(TokenCost(inputTokens, EntryFor(pricing, r.key.value).value.inputRate))
    ensures r.key.Some? ==> r.output == Some(TokenCost(outputTokens, EntryFor(pricing, r.key.value).value.outputRate))
  {
    if pricing == [] then Unpriced
    else
      var key := MatchPricingKey(modelName, pricing);
      if key.None? || key.value == [] then Unpriced
      else
        var entry := EntryFor(pricing, key.value);
        var inputRate := if entry.Some? then entry.value.inputRate else 0.0;
        var outputRate := if entry.Some? then entry.value.outputRate else 0.0;
        var costInput := TokenCost(inputTokens, inputRate);
        var costOutput := TokenCost(outputTokens, outputRate);
        Costs(Some(costInput), Some(costOutput), Some(costInput + costOutput), key)
  }

  // ----- extraction -----

  /**
   * The model name: the response's model when truthy, else the usage
   * payload's when truthy, else the default. `None` when the payload's
   * model is truthy but not text, which the details record refuses.
   */
  function ModelName(response: Response, usage: Dict, defaultModel: string): (r: Option<string>)
    ensures response.model.Some? && response.model.value != [] ==> r == response.model
  {
    if response.model.Some? && response.model.value != [] then response.model
    else
      var fromUsage := Get(usage, "model");
      if Truthy(fromUsage) then (if fromUsage.Str? then Some(fromUsage.s) else None)
      else Some(defaultModel)
  }

  /** `extract_usage_details`. */
  function ExtractUsageDetails(response: Response, defaultModel: string, requestType: string,
                               pricing: seq<PricingEntry>, parseInt: string -> Option<int>): Extraction
  {
    var usage := NormalizeUsageDict(response.usage);
    if usage.vals == map[] then NoUsage
    else
      var modelName := ModelName(response, usage, defaultModel);
      var inputTokens := TokenCount(Get(usage, "input_tokens"), parseInt);
      var outputTokens := TokenCount(Get(usage, "output_tokens"), parseInt);
      if modelName.None? || inputTokens.None? || outputTokens.None? then Raises
      else
        var totalRaw := if Has(usage, "total_tokens") then Get(usage, "total_tokens")
                        else Int(inputTokens.value + outputTokens.value);
        var totalTokens := TokenCount(totalRaw, parseInt);
        if totalTokens.None? then Raises
        else
          var costs := ComputeUsageCost(modelName.value, inputTokens.value, outputTokens.value, pricing);
          Extracted(UsageDetails(modelName.value, inputTokens.value, outputTokens.value, totalTokens.value,
                                 costs.input, costs.output, costs.total, costs.key, usage, requestType))
  }

  /** `embed_usage_metadata`'s usage record. */
  function UsageValue(u: UsageDetails): Value {
    Obj(FromEntriesAll(
      ["model", "input_tokens", "output_tokens", "total_tokens", "cost_input", "cost_output", "cost_total",
       "pricing_model", "currency", "request_type"],
      [Str(u.model), Int(u.inputTokens), Int(u.outputTokens), Int(u.totalTokens),
       RealOrNull(u.costInput), RealOrNull(u.costOutput), RealOrNull(u.costTotal),
       if u.pricingModel.Some? then Str(u.pricingModel.value) else Null, Str(Currency), Str(u.requestType)]))
  }

  /** A cost as stored: the number (its text is not modelled) or `None`. */
  function RealOrNull(x: Option<real>): Value {
    if x.Some? then Float(x.value, "") else Null
  }

  /** A dict literal: every key, `None` values included, in the order given. */
  function FromEntriesAll(ks: seq<string>, vs: seq<Value>): Dict
    requires |ks| == |vs|
    decreases |ks|
  {
    if ks == [] then Empty
    else
      var n := |ks| - 1;
      Put(FromEntriesAll(ks[..n], vs[..n]), ks[n], vs[n])
  }

  /** `embed_usage_metadata`: a copy of the payload with "usage" set. */
  function EmbedUsageMetadata(payload: Dict, usage: UsageDetails): (r: Dict)
  {
    Put(payload, "usage", UsageValue(usage))
  }

  // ----- properties -----

  /** A response without usage data gives no details, whatever else it carries. */
  lemma NoUsageData(response: Response, defaultModel: string, requestType: string,
                    pricing: seq<PricingEntry>, parseInt: string -> Option<int>)
    requires NormalizeUsageDict(response.usage).vals == map[]
    ensures ExtractUsageDetails(response, defaultModel, requestType, pricing, parseInt) == NoUsage
  {
  }

  /**
   * The details of a response with usage data: the model name falls back
   * from the response to the payload to the default, the total defaults to
   * input plus output when the payload has none, and the costs are those of
   * the pricing table.
   */
  lemma ExtractedDetails(response: Response, defaultModel: string, requestType: string,
                         pricing: seq<PricingEntry>, parseInt: string -> Option<int>)
    requires ExtractUsageDetails(response, defaultModel, requestType, pricing, parseInt).Extracted?
    ensures var u := NormalizeUsageDict(response.usage);
            var d := ExtractUsageDetails(response, defaultModel, requestType, pricing, parseInt).details;
            && u.vals != map[]
            && Some(d.model) == ModelName(response, u, defaultModel)
            && (!Truthy(Get(u, "model")) && (response.model.None? || response.model.value == []) ==> d.model == defaultModel)
            && Some(d.inputTokens) == TokenCount(Get(u, "input_tokens"), parseInt)
            && Some(d.outputTokens) == TokenCount(Get(u, "output_tokens"), parseInt)
            && (!Has(u, "total_tokens") ==> d.totalTokens == d.inputTokens + d.outputTokens)
            && Costs(d.costInput, d.costOutput, d.costTotal, d.pricingModel)
               == ComputeUsageCost(d.model, d.inputTokens, d.outputTokens, pricing)
            && d.rawUsage == u && d.requestType == requestType
  {
  }

  /** The pricing key found is a key of the table: the name itself or the first case-insensitive prefix of it. */
  lemma MatchPricingKeyFacts(modelName: string, pricing: seq<PricingEntry>)
    ensures var r := MatchPricingKey(modelName, pricing);
            && (modelName == [] ==> r.None?)
            && (modelName != [] && HasKey(pricing, modelName) ==> r == Some(modelName))
            && (r.Some? ==> HasKey(pricing, r.value))
            && (r.Some? && r.value != modelName ==>
                  exists k :: 0 <= k < |pricing| && pricing[k].key == r.value
                              && Text.StartsWith(Text.Lower(modelName), Text.Lower(pricing[k].key))
                              && forall j :: 0 <= j < k ==> !Text.StartsWith(Text.Lower(modelName), Text.Lower(pricing[j].key)))
            && (r.None? && modelName != [] ==>
                  !HasKey(pricing, modelName)
                  && forall j :: 0 <= j < |pricing| ==> !Text.StartsWith(Text.Lower(modelName), Text.Lower(pricing[j].key)))
  {
    if modelName != [] && !HasKey(pricing, modelName) {
      var k := PrefixMatch(Text.Lower(modelName), pricing, 0);
      if k < |pricing| {
        assert pricing[k].key == MatchPricingKey(modelName, pricing).value;
      }
    }
  }

  /** The first matching prefix wins even when a later key is a longer prefix. */
  lemma FirstPrefixNotLongest()
    ensures MatchPricingKey("gpt-4o-mini", [PricingEntry("gpt-4", 1.0, 2.0), PricingEntry("gpt-4o-mini", 3.0, 4.0)])
            == Some("gpt-4o-mini")
    ensures MatchPricingKey("gpt-4o-mini-2024", [PricingEntry("gpt-4", 1.0, 2.0), PricingEntry("gpt-4o-mini", 3.0, 4.0)])
            == Some("gpt-4")
  {
    var table := [PricingEntry("gpt-4", 1.0, 2.0), PricingEntry("gpt-4o-mini", 3.0, 4.0)];
    assert table[1].key == "gpt-4o-mini";
    assert HasKey(table, "gpt-4o-mini");
    var name := "gpt-4o-mini-2024";
    assert !HasKey(table, name) by {
      assert |table[0].key| != |name| && |table[1].key| != |name|;
    }
    assert Text.Lower(name) == name;
    assert Text.Lower(table[0].key) == table[0].key;
    assert Text.StartsWith(name, "gpt-4") by {
      assert name[..5] == "gpt-4";
    }
  }

  /** One million input tokens at 2.0 and half a million output tokens at 6.0 cost 2.0, 3.0 and 5.0. */
  lemma PricingExample(modelName: string, pricing: seq<PricingEntry>)
    requires pricing == [PricingEntry(modelName, 2.0, 6.0)] && modelName != []
    ensures ComputeUsageCost(modelName, 1000000, 500000, pricing) == Costs(Some(2.0), Some(3.0), Some(5.0), Some(modelName))
  {
    assert HasKey(pricing, modelName) by {
      assert pricing[0].key == modelName;
    }
  }

  /** A zero rate costs nothing and non-negative rates give non-negative costs. */
  lemma CostsAreNonNegative(modelName: string, inputTokens: nat, outputTokens: nat, pricing: seq<PricingEntry>)
    requires forall e :: e in pricing ==> e.inputRate >= 0.0 && e.outputRate >= 0.0
    ensures var c := ComputeUsageCost(modelName, inputTokens, outputTokens, pricing);
            c.key.Some? ==> c.input.value >= 0.0 && c.output.value >= 0.0 && c.total.value >= 0.0
  {
  }

  /** Embedding sets "usage" to the record and keeps every other key of the payload. */
  lemma EmbedUsageKeepsOthers(payload: Dict, usage: UsageDetails, k: string)
    ensures var r := EmbedUsageMetadata(payload, usage);
            && Get(r, "usage") == UsageValue(usage)
            && (k != "usage" ==> Get(r, k) == Get(payload, k) && (Has(r, k) <==> Has(payload, k)))
  {
  }
}
