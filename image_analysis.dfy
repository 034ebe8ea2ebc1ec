/**
 * Image analysis: `ImageAnalysisService` stores one image row per uploaded
 * picture, reads the vision model's reply into a summary and writes that
 * summary onto every row it stored; `ConversationImageRepository` keeps the
 * rows and turns a session's analysed images into context lines.
 * The call to the vision model is not part of this model: its reply is a
 * parameter, as are `json.loads`, `float(str)` and the text of a UUID.
 */
module ImageAnalysis {
  import opened Wrappers
  import opened Json
  import Text
  import opened Parsing
  import Store
  import ResponseParsing

  type Uuid = Store.Uuid

  // ----- `_coerce_json` -----

  /**
   * `_coerce_json` of the image service: `{}` for an empty text; otherwise
   * the fence-stripped text decoded, or failing that the `{...}` block found
   * inside it decoded, or failing both `{}`. The result need not be a dict.
   */
  function CoerceJson(text: string, decode: string -> Option<Value>): (r: Value)
    ensures text == [] ==> r == Obj(Empty)
    ensures text != [] && decode(StripCodeFence(text)).Some? ==> r == decode(StripCodeFence(text)).value
    ensures r == Obj(Empty) || decode(StripCodeFence(text)) == Some(r)
            || (ExtractJsonBlock(StripCodeFence(text)).Some? && decode(ExtractJsonBlock(StripCodeFence(text)).value) == Some(r))
  {
    if text == [] then Obj(Empty)
    else
      var snippet := StripCodeFence(text);
      match decode(snippet)
      case Some(v) => v
      case None =>
        match ExtractJsonBlock(snippet)
        case None => Obj(Empty)
        case Some(block) =>
          match decode(block)
          case Some(v) => v
          case None => Obj(Empty)
  }

  // ----- `_parse_summary` -----

  /** `ImageAnalysisSummary`. */
  datatype Summary = Summary(description: string, confidence: real, labelName: Option<string>, details: seq<string>)

  /** The `0.0` that `payload.get("confidence", 0.0)` falls back to. */
  const ZeroConfidence := Float(0.0, "0.0")

  /** `float(payload.get("confidence", 0.0))`, or 0.0 where `float` raises, clamped to [0, 1]. */
  function ConfidenceOf(p: Dict, parseFloat: string -> Option<real>): (r: real)
    ensures 0.0 <= r <= 1.0
    ensures !Has(p, "confidence") ==> r == 0.0
    ensures Has(p, "confidence") && FloatOf(p.vals["confidence"], parseFloat).None? ==> r == 0.0
    ensures Has(p, "confidence") && FloatOf(p.vals["confidence"], parseFloat).Some? ==>
              r == Clamp(FloatOf(p.vals["confidence"], parseFloat).value)
  {
    match FloatOf(GetOr(p, "confidence", ZeroConfidence), parseFloat)
    case Some(x) => Clamp(x)
    case None => 0.0
  }

  /** `label`: absent exactly when the value is `None` or "", otherwise the value as text. */
  function LabelOf(v: Value): (r: Option<string>)
    ensures r.None? <==> v == Null || v == Str("")
    ensures r.Some? ==> r.value == PyStr(v)
  {
    if v == Null || v == Str("") then None else Some(PyStr(v))
  }

  /** `details`: a non-empty list's items as text, a truthy scalar as text, otherwise nothing. */
  function DetailTexts(v: Value): (r: seq<string>)
    ensures v.List? ==> r == PyStrs(v.items)
    ensures !v.List? && Truthy(v) ==> r == [PyStr(v)]
    ensures !Truthy(v) ==> r == []
  {
    var value := if Truthy(v) then v else List([]);
    if value.List? then PyStrs(value.items)
    else if Truthy(value) then [PyStr(value)] else []
  }

  /**
   * What `_parse_summary` makes of the extracted text and its decoded
   * payload. A payload that is not a dict raises (`payload.get`); otherwise
   * the description is the payload's (when truthy) or the whole text,
   * stripped.
   */
  function SummaryOf(text: string, payload: Value, parseFloat: string -> Option<real>): (r: Outcome<Summary>)
    ensures r.Raised? <==> !payload.Obj?
    ensures r.Returned? ==> Text.IsStripped(r.value.description) && 0.0 <= r.value.confidence <= 1.0
    ensures r.Returned? && Truthy(Get(payload.d, "description")) ==> r.value.description == Text.Strip(PyStr(Get(payload.d, "description")))
    ensures r.Returned? && !Truthy(Get(payload.d, "description")) ==> r.value.description == Text.Strip(text)
  {
    if !payload.Obj? then Raised
    else
      var p := payload.d;
      var descriptionValue := Get(p, "description");
      var description := Text.Strip(if Truthy(descriptionValue) then PyStr(descriptionValue) else text);
      Returned(Summary(description, ConfidenceOf(p, parseFloat), LabelOf(Get(p, "label")), DetailTexts(Get(p, "details"))))
  }

  /** `_parse_summary`: the reply's text, its payload, then the summary. An empty reply gives the empty summary. */
  function ParseSummary(response: ModelResponse, decode: string -> Option<Value>, parseFloat: string -> Option<real>): (r: Outcome<Summary>)
    ensures r.Raised? <==> !CoerceJson(ExtractText(response), decode).Obj?
    ensures ExtractText(response) == [] ==> r == Returned(Summary([], 0.0, None, []))
  {
    var text := ExtractText(response);
    SummaryOf(text, CoerceJson(text, decode), parseFloat)
  }

  /** Texts as a JSON list of strings. */
  function Strs(ts: seq<string>): (r: seq<Value>)
    ensures |r| == |ts|
  {
    seq(|ts|, k requires 0 <= k < |ts| => Str(ts[k]))
  }

  /** Texts stored as a JSON list read back as the same texts. */
  lemma StrsText(ts: seq<string>)
    ensures PyStrs(Strs(ts)) == ts
  {
  }

  /** An optional label as JSON: `None` or the text. */
  function LabelValue(labelName: Option<string>): Value {
    if labelName.Some? then Str(labelName.value) else Null
  }

  /** The payload the instructions ask the vision model for, carrying a summary. */
  function WireSummary(s: Summary, floatText: real -> string): Value {
    Obj(Dict(["description", "confidence", "label", "details"],
             map["description" := Str(s.description),
                 "confidence" := Float(s.confidence, floatText(s.confidence)),
                 "label" := LabelValue(s.labelName),
                 "details" := List(Strs(s.details))]))
  }

  // ----- the image rows -----

  /** A `ConversationImage` row; `analysisMetadata` is the JSON column, which may hold any value. */
  datatype ImageRow = ImageRow(
    sessionId: Uuid,
    messageId: Option<Uuid>,
    storageUri: string,
    analysisText: Option<string>,
    analysisMetadata: Value)

  /** How many images `get_analysis_context` lists. */
  const ContextLimit := 500

  /** How many details a context line shows. */
  const DetailLimit := 4

  /** The ids (positions) of a session's rows, in creation order. */
  function SessionRowIds(rows: seq<ImageRow>, sessionId: Uuid): (r: seq<nat>)
    ensures forall k :: 0 <= k < |r| ==> r[k] < |rows|
    ensures forall p: nat :: p in r <==> p < |rows| && rows[p].sessionId == sessionId
    ensures forall i, j :: 0 <= i < j < |r| ==> r[i] < r[j]
    decreases |rows|
  {
    if rows == [] then []
    else
      var n := |rows| - 1;
      var prefix := SessionRowIds(rows[..n], sessionId);
      if rows[n].sessionId == sessionId then prefix + [n] else prefix
  }

  /** A session's rows in creation order: the rows at the session's ids, one by one. */
  function RowsOf(rows: seq<ImageRow>, sessionId: Uuid): (r: seq<ImageRow>)
    ensures |r| <= |rows|
    ensures forall k :: 0 <= k < |r| ==> r[k].sessionId == sessionId && r[k] in rows
    ensures |r| == |SessionRowIds(rows, sessionId)|
    ensures forall k :: 0 <= k < |r| ==> r[k] == rows[SessionRowIds(rows, sessionId)[k]]
    decreases |rows|
  {
    if rows == [] then []
    else
      var prefix := rows[..|rows| - 1];
      var last := rows[|rows| - 1];
      assert forall x :: x in prefix ==> x in rows;
      assert forall p :: 0 <= p < |prefix| ==> prefix[p] == rows[p];
      if last.sessionId == sessionId then RowsOf(prefix, sessionId) + [last] else RowsOf(prefix, sessionId)
  }

  /**
   * The key an image is deduplicated by: none when its analysis text is
   * missing or blank, else the stripped text lower-cased.
   */
  function KeyOf(img: ImageRow): (r: Option<string>)
    ensures r.Some? <==> img.analysisText.Some? && Text.Strip(img.analysisText.value) != []
  {
    if img.analysisText.None? then None
    else
      var text := Text.Strip(img.analysisText.value);
      if text == [] then None else Some(Text.Lower(text))
  }

  /** The `seen` set after a run of items: every key an item had. */
  function SeenKeys<T, K(==)>(xs: seq<T>, key: T -> Option<K>): (r: set<K>)
    decreases |xs|
  {
    if xs == [] then {}
    else
      var k := key(xs[|xs| - 1]);
      if k.Some? then SeenKeys(xs[..|xs| - 1], key) + {k.value} else SeenKeys(xs[..|xs| - 1], key)
  }

  /** The items a pass with a `seen` set keeps: each item with a key that no earlier item had. */
  function Kept<T, K(==)>(xs: seq<T>, key: T -> Option<K>): (r: seq<T>)
    ensures |r| <= |xs|
    decreases |xs|
  {
    if xs == [] then []
    else
      var prefix := xs[..|xs| - 1];
      var last := xs[|xs| - 1];
      var k := key(last);
      if k.Some? && k.value !in SeenKeys(prefix, key) then Kept(prefix, key) + [last] else Kept(prefix, key)
  }

  /** `[f(x) for x in xs]`. */
  function MapSeq<T, U>(xs: seq<T>, f: T -> U): (r: seq<U>)
    ensures |r| == |xs|
  {
    seq(|xs|, k requires 0 <= k < |xs| => f(xs[k]))
  }

  /**
   * The details of an image's metadata: a list's items as stripped text,
   * blanks dropped, or a non-blank string stripped; nothing for a metadata
   * value that is not a dict or a `details` entry of another type.
   */
  function DetailsOf(metadata: Value): (r: seq<string>)
    ensures forall k :: 0 <= k < |r| ==> |r[k]| > 0 && Text.IsStripped(r[k])
    ensures !metadata.Obj? ==> r == []
  {
    var raw := if metadata.Obj? then Get(metadata.d, "details") else Null;
    if raw.List? then CleanTexts(PyStrs(raw.items))
    else if raw.Str? && Text.Strip(raw.s) != [] then [Text.Strip(raw.s)]
    else []
  }

  /** The first `DetailLimit` details. */
  function Shown(details: seq<string>): (r: seq<string>)
    ensures |r| <= DetailLimit && |r| <= |details|
    ensures r == details[..|r|]
    ensures |details| <= DetailLimit ==> r == details
  {
    if |details| <= DetailLimit then details else details[..DetailLimit]
  }

  const DetailsOpen := " (Image details: "

  /**
   * One context line: the text alone when there are no details, otherwise
   * the text followed by the first four details joined by "; ", in parentheses.
   */
  function ContextLine(text: string, details: seq<string>): (r: string)
    ensures details == [] ==> r == text
    ensures details != [] ==> Text.StartsWith(r, text + DetailsOpen) && r[|r| - 1] == ')'
  {
    if details == [] then text
    else
      Text.StartsWithPrefix(text + DetailsOpen, Text.Join(Shown(details), "; ") + ")");
      text + DetailsOpen + Text.Join(Shown(details), "; ") + ")"
  }

  /** The context line of one kept image. */
  function LineOf(img: ImageRow): string {
    ContextLine(Text.Strip(img.analysisText.GetOr([])), DetailsOf(img.analysisMetadata))
  }

  /** What `get_analysis_context` returns for the listed images. */
  function AnalysisContext(images: seq<ImageRow>): (r: seq<string>)
    ensures |r| <= |images|
  {
    MapSeq(Kept(images, KeyOf), LineOf)
  }

  /** `ConversationImageRepository` over an in-memory table; a row's id is its position. */
  class ImageRepository {
    var rows: seq<ImageRow>

    constructor ()
      ensures rows == []
    {
      rows := [];
    }

    /** `create`: appends the row and returns its id. */
    method Create(row: ImageRow) returns (id: Uuid)
      modifies this
      ensures id == |old(rows)|
      ensures rows == old(rows) + [row]
    {
      id := |rows|;
      rows := rows + [row];
    }

    /** `update`: writes the row back under its id. */
    method Update(id: Uuid, row: ImageRow)
      requires id < |rows|
      modifies this
      ensures rows == old(rows)[id := row]
    {
      rows := rows[id := row];
    }

    /** `list_by_session`: the session's first `limit` rows in creation order. */
    function ListBySession(sessionId: Uuid, limit: nat): (r: seq<ImageRow>)
      reads this
      ensures |r| <= limit
      ensures forall k :: 0 <= k < |r| ==> r[k].sessionId == sessionId && r[k] in rows
      ensures var ids := SessionRowIds(rows, sessionId);
              |r| == (if |ids| <= limit then |ids| else limit)
              && forall k :: 0 <= k < |r| ==> r[k] == rows[ids[k]]
    {
      var all := RowsOf(rows, sessionId);
      if |all| <= limit then all else all[..limit]
    }

    /** `get_analysis_context`: the context lines of the session's first 500 images. */
    method GetAnalysisContext(sessionId: Uuid) returns (descriptions: seq<string>)
      ensures descriptions == AnalysisContext(ListBySession(sessionId, ContextLimit))
    {
      var images := ListBySession(sessionId, ContextLimit);
      descriptions := DescribeImages(images);
    }
  }

  /** The loop of `get_analysis_context`: one pass over the listed images with a `seen` set of keys. */
  method DescribeImages(images: seq<ImageRow>) returns (descriptions: seq<string>)
    ensures descriptions == AnalysisContext(images)
  {
    var seen: set<string> := {};
    descriptions := [];
    var i := 0;
    while i < |images|
      invariant 0 <= i <= |images|
      invariant seen == SeenKeys(images[..i], KeyOf)
      invariant descriptions == MapSeq(Kept(images[..i], KeyOf), LineOf)
    {
      var img := images[i];
      KeptStep(images, KeyOf, i);
      if img.analysisText.None? || img.analysisText.value == [] {
        i := i + 1;
        continue;
      }
      var text := Text.Strip(img.analysisText.value);
      if text == [] {
        i := i + 1;
        continue;
      }
      var key := Text.Lower(text);
      if key in seen {
        i := i + 1;
        continue;
      }
      seen := seen + {key};
      var details := DetailsOf(img.analysisMetadata);
      var line := if details != [] then text + DetailsOpen + Text.Join(Shown(details), "; ") + ")" else text;
      assert line == LineOf(img);
      MapSnoc(Kept(images[..i], KeyOf), LineOf, img);
      descriptions := descriptions + [line];
      i := i + 1;
    }
    assert images[..i] == images;
  }

  // ----- `ImageAnalysisService` -----

  /** `ImageAnalysisRequest`, without the mime hints, locale and prompt that only shape the model call. */
  datatype ImageRequest = ImageRequest(sessionId: Uuid, messageId: Option<Uuid>, imagesB64: seq<string>)

  /** An image as `_persist_images` hands it on: its id and the row object it stored. */
  datatype StoredImage = StoredImage(id: Uuid, row: ImageRow)

  /**
   * How `analyze_and_store` ends: a `ValueError` for no images, a
   * `RuntimeError` without an API key, an exception from `_parse_summary`
   * after the images were stored, or the response.
   */
  datatype AnalysisOutcome = EmptyImages | NoClient | SummaryFailed | Analyzed(imageIds: seq<Uuid>, summary: Summary)

  const InlineSource := "inline_base64"

  /** The storage uri of the image at `index`: "inline://<session>/<index>". */
  function StorageUri(sessionText: string, index: nat): string {
    "inline://" + sessionText + "/" + Text.NatToString(index)
  }

  /** The row `_persist_images` creates: no analysis yet, metadata `{"source": "inline_base64"}`. */
  function PendingRow(request: ImageRequest, sessionText: string, index: nat): ImageRow {
    ImageRow(request.sessionId, request.messageId, StorageUri(sessionText, index), None,
             Obj(Dict(["source"], map["source" := Str(InlineSource)])))
  }

  /** One pending row per image of the request, in order. */
  function PendingRows(request: ImageRequest, sessionText: string): (r: seq<ImageRow>)
    ensures |r| == |request.imagesB64|
  {
    seq(|request.imagesB64|, k requires 0 <= k < |request.imagesB64| => PendingRow(request, sessionText, k))
  }

  /** The metadata `_update_images_with_summary` writes: the summary's parts and the old "source". */
  function SummaryMetadata(s: Summary, source: Value, floatText: real -> string): Value {
    Obj(Dict(["confidence", "label", "details", "source"],
             map["confidence" := Float(s.confidence, floatText(s.confidence)),
                 "label" := LabelValue(s.labelName),
                 "details" := List(Strs(s.details)),
                 "source" := source]))
  }

  /** `metadata.get("source")` of a row's metadata (`None` when the metadata is not a dict). */
  function SourceOf(metadata: Value): Value {
    if metadata.Obj? then Get(metadata.d, "source") else Null
  }

  /** A row after `_update_images_with_summary`: the description as analysis text, the summary as metadata. */
  function WithSummary(row: ImageRow, s: Summary, floatText: real -> string): ImageRow {
    row.(analysisText := Some(s.description),
         analysisMetadata := SummaryMetadata(s, SourceOf(row.analysisMetadata), floatText))
  }

  /** The table after the stored images are written back one after another. */
  function WriteAll(rows: seq<ImageRow>, stored: seq<StoredImage>, s: Summary, floatText: real -> string): (r: seq<ImageRow>)
    requires forall k :: 0 <= k < |stored| ==> stored[k].id < |rows|
    ensures |r| == |rows|
    decreases |stored|
  {
    if stored == [] then rows
    else
      var last := stored[|stored| - 1];
      WriteAll(rows, stored[..|stored| - 1], s, floatText)[last.id := WithSummary(last.row, s, floatText)]
  }

  /** The pending rows with the summary written onto each. */
  function AnalyzedRows(pending: seq<ImageRow>, s: Summary, floatText: real -> string): (r: seq<ImageRow>)
    ensures |r| == |pending|
  {
    seq(|pending|, k requires 0 <= k < |pending| => WithSummary(pending[k], s, floatText))
  }

  /** The ids `base`, `base + 1`, ... of `n` rows appended to a table of `base` rows. */
  function NewIds(base: nat, n: nat): (r: seq<Uuid>)
    ensures |r| == n
  {
    seq(n, k requires 0 <= k < n => base + k)
  }

  /** `[image.id for image in stored_images]`. */
  function IdsOf(stored: seq<StoredImage>): (r: seq<Uuid>)
    ensures |r| == |stored|
  {
    seq(|stored|, k requires 0 <= k < |stored| => stored[k].id)
  }

  class ImageAnalysisService {
    const repo: ImageRepository
    /** Whether an API key was configured, so that an OpenAI client exists. */
    const hasClient: bool

    constructor (repo: ImageRepository, hasClient: bool)
      ensures this.repo == repo && this.hasClient == hasClient
    {
      this.repo := repo;
      this.hasClient := hasClient;
    }

    /** `_persist_images`: one created row per image, in order; the image data itself is not stored. */
    method PersistImages(request: ImageRequest, sessionText: string) returns (stored: seq<StoredImage>)
      modifies repo
      ensures repo.rows == old(repo.rows) + PendingRows(request, sessionText)
      ensures |stored| == |request.imagesB64|
      ensures forall k :: 0 <= k < |stored| ==>
                stored[k] == StoredImage(|old(repo.rows)| + k, PendingRow(request, sessionText, k))
    {
      stored := [];
      var index := 0;
      while index < |request.imagesB64|
        invariant 0 <= index <= |request.imagesB64|
        invariant repo.rows == old(repo.rows) + PendingRows(request, sessionText)[..index]
        invariant |stored| == index
        invariant forall k :: 0 <= k < index ==>
                    stored[k] == StoredImage(|old(repo.rows)| + k, PendingRow(request, sessionText, k))
      {
        var image := PendingRow(request, sessionText, index);
        var id := repo.Create(image);
        assert PendingRows(request, sessionText)[..index + 1] == PendingRows(request, sessionText)[..index] + [image];
        stored := stored + [StoredImage(id, image)];
        index := index + 1;
      }
      assert PendingRows(request, sessionText)[..index] == PendingRows(request, sessionText);
    }

    /** `_update_images_with_summary`: each stored image gets the summary and is written back. */
    method UpdateImagesWithSummary(stored: seq<StoredImage>, s: Summary, floatText: real -> string)
      requires forall k :: 0 <= k < |stored| ==> stored[k].id < |repo.rows| && stored[k].row.analysisMetadata.Obj?
      modifies repo
      ensures repo.rows == WriteAll(old(repo.rows), stored, s, floatText)
    {
      var i := 0;
      while i < |stored|
        invariant 0 <= i <= |stored|
        invariant repo.rows == WriteAll(old(repo.rows), stored[..i], s, floatText)
      {
        assert stored[..i + 1][..i] == stored[..i];
        var image := stored[i];
        var updated := image.row.(analysisText := Some(s.description),
                                  analysisMetadata := SummaryMetadata(s, Get(image.row.analysisMetadata.d, "source"), floatText));
        repo.Update(image.id, updated);
        i := i + 1;
      }
      assert stored[..i] == stored;
    }

    /**
     * `analyze_and_store`: refuses an empty request before anything is
     * stored, refuses without a client, then stores the images, reads the
     * summary and writes it onto every stored image.
     */
    method AnalyzeAndStore(request: ImageRequest, response: ModelResponse, decode: string -> Option<Value>,
                           parseFloat: string -> Option<real>, floatText: real -> string, uuidText: Uuid -> string)
      returns (outcome: AnalysisOutcome)
      modifies repo
      ensures outcome == EmptyImages <==> request.imagesB64 == []
      ensures outcome == NoClient <==> request.imagesB64 != [] && !hasClient
      ensures outcome.EmptyImages? || outcome.NoClient? ==> repo.rows == old(repo.rows)
      ensures outcome.SummaryFailed? <==>
                request.imagesB64 != [] && hasClient && ParseSummary(response, decode, parseFloat).Raised?
      ensures outcome.SummaryFailed? ==>
                repo.rows == old(repo.rows) + PendingRows(request, uuidText(request.sessionId))
      ensures outcome.Analyzed? ==>
                && outcome.summary == ParseSummary(response, decode, parseFloat).value
                && outcome.imageIds == NewIds(|old(repo.rows)|, |request.imagesB64|)
                && repo.rows == old(repo.rows) + AnalyzedRows(PendingRows(request, uuidText(request.sessionId)), outcome.summary, floatText)
    {
      if request.imagesB64 == [] {
        return EmptyImages;
      }
      if !hasClient {
        return NoClient;
      }
      ghost var base := repo.rows;
      var sessionText := uuidText(request.sessionId);
      var stored := PersistImages(request, sessionText);
      var summary := ParseSummary(response, decode, parseFloat);
      if summary.Raised? {
        return SummaryFailed;
      }
      UpdateImagesWithSummary(stored, summary.value, floatText);
      PersistThenWrite(base, request, sessionText, stored, summary.value, floatText);
      IdsOfAppended(stored, |base|);
      outcome := Analyzed(IdsOf(stored), summary.value);
    }
  }

  // ----- properties -----

  /** One step of the pass, on the seen set and on the kept items. */
  lemma KeptStep<T, K>(xs: seq<T>, key: T -> Option<K>, i: nat)
    requires i < |xs|
    ensures var k := key(xs[i]);
            && SeenKeys(xs[..i + 1], key) == (if k.Some? then SeenKeys(xs[..i], key) + {k.value} else SeenKeys(xs[..i], key))
            && Kept(xs[..i + 1], key) == (if k.Some? && k.value !in SeenKeys(xs[..i], key) then Kept(xs[..i], key) + [xs[i]] else Kept(xs[..i], key))
  {
    assert xs[..i + 1][..i] == xs[..i];
  }

  /** Mapping grows with its input. */
  lemma MapSnoc<T, U>(xs: seq<T>, f: T -> U, x: T)
    ensures MapSeq(xs + [x], f) == MapSeq(xs, f) + [f(x)]
  {
  }

  /** Processing more items only appends to the kept ones: the output keeps input order. */
  lemma {:induction false} KeptPrefix<T, K>(xs: seq<T>, key: T -> Option<K>, i: nat)
    requires i <= |xs|
    ensures |Kept(xs[..i], key)| <= |Kept(xs, key)|
    ensures Kept(xs[..i], key) == Kept(xs, key)[..|Kept(xs[..i], key)|]
    decreases |xs| - i
  {
    if i == |xs| {
      assert xs[..i] == xs;
    } else {
      var n := |xs| - 1;
      assert xs[..n][..i] == xs[..i];
      KeptPrefix(xs[..n], key, i);
      var small := Kept(xs[..i], key);
      var mid := Kept(xs[..n], key);
      assert Kept(xs, key)[..|mid|] == mid;
      assert Kept(xs, key)[..|small|] == mid[..|small|];
    }
  }

  /** Every kept item has a key, and it is in the seen set. */
  lemma {:induction false} KeptKeySeen<T, K>(xs: seq<T>, key: T -> Option<K>, j: nat)
    requires j < |Kept(xs, key)|
    ensures key(Kept(xs, key)[j]).Some? && key(Kept(xs, key)[j]).value in SeenKeys(xs, key)
    decreases |xs|
  {
    var n := |xs| - 1;
    var prefix := xs[..n];
    if j < |Kept(prefix, key)| {
      KeptKeySeen(prefix, key, j);
      assert Kept(xs, key)[j] == Kept(prefix, key)[j];
    }
  }

  /** No two kept items share a key. */
  lemma {:induction false} KeptDistinct<T, K>(xs: seq<T>, key: T -> Option<K>, a: nat, b: nat)
    requires a < b < |Kept(xs, key)|
    ensures key(Kept(xs, key)[a]) != key(Kept(xs, key)[b])
    decreases |xs|
  {
    var n := |xs| - 1;
    var prefix := xs[..n];
    var before := Kept(prefix, key);
    if b < |before| {
      KeptDistinct(prefix, key, a, b);
      assert Kept(xs, key)[a] == before[a] && Kept(xs, key)[b] == before[b];
    } else {
      assert Kept(xs, key)[b] == xs[n];
      KeptKeySeen(prefix, key, a);
      assert Kept(xs, key)[a] == before[a];
    }
  }

  /** A key in the seen set is the key of some item. */
  lemma {:induction false} SeenKeySource<T, K>(xs: seq<T>, key: T -> Option<K>, x: K) returns (k: nat)
    requires x in SeenKeys(xs, key)
    ensures k < |xs| && key(xs[k]) == Some(x)
    decreases |xs|
  {
    var n := |xs| - 1;
    var prefix := xs[..n];
    if x in SeenKeys(prefix, key) {
      k := SeenKeySource(prefix, key, x);
      assert xs[k] == prefix[k];
    } else {
      k := n;
    }
  }

  /** A key in the seen set is the key of a kept item. */
  lemma {:induction false} SeenKeyKept<T, K>(xs: seq<T>, key: T -> Option<K>, x: K) returns (j: nat)
    requires x in SeenKeys(xs, key)
    ensures j < |Kept(xs, key)| && key(Kept(xs, key)[j]) == Some(x)
    decreases |xs|
  {
    var n := |xs| - 1;
    var prefix := xs[..n];
    if x in SeenKeys(prefix, key) {
      j := SeenKeyKept(prefix, key, x);
      assert Kept(xs, key)[j] == Kept(prefix, key)[j];
    } else {
      j := |Kept(prefix, key)|;
    }
  }

  /** The seen set only grows. */
  lemma {:induction false} SeenKeysPrefix<T, K>(xs: seq<T>, key: T -> Option<K>, i: nat)
    requires i <= |xs|
    ensures SeenKeys(xs[..i], key) <= SeenKeys(xs, key)
    decreases |xs| - i
  {
    if i == |xs| {
      assert xs[..i] == xs;
    } else {
      var n := |xs| - 1;
      assert xs[..n][..i] == xs[..i];
      SeenKeysPrefix(xs[..n], key, i);
    }
  }

  /** Every item with a key is represented by a kept item with the same key: a dropped item is keyless or a duplicate. */
  lemma KeptCovers<T, K>(xs: seq<T>, key: T -> Option<K>, k: nat) returns (j: nat)
    requires k < |xs| && key(xs[k]).Some?
    ensures j < |Kept(xs, key)| && key(Kept(xs, key)[j]) == key(xs[k])
  {
    KeptStep(xs, key, k);
    SeenKeysPrefix(xs, key, k + 1);
    j := SeenKeyKept(xs, key, key(xs[k]).value);
  }

  /** The first item with a given key is the one kept. */
  lemma KeptFirst<T, K>(xs: seq<T>, key: T -> Option<K>, k: nat) returns (j: nat)
    requires k < |xs| && key(xs[k]).Some?
    requires forall i :: 0 <= i < k ==> key(xs[i]) != key(xs[k])
    ensures j < |Kept(xs, key)| && Kept(xs, key)[j] == xs[k]
  {
    if key(xs[k]).value in SeenKeys(xs[..k], key) {
      var i := SeenKeySource(xs[..k], key, key(xs[k]).value);
      assert false;
    }
    KeptStep(xs, key, k);
    KeptPrefix(xs, key, k + 1);
    j := |Kept(xs[..k], key)|;
  }

  /** Only the first four details reach the context line. */
  lemma DetailsBeyondFourIgnored(text: string, details: seq<string>, extra: seq<string>)
    requires |details| >= DetailLimit
    ensures ContextLine(text, details + extra) == ContextLine(text, details)
  {
    assert (details + extra)[..DetailLimit] == details[..DetailLimit];
  }

  /** A summary written in the expected payload shape reads back unchanged. */
  lemma SummaryRoundTrip(s: Summary, text: string, floatText: real -> string, parseFloat: string -> Option<real>)
    requires s.description != [] && Text.IsStripped(s.description)
    requires 0.0 <= s.confidence <= 1.0
    requires s.labelName != Some([])
    ensures SummaryOf(text, WireSummary(s, floatText), parseFloat) == Returned(s)
  {
    var p := WireSummary(s, floatText).d;
    assert Get(p, "description") == Str(s.description);
    assert Truthy(Str(s.description)) && PyStr(Str(s.description)) == s.description;
    assert Text.Strip(s.description) == s.description;
    assert ConfidenceOf(p, parseFloat) == s.confidence by {
      assert p.vals["confidence"] == Float(s.confidence, floatText(s.confidence));
    }
    assert LabelOf(Get(p, "label")) == s.labelName by {
      assert Get(p, "label") == LabelValue(s.labelName);
    }
    assert DetailTexts(Get(p, "details")) == s.details by {
      assert Get(p, "details") == List(Strs(s.details));
      StrsText(s.details);
    }
  }

  /** A stripped text that does not open with a fence passes `_strip_code_fence` unchanged. */
  lemma UnfencedKept(text: string)
    requires Text.IsStripped(text) && !Text.StartsWith(text, Fence)
    ensures StripCodeFence(text) == text
  {
    assert Text.Strip(text) == text;
  }

  /**
   * The image service accepts a reply with prose around the JSON object,
   * which the reply service's `_coerce_json` turns into `{}`.
   */
  lemma CoerceJsonFindsEmbeddedObject(prefix: string, block: string, suffix: string, v: Value, decode: string -> Option<Value>)
    requires 2 <= |block| && block[0] == '{' && block[|block| - 1] == '}'
    requires forall j :: 0 <= j < |prefix| ==> prefix[j] != '{'
    requires forall j :: 0 <= j < |suffix| ==> suffix[j] != '}'
    requires Text.IsStripped(prefix + block + suffix) && !Text.StartsWith(prefix + block + suffix, Fence)
    requires decode(prefix + block + suffix).None? && decode(block) == Some(v)
    ensures CoerceJson(prefix + block + suffix, decode) == v
    ensures ResponseParsing.CoerceJson(prefix + block + suffix, decode) == Obj(Empty)
  {
    var text := prefix + block + suffix;
    UnfencedKept(text);
    ExtractJsonBlockEmbedded(prefix, block, suffix);
    assert text != [];
  }

  /** Where the first decode succeeds, both services' `_coerce_json` agree. */
  lemma CoerceJsonAgrees(text: string, decode: string -> Option<Value>)
    requires text == [] || decode(StripCodeFence(text)).Some?
    ensures CoerceJson(text, decode) == ResponseParsing.CoerceJson(text, decode)
  {
  }

  /** The digits of a number determine it. */
  lemma {:induction false} NatToStringInjective(m: nat, n: nat)
    requires Text.NatToString(m) == Text.NatToString(n)
    ensures m == n
    decreases m
  {
    var sm := Text.NatToString(m);
    var sn := Text.NatToString(n);
    assert sm[|sm| - 1] == '0' + (m % 10) as char;
    assert sn[|sn| - 1] == '0' + (n % 10) as char;
    if m >= 10 && n >= 10 {
      assert Text.NatToString(m / 10) == sm[..|sm| - 1];
      assert Text.NatToString(n / 10) == sn[..|sn| - 1];
      NatToStringInjective(m / 10, n / 10);
    }
  }

  /** Different images of a request get different storage uris. */
  lemma StorageUrisDistinct(sessionText: string, i: nat, j: nat)
    requires i != j
    ensures StorageUri(sessionText, i) != StorageUri(sessionText, j)
  {
    var p := "inline://" + sessionText + "/";
    if StorageUri(sessionText, i) == StorageUri(sessionText, j) {
      assert Text.NatToString(i) == StorageUri(sessionText, i)[|p|..];
      assert Text.NatToString(j) == StorageUri(sessionText, j)[|p|..];
      NatToStringInjective(i, j);
    }
  }

  /** Images stored one after another on a table of `base` rows have the next ids in turn. */
  lemma IdsOfAppended(stored: seq<StoredImage>, base: nat)
    requires forall k :: 0 <= k < |stored| ==> stored[k].id == base + k
    ensures IdsOf(stored) == NewIds(base, |stored|)
  {
  }

  /** Writing the summary onto rows just appended yields the appended rows analysed. */
  lemma {:induction false} WriteAllAppended(base: seq<ImageRow>, pending: seq<ImageRow>, stored: seq<StoredImage>, s: Summary, floatText: real -> string)
    requires |stored| <= |pending|
    requires forall k :: 0 <= k < |stored| ==> stored[k] == StoredImage(|base| + k, pending[k])
    ensures forall k :: 0 <= k < |stored| ==> stored[k].id < |base + pending|
    ensures var r := WriteAll(base + pending, stored, s, floatText);
            && (forall k :: 0 <= k < |base| ==> r[k] == base[k])
            && (forall k :: 0 <= k < |stored| ==> r[|base| + k] == WithSummary(pending[k], s, floatText))
            && (forall k :: |stored| <= k < |pending| ==> r[|base| + k] == pending[k])
    decreases |stored|
  {
    if stored != [] {
      var n := |stored| - 1;
      WriteAllAppended(base, pending, stored[..n], s, floatText);
    }
  }

  /** What `analyze_and_store` leaves in the table once the summary is written. */
  lemma PersistThenWrite(base: seq<ImageRow>, request: ImageRequest, sessionText: string,
                         stored: seq<StoredImage>, s: Summary, floatText: real -> string)
    requires |stored| == |request.imagesB64|
    requires forall k :: 0 <= k < |stored| ==> stored[k] == StoredImage(|base| + k, PendingRow(request, sessionText, k))
    ensures forall k :: 0 <= k < |stored| ==> stored[k].id < |base + PendingRows(request, sessionText)|
    ensures WriteAll(base + PendingRows(request, sessionText), stored, s, floatText)
            == base + AnalyzedRows(PendingRows(request, sessionText), s, floatText)
  {
    var pending := PendingRows(request, sessionText);
    WriteAllAppended(base, pending, stored, s, floatText);
    var r := WriteAll(base + pending, stored, s, floatText);
    var expected := base + AnalyzedRows(pending, s, floatText);
    assert forall k :: 0 <= k < |r| ==> r[k] == expected[k] by {
      forall k | 0 <= k < |r| ensures r[k] == expected[k] {
        if k >= |base| {
          assert r[|base| + (k - |base|)] == WithSummary(pending[k - |base|], s, floatText);
        }
      }
    }
  }

  /** Every analysed image carries the same description and keeps its "inline_base64" source. */
  lemma AnalyzedRowsShareSummary(request: ImageRequest, sessionText: string, s: Summary, floatText: real -> string, k: nat)
    requires k < |request.imagesB64|
    ensures var row := AnalyzedRows(PendingRows(request, sessionText), s, floatText)[k];
            && row.analysisText == Some(s.description)
            && row.storageUri == StorageUri(sessionText, k)
            && Get(row.analysisMetadata.d, "source") == Str(InlineSource)
            && Get(row.analysisMetadata.d, "details") == List(Strs(s.details))
  {
  }

  /** The context line of an analysed image: its description and its first non-blank details. */
  lemma AnalyzedLine(row: ImageRow, s: Summary, floatText: real -> string)
    ensures LineOf(WithSummary(row, s, floatText)) == ContextLine(Text.Strip(s.description), CleanTexts(s.details))
  {
    var meta := WithSummary(row, s, floatText).analysisMetadata;
    assert Get(meta.d, "details") == List(Strs(s.details));
    StrsText(s.details);
  }
}
