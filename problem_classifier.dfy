/**
 * `ProblemClassifierService`: the older classifier. The model's payload is
 * mapped onto the troubleshooting catalog (category by slug, then a cause
 * of that category by slug), at most two distinct follow-up questions are
 * kept, and the outcome is written as the session's problem state. The
 * repositories' rows and the model call are inputs.
 */
module ProblemClassifier {
  import opened Wrappers
  import Text
  import opened Store
  import opened Troubleshooting
  import opened Parsing
  import opened Lookup
  import opened ConversationContext

  const ClassificationSource := "openai_responses_v1"
  const NoTextLine := "<no textual input provided>"
  const EventsHeader := "\nRecent conversation events:"
  const CausesPrefix := "  Causes: "
  const MaxQuestions := 2
  const MaxEvents := 8
  const HintLength := 80

  /** A `ProblemCause` row as the classifier reads it. */
  datatype CauseRow = CauseRow(
    id: Uuid, categoryId: Uuid, slug: string, name: string,
    description: Option<string>, detectionHints: Option<seq<string>>)

  /** `_CatalogEntry`: a category and the causes listed for it. */
  datatype CatalogEntry = CatalogEntry(category: CategoryView, causes: seq<CauseRow>)

  /** `ClassificationPayload`: the model's structured answer. */
  datatype ClassificationPayload = ClassificationPayload(
    categorySlug: Option<string>,
    causeSlug: Option<string>,
    nextQuestions: seq<string>,
    confidence: Option<real>,
    rationale: Option<string>,
    escalate: bool,
    escalateReason: Option<string>,
    needsMoreInfo: bool)

  /** `ProblemClassificationRequest`. */
  datatype ClassificationRequest = ClassificationRequest(sessionId: Uuid, locale: string, userText: string, context: AiContext)

  // ---------------------------------------------------------------------
  // `_load_catalog`
  // ---------------------------------------------------------------------

  /** Every listed category with the causes listed for its id, in order. */
  method LoadCatalog(categories: seq<CategoryView>, causesOf: Uuid -> seq<CauseRow>) returns (catalog: seq<CatalogEntry>)
    ensures |catalog| == |categories|
    ensures forall i :: 0 <= i < |catalog| ==> catalog[i] == CatalogEntry(categories[i], causesOf(categories[i].id))
  {
    catalog := [];
    var i := 0;
    while i < |categories|
      invariant i <= |categories| && |catalog| == i
      invariant forall j :: 0 <= j < i ==> catalog[j] == CatalogEntry(categories[j], causesOf(categories[j].id))
    {
      catalog := catalog + [CatalogEntry(categories[i], causesOf(categories[i].id))];
      i := i + 1;
    }
  }

  // ---------------------------------------------------------------------
  // `_select_follow_up_questions`
  // ---------------------------------------------------------------------

  /*
   * The selection is written once over a cleaning function (`str.strip`)
   * and a folding function (`str.lower`), so that its lemmas reason about
   * the loop's structure rather than about the two string functions.
   */

  /** The folded questions: the `seen` set. */
  function Folded(questions: seq<string>, fold: string -> string): set<string> {
    set q | q in questions :: fold(q)
  }

  /**
   * One item of the loop: an empty item, one that cleans to nothing, or one
   * whose folded form was seen is skipped; nothing is added once two are kept.
   */
  function Step(q: seq<string>, item: string, clean: string -> string, fold: string -> string): seq<string> {
    var text := clean(item);
    if |q| >= MaxQuestions || item == [] || text == [] || fold(text) in Folded(q, fold) then q
    else q + [text]
  }

  /** The questions kept from `raw`, item by item. */
  function Kept(raw: seq<string>, clean: string -> string, fold: string -> string): seq<string>
    decreases |raw|
  {
    if raw == [] then [] else Step(Kept(raw[..|raw| - 1], clean, fold), raw[|raw| - 1], clean, fold)
  }

  /** The questions `_select_follow_up_questions` keeps. */
  function Selected(raw: seq<string>): seq<string> {
    Kept(raw, Text.Strip, Text.Lower)
  }

  /** At most two are kept, none empty, each the cleaned form of an item. */
  lemma {:induction false} KeptFromItems(raw: seq<string>, clean: string -> string, fold: string -> string)
    ensures |Kept(raw, clean, fold)| <= MaxQuestions
    ensures forall i :: 0 <= i < |Kept(raw, clean, fold)| ==>
      Kept(raw, clean, fold)[i] != [] && exists k :: 0 <= k < |raw| && Kept(raw, clean, fold)[i] == clean(raw[k])
    decreases |raw|
  {
    if raw != [] {
      var n := |raw| - 1;
      var q := Kept(raw[..n], clean, fold);
      KeptFromItems(raw[..n], clean, fold);
      var sel := Kept(raw, clean, fold);
      forall i | 0 <= i < |sel|
        ensures sel[i] != [] && exists k :: 0 <= k < |raw| && sel[i] == clean(raw[k])
      {
        if i < |q| {
          assert sel[i] == q[i];
          var k :| 0 <= k < n && q[i] == clean(raw[..n][k]);
          assert raw[..n][k] == raw[k];
        } else {
          assert sel[i] == clean(raw[n]);
        }
      }
    }
  }

  /** The kept questions differ pairwise after folding. */
  lemma {:induction false} KeptDistinct(raw: seq<string>, clean: string -> string, fold: string -> string)
    ensures forall i, j :: 0 <= i < j < |Kept(raw, clean, fold)| ==>
      fold(Kept(raw, clean, fold)[i]) != fold(Kept(raw, clean, fold)[j])
    decreases |raw|
  {
    if raw != [] {
      var n := |raw| - 1;
      var q := Kept(raw[..n], clean, fold);
      KeptDistinct(raw[..n], clean, fold);
      var sel := Kept(raw, clean, fold);
      if sel != q {
        var text := clean(raw[n]);
        assert sel == q + [text];
        forall i, j | 0 <= i < j < |sel|
          ensures fold(sel[i]) != fold(sel[j])
        {
          assert sel[i] == q[i];
          if j == |q| {
            assert q[i] in q && sel[j] == text;
          }
        }
      }
    }
  }

  /** Once two questions are kept, later items change nothing. */
  lemma {:induction false} KeptSaturated(xs: seq<string>, ys: seq<string>, clean: string -> string, fold: string -> string)
    requires |Kept(xs, clean, fold)| >= MaxQuestions
    ensures Kept(xs + ys, clean, fold) == Kept(xs, clean, fold)
    decreases |ys|
  {
    if ys == [] {
      assert xs + ys == xs;
    } else {
      var m := |ys| - 1;
      assert (xs + ys)[..|xs + ys| - 1] == xs + ys[..m];
      KeptSaturated(xs, ys[..m], clean, fold);
    }
  }

  /** Kept questions stay kept, in order: the selection of a prefix is a prefix of the selection. */
  lemma {:induction false} KeptGrows(raw: seq<string>, n: nat, clean: string -> string, fold: string -> string)
    requires n <= |raw|
    ensures |Kept(raw[..n], clean, fold)| <= |Kept(raw, clean, fold)|
    ensures Kept(raw[..n], clean, fold) == Kept(raw, clean, fold)[..|Kept(raw[..n], clean, fold)|]
    decreases |raw| - n
  {
    if n < |raw| {
      var m := |raw| - 1;
      assert raw[..m][..n] == raw[..n];
      KeptGrows(raw[..m], n, clean, fold);
    } else {
      assert raw[..n] == raw;
    }
  }

  /**
   * While fewer than two questions are kept, every item that cleans to a
   * non-empty text is kept up to folding: only repeats are lost.
   */
  lemma {:induction false} KeptComplete(raw: seq<string>, k: nat, clean: string -> string, fold: string -> string)
    requires k < |raw| && raw[k] != [] && clean(raw[k]) != []
    requires |Kept(raw, clean, fold)| < MaxQuestions
    ensures fold(clean(raw[k])) in Folded(Kept(raw, clean, fold), fold)
    decreases |raw|
  {
    var n := |raw| - 1;
    var q := Kept(raw[..n], clean, fold);
    var sel := Kept(raw, clean, fold);
    assert Folded(q, fold) <= Folded(sel, fold) by {
      assert sel == q || sel == q + [clean(raw[n])];
    }
    if k < n {
      assert raw[..n][k] == raw[k];
      KeptComplete(raw[..n], k, clean, fold);
    } else if sel != q {
      assert sel[|q|] == clean(raw[n]);
    }
  }

  /**
   * `_select_follow_up_questions`: at most two questions, each stripped, not
   * empty and the stripped form of an item, pairwise distinct up to case;
   * while fewer than two are kept, every non-blank item is among them up to
   * case.
   */
  lemma SelectedShape(raw: seq<string>)
    ensures |Selected(raw)| <= MaxQuestions
    ensures forall i :: 0 <= i < |Selected(raw)| ==>
      Selected(raw)[i] != [] && Text.IsStripped(Selected(raw)[i])
      && exists k :: 0 <= k < |raw| && Selected(raw)[i] == Text.Strip(raw[k])
    ensures forall i, j :: 0 <= i < j < |Selected(raw)| ==> Text.Lower(Selected(raw)[i]) != Text.Lower(Selected(raw)[j])
    ensures |Selected(raw)| < MaxQuestions ==>
      forall k :: 0 <= k < |raw| && !Text.IsBlank(raw[k]) ==>
        exists i :: 0 <= i < |Selected(raw)| && Text.Lower(Selected(raw)[i]) == Text.Lower(Text.Strip(raw[k]))
  {
    KeptFromItems(raw, Text.Strip, Text.Lower);
    KeptDistinct(raw, Text.Strip, Text.Lower);
    var sel := Selected(raw);
    if |sel| < MaxQuestions {
      forall k | 0 <= k < |raw| && !Text.IsBlank(raw[k])
        ensures exists i :: 0 <= i < |sel| && Text.Lower(sel[i]) == Text.Lower(Text.Strip(raw[k]))
      {
        KeptComplete(raw, k, Text.Strip, Text.Lower);
        var x :| x in sel && Text.Lower(x) == Text.Lower(Text.Strip(raw[k]));
      }
    }
  }

  /** The source's loop, with its `seen` set and `break`, over the cleaning and folding functions. */
  method KeepLoop(raw: seq<string>, clean: string -> string, fold: string -> string) returns (questions: seq<string>)
    ensures questions == Kept(raw, clean, fold)
  {
    questions := [];
    var seen: set<string> := {};
    var i := 0;
    while i < |raw|
      invariant i <= |raw|
      invariant questions == Kept(raw[..i], clean, fold)
      invariant seen == Folded(questions, fold)
      invariant |questions| < MaxQuestions
    {
      assert raw[..i + 1][..i] == raw[..i];
      var item := raw[i];
      if item != [] {
        var text := clean(item);
        if text != [] {
          var folded := fold(text);
          if folded !in seen {
            seen := seen + {folded};
            questions := questions + [text];
            if |questions| >= MaxQuestions {
              KeptSaturated(raw[..i + 1], raw[i + 1..], clean, fold);
              assert raw[..i + 1] + raw[i + 1..] == raw;
              return;
            }
          }
        }
      }
      i := i + 1;
    }
    assert raw[..i] == raw;
  }

  /** `_select_follow_up_questions`: `str.strip` cleans, `str.lower` folds. */
  method SelectFollowUpQuestions(raw: seq<string>) returns (questions: seq<string>)
    ensures questions == Selected(raw)
  {
    questions := KeepLoop(raw, Text.Strip, Text.Lower);
  }

  // ---------------------------------------------------------------------
  // `_map_result`
  // ---------------------------------------------------------------------

  function EntrySlug(e: CatalogEntry): string { e.category.slug }

  function EntryId(e: CatalogEntry): Uuid { e.category.id }

  function CauseSlug(c: CauseRow): string { c.slug }

  /** The category the payload's stripped slug names: the last catalog entry with it. */
  function MatchedCategory(p: ClassificationPayload, catalog: seq<CatalogEntry>): (r: Option<nat>)
    ensures r.Some? ==> Filled(p.categorySlug) && r.value < |catalog|
                        && catalog[r.value].category.slug == Text.Strip(p.categorySlug.value)
    ensures r.Some? ==> forall j :: r.value < j < |catalog| ==> catalog[j].category.slug != Text.Strip(p.categorySlug.value)
    ensures r.None? && Filled(p.categorySlug) ==>
      forall j :: 0 <= j < |catalog| ==> catalog[j].category.slug != Text.Strip(p.categorySlug.value)
  {
    if Filled(p.categorySlug) then LastWith(catalog, EntrySlug, Text.Strip(p.categorySlug.value)) else None
  }

  /**
   * The cause: looked up, by stripped slug, among the causes of the FIRST
   * entry whose category id is the matched category's; the last cause with
   * that slug wins.
   */
  function MatchedCause(p: ClassificationPayload, catalog: seq<CatalogEntry>): (r: Option<CauseRow>)
    ensures r.Some? ==> MatchedCategory(p, catalog).Some? && Filled(p.causeSlug)
                        && r.value.slug == Text.Strip(p.causeSlug.value)
  {
    match MatchedCategory(p, catalog)
    case None => None
    case Some(c) =>
      if !Filled(p.causeSlug) then None
      else
        match FirstWith(catalog, EntryId, catalog[c].category.id)
        case None => None
        case Some(e) =>
          match LastWith(catalog[e].causes, CauseSlug, Text.Strip(p.causeSlug.value))
          case None => None
          case Some(k) => Some(catalog[e].causes[k])
  }

  function CauseViewOf(c: CauseRow): CauseView {
    CauseView(c.id, c.categoryId, c.slug, c.name, c.description)
  }

  /** `_map_result`. */
  function ResultOf(p: ClassificationPayload, catalog: seq<CatalogEntry>): Classification {
    var category := MatchedCategory(p, catalog);
    var cause := MatchedCause(p, catalog);
    Classification(
      if category.Some? then Some(catalog[category.value].category) else None,
      if cause.Some? then Some(CauseViewOf(cause.value)) else None,
      p.confidence, p.rationale, p.escalate, p.escalateReason,
      p.needsMoreInfo || p.nextQuestions != [],
      Selected(p.nextQuestions),
      None)
  }

  /**
   * The result copies the payload's scalar fields, asks for more information
   * whenever the model set the flag or asked anything, and carries the
   * selected questions; no request type is set.
   */
  lemma ResultCopiesPayload(p: ClassificationPayload, catalog: seq<CatalogEntry>)
    ensures var r := ResultOf(p, catalog);
      && r.confidence == p.confidence && r.rationale == p.rationale
      && r.escalate == p.escalate && r.escalateReason == p.escalateReason
      && (r.needsMoreInfo <==> p.needsMoreInfo || |p.nextQuestions| > 0)
      && r.nextQuestions == Selected(p.nextQuestions) && r.requestType.None?
  {
  }

  /**
   * The category is set exactly when the stripped slug names a catalog
   * category, and then it is the last one listed with that slug; a cause is
   * set only together with a category and carries the stripped cause slug.
   */
  lemma ResultResolves(p: ClassificationPayload, catalog: seq<CatalogEntry>)
    ensures var r := ResultOf(p, catalog);
      && (r.category.Some? <==>
            Filled(p.categorySlug)
            && exists i :: 0 <= i < |catalog| && catalog[i].category.slug == Text.Strip(p.categorySlug.value))
      && (r.category.Some? ==>
            exists i :: 0 <= i < |catalog| && r.category.value == catalog[i].category
                        && forall j :: i < j < |catalog| ==> catalog[j].category.slug != r.category.value.slug)
      && (r.cause.Some? ==> r.category.Some? && r.cause.value.slug == Text.Strip(p.causeSlug.value))
      && (!Filled(p.causeSlug) ==> r.cause.None?)
  {
    var r := ResultOf(p, catalog);
    if r.category.Some? {
      var i := MatchedCategory(p, catalog).value;
      assert r.category.value == catalog[i].category;
    }
  }

  /**
   * With category ids distinct across the catalog, the cause found is one of
   * the causes listed with the matched category, and it is found whenever
   * that category lists a cause with the slug.
   */
  lemma CauseWithinCategory(p: ClassificationPayload, catalog: seq<CatalogEntry>)
    requires forall i, j :: 0 <= i < j < |catalog| ==> catalog[i].category.id != catalog[j].category.id
    requires MatchedCategory(p, catalog).Some? && Filled(p.causeSlug)
    ensures var c := MatchedCategory(p, catalog).value;
      && (MatchedCause(p, catalog).Some? ==> MatchedCause(p, catalog).value in catalog[c].causes)
      && (MatchedCause(p, catalog).Some? <==>
            exists k :: 0 <= k < |catalog[c].causes| && catalog[c].causes[k].slug == Text.Strip(p.causeSlug.value))
  {
    var c := MatchedCategory(p, catalog).value;
    var e := FirstWith(catalog, EntryId, catalog[c].category.id);
    assert e.Some? && e.value == c;
  }

  /** The loop over the catalog for the entry of the matched category, then its cause by slug. */
  method FindCause(p: ClassificationPayload, catalog: seq<CatalogEntry>, category: Option<nat>) returns (cause: Option<CauseRow>)
    requires category == MatchedCategory(p, catalog)
    ensures cause == MatchedCause(p, catalog)
  {
    cause := None;
    if category.Some? && Filled(p.causeSlug) {
      var e := FindFirst(catalog, EntryId, catalog[category.value].category.id);
      if e < |catalog| {
        var k := LastWith(catalog[e].causes, CauseSlug, Text.Strip(p.causeSlug.value));
        if k.Some? {
          cause := Some(catalog[e].causes[k.value]);
        }
      }
    }
  }

  /** `_map_result`: the category by slug, its cause, and the payload's other fields. */
  method MapResult(p: ClassificationPayload, catalog: seq<CatalogEntry>) returns (r: Classification)
    ensures r == ResultOf(p, catalog)
  {
    var category := MatchedCategory(p, catalog);
    var cause := FindCause(p, catalog, category);
    var questions := SelectFollowUpQuestions(p.nextQuestions);
    r := Classification(
      if category.Some? then Some(catalog[category.value].category) else None,
      if cause.Some? then Some(CauseViewOf(cause.value)) else None,
      p.confidence, p.rationale, p.escalate, p.escalateReason,
      p.needsMoreInfo || p.nextQuestions != [],
      questions,
      None);
  }

  /** A payload whose only question is blank still asks for more information, with no question kept. */
  lemma BlankQuestionStillNeedsInfo(p: ClassificationPayload, catalog: seq<CatalogEntry>)
    requires p.nextQuestions == [" "] && !p.needsMoreInfo
    ensures ResultOf(p, catalog).needsMoreInfo && ResultOf(p, catalog).nextQuestions == []
  {
    assert Text.Strip(" ") == [] by {
      assert Text.LStrip(" ") == Text.LStrip(" "[1..]);
    }
    assert [" "][..0] == [];
  }

  // ---------------------------------------------------------------------
  // `_persist_session_state`
  // ---------------------------------------------------------------------

  /** The row written for a result: both ids may be absent, which clears them. */
  function StateRow(result: Classification): (row: ProblemState)
    ensures row.categoryId.Some? <==> result.category.Some?
    ensures row.causeId.Some? <==> result.cause.Some?
    ensures result.category.Some? ==> row.categoryId == Some(result.category.value.id)
    ensures result.cause.Some? ==> row.causeId == Some(result.cause.value.id)
    ensures row.confidence == result.confidence && row.source == Some(ClassificationSource) && !row.manualOverride
  {
    ProblemState(
      if result.category.Some? then Some(result.category.value.id) else None,
      if result.cause.Some? then Some(result.cause.value.id) else None,
      result.confidence, Some(ClassificationSource), false)
  }

  /** `_persist_session_state`: one upsert; a failing repository is swallowed and changes nothing. */
  method PersistSessionState(store: ProblemStateStore, sessionId: Uuid, result: Classification, fails: bool)
    modifies store
    ensures store.states == if fails then old(store.states) else old(store.states)[sessionId := StateRow(result)]
  {
    if !fails {
      store.Upsert(sessionId, StateRow(result));
    }
  }

  // ---------------------------------------------------------------------
  // Prompt blocks
  // ---------------------------------------------------------------------

  /** `description.split(".")[0]`: the text before the first full stop. */
  function FirstSentence(s: string): (r: string)
    ensures '.' !in r
    ensures Text.StartsWith(s, r)
  {
    var i := Text.FindChar(s, '.');
    if i < 0 then s else s[..i]
  }

  /** The hint shown after a cause's slug: its detection hints, else its description's first sentence. */
  function CauseHint(c: CauseRow): string {
    var hint := Text.Join(if c.detectionHints.Some? then c.detectionHints.value else [], "; ");
    if hint == [] && Filled(c.description) then
      var summary := Text.Strip(FirstSentence(c.description.value));
      if summary == [] then ""
      else if |summary| > HintLength then summary[..HintLength] + "..."
      else summary
    else hint
  }

  /**
   * Detection hints come first; a hint from the description has no full
   * stop of its own, is at most 80 characters plus an ellipsis, and is cut
   * only when the sentence is longer than 80.
   */
  lemma CauseHintShape(c: CauseRow)
    ensures var hints := Text.Join(if c.detectionHints.Some? then c.detectionHints.value else [], "; ");
      && (hints != [] ==> CauseHint(c) == hints)
      && (hints == [] && !Filled(c.description) ==> CauseHint(c) == [])
      && (hints == [] && Filled(c.description) ==>
            var summary := Text.Strip(FirstSentence(c.description.value));
            && |CauseHint(c)| <= HintLength + 3
            && (|summary| <= HintLength ==> CauseHint(c) == summary)
            && (|summary| > HintLength ==> CauseHint(c) == summary[..HintLength] + "...")
            && forall i :: 0 <= i < |CauseHint(c)| && i < HintLength ==> CauseHint(c)[i] != '.')
  {
    var hints := Text.Join(if c.detectionHints.Some? then c.detectionHints.value else [], "; ");
    if hints == [] && Filled(c.description) {
      var first := FirstSentence(c.description.value);
      var summary := Text.Strip(first);
      forall i | 0 <= i < |CauseHint(c)| && i < HintLength
        ensures CauseHint(c)[i] != '.'
      {
        assert CauseHint(c)[i] == summary[i];
        if summary[i] == '.' {
          Text.StripKeepsChars(first, '.');
        }
      }
    }
  }

  /** A cause as the catalog block lists it: `slug (hint)`, or the bare slug. */
  function CauseSummary(c: CauseRow): (r: string)
    ensures Text.StartsWith(r, c.slug)
  {
    var hint := CauseHint(c);
    Text.StartsWithPrefix(c.slug, " (" + hint + ")");
    if hint != [] then c.slug + " (" + hint + ")" else c.slug
  }

  function HeadingLine(c: CategoryView): string {
    "- " + c.slug + ": " + c.name
  }

  /** The lines one catalog entry adds: its heading, then its causes when it has any. */
  function EntryLines(e: CatalogEntry): (r: seq<string>)
    ensures |r| == (if e.causes == [] then 1 else 2) && r[0] == HeadingLine(e.category)
  {
    [HeadingLine(e.category)]
    + if e.causes == [] then []
      else [CausesPrefix + Text.Join(seq(|e.causes|, j requires 0 <= j < |e.causes| => CauseSummary(e.causes[j])), ", ")]
  }

  /** The lines of every element in turn. */
  function Flatten<T>(xs: seq<T>, lines: T -> seq<string>): seq<string>
    decreases |xs|
  {
    if xs == [] then [] else Flatten(xs[..|xs| - 1], lines) + lines(xs[|xs| - 1])
  }

  /** Each element's first line is in the flattened lines. */
  lemma {:induction false} FlattenHasFirst<T>(xs: seq<T>, lines: T -> seq<string>, i: nat)
    requires i < |xs| && lines(xs[i]) != []
    ensures lines(xs[i])[0] in Flatten(xs, lines)
    decreases |xs|
  {
    var n := |xs| - 1;
    if i < n {
      assert xs[..n][i] == xs[i];
      FlattenHasFirst(xs[..n], lines, i);
    } else {
      assert Flatten(xs, lines)[|Flatten(xs[..n], lines)|] == lines(xs[n])[0];
    }
  }

  /** The lines `_build_catalog_block` joins: two header lines, then every entry's lines in order. */
  function CatalogLines(catalog: seq<CatalogEntry>): seq<string> {
    ["Troubleshooting catalog overview", "Use the slug values when populating category_slug and cause_slug."]
    + Flatten(catalog, EntryLines)
  }

  function BuildCatalogBlock(catalog: seq<CatalogEntry>): string {
    Text.Join(CatalogLines(catalog), "\n")
  }

  /** Every category gets its heading line in the catalog block. */
  lemma CatalogListsEveryCategory(catalog: seq<CatalogEntry>)
    ensures forall i :: 0 <= i < |catalog| ==> HeadingLine(catalog[i].category) in CatalogLines(catalog)
  {
    forall i | 0 <= i < |catalog|
      ensures HeadingLine(catalog[i].category) in CatalogLines(catalog)
    {
      FlattenHasFirst(catalog, EntryLines, i);
    }
  }

  /** The number of entries that list causes. */
  function EntriesWithCauses(catalog: seq<CatalogEntry>): nat
    decreases |catalog|
  {
    if catalog == [] then 0
    else EntriesWithCauses(catalog[..|catalog| - 1]) + (if catalog[|catalog| - 1].causes != [] then 1 else 0)
  }

  /** One heading per category and one causes line per category that has causes. */
  lemma {:induction false} EntryLineCount(catalog: seq<CatalogEntry>)
    ensures |Flatten(catalog, EntryLines)| == |catalog| + EntriesWithCauses(catalog)
    decreases |catalog|
  {
    if catalog != [] {
      EntryLineCount(catalog[..|catalog| - 1]);
    }
  }

  /** Two header lines, then the entries' lines. */
  lemma CatalogLineCount(catalog: seq<CatalogEntry>)
    ensures |CatalogLines(catalog)| == 2 + |catalog| + EntriesWithCauses(catalog)
  {
    EntryLineCount(catalog);
  }

  /** `request.context.events[-8:]`. */
  function RecentEvents(events: seq<string>): (r: seq<string>)
    ensures |r| == if |events| <= MaxEvents then |events| else MaxEvents
    ensures forall k :: 0 <= k < |r| ==> r[k] == events[|events| - |r| + k]
  {
    if |events| <= MaxEvents then events else events[|events| - MaxEvents..]
  }

  /** The lines `_build_context_block` joins. */
  function ContextLines(req: ClassificationRequest): seq<string> {
    ["User report", if req.userText != [] then Text.Strip(req.userText) else NoTextLine]
    + EventLines(req.context.events)
  }

  /** The events part of the block: nothing without events, else the header and the recent events as bullets. */
  function EventLines(events: seq<string>): seq<string> {
    if events == [] then [] else [EventsHeader] + Bullets(RecentEvents(events))
  }

  function Bullets(items: seq<string>): (r: seq<string>)
    ensures |r| == |items|
    ensures forall k :: 0 <= k < |items| ==> r[k] == "- " + items[k]
  {
    seq(|items|, k requires 0 <= k < |items| => "- " + items[k])
  }

  function BuildContextBlock(req: ClassificationRequest): string {
    Text.Join(ContextLines(req), "\n")
  }

  /**
   * The context block gives the stripped user text (an empty line for a
   * whitespace-only text, the placeholder for none), then the event lines.
   */
  lemma ContextBlockShape(req: ClassificationRequest)
    ensures var lines := ContextLines(req);
      && |lines| >= 2 && lines[0] == "User report"
      && lines[1] == (if req.userText == [] then NoTextLine else Text.Strip(req.userText))
      && (Text.IsBlank(req.userText) && req.userText != [] ==> lines[1] == "")
      && lines[2..] == EventLines(req.context.events)
  {
    var head := ["User report", if req.userText != [] then Text.Strip(req.userText) else NoTextLine];
    assert ContextLines(req)[..2] == head;
  }

  /**
   * The event lines: none without events, otherwise a header and then at
   * most the eight most recent events, oldest first, as bullets.
   */
  lemma EventLinesShape(events: seq<string>)
    ensures events == [] ==> EventLines(events) == []
    ensures events != [] ==>
      var m := if |events| <= MaxEvents then |events| else MaxEvents;
      && |EventLines(events)| == 1 + m && EventLines(events)[0] == EventsHeader
      && EventLines(events)[1..] == Bullets(events[|events| - m..])
  {
    if events != [] {
      assert RecentEvents(events) == events[|events| - |RecentEvents(events)|..];
    }
  }

  // ---------------------------------------------------------------------
  // `classify`
  // ---------------------------------------------------------------------

  /** `_parse_response`: a response without a parsed payload raises. */
  function ParseResponse(response: Option<ClassificationPayload>): (r: Outcome<ClassificationPayload>)
    ensures r.Raised? <==> response.None?
    ensures r.Returned? ==> r.value == response.value
  {
    if response.None? then Raised else Returned(response.value)
  }

  /** Everything `classify` reads: the client, the catalog tables, the model call and whether the upsert fails. */
  datatype Env = Env(
    hasClient: bool,
    categories: seq<CategoryView>,
    causesOf: Uuid -> seq<CauseRow>,
    respond: (string, string) -> Option<ClassificationPayload>,
    persistFails: bool)

  function CatalogOf(env: Env): (catalog: seq<CatalogEntry>)
    ensures |catalog| == |env.categories|
    ensures forall i :: 0 <= i < |catalog| ==> catalog[i] == CatalogEntry(env.categories[i], env.causesOf(env.categories[i].id))
  {
    seq(|env.categories|, i requires 0 <= i < |env.categories| => CatalogEntry(env.categories[i], env.causesOf(env.categories[i].id)))
  }

  /** The model's payload for the request's context block and the catalog block. */
  function PayloadFor(req: ClassificationRequest, env: Env): Outcome<ClassificationPayload> {
    ParseResponse(env.respond(BuildContextBlock(req), BuildCatalogBlock(CatalogOf(env))))
  }

  /** `classify`: the result, or `Raised` without a client or a payload. */
  function ClassifyResult(req: ClassificationRequest, env: Env): Outcome<Classification> {
    if !env.hasClient then Raised
    else
      match PayloadFor(req, env)
      case Raised => Raised
      case Returned(p) => Returned(ResultOf(p, CatalogOf(env)))
  }

  /** The problem states after `classify`. */
  function ClassifyStates(states: map<Uuid, ProblemState>, req: ClassificationRequest, env: Env): map<Uuid, ProblemState> {
    match ClassifyResult(req, env)
    case Raised => states
    case Returned(result) => if env.persistFails then states else states[req.sessionId := StateRow(result)]
  }

  /**
   * A raised `classify` changes no state. A returned one, unless the write
   * fails, replaces the session's state even when nothing was resolved: an
   * earlier category is then cleared.
   */
  lemma ClassifyOverwritesState(states: map<Uuid, ProblemState>, req: ClassificationRequest, env: Env)
    ensures !env.hasClient ==> ClassifyResult(req, env).Raised?
    ensures ClassifyResult(req, env).Raised? || env.persistFails ==> ClassifyStates(states, req, env) == states
    ensures ClassifyResult(req, env).Returned? && !env.persistFails ==>
      var after := ClassifyStates(states, req, env);
      && req.sessionId in after
      && (after[req.sessionId].categoryId.None? <==> ClassifyResult(req, env).value.category.None?)
      && after[req.sessionId].source == Some(ClassificationSource)
      && forall s :: s in states && s != req.sessionId ==> s in after && after[s] == states[s]
  {
  }

  /** `ProblemClassifierService.classify` over the problem-state store. */
  method Classify(store: ProblemStateStore, req: ClassificationRequest, env: Env) returns (r: Outcome<Classification>)
    modifies store
    ensures r == ClassifyResult(req, env)
    ensures store.states == ClassifyStates(old(store.states), req, env)
  {
    if !env.hasClient {
      return Raised;
    }
    var catalog := LoadCatalog(env.categories, env.causesOf);
    assert catalog == CatalogOf(env);
    var payload := ParseResponse(env.respond(BuildContextBlock(req), BuildCatalogBlock(catalog)));
    if payload.Raised? {
      return Raised;
    }
    var result := MapResult(payload.value, catalog);
    PersistSessionState(store, req.sessionId, result, env.persistFails);
    r := Returned(result);
  }
}
