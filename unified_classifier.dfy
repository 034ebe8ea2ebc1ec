/**
 * `UnifiedClassifierService`: the model's structured classification is
 * enriched from the troubleshooting catalog (category, then a cause inside
 * that category, then a solution of that cause), solutions the session has
 * already been given are flagged, and the resolved category and cause become
 * the session's problem state. The model call itself is a parameter taking
 * the prompt content; the repositories' query results are inputs.
 */
module UnifiedClassifier {
  import opened Wrappers
  import Text
  import opened Store
  import opened MessageFlow
  import opened Troubleshooting
  import opened Parsing
  import opened Lookup

  const ClassificationSource := "ai_classification"
  const ImageOnlyLine := "User: (sent image only)"
  const AlreadyTriedPrefix := "\nAlready tried: "
  const RecentHeader := "\nRecent conversation:"
  const IdentifyLine := "\n→ Identify the problem category, then ask for confirmation."

  // ---------------------------------------------------------------------
  // The catalog dict
  // ---------------------------------------------------------------------

  datatype SolutionEntry = SolutionEntry(id: Uuid, slug: string, title: string, instructions: string)

  datatype CauseEntry = CauseEntry(id: Uuid, slug: string, name: string, solutions: seq<SolutionEntry>)

  datatype CategoryEntry = CategoryEntry(id: Uuid, name: string, causes: seq<CauseEntry>)

  /** A category as the repositories list it, with its causes and their solutions. */
  datatype CategoryRecord = CategoryRecord(id: Uuid, slug: string, name: string, causes: seq<CauseEntry>)

  /** The catalog dict: category slugs in insertion order, each with its entry. */
  datatype Catalog = Catalog(slugs: seq<string>, entries: map<string, CategoryEntry>)

  ghost predicate ValidCatalog(c: Catalog) {
    (forall i, j :: 0 <= i < j < |c.slugs| ==> c.slugs[i] != c.slugs[j])
    && (forall s :: s in c.entries <==> s in c.slugs)
  }

  /** `catalog[slug] = entry`: a new slug goes last, a known one keeps its place and takes the new entry. */
  function Put(c: Catalog, slug: string, e: CategoryEntry): (r: Catalog)
    requires ValidCatalog(c)
    ensures ValidCatalog(r)
    ensures r.entries == c.entries[slug := e]
  {
    if slug in c.entries then Catalog(c.slugs, c.entries[slug := e])
    else Catalog(c.slugs + [slug], c.entries[slug := e])
  }

  function EntryOf(r: CategoryRecord): CategoryEntry {
    CategoryEntry(r.id, r.name, r.causes)
  }

  /** The catalog `_load_catalog` builds, category by category in listed order. */
  function CatalogOf(categories: seq<CategoryRecord>): (c: Catalog)
    ensures ValidCatalog(c)
    decreases |categories|
  {
    if categories == [] then Catalog([], map[])
    else
      var n := |categories| - 1;
      Put(CatalogOf(categories[..n]), categories[n].slug, EntryOf(categories[n]))
  }

  /** A slug is in the catalog exactly when a category has it, and it holds the last category with it. */
  lemma {:induction false} CatalogOfLookup(categories: seq<CategoryRecord>, slug: string) returns (k: nat)
    requires exists i :: 0 <= i < |categories| && categories[i].slug == slug
    ensures k < |categories| && categories[k].slug == slug
    ensures slug in CatalogOf(categories).entries && CatalogOf(categories).entries[slug] == EntryOf(categories[k])
    ensures forall j :: k < j < |categories| ==> categories[j].slug != slug
    decreases |categories|
  {
    var n := |categories| - 1;
    var prefix := categories[..n];
    assert CatalogOf(categories).entries == CatalogOf(prefix).entries[categories[n].slug := EntryOf(categories[n])];
    if categories[n].slug == slug {
      k := n;
    } else {
      var i :| 0 <= i < |categories| && categories[i].slug == slug;
      assert i < n && prefix[i] == categories[i];
      k := CatalogOfLookup(prefix, slug);
      assert prefix[k] == categories[k];
      forall j | k < j < |categories|
        ensures categories[j].slug != slug
      {
        if j < n {
          assert prefix[j] == categories[j];
        }
      }
    }
  }

  /** A slug no category has is not in the catalog. */
  lemma {:induction false} CatalogOfMissing(categories: seq<CategoryRecord>, slug: string)
    requires forall i :: 0 <= i < |categories| ==> categories[i].slug != slug
    ensures slug !in CatalogOf(categories).entries
    decreases |categories|
  {
    if categories != [] {
      var n := |categories| - 1;
      assert forall i :: 0 <= i < n ==> categories[..n][i] == categories[i];
      CatalogOfMissing(categories[..n], slug);
    }
  }

  /** With distinct slugs the catalog lists the categories in order. */
  lemma {:induction false} CatalogOfOrder(categories: seq<CategoryRecord>)
    requires forall i, j :: 0 <= i < j < |categories| ==> categories[i].slug != categories[j].slug
    ensures |CatalogOf(categories).slugs| == |categories|
    ensures forall i :: 0 <= i < |categories| ==> CatalogOf(categories).slugs[i] == categories[i].slug
    decreases |categories|
  {
    if categories != [] {
      var n := |categories| - 1;
      var prefix := categories[..n];
      assert forall i :: 0 <= i < n ==> prefix[i] == categories[i];
      CatalogOfOrder(prefix);
      CatalogOfMissing(prefix, categories[n].slug);
    }
  }

  /** `_load_catalog`, as the source loops. */
  method LoadCatalog(categories: seq<CategoryRecord>) returns (catalog: Catalog)
    ensures catalog == CatalogOf(categories)
  {
    catalog := Catalog([], map[]);
    var i := 0;
    while i < |categories|
      invariant i <= |categories|
      invariant catalog == CatalogOf(categories[..i])
    {
      assert categories[..i + 1][..i] == categories[..i];
      var category := categories[i];
      catalog := Put(catalog, category.slug, CategoryEntry(category.id, category.name, category.causes));
      i := i + 1;
    }
    assert categories[..i] == categories;
  }

  // ---------------------------------------------------------------------
  // Payload and result
  // ---------------------------------------------------------------------

  /** `ClassifierPayload`: the model's structured answer. */
  datatype ClassifierPayload = ClassifierPayload(
    intent: string,
    nextAction: string,
    confidence: real,
    reasoning: string,
    categorySlug: Option<string>,
    causeSlug: Option<string>,
    solutionSlug: Option<string>,
    clarifyingQuestion: Option<string>,
    contradictionDetails: Option<string>,
    outOfScopeReason: Option<string>,
    shouldEscalate: bool,
    escalationReason: Option<string>)

  /** `ClassificationResult`. */
  datatype ClassificationResult = ClassificationResult(
    intent: UserIntent,
    nextAction: NextAction,
    confidence: real,
    reasoning: string,
    categorySlug: Option<string>,
    categoryName: Option<string>,
    causeSlug: Option<string>,
    causeName: Option<string>,
    solutionSlug: Option<string>,
    solutionTitle: Option<string>,
    solutionSummary: Option<string>,
    solutionSteps: Option<string>,
    solutionAlreadyTried: bool,
    clarifyingQuestion: Option<string>,
    contradictionDetails: Option<string>,
    outOfScopeReason: Option<string>,
    shouldEscalate: bool,
    escalationReason: Option<string>,
    attemptedSolutions: seq<string>,
    attemptedCauses: seq<string>)

  function CauseSlug(c: CauseEntry): string { c.slug }

  function SolutionSlug(s: SolutionEntry): string { s.slug }

  /** The catalog category the payload names, if its slug is a catalog key. */
  function ResolvedCategory(p: ClassifierPayload, catalog: Catalog): (r: Option<CategoryEntry>)
    ensures r.Some? <==> Filled(p.categorySlug) && p.categorySlug.value in catalog.entries
    ensures r.Some? ==> r.value == catalog.entries[p.categorySlug.value]
  {
    if Filled(p.categorySlug) && p.categorySlug.value in catalog.entries then Some(catalog.entries[p.categorySlug.value])
    else None
  }

  /** The first cause of the resolved category with the payload's cause slug. */
  function ResolvedCause(p: ClassifierPayload, catalog: Catalog): (r: Option<CauseEntry>)
    ensures r.Some? <==>
      ResolvedCategory(p, catalog).Some? && Filled(p.causeSlug)
      && exists i :: 0 <= i < |ResolvedCategory(p, catalog).value.causes|
                     && ResolvedCategory(p, catalog).value.causes[i].slug == p.causeSlug.value
    ensures r.Some? ==> r.value in ResolvedCategory(p, catalog).value.causes && r.value.slug == p.causeSlug.value
  {
    match ResolvedCategory(p, catalog)
    case None => None
    case Some(category) =>
      if !Filled(p.causeSlug) then None
      else
        match FirstWith(category.causes, CauseSlug, p.causeSlug.value)
        case None => None
        case Some(i) => Some(category.causes[i])
  }

  /** The first solution of the resolved cause with the payload's solution slug. */
  function ResolvedSolution(p: ClassifierPayload, catalog: Catalog): (r: Option<SolutionEntry>)
    ensures r.Some? <==>
      ResolvedCause(p, catalog).Some? && Filled(p.solutionSlug)
      && exists i :: 0 <= i < |ResolvedCause(p, catalog).value.solutions|
                     && ResolvedCause(p, catalog).value.solutions[i].slug == p.solutionSlug.value
    ensures r.Some? ==> r.value in ResolvedCause(p, catalog).value.solutions && r.value.slug == p.solutionSlug.value
  {
    match ResolvedCause(p, catalog)
    case None => None
    case Some(cause) =>
      if !Filled(p.solutionSlug) then None
      else
        match FirstWith(cause.solutions, SolutionSlug, p.solutionSlug.value)
        case None => None
        case Some(j) => Some(cause.solutions[j])
  }

  /** The result before enrichment: the payload's own fields and the attempted slugs. */
  function BaseResult(p: ClassifierPayload, intent: UserIntent, action: NextAction, attempted: seq<string>): ClassificationResult {
    ClassificationResult(
      intent, action, p.confidence, p.reasoning,
      None, None, None, None, None, None, None, None, false,
      p.clarifyingQuestion, p.contradictionDetails, p.outOfScopeReason,
      p.shouldEscalate, p.escalationReason, attempted, [])
  }

  function WithCategory(r: ClassificationResult, slug: string, category: CategoryEntry): ClassificationResult {
    r.(categorySlug := Some(slug), categoryName := Some(category.name))
  }

  function WithCause(r: ClassificationResult, cause: CauseEntry): ClassificationResult {
    r.(causeSlug := Some(cause.slug), causeName := Some(cause.name), attemptedCauses := [cause.slug])
  }

  function WithSolution(r: ClassificationResult, solution: SolutionEntry, attempted: seq<string>): ClassificationResult {
    r.(solutionSlug := Some(solution.slug), solutionTitle := Some(solution.title),
       solutionSteps := Some(solution.instructions), solutionAlreadyTried := solution.slug in attempted)
  }

  /** `_build_result`: `Raised` where the intent or the action is not an enum value. */
  function ResultOf(p: ClassifierPayload, catalog: Catalog, attempted: seq<string>): Outcome<ClassificationResult> {
    match (ParseIntent(p.intent), ParseAction(p.nextAction))
    case (Some(intent), Some(action)) =>
      var base := BaseResult(p, intent, action, attempted);
      var category := ResolvedCategory(p, catalog);
      var cause := ResolvedCause(p, catalog);
      var solution := ResolvedSolution(p, catalog);
      var r1 := if category.Some? then WithCategory(base, p.categorySlug.value, category.value) else base;
      var r2 := if cause.Some? then WithCause(r1, cause.value) else r1;
      Returned(if solution.Some? then WithSolution(r2, solution.value, attempted) else r2)
    case _ => Raised
  }

  /** The result raises exactly on an unknown intent or action, and otherwise copies the payload. */
  lemma ResultCopiesPayload(p: ClassifierPayload, catalog: Catalog, attempted: seq<string>)
    ensures ResultOf(p, catalog, attempted).Raised? <==> ParseIntent(p.intent).None? || ParseAction(p.nextAction).None?
    ensures ResultOf(p, catalog, attempted).Returned? ==>
      var r := ResultOf(p, catalog, attempted).value;
      IntentName(r.intent) == p.intent && ActionName(r.nextAction) == p.nextAction
      && r.confidence == p.confidence && r.reasoning == p.reasoning
      && r.clarifyingQuestion == p.clarifyingQuestion && r.shouldEscalate == p.shouldEscalate
      && r.contradictionDetails == p.contradictionDetails && r.outOfScopeReason == p.outOfScopeReason
      && r.escalationReason == p.escalationReason && r.attemptedSolutions == attempted
      && r.solutionSummary.None?
  {
  }

  /**
   * Category, cause and solution are each set only when found where the
   * source looks: the category among the catalog keys, the cause inside that
   * category, the solution inside that cause.
   */
  lemma ResultResolvesNested(p: ClassifierPayload, catalog: Catalog, attempted: seq<string>)
    requires ResultOf(p, catalog, attempted).Returned?
    ensures var r := ResultOf(p, catalog, attempted).value;
      && (r.categorySlug.Some? <==> Filled(p.categorySlug) && p.categorySlug.value in catalog.entries)
      && (r.categorySlug.Some? ==>
            r.categorySlug == p.categorySlug && r.categoryName == Some(catalog.entries[p.categorySlug.value].name))
      && (r.causeSlug.Some? <==> ResolvedCause(p, catalog).Some?)
      && (r.causeSlug.Some? ==>
            r.categorySlug.Some? && r.causeSlug == p.causeSlug && r.attemptedCauses == [p.causeSlug.value]
            && r.causeName == Some(ResolvedCause(p, catalog).value.name))
      && (r.causeSlug.None? ==> r.causeName.None? && r.attemptedCauses == [])
      && (r.solutionSlug.Some? <==> ResolvedSolution(p, catalog).Some?)
      && (r.solutionSlug.Some? ==>
            r.causeSlug.Some? && r.solutionSlug == p.solutionSlug && r.solutionAlreadyTried == (p.solutionSlug.value in attempted))
      && (r.solutionSlug.None? ==> !r.solutionAlreadyTried && r.solutionTitle.None? && r.solutionSteps.None?)
  {
  }

  /** `_build_result`, as the source loops: first matching cause, first matching solution. */
  method BuildResult(p: ClassifierPayload, catalog: Catalog, attempted: seq<string>)
    returns (r: Outcome<ClassificationResult>)
    ensures r == ResultOf(p, catalog, attempted)
  {
    var intent := ParseIntent(p.intent);
    var action := ParseAction(p.nextAction);
    if intent.None? || action.None? {
      return Raised;
    }
    var result := BaseResult(p, intent.value, action.value, attempted);
    if Filled(p.categorySlug) && p.categorySlug.value in catalog.entries {
      var category := catalog.entries[p.categorySlug.value];
      result := WithCategory(result, p.categorySlug.value, category);
      if Filled(p.causeSlug) {
        var i := FindFirst(category.causes, CauseSlug, p.causeSlug.value);
        if i < |category.causes| {
          var cause := category.causes[i];
          result := WithCause(result, cause);
          if Filled(p.solutionSlug) {
            var j := FindFirst(cause.solutions, SolutionSlug, p.solutionSlug.value);
            if j < |cause.solutions| {
              result := WithSolution(result, cause.solutions[j], attempted);
            }
          }
        }
      }
    }
    r := Returned(result);
  }

  // ---------------------------------------------------------------------
  // Problem state
  // ---------------------------------------------------------------------

  /** The row `_persist_problem_state` upserts, `None` where it writes nothing. */
  function PersistedRow(result: ClassificationResult, catalog: Catalog, confidence: real): (row: Option<ProblemState>)
    ensures row.Some? <==> Filled(result.categorySlug) && result.categorySlug.value in catalog.entries
    ensures row.Some? ==> row.value.categoryId == Some(catalog.entries[result.categorySlug.value].id)
    ensures row.Some? ==> row.value.source == Some(ClassificationSource) && !row.value.manualOverride
    ensures row.Some? ==> row.value.confidence == Some(confidence)
  {
    if !Filled(result.categorySlug) || result.categorySlug.value !in catalog.entries then None
    else
      var category := catalog.entries[result.categorySlug.value];
      var causeId :=
        if !Filled(result.causeSlug) then None
        else
          match FirstWith(category.causes, CauseSlug, result.causeSlug.value)
          case None => None
          case Some(i) => Some(category.causes[i].id);
      Some(ProblemState(Some(category.id), causeId, Some(confidence), Some(ClassificationSource), false))
  }

  /** `_persist_problem_state`: one upsert for a resolved category, nothing otherwise. */
  method PersistProblemState(store: ProblemStateStore, sessionId: Uuid, result: ClassificationResult,
                             catalog: Catalog, confidence: real)
    modifies store
    ensures PersistedRow(result, catalog, confidence).None? ==> store.states == old(store.states)
    ensures PersistedRow(result, catalog, confidence).Some? ==>
      store.states == old(store.states)[sessionId := PersistedRow(result, catalog, confidence).value]
  {
    if !Filled(result.categorySlug) {
      return;
    }
    var categoryId: Option<Uuid> := None;
    var causeId: Option<Uuid> := None;
    if result.categorySlug.value in catalog.entries {
      var category := catalog.entries[result.categorySlug.value];
      categoryId := Some(category.id);
      if Filled(result.causeSlug) {
        var i := FindFirst(category.causes, CauseSlug, result.causeSlug.value);
        if i < |category.causes| {
          causeId := Some(category.causes[i].id);
        }
      }
    }
    if categoryId.Some? {
      store.Upsert(sessionId, ProblemState(categoryId, causeId, Some(confidence), Some(ClassificationSource), false));
    }
  }

  /**
   * Persisting the built result stores exactly the resolved category and
   * cause: the cause id is `None` when no cause was resolved.
   */
  lemma PersistedAfterBuild(p: ClassifierPayload, catalog: Catalog, attempted: seq<string>, confidence: real)
    requires ResultOf(p, catalog, attempted).Returned?
    ensures var row := PersistedRow(ResultOf(p, catalog, attempted).value, catalog, confidence);
      && (row.Some? <==> ResolvedCategory(p, catalog).Some?)
      && (row.Some? ==> row.value.categoryId == Some(ResolvedCategory(p, catalog).value.id))
      && (row.Some? ==> (row.value.causeId.Some? <==> ResolvedCause(p, catalog).Some?))
      && (row.Some? && ResolvedCause(p, catalog).Some? ==> row.value.causeId == Some(ResolvedCause(p, catalog).value.id))
  {
  }

  // ---------------------------------------------------------------------
  // History lookups
  // ---------------------------------------------------------------------

  /** The solution ids of the session's ledger rows, in row order. */
  function SessionSolutionIds(rows: seq<SuggestionRow>, sessionId: Uuid): (ids: seq<Uuid>)
    ensures forall id :: id in ids <==> id in SuggestedIds(rows, sessionId)
    decreases |rows|
  {
    if rows == [] then []
    else
      var n := |rows| - 1;
      var prefix := SessionSolutionIds(rows[..n], sessionId);
      assert rows == rows[..n] + [rows[n]];
      SuggestedIdsSnoc(rows[..n], rows[n], sessionId);
      if rows[n].sessionId == sessionId then prefix + [rows[n].solutionId] else prefix
  }

  lemma SuggestedIdsSnoc(rows: seq<SuggestionRow>, row: SuggestionRow, sessionId: Uuid)
    ensures SuggestedIds(rows + [row], sessionId)
         == SuggestedIds(rows, sessionId) + (if row.sessionId == sessionId then {row.solutionId} else {})
  {
    var all := rows + [row];
    assert forall i :: 0 <= i < |rows| ==> all[i] == rows[i];
    assert all[|rows|] == row;
  }

  /** `list_by_ids`: the solutions whose id is among `ids`, in table order. */
  function WithIds(table: seq<SolutionView>, ids: seq<Uuid>): (r: seq<SolutionView>)
    ensures forall s :: s in r <==> s in table && s.id in ids
  {
    if table == [] then []
    else (if table[0].id in ids then [table[0]] else []) + WithIds(table[1..], ids)
  }

  function Slugs(solutions: seq<SolutionView>): (r: seq<string>)
    ensures |r| == |solutions| && forall k :: 0 <= k < |r| ==> r[k] == solutions[k].slug
  {
    seq(|solutions|, k requires 0 <= k < |solutions| => solutions[k].slug)
  }

  /** `_get_attempted_solutions`: the slugs of the solutions in the session's ledger. */
  function AttemptedSolutions(rows: seq<SuggestionRow>, sessionId: Uuid, table: seq<SolutionView>): seq<string> {
    var ids := SessionSolutionIds(rows, sessionId);
    if ids == [] then [] else Slugs(WithIds(table, ids))
  }

  /**
   * No ledger rows give no slugs; otherwise a slug is listed exactly when a
   * stored solution with it was suggested in the session.
   */
  lemma AttemptedSolutionsExact(rows: seq<SuggestionRow>, sessionId: Uuid, table: seq<SolutionView>, slug: string)
    ensures SuggestedIds(rows, sessionId) == {} ==> AttemptedSolutions(rows, sessionId, table) == []
    ensures slug in AttemptedSolutions(rows, sessionId, table)
        <==> exists s :: s in table && s.slug == slug && s.id in SuggestedIds(rows, sessionId)
  {
    var ids := SessionSolutionIds(rows, sessionId);
    if ids == [] {
      assert SuggestedIds(rows, sessionId) == {};
    } else {
      var r := WithIds(table, ids);
      if slug in Slugs(r) {
        var k :| 0 <= k < |r| && Slugs(r)[k] == slug;
        assert r[k] in r;
      }
      if exists s :: s in table && s.slug == slug && s.id in SuggestedIds(rows, sessionId) {
        var s :| s in table && s.slug == slug && s.id in SuggestedIds(rows, sessionId);
        assert s in r;
        var k :| 0 <= k < |r| && r[k] == s;
        assert Slugs(r)[k] == slug;
      }
    }
  }

  /** `_detect_existing_problem`: the slug of the category the session's state names. */
  function ExistingProblem(states: map<Uuid, ProblemState>, sessionId: Uuid, categories: map<Uuid, CategoryView>)
    : (r: Option<string>)
    ensures r.Some? <==>
      sessionId in states && states[sessionId].categoryId.Some? && states[sessionId].categoryId.value in categories
    ensures r.Some? ==> r.value == categories[states[sessionId].categoryId.value].slug
  {
    if sessionId in states && states[sessionId].categoryId.Some? && states[sessionId].categoryId.value in categories
    then Some(categories[states[sessionId].categoryId.value].slug)
    else None
  }

  // ---------------------------------------------------------------------
  // Prompt content
  // ---------------------------------------------------------------------

  function CauseHeader(cause: CauseEntry): string {
    "\nCause: " + cause.name
  }

  function SolutionLine(solution: SolutionEntry): string {
    "  → " + solution.slug + ": " + solution.title
  }

  /** The lines of `_format_catalog_focused`: each cause's header, then one line per solution of it. */
  function CauseLines(causes: seq<CauseEntry>): (r: seq<string>)
    ensures forall c :: c in causes ==> CauseHeader(c) in r
    ensures forall c, x :: c in causes && x in c.solutions ==> SolutionLine(x) in r
  {
    if causes == [] then []
    else
      var own := seq(|causes[0].solutions|, j requires 0 <= j < |causes[0].solutions| => SolutionLine(causes[0].solutions[j]));
      var rest := CauseLines(causes[1..]);
      assert forall c :: c in causes ==> c == causes[0] || c in causes[1..];
      assert forall x :: x in causes[0].solutions ==> SolutionLine(x) in own by {
        forall x | x in causes[0].solutions
          ensures SolutionLine(x) in own
        {
          var j :| 0 <= j < |causes[0].solutions| && causes[0].solutions[j] == x;
          assert own[j] == SolutionLine(x);
        }
      }
      [CauseHeader(causes[0])] + own + rest
  }

  /** A header of a cause or a line of one of its solutions. */
  predicate LineOfCauses(causes: seq<CauseEntry>, line: string) {
    exists c :: c in causes && (line == CauseHeader(c) || exists x :: x in c.solutions && line == SolutionLine(x))
  }

  /** Every line is a cause's header or a line of one of its solutions. */
  lemma {:induction false} CauseLinesOnly(causes: seq<CauseEntry>)
    ensures forall line :: line in CauseLines(causes) ==> LineOfCauses(causes, line)
  {
    if causes != [] {
      var c := causes[0];
      var own := seq(|c.solutions|, j requires 0 <= j < |c.solutions| => SolutionLine(c.solutions[j]));
      CauseLinesOnly(causes[1..]);
      assert CauseLines(causes) == [CauseHeader(c)] + own + CauseLines(causes[1..]);
      forall line | line in CauseLines(causes)
        ensures LineOfCauses(causes, line)
      {
        if line in CauseLines(causes[1..]) {
          assert LineOfCauses(causes[1..], line);
          var d :| d in causes[1..] && (line == CauseHeader(d) || exists x :: x in d.solutions && line == SolutionLine(x));
          assert d in causes;
        } else if line in own {
          var j :| 0 <= j < |own| && own[j] == line;
          assert c.solutions[j] in c.solutions;
        }
      }
    }
  }

  /** The lines of consecutive causes are those of each, one block after the other. */
  lemma {:induction false} CauseLinesConcat(a: seq<CauseEntry>, b: seq<CauseEntry>)
    ensures CauseLines(a + b) == CauseLines(a) + CauseLines(b)
    decreases |a|
  {
    if a != [] {
      assert (a + b)[0] == a[0] && (a + b)[1..] == a[1..] + b;
      CauseLinesConcat(a[1..], b);
    } else {
      assert a + b == b;
    }
  }

  /** One cause gives its header followed by its solutions' lines, in order. */
  lemma CauseLinesOne(cause: CauseEntry)
    ensures CauseLines([cause]) ==
      [CauseHeader(cause)] + seq(|cause.solutions|, j requires 0 <= j < |cause.solutions| => SolutionLine(cause.solutions[j]))
  {
    assert [cause][1..] == [];
  }

  /** `_format_catalog_focused`. */
  function FormatCatalogFocused(catalog: Catalog, slug: string): (r: string)
    ensures slug !in catalog.entries ==> r == "Category '" + slug + "' not found."
    ensures slug in catalog.entries ==>
              forall c :: c in catalog.entries[slug].causes ==> Text.Contains(r, CauseHeader(c))
    ensures slug in catalog.entries ==>
              forall c, x :: c in catalog.entries[slug].causes && x in c.solutions ==> Text.Contains(r, SolutionLine(x))
  {
    if slug !in catalog.entries then "Category '" + slug + "' not found."
    else
      var lines := CauseLines(catalog.entries[slug].causes);
      JoinedLinesShown(lines);
      Text.Join(lines, "\n")
  }

  /** Every line of a listing shows in the listing joined by newlines. */
  lemma JoinedLinesShown(lines: seq<string>)
    ensures forall line :: line in lines ==> Text.Contains(Text.Join(lines, "\n"), line)
  {
    if lines != [] {
      Text.JoinShowsParts(lines, "\n");
    }
  }

  /** One listing line per catalog category, in insertion order. */
  function CategoryLines(catalog: Catalog): (r: seq<string>)
    requires ValidCatalog(catalog)
    ensures |r| == |catalog.slugs|
    ensures forall i :: 0 <= i < |r| ==>
      r[i] == "  • " + catalog.slugs[i] + ": " + catalog.entries[catalog.slugs[i]].name
  {
    seq(|catalog.slugs|, i requires 0 <= i < |catalog.slugs| =>
      "  • " + catalog.slugs[i] + ": " + catalog.entries[catalog.slugs[i]].name)
  }

  /** `_format_catalog_smart`: the category list, then the selected category's details or a hint. */
  function SmartLines(catalog: Catalog, existing: Option<string>): (r: seq<string>)
    requires ValidCatalog(catalog)
  {
    ["Problem categories:"] + CategoryLines(catalog)
    + if Filled(existing)
      then ["\nSelected: " + existing.value, FormatCatalogFocused(catalog, existing.value)]
      else [IdentifyLine]
  }

  function FormatCatalogSmart(catalog: Catalog, existing: Option<string>): string
    requires ValidCatalog(catalog)
  {
    Text.Join(SmartLines(catalog, existing), "\n")
  }

  /** `ClassificationRequest`: the session, the user's text and the context events. */
  datatype ClassificationRequest = ClassificationRequest(sessionId: Uuid, userText: string, events: seq<string>)

  function EventLines(events: seq<string>): (r: seq<string>)
    ensures |r| == |events| && forall k :: 0 <= k < |r| ==> r[k] == "  " + events[k]
  {
    seq(|events|, k requires 0 <= k < |events| => "  " + events[k])
  }

  /** The catalog block opens with the category listing header's first letter. */
  lemma SmartOpensWithListing(catalog: Catalog, existing: Option<string>)
    requires ValidCatalog(catalog)
    ensures |FormatCatalogSmart(catalog, existing)| > 0 && FormatCatalogSmart(catalog, existing)[0] == 'P'
  {
    var smart := SmartLines(catalog, existing);
    assert smart[0] == "Problem categories:" && |smart| >= 2;
    assert FormatCatalogSmart(catalog, existing) == smart[0] + ("\n" + Text.Join(smart[1..], "\n"));
  }

  /** The lines `_build_content` joins. */
  function ContentLines(req: ClassificationRequest, catalog: Catalog, attempted: seq<string>, existing: Option<string>)
    : seq<string>
    requires ValidCatalog(catalog)
  {
    [if req.userText != [] then "User: " + req.userText else ImageOnlyLine]
    + (if req.events != [] then [RecentHeader] + EventLines(req.events) else [])
    + (if attempted != [] then [AlreadyTriedPrefix + Text.Join(attempted, ", ")] else [])
    + ["\n" + FormatCatalogSmart(catalog, existing)]
  }

  /** `_build_content`. */
  function BuildContent(req: ClassificationRequest, catalog: Catalog, attempted: seq<string>, existing: Option<string>)
    : string
    requires ValidCatalog(catalog)
  {
    Text.Join(ContentLines(req, catalog, attempted, existing), "\n")
  }

  /**
   * The content opens with the user's text, or the image-only line for an
   * empty text; it has an "Already tried" line exactly when solutions were
   * attempted, right after the events.
   */
  lemma ContentShape(req: ClassificationRequest, catalog: Catalog, attempted: seq<string>, existing: Option<string>)
    requires ValidCatalog(catalog)
    ensures var lines := ContentLines(req, catalog, attempted, existing);
      && lines[0] == (if req.userText == [] then ImageOnlyLine else "User: " + req.userText)
      && ((exists k :: 0 <= k < |lines| && Text.StartsWith(lines[k], AlreadyTriedPrefix)) <==> attempted != [])
  {
    var lines := ContentLines(req, catalog, attempted, existing);
    var head := [if req.userText != [] then "User: " + req.userText else ImageOnlyLine];
    var events := if req.events != [] then [RecentHeader] + EventLines(req.events) else [];
    var tried := if attempted != [] then [AlreadyTriedPrefix + Text.Join(attempted, ", ")] else [];
    var tail := ["\n" + FormatCatalogSmart(catalog, existing)];
    assert lines == (head + events) + tried + tail;
    OpeningNotTried(req, events);
    SmartOpensWithListing(catalog, existing);
    DiffersAt(tail[0], AlreadyTriedPrefix, 1);
    forall k | 0 <= k < |lines| && (k < |head| + |events| || |head| + |events| + |tried| <= k)
      ensures !Text.StartsWith(lines[k], AlreadyTriedPrefix)
    {
      if k < |head| + |events| {
        assert lines[k] == (head + events)[k];
      } else {
        assert lines[k] == tail[0];
      }
    }
    if attempted != [] {
      var k := |head| + |events|;
      assert lines[k] == tried[0];
      Text.StartsWithPrefix(AlreadyTriedPrefix, Text.Join(attempted, ", "));
    }
  }

  /** The user line and the conversation lines never open with the "Already tried" prefix. */
  lemma OpeningNotTried(req: ClassificationRequest, events: seq<string>)
    requires events == if req.events != [] then [RecentHeader] + EventLines(req.events) else []
    ensures var lines := [if req.userText != [] then "User: " + req.userText else ImageOnlyLine] + events;
            forall k :: 0 <= k < |lines| ==> !Text.StartsWith(lines[k], AlreadyTriedPrefix)
  {
    var head := [if req.userText != [] then "User: " + req.userText else ImageOnlyLine];
    var lines := head + events;
    forall k | 0 <= k < |lines| ensures !Text.StartsWith(lines[k], AlreadyTriedPrefix) {
      var line := lines[k];
      if k == 0 {
        assert line == head[0];
        DiffersAt(line, AlreadyTriedPrefix, 0);
      } else if k == 1 {
        assert line == RecentHeader;
        DiffersAt(line, AlreadyTriedPrefix, 1);
      } else {
        assert line == EventLines(req.events)[k - 2];
        DiffersAt(line, AlreadyTriedPrefix, 0);
      }
    }
  }

  /** A text whose `i`-th character differs from the prefix's does not start with it. */
  lemma DiffersAt(line: string, prefix: string, i: nat)
    requires i < |line| && i < |prefix| && line[i] != prefix[i]
    ensures !Text.StartsWith(line, prefix)
  {
  }

  // ---------------------------------------------------------------------
  // `classify`
  // ---------------------------------------------------------------------

  /** `_parse_response`: a response without a parsed payload raises. */
  function ParseResponse(response: Option<ClassifierPayload>): (r: Outcome<ClassifierPayload>)
    ensures r.Raised? <==> response.None?
    ensures r.Returned? ==> r.value == response.value
  {
    if response.None? then Raised else Returned(response.value)
  }

  /** Everything `classify` reads, the model call included. */
  datatype Env = Env(
    hasClient: bool,
    categories: seq<CategoryRecord>,
    ledger: seq<SuggestionRow>,
    solutionTable: seq<SolutionView>,
    categoryTable: map<Uuid, CategoryView>,
    respond: string -> Option<ClassifierPayload>)

  /** The payload the model returns for the request's prompt content. */
  function PayloadFor(states: map<Uuid, ProblemState>, req: ClassificationRequest, env: Env): Outcome<ClassifierPayload> {
    var catalog := CatalogOf(env.categories);
    var attempted := AttemptedSolutions(env.ledger, req.sessionId, env.solutionTable);
    var existing := ExistingProblem(states, req.sessionId, env.categoryTable);
    ParseResponse(env.respond(BuildContent(req, catalog, attempted, existing)))
  }

  /** `classify`: the result, or `Raised` without a client, a payload or a valid enum value. */
  function ClassifyResult(states: map<Uuid, ProblemState>, req: ClassificationRequest, env: Env)
    : Outcome<ClassificationResult>
  {
    if !env.hasClient then Raised
    else
      match PayloadFor(states, req, env)
      case Raised => Raised
      case Returned(p) =>
        ResultOf(p, CatalogOf(env.categories), AttemptedSolutions(env.ledger, req.sessionId, env.solutionTable))
  }

  /** The problem states after `classify`. */
  function ClassifyStates(states: map<Uuid, ProblemState>, req: ClassificationRequest, env: Env)
    : map<Uuid, ProblemState>
  {
    match ClassifyResult(states, req, env)
    case Raised => states
    case Returned(result) =>
      match PersistedRow(result, CatalogOf(env.categories), PayloadFor(states, req, env).value.confidence)
      case None => states
      case Some(row) => states[req.sessionId := row]
  }

  /**
   * Whenever `classify` raises, no problem state changed; when it returns, the
   * session's state changed only if the payload named a catalog category.
   */
  lemma ClassifyPersistsOnlyResolved(states: map<Uuid, ProblemState>, req: ClassificationRequest, env: Env)
    ensures !env.hasClient ==> ClassifyResult(states, req, env).Raised?
    ensures ClassifyResult(states, req, env).Raised? ==> ClassifyStates(states, req, env) == states
    ensures ClassifyResult(states, req, env).Returned? ==>
      var p := PayloadFor(states, req, env).value;
      && (ResolvedCategory(p, CatalogOf(env.categories)).None? ==> ClassifyStates(states, req, env) == states)
      && (ResolvedCategory(p, CatalogOf(env.categories)).Some? ==>
            req.sessionId in ClassifyStates(states, req, env)
            && ClassifyStates(states, req, env)[req.sessionId].categoryId
               == Some(ResolvedCategory(p, CatalogOf(env.categories)).value.id))
  {
    if ClassifyResult(states, req, env).Returned? {
      var p := PayloadFor(states, req, env).value;
      PersistedAfterBuild(p, CatalogOf(env.categories),
                          AttemptedSolutions(env.ledger, req.sessionId, env.solutionTable), p.confidence);
    }
  }

  /** `UnifiedClassifierService.classify` over the problem-state store. */
  method Classify(store: ProblemStateStore, req: ClassificationRequest, env: Env)
    returns (r: Outcome<ClassificationResult>)
    modifies store
    ensures r == ClassifyResult(old(store.states), req, env)
    ensures store.states == ClassifyStates(old(store.states), req, env)
  {
    if !env.hasClient {
      return Raised;
    }
    var catalog := LoadCatalog(env.categories);
    var attempted := AttemptedSolutions(env.ledger, req.sessionId, env.solutionTable);
    var existing := ExistingProblem(store.states, req.sessionId, env.categoryTable);
    var response := env.respond(BuildContent(req, catalog, attempted, existing));
    var payload := ParseResponse(response);
    if payload.Raised? {
      return Raised;
    }
    r := BuildResult(payload.value, catalog, attempted);
    if r.Raised? {
      return;
    }
    PersistProblemState(store, req.sessionId, r.value, catalog, payload.value.confidence);
  }
}
