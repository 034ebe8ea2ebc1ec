/**
 * `TroubleshootingImportService`: loading a structured troubleshooting
 * catalog (problems → causes → actions) into the category, cause and
 * solution tables, upserting every entity and removing solutions that the
 * import no longer lists, with a counter per kind of change.
 *
 * The three tables are fields of the service; ids come from one counter.
 * Each loop of the service is specified by a fold over the prefix it has
 * processed (`ProblemsFold`, `CausesFold`, `ActionsFold`, `RemoveFold`).
 */
module CatalogImport {
  import opened Wrappers
  import opened Parsing
  import Text
  import Listing

  // ----- the import payload -----

  datatype ImportAction = ImportAction(
    slug: string, title: string, summary: Option<string>, instructions: seq<Option<string>>, requiresEscalation: bool)

  datatype ImportCause = ImportCause(
    slug: string, name: string, description: Option<string>, detectionHints: seq<string>,
    priority: Option<int>, actions: seq<ImportAction>)

  datatype ImportProblem = ImportProblem(
    slug: string, name: string, severity: string, description: Option<string>, causes: seq<ImportCause>)

  // ----- the tables -----

  datatype CategoryRow = CategoryRow(id: nat, name: string, description: Option<string>)

  datatype CauseRow = CauseRow(
    id: nat, name: string, description: Option<string>, detectionHints: seq<string>, defaultPriority: int)

  datatype SolutionRow = SolutionRow(
    id: nat, causeId: nat, slug: string, title: string, summary: Option<string>,
    instructions: string, stepOrder: int, requiresEscalation: bool)

  /** Categories by slug, causes by (category id, slug), solutions in table order, and the next fresh id. */
  datatype Tables = Tables(
    categories: map<string, CategoryRow>,
    causes: map<(nat, string), CauseRow>,
    solutions: seq<SolutionRow>,
    nextId: nat)

  /** `TroubleshootingImportResult`'s counters. */
  datatype Counts = Counts(
    categoriesCreated: nat, categoriesUpdated: nat,
    causesCreated: nat, causesUpdated: nat,
    solutionsCreated: nat, solutionsUpdated: nat, solutionsRemoved: nat)

  const NoCounts := Counts(0, 0, 0, 0, 0, 0, 0)

  /** The tables and the counters part-way through an import. */
  datatype Step = Step(tables: Tables, counts: Counts)

  /** An upsert's outcome: the tables after it, the row it leaves, and whether it created the row. */
  datatype Upserted<R> = Upserted(tables: Tables, row: R, created: bool)

  // ----- instructions and priorities -----

  /** One instruction step as a line: `None` for a blank step, else the stripped text, prefixed by "- " unless it starts with "-". */
  function FormatStep(raw: Option<string>): (r: Option<string>)
    ensures r.Some? ==> |r.value| > 0 && r.value[0] == '-'
    ensures r.None? <==> Text.Strip(raw.GetOr("")) == []
  {
    var text := Text.Strip(raw.GetOr(""));
    if text == [] then None
    else if Text.StartsWith(text, "-") then
      assert text[..1][0] == text[0];
      Some(text)
    else Some("- " + text)
  }

  /** The lines of the non-blank steps, in order. */
  function FormatSteps(steps: seq<Option<string>>): (r: seq<string>)
    ensures |r| <= |steps|
    ensures forall i :: 0 <= i < |r| ==> |r[i]| > 0 && r[i][0] == '-'
  {
    if steps == [] then []
    else
      var prev := FormatSteps(steps[..|steps| - 1]);
      var line := FormatStep(steps[|steps| - 1]);
      if line.Some? then prev + [line.value] else prev
  }

  /** The lines of consecutive step lists are the lines of the first followed by those of the second. */
  lemma {:induction false} FormatStepsConcat(a: seq<Option<string>>, b: seq<Option<string>>)
    ensures FormatSteps(a + b) == FormatSteps(a) + FormatSteps(b)
    decreases |b|
  {
    if b == [] {
      assert a + b == a;
    } else {
      var b' := b[..|b| - 1];
      assert (a + b)[..|a + b| - 1] == a + b';
      assert (a + b)[|a + b| - 1] == b[|b| - 1];
      FormatStepsConcat(a, b');
    }
  }

  /** One step gives its formatted line, or nothing when it is blank. */
  lemma FormatStepsOne(step: Option<string>)
    ensures FormatSteps([step]) == if FormatStep(step).Some? then [FormatStep(step).value] else []
  {
    assert [step][..0] == [];
  }

  /** `_render_instructions`: the formatted lines joined by newlines ("" when there are none). */
  function Render(steps: seq<Option<string>>): string {
    Text.Join(FormatSteps(steps), "\n")
  }

  /** Steps that are all blank render as the empty text. */
  lemma {:induction false} BlankStepsRenderEmpty(steps: seq<Option<string>>)
    requires forall i :: 0 <= i < |steps| ==> Text.Strip(steps[i].GetOr("")) == []
    ensures Render(steps) == ""
  {
    if steps != [] {
      BlankStepsRenderEmpty(steps[..|steps| - 1]);
      assert FormatStep(steps[|steps| - 1]).None?;
    }
  }

  /** One non-blank step renders as one line; a step already starting with "-" is kept as stripped. */
  lemma OneStepRender(raw: string)
    requires Text.IsStripped(raw) && raw != []
    ensures Render([Some(raw)]) == (if raw[0] == '-' then raw else "- " + raw)
  {
    assert [Some(raw)][..0] == [];
    assert Text.StartsWith(raw, "-") <==> raw[0] == '-' by {
      assert Text.StartsWith(raw, "-") ==> raw[..1][0] == '-';
      if raw[0] == '-' {
        assert raw[..1] == "-";
      }
    }
  }

  /** The severity weight: info 5, low 10, medium 20, high 30, critical 40, anything else 10. */
  function SeverityWeight(severity: string): (w: int)
    ensures 5 <= w <= 40
  {
    if severity == "info" then 5
    else if severity == "low" then 10
    else if severity == "medium" then 20
    else if severity == "high" then 30
    else if severity == "critical" then 40
    else 10
  }

  /** `_resolve_priority`: an explicit priority wins; otherwise the severity weight plus the cause's position. */
  function ResolvePriority(severity: string, priority: Option<int>, causeIndex: nat): (p: int)
    ensures priority.Some? ==> p == priority.value
    ensures priority.None? ==> p == SeverityWeight(severity) + causeIndex && p >= 5 + causeIndex
  {
    if priority.Some? then priority.value else SeverityWeight(severity) + causeIndex
  }

  /** Without explicit priorities, the causes of one problem get strictly increasing priorities in catalog order. */
  lemma PrioritiesFollowOrder(severity: string, i: nat, j: nat)
    requires i < j
    ensures ResolvePriority(severity, None, i) < ResolvePriority(severity, None, j)
  {
  }

  // ----- categories and causes -----

  /**
   * `_upsert_category`: an existing category (found by slug) always counts
   * as updated, takes the import's name, and takes its description only
   * when the import supplies one; a new category is created with a fresh id.
   */
  function UpsertCategorySpec(t: Tables, problem: ImportProblem): (r: Upserted<CategoryRow>)
    ensures r.created <==> problem.slug !in t.categories
    ensures r.tables == t.(categories := t.categories[problem.slug := r.row], nextId := r.tables.nextId)
    ensures r.row.name == problem.name
    ensures !r.created ==> var e := t.categories[problem.slug];
                           r.row.id == e.id && r.tables.nextId == t.nextId
                           && r.row.description == (if Filled(problem.description) then problem.description else e.description)
    ensures r.created ==> r.row == CategoryRow(t.nextId, problem.name, problem.description) && r.tables.nextId == t.nextId + 1
  {
    if problem.slug in t.categories then
      var e := t.categories[problem.slug];
      var description := if Filled(problem.description) then problem.description else e.description;
      var row := e.(name := problem.name, description := description);
      Upserted(t.(categories := t.categories[problem.slug := row]), row, false)
    else
      var row := CategoryRow(t.nextId, problem.name, problem.description);
      Upserted(t.(categories := t.categories[problem.slug := row], nextId := t.nextId + 1), row, true)
  }

  /**
   * `_upsert_cause`: the cause is found by (category, slug); its description
   * defaults to its name, its priority is resolved, and an existing row
   * takes every imported field while keeping its id.
   */
  function UpsertCauseSpec(t: Tables, categoryId: nat, cause: ImportCause, severity: string, causeIndex: nat): (r: Upserted<CauseRow>)
    ensures r.created <==> (categoryId, cause.slug) !in t.causes
    ensures r.tables == t.(causes := t.causes[(categoryId, cause.slug) := r.row], nextId := r.tables.nextId)
    ensures r.row.name == cause.name
    ensures r.row.description == Some(if Filled(cause.description) then cause.description.value else cause.name)
    ensures r.row.defaultPriority == ResolvePriority(severity, cause.priority, causeIndex)
    ensures r.row.detectionHints == cause.detectionHints
    ensures !r.created ==> r.row.id == t.causes[(categoryId, cause.slug)].id && r.tables.nextId == t.nextId
    ensures r.created ==> r.row.id == t.nextId && r.tables.nextId == t.nextId + 1
  {
    var key := (categoryId, cause.slug);
    var priority := ResolvePriority(severity, cause.priority, causeIndex);
    var description := if Filled(cause.description) then cause.description.value else cause.name;
    if key in t.causes then
      var row := t.causes[key].(name := cause.name, description := Some(description),
                                defaultPriority := priority, detectionHints := cause.detectionHints);
      Upserted(t.(causes := t.causes[key := row]), row, false)
    else
      var row := CauseRow(t.nextId, cause.name, Some(description), cause.detectionHints, priority);
      Upserted(t.(causes := t.causes[key := row], nextId := t.nextId + 1), row, true)
  }

  // ----- solutions -----

  /** The solutions of one cause, in table order. */
  function StoredCauseRows(rows: seq<SolutionRow>, causeId: nat): (r: seq<SolutionRow>)
    ensures |r| <= |rows|
    ensures forall x :: x in r <==> x in rows && x.causeId == causeId
  {
    if rows == [] then []
    else
      var prev := StoredCauseRows(rows[..|rows| - 1], causeId);
      var last := rows[|rows| - 1];
      assert forall x :: x in rows <==> x in rows[..|rows| - 1] || x == last by {
        assert rows == rows[..|rows| - 1] + [last];
      }
      if last.causeId == causeId then prev + [last] else prev
  }

  function StepOf(x: SolutionRow): int { x.stepOrder }

  function TitleOf(x: SolutionRow): string { x.title }

  /**
   * `list_by_cause` without a limit: the solutions of one cause, ordered by
   * step order, then title.
   */
  function CauseRows(rows: seq<SolutionRow>, causeId: nat): (r: seq<SolutionRow>)
    ensures |r| <= |rows|
    ensures forall x :: x in r <==> x in rows && x.causeId == causeId
    ensures Listing.Ordered(r, StepOf, TitleOf)
  {
    var stored := StoredCauseRows(rows, causeId);
    Listing.SortMembers(stored, StepOf, TitleOf);
    Listing.SortOrdered(stored, StepOf, TitleOf);
    Listing.Sort(stored, StepOf, TitleOf)
  }

  /** `{item.slug: item for item in existing}`: every slug maps to its last row. */
  function SlugIndex(visible: seq<SolutionRow>): (r: map<string, SolutionRow>)
    ensures forall x :: x in visible ==> x.slug in r
    ensures forall k :: k in r ==> r[k] in visible && r[k].slug == k
  {
    if visible == [] then map[]
    else
      var prev := SlugIndex(visible[..|visible| - 1]);
      var last := visible[|visible| - 1];
      assert forall x :: x in visible <==> x in visible[..|visible| - 1] || x == last by {
        assert visible == visible[..|visible| - 1] + [last];
      }
      prev[last.slug := last]
  }

  /** The last row listed with a slug is the one the index keeps for it. */
  lemma {:induction false} SlugIndexLastWins(visible: seq<SolutionRow>, i: nat)
    requires i < |visible|
    requires forall j :: i < j < |visible| ==> visible[j].slug != visible[i].slug
    ensures SlugIndex(visible)[visible[i].slug] == visible[i]
    decreases |visible|
  {
    var n := |visible| - 1;
    var init := visible[..n];
    var slug := visible[i].slug;
    assert SlugIndex(visible) == SlugIndex(init)[visible[n].slug := visible[n]];
    if i < n {
      assert init[i] == visible[i];
      assert forall j :: i < j < |init| ==> init[j].slug != slug by {
        forall j | i < j < |init| ensures init[j].slug != slug {
          assert init[j] == visible[j];
        }
      }
      SlugIndexLastWins(init, i);
      assert visible[n].slug != slug;
    }
  }

  /** The dict's key order: each slug once, at its first occurrence. */
  function SlugOrder(visible: seq<SolutionRow>): (r: seq<string>)
    ensures forall k :: k in r <==> k in SlugIndex(visible)
    ensures forall i, j :: 0 <= i < j < |r| ==> r[i] != r[j]
  {
    if visible == [] then []
    else
      var init := visible[..|visible| - 1];
      var prev := SlugOrder(init);
      var last := visible[|visible| - 1];
      assert SlugIndex(visible) == SlugIndex(init)[last.slug := last];
      if last.slug in prev then prev else prev + [last.slug]
  }

  /** `session.add(solution)` of a known row: every row with its id is replaced. */
  function ReplaceRow(rows: seq<SolutionRow>, row: SolutionRow): (r: seq<SolutionRow>)
    ensures |r| == |rows|
    ensures forall i :: 0 <= i < |rows| ==> r[i] == if rows[i].id == row.id then row else rows[i]
  {
    seq(|rows|, i requires 0 <= i < |rows| => if rows[i].id == row.id then row else rows[i])
  }

  /** `delete_by_id`: the rows with that id go; the others stay in order. */
  function DeleteById(rows: seq<SolutionRow>, id: nat): (r: seq<SolutionRow>)
    ensures |r| <= |rows|
    ensures forall x :: x in r <==> x in rows && x.id != id
  {
    if rows == [] then []
    else
      var prev := DeleteById(rows[..|rows| - 1], id);
      var last := rows[|rows| - 1];
      assert forall x :: x in rows <==> x in rows[..|rows| - 1] || x == last by {
        assert rows == rows[..|rows| - 1] + [last];
      }
      if last.id != id then prev + [last] else prev
  }

  /** The state of `_sync_solutions`' first loop. */
  datatype SyncState = SyncState(
    solutions: seq<SolutionRow>, nextId: nat, bySlug: map<string, SolutionRow>,
    processed: set<string>, created: nat, updated: nat)

  /** An existing row with every imported field written over it. */
  function Revise(row: SolutionRow, action: ImportAction, stepOrder: nat): SolutionRow {
    row.(title := action.title, summary := if Filled(action.summary) then action.summary else None,
         instructions := Render(action.instructions), stepOrder := stepOrder,
         requiresEscalation := action.requiresEscalation)
  }

  /** A new row for an action of the cause. */
  function NewSolution(id: nat, causeId: nat, action: ImportAction, stepOrder: nat): SolutionRow {
    SolutionRow(id, causeId, action.slug, action.title, if Filled(action.summary) then action.summary else None,
                Render(action.instructions), stepOrder, action.requiresEscalation)
  }

  /**
   * One action: an existing slug is rewritten, and counted as updated, only
   * when some field differs; an unknown slug gets a new row (which is not
   * added to the index). Either way the slug is processed.
   */
  function ActionStep(s: SyncState, causeId: nat, action: ImportAction, stepOrder: nat): (r: SyncState)
    ensures r.bySlug.Keys == s.bySlug.Keys
    ensures forall k :: k in s.bySlug ==> r.bySlug[k].id == s.bySlug[k].id
    ensures r.processed == s.processed + {action.slug}
    ensures r.created + r.updated <= s.created + s.updated + 1
    ensures action.slug in s.bySlug ==>
              && r.created == s.created && r.nextId == s.nextId && |r.solutions| == |s.solutions|
              && r.bySlug[action.slug].stepOrder == stepOrder
              && (r.updated == s.updated ==> r.solutions == s.solutions)
              && (r.updated != s.updated ==> r.bySlug[action.slug] != s.bySlug[action.slug])
    ensures action.slug !in s.bySlug ==>
              && r.created == s.created + 1 && r.updated == s.updated && r.nextId == s.nextId + 1
              && r.solutions == s.solutions + [NewSolution(s.nextId, causeId, action, stepOrder)]
  {
    if action.slug in s.bySlug then
      var e := s.bySlug[action.slug];
      var row := Revise(e, action, stepOrder);
      if row != e then
        s.(solutions := ReplaceRow(s.solutions, row), bySlug := s.bySlug[action.slug := row],
           processed := s.processed + {action.slug}, updated := s.updated + 1)
      else s.(processed := s.processed + {action.slug})
    else
      s.(solutions := s.solutions + [NewSolution(s.nextId, causeId, action, stepOrder)], nextId := s.nextId + 1,
         processed := s.processed + {action.slug}, created := s.created + 1)
  }

  /** The first `n` actions, each with its 1-based position as step order. */
  function ActionsFold(s0: SyncState, causeId: nat, actions: seq<ImportAction>, n: nat): (r: SyncState)
    requires n <= |actions|
    ensures r.bySlug.Keys == s0.bySlug.Keys
    ensures forall k :: k in s0.bySlug ==> r.bySlug[k].id == s0.bySlug[k].id
    ensures r.processed == s0.processed + Slugs(actions, n)
    ensures r.created + r.updated <= s0.created + s0.updated + n
  {
    if n == 0 then s0
    else ActionStep(ActionsFold(s0, causeId, actions, n - 1), causeId, actions[n - 1], n)
  }

  /** The slugs of the first `n` actions. */
  function Slugs(actions: seq<ImportAction>, n: nat): set<string>
    requires n <= |actions|
  {
    if n == 0 then {} else Slugs(actions, n - 1) + {actions[n - 1].slug}
  }

  /** A slug no action carries is not among the actions' slugs. */
  lemma {:induction false} NotAmongSlugs(actions: seq<ImportAction>, n: nat, k: string)
    requires n <= |actions|
    requires forall i :: 0 <= i < n ==> actions[i].slug != k
    ensures k !in Slugs(actions, n)
  {
    if n > 0 {
      NotAmongSlugs(actions, n - 1, k);
    }
  }

  /** The removal loop deletes only ids of indexed rows. */
  lemma {:induction false} DeletedIdsIndexed(bySlug: map<string, SolutionRow>, processed: set<string>, keys: seq<string>,
                                             n: nat, id: nat)
    requires n <= |keys|
    requires forall k :: k in keys ==> k in bySlug
    requires forall k :: k in bySlug ==> bySlug[k].id != id
    ensures id !in DeletedIds(bySlug, processed, keys, n)
  {
    if n > 0 {
      DeletedIdsIndexed(bySlug, processed, keys, n - 1, id);
    }
  }

  /** The rows and the count of the removal loop. */
  datatype Removal = Removal(rows: seq<SolutionRow>, removed: nat)

  /** The ids the removal loop deletes among the first `n` keys: those of the unprocessed slugs. */
  function DeletedIds(bySlug: map<string, SolutionRow>, processed: set<string>, keys: seq<string>, n: nat): set<nat>
    requires n <= |keys|
    requires forall k :: k in keys ==> k in bySlug
  {
    if n == 0 then {}
    else
      var k := keys[n - 1];
      DeletedIds(bySlug, processed, keys, n - 1) + if k in processed then {} else {bySlug[k].id}
  }

  /** Every deleted id is the id of an indexed row of an unprocessed key, and each such id is deleted. */
  lemma {:induction false} DeletedIdsAre(bySlug: map<string, SolutionRow>, processed: set<string>, keys: seq<string>, n: nat, id: nat)
    requires n <= |keys|
    requires forall k :: k in keys ==> k in bySlug
    ensures id in DeletedIds(bySlug, processed, keys, n)
            <==> exists i :: 0 <= i < n && keys[i] !in processed && bySlug[keys[i]].id == id
  {
    if n > 0 {
      DeletedIdsAre(bySlug, processed, keys, n - 1, id);
    }
  }

  /**
   * The first `n` keys of the removal loop: the row of every unprocessed
   * slug is deleted, and counted only when the delete removed a row.
   */
  function RemoveFold(rows: seq<SolutionRow>, bySlug: map<string, SolutionRow>, processed: set<string>,
                      keys: seq<string>, n: nat): (r: Removal)
    requires n <= |keys|
    requires forall k :: k in keys ==> k in bySlug
    ensures r.removed <= n && |r.rows| <= |rows|
    ensures forall x :: x in r.rows <==> x in rows && x.id !in DeletedIds(bySlug, processed, keys, n)
    ensures DistinctIds(rows) ==> DistinctIds(r.rows) && r.removed == |rows| - |r.rows|
  {
    if n == 0 then Removal(rows, 0)
    else RemoveStep(RemoveFold(rows, bySlug, processed, keys, n - 1), bySlug, processed, keys[n - 1])
  }

  /** One key of the removal loop: an unprocessed slug's row is deleted, counted if a row went. */
  function RemoveStep(prev: Removal, bySlug: map<string, SolutionRow>, processed: set<string>, k: string): (r: Removal)
    requires k in bySlug
    ensures r.removed <= prev.removed + 1 && |r.rows| <= |prev.rows|
    ensures forall x :: x in r.rows <==> x in prev.rows && (k in processed || x.id != bySlug[k].id)
    ensures k in processed ==> r == prev
    ensures DistinctIds(prev.rows) ==> DistinctIds(r.rows) && r.removed == prev.removed + (|prev.rows| - |r.rows|)
  {
    if k in processed then prev
    else
      var after := DeleteById(prev.rows, bySlug[k].id);
      DeleteDistinct(prev.rows, bySlug[k].id);
      Removal(after, prev.removed + if |after| < |prev.rows| then 1 else 0)
  }

  /** No two rows share an id. */
  predicate DistinctIds(rows: seq<SolutionRow>) {
    forall i, j :: 0 <= i < j < |rows| ==> rows[i].id != rows[j].id
  }

  /** In a table with distinct ids, a delete by id removes at most one row and keeps the ids distinct. */
  lemma {:induction false} DeleteDistinct(rows: seq<SolutionRow>, id: nat)
    ensures DistinctIds(rows) ==> DistinctIds(DeleteById(rows, id)) && |rows| - 1 <= |DeleteById(rows, id)|
    decreases |rows|
  {
    if rows != [] && DistinctIds(rows) {
      var init := rows[..|rows| - 1];
      var last := rows[|rows| - 1];
      assert forall i :: 0 <= i < |init| ==> init[i] == rows[i];
      DeleteDistinct(init, id);
      var prev := DeleteById(init, id);
      assert forall x :: x in init ==> x.id != last.id;
      if last.id != id {
        assert forall i :: 0 <= i < |prev| ==> prev[i] in init;
        assert (prev + [last])[|prev|] == last;
      } else {
        DeleteAbsent(init, id);
      }
    }
  }

  /** Deleting an id no row has changes nothing. */
  lemma {:induction false} DeleteAbsent(rows: seq<SolutionRow>, id: nat)
    requires forall x :: x in rows ==> x.id != id
    ensures DeleteById(rows, id) == rows
    decreases |rows|
  {
    if rows != [] {
      var init := rows[..|rows| - 1];
      DeleteAbsent(init, id);
      assert rows == init + [rows[|rows| - 1]];
    }
  }

  /** The counters of one `_sync_solutions`. */
  datatype SyncCounts = SyncCounts(created: nat, updated: nat, removed: nat)

  datatype Synced = Synced(tables: Tables, counts: SyncCounts)

  /** `_sync_solutions` given the existing solutions it sees. */
  function SyncSpec(t: Tables, causeId: nat, actions: seq<ImportAction>, visible: seq<SolutionRow>): (r: Synced)
    ensures r.tables.categories == t.categories && r.tables.causes == t.causes
    ensures r.counts.created + r.counts.updated <= |actions|
  {
    var s := ActionsFold(SyncState(t.solutions, t.nextId, SlugIndex(visible), {}, 0, 0), causeId, actions, |actions|);
    var keys := SlugOrder(visible);
    var rm := RemoveFold(s.solutions, s.bySlug, s.processed, keys, |keys|);
    Synced(t.(solutions := rm.rows, nextId := s.nextId), SyncCounts(s.created, s.updated, rm.removed))
  }

  /** `SyncSpec` as its two loops: the actions fold, then the removal fold over the dict's keys. */
  lemma SyncSpecUnfolds(t: Tables, causeId: nat, actions: seq<ImportAction>, visible: seq<SolutionRow>)
    ensures var s := ActionsFold(SyncState(t.solutions, t.nextId, SlugIndex(visible), {}, 0, 0), causeId, actions, |actions|);
            var keys := SlugOrder(visible);
            var rm := RemoveFold(s.solutions, s.bySlug, s.processed, keys, |keys|);
            SyncSpec(t, causeId, actions, visible)
            == Synced(Tables(t.categories, t.causes, rm.rows, s.nextId), SyncCounts(s.created, s.updated, rm.removed))
  {
  }

  /** The solutions the sync sees: every solution of the cause (the corrected listing). */
  function Existing(rows: seq<SolutionRow>, causeId: nat): seq<SolutionRow> {
    CauseRows(rows, causeId)
  }

  /** `list_by_cause`'s default page size, which the sync as written does not override. */
  const ListLimit := 10

  /** What the sync as written sees: at most the first ten solutions of the cause. */
  function AsWrittenExisting(rows: seq<SolutionRow>, causeId: nat): (r: seq<SolutionRow>)
    ensures |r| <= ListLimit
    ensures forall x :: x in r ==> x in rows && x.causeId == causeId
  {
    var all := CauseRows(rows, causeId);
    if |all| <= ListLimit then all else all[..ListLimit]
  }

  // ----- the whole import -----

  /** One cause of a problem: upsert it, then sync its solutions, adding to the counters. */
  function CauseStep(st: Step, categoryId: nat, problem: ImportProblem, index: nat): (r: Step)
    requires index < |problem.causes|
    ensures r.counts.causesCreated + r.counts.causesUpdated == st.counts.causesCreated + st.counts.causesUpdated + 1
    ensures r.counts.categoriesCreated == st.counts.categoriesCreated
    ensures r.counts.categoriesUpdated == st.counts.categoriesUpdated
  {
    var cause := problem.causes[index];
    var up := UpsertCauseSpec(st.tables, categoryId, cause, problem.severity, index);
    var sync := SyncSpec(up.tables, up.row.id, cause.actions, Existing(up.tables.solutions, up.row.id));
    Step(sync.tables, SolutionsCounted(CauseCounted(st.counts, up.created), sync.counts))
  }

  /** The counter a cause upsert bumps. */
  function CauseCounted(c: Counts, created: bool): Counts {
    if created then c.(causesCreated := c.causesCreated + 1)
    else c.(causesUpdated := c.causesUpdated + 1)
  }

  /** A sync's counters added to the solution counters. */
  function SolutionsCounted(c: Counts, sync: SyncCounts): Counts {
    c.(solutionsCreated := c.solutionsCreated + sync.created,
       solutionsUpdated := c.solutionsUpdated + sync.updated,
       solutionsRemoved := c.solutionsRemoved + sync.removed)
  }

  /** The first `n` causes of a problem: each counts exactly once as created or updated. */
  function CausesFold(st: Step, categoryId: nat, problem: ImportProblem, n: nat): (r: Step)
    requires n <= |problem.causes|
    ensures r.counts.causesCreated + r.counts.causesUpdated == st.counts.causesCreated + st.counts.causesUpdated + n
    ensures r.counts.categoriesCreated == st.counts.categoriesCreated
    ensures r.counts.categoriesUpdated == st.counts.categoriesUpdated
  {
    if n == 0 then st
    else CauseStep(CausesFold(st, categoryId, problem, n - 1), categoryId, problem, n - 1)
  }

  /** The counter a category upsert bumps. */
  function CategoryCounted(c: Counts, created: bool): Counts {
    if created then c.(categoriesCreated := c.categoriesCreated + 1)
    else c.(categoriesUpdated := c.categoriesUpdated + 1)
  }

  /** One problem: upsert its category, then each of its causes in order. */
  function ProblemStep(st: Step, problem: ImportProblem): (r: Step)
    ensures r.counts.categoriesCreated + r.counts.categoriesUpdated
            == st.counts.categoriesCreated + st.counts.categoriesUpdated + 1
    ensures r.counts.causesCreated + r.counts.causesUpdated
            == st.counts.causesCreated + st.counts.causesUpdated + |problem.causes|
  {
    var up := UpsertCategorySpec(st.tables, problem);
    CausesFold(Step(up.tables, CategoryCounted(st.counts, up.created)), up.row.id, problem, |problem.causes|)
  }

  /** The number of causes in the first `n` problems. */
  function CauseTotal(problems: seq<ImportProblem>, n: nat): nat
    requires n <= |problems|
  {
    if n == 0 then 0 else CauseTotal(problems, n - 1) + |problems[n - 1].causes|
  }

  /**
   * `import_catalog` over the first `n` problems: each problem counts once
   * as a created or an updated category, and each cause once as a created
   * or an updated cause.
   */
  function ProblemsFold(st: Step, problems: seq<ImportProblem>, n: nat): (r: Step)
    requires n <= |problems|
    ensures r.counts.categoriesCreated + r.counts.categoriesUpdated
            == st.counts.categoriesCreated + st.counts.categoriesUpdated + n
    ensures r.counts.causesCreated + r.counts.causesUpdated
            == st.counts.causesCreated + st.counts.causesUpdated + CauseTotal(problems, n)
  {
    if n == 0 then st else ProblemStep(ProblemsFold(st, problems, n - 1), problems[n - 1])
  }

  /** The tables and the result of importing a catalog. */
  function ImportSpec(t: Tables, problems: seq<ImportProblem>): Step {
    ProblemsFold(Step(t, NoCounts), problems, |problems|)
  }

  class TroubleshootingImportService {
    var categories: map<string, CategoryRow>
    var causes: map<(nat, string), CauseRow>
    var solutions: seq<SolutionRow>
    var nextId: nat

    function State(): Tables
      reads this
    {
      Tables(categories, causes, solutions, nextId)
    }

    constructor (t: Tables)
      ensures State() == t
    {
      categories, causes, solutions, nextId := t.categories, t.causes, t.solutions, t.nextId;
    }

    /** `import_catalog`: every problem in order, summing the counters. */
    method ImportCatalog(problems: seq<ImportProblem>) returns (counts: Counts)
      modifies this
      ensures Step(State(), counts) == ImportSpec(old(State()), problems)
    {
      counts := NoCounts;
      for p := 0 to |problems|
        invariant Step(State(), counts) == ProblemsFold(Step(old(State()), NoCounts), problems, p)
      {
        counts := ApplyProblem(problems[p], counts);
      }
    }

    /** One problem of `import_catalog`: its category, then each of its causes. */
    method ApplyProblem(problem: ImportProblem, counts: Counts) returns (counts': Counts)
      modifies this
      ensures Step(State(), counts') == ProblemStep(Step(old(State()), counts), problem)
    {
      ghost var up := UpsertCategorySpec(old(State()), problem);
      var category, created := UpsertCategory(problem);
      assert State() == up.tables && category == up.row && created == up.created;
      counts' := CategoryCounted(counts, created);
      counts' := ApplyCauses(category.id, problem, counts');
    }

    /** The loop over a problem's causes, in order. */
    method ApplyCauses(categoryId: nat, problem: ImportProblem, counts: Counts) returns (counts': Counts)
      modifies this
      ensures Step(State(), counts') == CausesFold(Step(old(State()), counts), categoryId, problem, |problem.causes|)
    {
      counts' := counts;
      for c := 0 to |problem.causes|
        invariant Step(State(), counts') == CausesFold(Step(old(State()), counts), categoryId, problem, c)
      {
        counts' := ApplyCause(categoryId, problem, c, counts');
      }
    }

    /** One cause of a problem: `_upsert_cause`, then `_sync_solutions` on its row, adding to the counters. */
    method ApplyCause(categoryId: nat, problem: ImportProblem, index: nat, counts: Counts) returns (counts': Counts)
      requires index < |problem.causes|
      modifies this
      ensures Step(State(), counts') == CauseStep(Step(old(State()), counts), categoryId, problem, index)
    {
      var cause := problem.causes[index];
      ghost var up := UpsertCauseSpec(old(State()), categoryId, cause, problem.severity, index);
      var causeRow, created := UpsertCause(categoryId, cause, problem.severity, index);
      assert State() == up.tables && causeRow == up.row && created == up.created;
      counts' := CauseCounted(counts, created);
      var sync := SyncSolutions(causeRow.id, cause.actions);
      ghost var spec := SyncSpec(up.tables, up.row.id, cause.actions, Existing(up.tables.solutions, up.row.id));
      assert State() == spec.tables && sync == spec.counts;
      counts' := SolutionsCounted(counts', sync);
    }

    /** `_upsert_category`, writing the fields one by one as the service does. */
    method UpsertCategory(problem: ImportProblem) returns (row: CategoryRow, created: bool)
      modifies this
      ensures Upserted(State(), row, created) == UpsertCategorySpec(old(State()), problem)
    {
      if problem.slug in categories {
        row := categories[problem.slug];
        var updated := false;
        if row.name != problem.name {
          row := row.(name := problem.name);
          updated := true;
        }
        var description := if Filled(problem.description) then problem.description else row.description;
        if description != row.description {
          row := row.(description := description);
          updated := true;
        }
        if updated {
          categories := categories[problem.slug := row];
        }
        assert categories == old(categories)[problem.slug := row];
        return row, false;
      }
      row := CategoryRow(nextId, problem.name, problem.description);
      categories := categories[problem.slug := row];
      nextId := nextId + 1;
      created := true;
    }

    /** `_upsert_cause`, writing the fields one by one as the service does. */
    method UpsertCause(categoryId: nat, cause: ImportCause, severity: string, causeIndex: nat)
      returns (row: CauseRow, created: bool)
      modifies this
      ensures Upserted(State(), row, created) == UpsertCauseSpec(old(State()), categoryId, cause, severity, causeIndex)
    {
      var key := (categoryId, cause.slug);
      var priority := ResolvePriority(severity, cause.priority, causeIndex);
      var description := if Filled(cause.description) then cause.description.value else cause.name;
      if key in causes {
        row := causes[key];
        var updated := false;
        if row.name != cause.name {
          row := row.(name := cause.name);
          updated := true;
        }
        if row.description != Some(description) {
          row := row.(description := Some(description));
          updated := true;
        }
        if row.defaultPriority != priority {
          row := row.(defaultPriority := priority);
          updated := true;
        }
        if row.detectionHints != cause.detectionHints {
          row := row.(detectionHints := cause.detectionHints);
          updated := true;
        }
        if updated {
          causes := causes[key := row];
        }
        assert causes == old(causes)[key := row];
        return row, false;
      }
      row := CauseRow(nextId, cause.name, Some(description), cause.detectionHints, priority);
      causes := causes[key := row];
      nextId := nextId + 1;
      created := true;
    }

    /** `_sync_solutions` over every existing solution of the cause. */
    method SyncSolutions(causeId: nat, actions: seq<ImportAction>) returns (counts: SyncCounts)
      modifies this
      ensures Synced(State(), counts) == SyncSpec(old(State()), causeId, actions, Existing(old(solutions), causeId))
    {
      var existing := Existing(solutions, causeId);
      var existingBySlug := SlugIndex(existing);
      var processed: set<string> := {};
      var created, updated := 0, 0;
      ghost var s0 := SyncState(solutions, nextId, existingBySlug, {}, 0, 0);
      for i := 0 to |actions|
        invariant SyncState(solutions, nextId, existingBySlug, processed, created, updated)
                  == ActionsFold(s0, causeId, actions, i)
        invariant categories == old(categories) && causes == old(causes)
      {
        var instructions := RenderInstructions(actions[i].instructions);
        existingBySlug, processed, created, updated :=
          ApplyAction(causeId, actions[i], instructions, i + 1, existingBySlug, processed, created, updated);
      }
      var keys := SlugOrder(existing);
      var removed := 0;
      ghost var rows0, next := solutions, nextId;
      for j := 0 to |keys|
        invariant Removal(solutions, removed) == RemoveFold(rows0, existingBySlug, processed, keys, j)
        invariant categories == old(categories) && causes == old(causes) && nextId == next
      {
        removed := RemoveStale(keys[j], existingBySlug, processed, removed);
      }
      counts := SyncCounts(created, updated, removed);
      ghost var t := old(State());
      assert s0 == SyncState(t.solutions, t.nextId, SlugIndex(existing), {}, 0, 0);
      ghost var s := ActionsFold(s0, causeId, actions, |actions|);
      assert s.solutions == rows0 && s.bySlug == existingBySlug && s.processed == processed;
      assert State() == Tables(t.categories, t.causes, solutions, s.nextId);
      SyncSpecUnfolds(t, causeId, actions, existing);
    }

    /**
     * One action of `_sync_solutions`' first loop, given its rendered
     * instructions, over the loop's local index,
     * processed set and counters: a known slug's row is rewritten field by
     * field and saved only when something differed; an unknown slug is added.
     */
    method ApplyAction(causeId: nat, action: ImportAction, instructions: string, stepOrder: nat,
                       bySlug: map<string, SolutionRow>, processed: set<string>, created: nat, updated: nat)
      returns (bySlug': map<string, SolutionRow>, processed': set<string>, created': nat, updated': nat)
      requires instructions == Render(action.instructions)
      modifies this
      ensures SyncState(solutions, nextId, bySlug', processed', created', updated')
              == ActionStep(SyncState(old(solutions), old(nextId), bySlug, processed, created, updated),
                            causeId, action, stepOrder)
      ensures categories == old(categories) && causes == old(causes)
    {
      if action.slug in bySlug {
        bySlug', updated' := UpdateSolution(action, instructions, stepOrder, bySlug, updated);
        processed', created' := processed + {action.slug}, created;
      } else {
        AddSolution(causeId, action, instructions, stepOrder);
        bySlug', processed', created', updated' := bySlug, processed + {action.slug}, created + 1, updated;
      }
    }

    /**
     * A known slug: its row is revised field by field, and written back and
     * counted only when a field differed.
     */
    method UpdateSolution(action: ImportAction, instructions: string, stepOrder: nat,
                          bySlug: map<string, SolutionRow>, updated: nat)
      returns (bySlug': map<string, SolutionRow>, updated': nat)
      requires instructions == Render(action.instructions)
      requires action.slug in bySlug
      modifies this
      ensures var row := Revise(bySlug[action.slug], action, stepOrder);
              if row != bySlug[action.slug]
              then solutions == ReplaceRow(old(solutions), row) && bySlug' == bySlug[action.slug := row] && updated' == updated + 1
              else solutions == old(solutions) && bySlug' == bySlug && updated' == updated
      ensures categories == old(categories) && causes == old(causes) && nextId == old(nextId)
    {
      var summary := if Filled(action.summary) then action.summary else None;
      var solution, changed := ReviseFields(bySlug[action.slug], action, summary, instructions, stepOrder);
      bySlug', updated' := bySlug, updated;
      if changed {
        solutions := ReplaceRow(solutions, solution);
        bySlug' := bySlug[action.slug := solution];
        updated' := updated + 1;
      }
    }

    /** An unknown slug: a new row with the next id is added. */
    method AddSolution(causeId: nat, action: ImportAction, instructions: string, stepOrder: nat)
      requires instructions == Render(action.instructions)
      modifies this
      ensures solutions == old(solutions) + [NewSolution(old(nextId), causeId, action, stepOrder)]
      ensures nextId == old(nextId) + 1
      ensures categories == old(categories) && causes == old(causes)
    {
      var summary := if Filled(action.summary) then action.summary else None;
      solutions := solutions + [SolutionRow(nextId, causeId, action.slug, action.title, summary,
                                            instructions, stepOrder, action.requiresEscalation)];
      nextId := nextId + 1;
    }

    /**
     * The field-by-field comparison of `_sync_solutions`: each imported
     * field that differs is written, and `changed` records whether any did.
     */
    method ReviseFields(row: SolutionRow, action: ImportAction, summary: Option<string>, instructions: string,
                        stepOrder: nat) returns (solution: SolutionRow, changed: bool)
      ensures solution == row.(title := action.title, summary := summary, instructions := instructions,
                               stepOrder := stepOrder, requiresEscalation := action.requiresEscalation)
      ensures changed <==> solution != row
    {
      solution, changed := row, false;
      if solution.title != action.title {
        solution := solution.(title := action.title);
        changed := true;
      }
      if solution.summary != summary {
        solution := solution.(summary := summary);
        changed := true;
      }
      if solution.instructions != instructions {
        solution := solution.(instructions := instructions);
        changed := true;
      }
      if solution.stepOrder != stepOrder {
        solution := solution.(stepOrder := stepOrder);
        changed := true;
      }
      if solution.requiresEscalation != action.requiresEscalation {
        solution := solution.(requiresEscalation := action.requiresEscalation);
        changed := true;
      }
    }

    /** One key of `_sync_solutions`' removal loop: `delete_by_id` for a slug the catalog no longer lists. */
    method RemoveStale(slug: string, bySlug: map<string, SolutionRow>, processed: set<string>, removed: nat)
      returns (removed': nat)
      requires slug in bySlug
      modifies this
      ensures Removal(solutions, removed') == RemoveStep(Removal(old(solutions), removed), bySlug, processed, slug)
      ensures categories == old(categories) && causes == old(causes) && nextId == old(nextId)
    {
      removed' := removed;
      if slug !in processed {
        var before := |solutions|;
        solutions := DeleteById(solutions, bySlug[slug].id);
        if |solutions| < before {
          removed' := removed + 1;
        }
      }
    }
  }

  /** `_render_instructions`: the loop over the steps, building the list of lines. */
  method RenderInstructions(steps: seq<Option<string>>) returns (text: string)
    ensures text == Render(steps)
  {
    var formatted: seq<string> := [];
    for i := 0 to |steps|
      invariant formatted == FormatSteps(steps[..i])
    {
      assert steps[..i + 1][..i] == steps[..i];
      var raw := steps[i];
      var line := Text.Strip(raw.GetOr(""));
      if line == [] {
        continue;
      }
      if Text.StartsWith(line, "-") {
        formatted := formatted + [line];
      } else {
        formatted := formatted + ["- " + line];
      }
    }
    assert steps[..|steps|] == steps;
    text := if formatted != [] then Text.Join(formatted, "\n") else "";
  }

  // ----- properties of the solution sync -----

  /**
   * With every existing solution visible, an import whose action slugs all
   * exist already for the cause creates nothing: each action updates its row
   * in place, so re-importing a catalog never duplicates solutions.
   */
  lemma SyncReusesExisting(t: Tables, causeId: nat, actions: seq<ImportAction>)
    requires SlugsStored(t, causeId, actions)
    ensures SyncSpec(t, causeId, actions, Existing(t.solutions, causeId)).counts.created == 0
    ensures |SyncSpec(t, causeId, actions, Existing(t.solutions, causeId)).tables.solutions| <= |t.solutions|
  {
    var visible := Existing(t.solutions, causeId);
    var s0 := SyncState(t.solutions, t.nextId, SlugIndex(visible), {}, 0, 0);
    ExistingSlugsIndexed(t, causeId, actions);
    FoldCreatesNothing(s0, causeId, actions, |actions|);
    FoldKeepsRowCount(s0, causeId, actions, |actions|);
    var s := ActionsFold(s0, causeId, actions, |actions|);
    var keys := SlugOrder(visible);
    var rm := RemoveFold(s.solutions, s.bySlug, s.processed, keys, |keys|);
    assert SyncSpec(t, causeId, actions, visible).counts.created == s.created;
    assert SyncSpec(t, causeId, actions, visible).tables.solutions == rm.rows;
  }

  /** Every action's slug already belongs to one of the cause's stored solutions. */
  predicate SlugsStored(t: Tables, causeId: nat, actions: seq<ImportAction>) {
    forall i :: 0 <= i < |actions| ==> exists x :: x in t.solutions && x.causeId == causeId && x.slug == actions[i].slug
  }

  /** Slugs the cause already has are keys of the full index. */
  lemma ExistingSlugsIndexed(t: Tables, causeId: nat, actions: seq<ImportAction>)
    requires SlugsStored(t, causeId, actions)
    ensures forall i :: 0 <= i < |actions| ==> actions[i].slug in SlugIndex(Existing(t.solutions, causeId))
  {
    forall i | 0 <= i < |actions|
      ensures actions[i].slug in SlugIndex(Existing(t.solutions, causeId))
    {
      var slug := actions[i].slug;
      assert exists x :: x in t.solutions && x.causeId == causeId && x.slug == slug;
      var x :| x in t.solutions && x.causeId == causeId && x.slug == slug;
      assert x in Existing(t.solutions, causeId);
    }
  }

  /** Actions whose slugs are all indexed create no row. */
  lemma {:induction false} FoldCreatesNothing(s0: SyncState, causeId: nat, actions: seq<ImportAction>, n: nat)
    requires n <= |actions|
    requires forall i :: 0 <= i < |actions| ==> actions[i].slug in s0.bySlug
    ensures ActionsFold(s0, causeId, actions, n).created == s0.created
  {
    if n > 0 {
      FoldCreatesNothing(s0, causeId, actions, n - 1);
      var prev := ActionsFold(s0, causeId, actions, n - 1);
      assert actions[n - 1].slug in prev.bySlug;
      assert ActionsFold(s0, causeId, actions, n) == ActionStep(prev, causeId, actions[n - 1], n);
    }
  }

  /** Actions whose slugs are all indexed leave the number of rows as it was. */
  lemma {:induction false} FoldKeepsRowCount(s0: SyncState, causeId: nat, actions: seq<ImportAction>, n: nat)
    requires n <= |actions|
    requires forall i :: 0 <= i < |actions| ==> actions[i].slug in s0.bySlug
    ensures |ActionsFold(s0, causeId, actions, n).solutions| == |s0.solutions|
  {
    if n > 0 {
      FoldKeepsRowCount(s0, causeId, actions, n - 1);
      assert actions[n - 1].slug in ActionsFold(s0, causeId, actions, n - 1).bySlug;
    }
  }

  /**
   * The sync removes stale solutions: after it, no solution is left with
   * the id that an unimported slug indexed, and the removal counter is at
   * most the number of listed slugs.
   */
  lemma StaleSolutionsRemoved(t: Tables, causeId: nat, actions: seq<ImportAction>, visible: seq<SolutionRow>, k: string)
    requires k in SlugOrder(visible) && forall i :: 0 <= i < |actions| ==> actions[i].slug != k
    ensures var r := SyncSpec(t, causeId, actions, visible);
            && r.counts.removed <= |SlugOrder(visible)|
            && forall x :: x in r.tables.solutions ==> x.id != SlugIndex(visible)[k].id
  {
    var s0 := SyncState(t.solutions, t.nextId, SlugIndex(visible), {}, 0, 0);
    var s := ActionsFold(s0, causeId, actions, |actions|);
    var keys := SlugOrder(visible);
    NotAmongSlugs(actions, |actions|, k);
    assert k !in s.processed;
    var j :| 0 <= j < |keys| && keys[j] == k;
    var id := s.bySlug[k].id;
    DeletedIdsAre(s.bySlug, s.processed, keys, |keys|, id);
    assert id in DeletedIds(s.bySlug, s.processed, keys, |keys|);
    assert id == SlugIndex(visible)[k].id;
    var rm := RemoveFold(s.solutions, s.bySlug, s.processed, keys, |keys|);
    assert SyncSpec(t, causeId, actions, visible) == Synced(t.(solutions := rm.rows, nextId := s.nextId), SyncCounts(s.created, s.updated, rm.removed));
  }

  /** Every solution the sync creates carries its action's 1-based position as step order. */
  lemma CreatedStepOrder(s: SyncState, causeId: nat, actions: seq<ImportAction>, n: nat)
    requires n < |actions|
    requires actions[n].slug !in ActionsFold(s, causeId, actions, n).bySlug
    ensures var after := ActionsFold(s, causeId, actions, n + 1);
            after.solutions[|after.solutions| - 1].stepOrder == n + 1
            && after.solutions[|after.solutions| - 1].slug == actions[n].slug
  {
  }

  /** Ids in the table are distinct and below the counter. */
  predicate IdsFresh(t: Tables) {
    && DistinctIds(t.solutions)
    && (forall x :: x in t.solutions ==> x.id < t.nextId)
  }

  /**
   * The sync as written lists only the first ten solutions of a cause. When
   * the cause has an eleventh whose slug none of the first ten has,
   * importing that slug creates a second row for it and leaves the old one
   * in place: the cause ends with two solutions of the same slug.
   */
  lemma AsWrittenSyncDuplicates(t: Tables, causeId: nat, action: ImportAction)
    requires IdsFresh(t)
    requires |CauseRows(t.solutions, causeId)| > ListLimit
    requires action.slug == CauseRows(t.solutions, causeId)[ListLimit].slug
    requires forall x :: x in AsWrittenExisting(t.solutions, causeId) ==> x.slug != action.slug
    ensures var r := SyncSpec(t, causeId, [action], AsWrittenExisting(t.solutions, causeId));
            var old_ := CauseRows(t.solutions, causeId)[ListLimit];
            && r.counts.created == 1
            && old_ in r.tables.solutions
            && NewSolution(t.nextId, causeId, action, 1) in r.tables.solutions
            && old_ != NewSolution(t.nextId, causeId, action, 1)
            && old_.slug == action.slug && old_.causeId == causeId
  {
    var all := CauseRows(t.solutions, causeId);
    var visible := AsWrittenExisting(t.solutions, causeId);
    var old_ := all[ListLimit];
    assert old_ in all;
    OldRowNotListed(t, causeId);
    forall v | v in visible
      ensures v.id != old_.id && v.id != t.nextId
    {
      IdDetermines(t, v, old_);
    }
    NewSlugSync(t, causeId, action, visible, old_);
  }

  /**
   * Syncing one action whose slug the listed solutions do not have creates
   * a row for it, and keeps every row the listing did not show.
   */
  lemma NewSlugSync(t: Tables, causeId: nat, action: ImportAction, visible: seq<SolutionRow>, x: SolutionRow)
    requires action.slug !in SlugIndex(visible)
    requires x in t.solutions
    requires forall v :: v in visible ==> v.id != x.id && v.id != t.nextId
    ensures var r := SyncSpec(t, causeId, [action], visible);
            && r.counts.created == 1
            && x in r.tables.solutions
            && NewSolution(t.nextId, causeId, action, 1) in r.tables.solutions
  {
    var index := SlugIndex(visible);
    var s0 := SyncState(t.solutions, t.nextId, index, {}, 0, 0);
    FoldOne(s0, causeId, action);
    var s := ActionsFold(s0, causeId, [action], 1);
    var created := NewSolution(t.nextId, causeId, action, 1);
    assert s.solutions == t.solutions + [created] && s.created == 1;
    var keys := SlugOrder(visible);
    SyncSpecUnfolds(t, causeId, [action], visible);
    forall k | k in s.bySlug
      ensures s.bySlug[k].id != x.id && s.bySlug[k].id != t.nextId
    {
      assert index[k] in visible;
    }
    DeletedIdsIndexed(s.bySlug, s.processed, keys, |keys|, x.id);
    DeletedIdsIndexed(s.bySlug, s.processed, keys, |keys|, t.nextId);
  }

  /** A one-action fold is one step. */
  lemma FoldOne(s0: SyncState, causeId: nat, action: ImportAction)
    ensures ActionsFold(s0, causeId, [action], 1) == ActionStep(s0, causeId, action, 1)
  {
    assert [action][0] == action;
    assert ActionsFold(s0, causeId, [action], 0) == s0;
  }

  /** The eleventh solution of a cause is not among the ten the sync as written lists. */
  lemma OldRowNotListed(t: Tables, causeId: nat)
    requires IdsFresh(t)
    requires |CauseRows(t.solutions, causeId)| > ListLimit
    ensures CauseRows(t.solutions, causeId)[ListLimit] !in AsWrittenExisting(t.solutions, causeId)
  {
    var all := CauseRows(t.solutions, causeId);
    assert AsWrittenExisting(t.solutions, causeId) == all[..ListLimit];
    if all[ListLimit] in all[..ListLimit] {
      var m :| 0 <= m < ListLimit && all[..ListLimit][m] == all[ListLimit];
      CauseRowsDistinct(t, causeId, m, ListLimit);
    }
  }

  /** Different rows of the table have different ids. */
  lemma IdDetermines(t: Tables, a: SolutionRow, b: SolutionRow)
    requires IdsFresh(t) && a in t.solutions && b in t.solutions && a != b
    ensures a.id != b.id
  {
    var i :| 0 <= i < |t.solutions| && t.solutions[i] == a;
    var j :| 0 <= j < |t.solutions| && t.solutions[j] == b;
    assert i != j;
  }

  /** In a table with distinct ids, a cause's rows at different positions are different rows. */
  lemma CauseRowsDistinct(t: Tables, causeId: nat, m: nat, n: nat)
    requires IdsFresh(t)
    requires m < n < |CauseRows(t.solutions, causeId)|
    ensures CauseRows(t.solutions, causeId)[m] != CauseRows(t.solutions, causeId)[n]
  {
    var stored := StoredCauseRows(t.solutions, causeId);
    forall i, j | 0 <= i < j < |stored|
      ensures stored[i] != stored[j]
    {
      DistinctRowsStayDistinct(t.solutions, causeId, i, j);
    }
    Listing.SortDistinct(stored, StepOf, TitleOf);
  }

  /** Filtering a list of rows with distinct ids keeps them distinct. */
  lemma {:induction false} DistinctRowsStayDistinct(rows: seq<SolutionRow>, causeId: nat, m: nat, n: nat)
    requires DistinctIds(rows)
    requires m < n < |StoredCauseRows(rows, causeId)|
    ensures StoredCauseRows(rows, causeId)[m].id != StoredCauseRows(rows, causeId)[n].id
    decreases |rows|
  {
    var init := rows[..|rows| - 1];
    var last := rows[|rows| - 1];
    var prev := StoredCauseRows(init, causeId);
    if last.causeId == causeId && n == |prev| {
      assert StoredCauseRows(rows, causeId)[n] == last;
      assert StoredCauseRows(rows, causeId)[m] == prev[m];
      assert prev[m] in init;
      var i :| 0 <= i < |init| && init[i] == prev[m];
      assert rows[i] == prev[m];
    } else {
      assert StoredCauseRows(rows, causeId)[m] == prev[m] && StoredCauseRows(rows, causeId)[n] == prev[n];
      DistinctRowsStayDistinct(init, causeId, m, n);
    }
  }
}
