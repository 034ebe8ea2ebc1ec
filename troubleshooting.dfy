/**
 * The troubleshooting records shared by the classifiers, the planner and the
 * workflow services: catalog views (category, cause, solution), the
 * classification result, the suggestion plan, and the session suggestion
 * ledger (`SessionSuggestionRepository`) as an in-memory table.
 */
module Troubleshooting {
  import opened Wrappers
  import opened Store

  datatype CategoryView = CategoryView(id: Uuid, slug: string, name: string, description: Option<string>)

  datatype CauseView = CauseView(id: Uuid, categoryId: Uuid, slug: string, name: string, description: Option<string>)

  datatype SolutionView = SolutionView(
    id: Uuid,
    causeId: Uuid,
    slug: string,
    title: string,
    instructions: string,
    summary: Option<string>,
    stepOrder: int,
    requiresEscalation: bool)

  datatype PlannedSolution = PlannedSolution(solution: SolutionView, alreadySuggested: bool)

  /** `ProblemRequestType`. */
  datatype RequestType = Troubleshoot | ResolutionCheck | EscalationRequest | Clarification

  function RequestTypeName(t: RequestType): string {
    match t
    case Troubleshoot => "troubleshoot"
    case ResolutionCheck => "resolution_check"
    case EscalationRequest => "escalation"
    case Clarification => "clarification"
  }

  /** `ProblemClassificationResult`. */
  datatype Classification = Classification(
    category: Option<CategoryView>,
    cause: Option<CauseView>,
    confidence: Option<real>,
    rationale: Option<string>,
    escalate: bool,
    escalateReason: Option<string>,
    needsMoreInfo: bool,
    nextQuestions: seq<string>,
    requestType: Option<RequestType>)

  /** `ProblemClassificationResult()` with every field at its default. */
  const DefaultClassification := Classification(None, None, None, None, false, None, false, [], None)

  /** `SuggestionPlan`. */
  datatype SuggestionPlan = SuggestionPlan(solutions: seq<PlannedSolution>, escalate: bool, notes: Option<string>)

  /** Python's `a or b` on optional text: an absent or empty `a` gives `b`. */
  function OrText(a: Option<string>, b: Option<string>): (r: Option<string>)
    ensures a.Some? && a.value != [] ==> r == a
    ensures (a.None? || a.value == []) ==> r == b
  {
    if a.Some? && a.value != [] then a else b
  }

  /** `a or "default"` on optional text: never empty. */
  function OrDefault(a: Option<string>, default: string): (r: string)
    ensures a.Some? && a.value != [] ==> r == a.value
    ensures (a.None? || a.value == []) ==> r == default
  {
    if a.Some? && a.value != [] then a.value else default
  }

  /** A row of the session suggestion ledger: a solution suggested in a session. */
  datatype SuggestionRow = SuggestionRow(sessionId: Uuid, solutionId: Uuid)

  /** The ids of the solutions the ledger holds for one session. */
  function SuggestedIds(rows: seq<SuggestionRow>, sessionId: Uuid): (r: set<Uuid>)
    ensures forall id :: id in r <==> exists i :: 0 <= i < |rows| && rows[i] == SuggestionRow(sessionId, id)
  {
    if rows == [] then {}
    else
      var rest := SuggestedIds(rows[1..], sessionId);
      assert forall i :: 1 <= i < |rows| ==> rows[i] == rows[1..][i - 1];
      assert forall id :: id in rest <==> exists i :: 1 <= i < |rows| && rows[i] == SuggestionRow(sessionId, id) by {
        forall id | id in rest ensures exists i :: 1 <= i < |rows| && rows[i] == SuggestionRow(sessionId, id) {
          var j :| 0 <= j < |rows[1..]| && rows[1..][j] == SuggestionRow(sessionId, id);
          assert rows[j + 1] == SuggestionRow(sessionId, id);
        }
      }
      if rows[0].sessionId == sessionId then rest + {rows[0].solutionId} else rest
  }

  /**
   * The session suggestion ledger: rows are only ever appended; the code
   * checks no (session, solution) uniqueness.
   */
  class SuggestionLedger {
    var rows: seq<SuggestionRow>

    constructor ()
      ensures rows == []
    {
      rows := [];
    }

    /** `create`. */
    method Create(row: SuggestionRow)
      modifies this
      ensures rows == old(rows) + [row]
    {
      rows := rows + [row];
    }
  }

  /** A `SessionProblemState` row: the session's current problem hypothesis. */
  datatype ProblemState = ProblemState(
    categoryId: Option<Uuid>,
    causeId: Option<Uuid>,
    confidence: Option<real>,
    source: Option<string>,
    manualOverride: bool)

  /** `SessionProblemStateRepository`, one row per session. */
  class ProblemStateStore {
    var states: map<Uuid, ProblemState>

    constructor ()
      ensures states == map[]
    {
      states := map[];
    }

    /** `upsert`: the session's row is created or has every field replaced; other sessions keep theirs. */
    method Upsert(sessionId: Uuid, row: ProblemState)
      modifies this
      ensures states == old(states)[sessionId := row]
      ensures forall s :: s in old(states) && s != sessionId ==> s in states && states[s] == old(states)[s]
    {
      states := states[sessionId := row];
    }
  }
}
