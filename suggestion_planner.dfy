/**
 * `SuggestionPlannerService`: plans the next catalog solutions for a
 * classified problem, skipping every solution the session was already
 * offered, and records the planned ones in the suggestion ledger.
 */
module SuggestionPlanner {
  import opened Wrappers
  import opened Store
  import opened Troubleshooting
  import Listing

  const ExhaustedNote := "All catalog steps for this cause have already been suggested."
  const NeedsDetailsNote := "Classifier requires more details before proposing steps."

  /** How many rows `list_by_cause` is asked for. */
  const ListLimit := 25

  /** The cause's solutions, in table order. */
  function OfCause(table: seq<SolutionView>, causeId: Uuid): (r: seq<SolutionView>)
    ensures |r| <= |table|
    ensures forall s :: s in r <==> s in table && s.causeId == causeId
  {
    if table == [] then []
    else
      var init := table[..|table| - 1];
      var last := table[|table| - 1];
      assert table == init + [last];
      if last.causeId == causeId then OfCause(init, causeId) + [last] else OfCause(init, causeId)
  }

  function StepOf(s: SolutionView): int { s.stepOrder }

  function TitleOf(s: SolutionView): string { s.title }

  /**
   * `list_by_cause(cause_id, limit)`: the cause's solutions ordered by step
   * order and then title, at most `limit` of them. Fewer than `limit` are
   * returned only when every solution of the cause is, and a solution left
   * out never comes before one returned.
   */
  function ListByCause(table: seq<SolutionView>, causeId: Uuid, limit: nat): (r: seq<SolutionView>)
    ensures |r| <= limit
    ensures forall s :: s in r ==> s in table && s.causeId == causeId
    ensures Listing.Ordered(r, StepOf, TitleOf)
    ensures (forall s :: s in table && s.causeId == causeId ==> s in r) || |r| == limit
    ensures forall s, i :: s in table && s.causeId == causeId && s !in r && 0 <= i < |r| ==>
              Listing.AtMost(r[i], s, StepOf, TitleOf)
  {
    var stored := OfCause(table, causeId);
    Listing.SortMembers(stored, StepOf, TitleOf);
    Listing.SortOrdered(stored, StepOf, TitleOf);
    Listing.TakeOrdered(Listing.Sort(stored, StepOf, TitleOf), limit, StepOf, TitleOf);
    Listing.Take(Listing.Sort(stored, StepOf, TitleOf), limit)
  }

  /**
   * The loop of `plan` from position `i` with `planned` taken so far: each
   * listed solution not yet suggested is appended, and the loop breaks once
   * `max_suggestions` are taken. The check comes after the append, so at
   * least one is taken.
   */
  function Scan(listed: seq<SolutionView>, suggested: set<Uuid>, maxSuggestions: int, i: nat,
                planned: seq<PlannedSolution>): seq<PlannedSolution>
    requires i <= |listed|
    decreases |listed| - i
  {
    if i == |listed| then planned
    else if listed[i].id in suggested then Scan(listed, suggested, maxSuggestions, i + 1, planned)
    else
      var next := planned + [PlannedSolution(listed[i], false)];
      if |next| >= maxSuggestions then next else Scan(listed, suggested, maxSuggestions, i + 1, next)
  }

  /** What the loop of `plan` takes from `listed`. */
  function TakeFresh(listed: seq<SolutionView>, suggested: set<Uuid>, maxSuggestions: int): seq<PlannedSolution> {
    Scan(listed, suggested, maxSuggestions, 0, [])
  }

  /** The solutions of `listed` that were never suggested, in order: the reference for `TakeFresh`. */
  function Fresh(listed: seq<SolutionView>, suggested: set<Uuid>): (r: seq<SolutionView>)
    ensures forall s :: s in r <==> s in listed && s.id !in suggested
  {
    if listed == [] then []
    else if listed[0].id in suggested then Fresh(listed[1..], suggested)
    else [listed[0]] + Fresh(listed[1..], suggested)
  }

  /** The most solutions a plan takes for `max_suggestions`: never fewer than one. */
  function Cap(maxSuggestions: int): nat {
    if maxSuggestions < 1 then 1 else maxSuggestions
  }

  function Offer(ss: seq<SolutionView>): (r: seq<PlannedSolution>)
    ensures |r| == |ss|
    ensures forall i :: 0 <= i < |ss| ==> r[i] == PlannedSolution(ss[i], false)
  {
    if ss == [] then [] else [PlannedSolution(ss[0], false)] + Offer(ss[1..])
  }

  function Min(a: nat, b: nat): nat {
    if a < b then a else b
  }

  /**
   * From any point of the loop, what remains taken is the next never-suggested
   * solutions, as many as the room left allows.
   */
  lemma {:induction false} ScanTakesFresh(listed: seq<SolutionView>, suggested: set<Uuid>, maxSuggestions: int, i: nat,
                                          planned: seq<PlannedSolution>)
    requires i <= |listed|
    requires planned == [] || |planned| < maxSuggestions
    ensures var unseen := Fresh(listed[i..], suggested);
            Scan(listed, suggested, maxSuggestions, i, planned)
            == planned + Offer(unseen[..Min(|unseen|, Cap(maxSuggestions - |planned|))])
    decreases |listed| - i
  {
    var unseen := Fresh(listed[i..], suggested);
    if i == |listed| {
      assert planned + Offer(unseen[..0]) == planned;
    } else {
      assert listed[i..] == [listed[i]] + listed[i + 1..];
      var rest := Fresh(listed[i + 1..], suggested);
      if listed[i].id in suggested {
        assert unseen == rest;
        ScanTakesFresh(listed, suggested, maxSuggestions, i + 1, planned);
      } else {
        assert unseen == [listed[i]] + rest;
        var next := planned + [PlannedSolution(listed[i], false)];
        if |next| < maxSuggestions {
          ScanTakesFresh(listed, suggested, maxSuggestions, i + 1, next);
        }
        TakeOneMore(planned, listed[i], rest, maxSuggestions,
                    Scan(listed, suggested, maxSuggestions, i, planned),
                    Scan(listed, suggested, maxSuggestions, i + 1, next));
      }
    }
  }

  /** One step of `ScanTakesFresh` when the solution at the current position is new. */
  lemma TakeOneMore(planned: seq<PlannedSolution>, s: SolutionView, rest: seq<SolutionView>, maxSuggestions: int,
                    scanned: seq<PlannedSolution>, scannedRest: seq<PlannedSolution>)
    requires planned == [] || |planned| < maxSuggestions
    requires var next := planned + [PlannedSolution(s, false)];
             scanned == if |next| >= maxSuggestions then next else scannedRest
    requires var next := planned + [PlannedSolution(s, false)];
             |next| < maxSuggestions ==>
               scannedRest == next + Offer(rest[..Min(|rest|, Cap(maxSuggestions - |next|))])
    ensures var unseen := [s] + rest;
            scanned == planned + Offer(unseen[..Min(|unseen|, Cap(maxSuggestions - |planned|))])
  {
    var item := PlannedSolution(s, false);
    var unseen := [s] + rest;
    var n := Min(|unseen|, Cap(maxSuggestions - |planned|));
    if |planned| + 1 >= maxSuggestions {
      assert n == 1;
      assert unseen[..n] == [s];
      OfferCons(s, []);
    } else {
      var m := Min(|rest|, Cap(maxSuggestions - |planned| - 1));
      assert n == m + 1;
      var next := planned + [item];
      assert |next| == |planned| + 1;
      assert scanned == next + Offer(rest[..m]);
      assert unseen[..n] == [s] + rest[..m];
      OfferCons(s, rest[..m]);
      assert Offer(unseen[..n]) == [item] + Offer(rest[..m]);
      ConcatAssoc(planned, [item], Offer(rest[..m]));
    }
  }

  lemma ConcatAssoc<T>(a: seq<T>, b: seq<T>, c: seq<T>)
    ensures (a + b) + c == a + (b + c)
  {
  }

  lemma OfferCons(s: SolutionView, ss: seq<SolutionView>)
    ensures Offer([s] + ss) == [PlannedSolution(s, false)] + Offer(ss)
  {
    assert ([s] + ss)[1..] == ss;
  }

  /**
   * The loop takes the first `Cap(max)` never-suggested solutions, in list
   * order, each offered as not already suggested.
   */
  lemma TakeFreshIsPrefixOfFresh(listed: seq<SolutionView>, suggested: set<Uuid>, maxSuggestions: int)
    ensures var unseen := Fresh(listed, suggested);
            TakeFresh(listed, suggested, maxSuggestions) == Offer(unseen[..Min(|unseen|, Cap(maxSuggestions))])
  {
    ScanTakesFresh(listed, suggested, maxSuggestions, 0, []);
    assert listed[0..] == listed;
  }

  /**
   * `plan` as a function of the classification, the session's suggested
   * solution ids and the listed solutions of the cause.
   */
  function PlanSpec(c: Classification, suggested: set<Uuid>, listed: seq<SolutionView>, maxSuggestions: int): SuggestionPlan {
    if c.escalate then SuggestionPlan([], true, c.escalateReason)
    else if c.cause.None? then SuggestionPlan([], false, OrText(c.rationale, c.escalateReason))
    else
      var planned := TakeFresh(listed, suggested, maxSuggestions);
      if c.needsMoreInfo && planned == [] then
        SuggestionPlan([], false, Some(OrDefault(c.rationale, NeedsDetailsNote)))
      else if planned == [] && suggested != {} then SuggestionPlan([], true, Some(ExhaustedNote))
      else SuggestionPlan(planned, false, c.escalateReason)
  }

  /** The loop of `plan` over the listed solutions, with its break. */
  method PlanLoop(listed: seq<SolutionView>, suggested: set<Uuid>, maxSuggestions: int) returns (planned: seq<PlannedSolution>)
    ensures planned == TakeFresh(listed, suggested, maxSuggestions)
  {
    planned := [];
    var i := 0;
    while i < |listed|
      invariant 0 <= i <= |listed|
      invariant Scan(listed, suggested, maxSuggestions, i, planned) == TakeFresh(listed, suggested, maxSuggestions)
    {
      if listed[i].id in suggested {
        i := i + 1;
        continue;
      }
      planned := planned + [PlannedSolution(listed[i], false)];
      if |planned| >= maxSuggestions {
        break;
      }
      i := i + 1;
    }
  }

  /**
   * `plan`: the loop over the cause's first 25 listed solutions, proved
   * against `PlanSpec`.
   */
  method Plan(ledger: SuggestionLedger, sessionId: Uuid, table: seq<SolutionView>, c: Classification, maxSuggestions: int)
    returns (plan: SuggestionPlan)
    ensures c.cause.Some? ==>
              plan == PlanSpec(c, SuggestedIds(ledger.rows, sessionId), ListByCause(table, c.cause.value.id, ListLimit), maxSuggestions)
    ensures c.cause.None? ==> plan == PlanSpec(c, SuggestedIds(ledger.rows, sessionId), [], maxSuggestions)
  {
    plan := SuggestionPlan([], c.escalate, c.escalateReason);
    if c.escalate {
      return;
    }
    if c.cause.None? {
      plan := plan.(notes := OrText(c.rationale, plan.notes));
      return;
    }
    var suggested := SuggestedIds(ledger.rows, sessionId);
    var listed := ListByCause(table, c.cause.value.id, ListLimit);
    var planned := PlanLoop(listed, suggested, maxSuggestions);
    plan := plan.(solutions := planned);
    if c.needsMoreInfo && planned == [] {
      plan := plan.(notes := Some(OrDefault(c.rationale, NeedsDetailsNote)));
    } else if planned == [] && suggested != {} {
      plan := plan.(notes := Some(ExhaustedNote), escalate := true);
    }
  }

  /** An escalating classification gives an escalating plan with no solutions, noting the reason. */
  lemma EscalatingClassification(c: Classification, suggested: set<Uuid>, listed: seq<SolutionView>, maxSuggestions: int)
    requires c.escalate
    ensures var p := PlanSpec(c, suggested, listed, maxSuggestions);
            p.escalate && p.solutions == [] && p.notes == c.escalateReason
  {
  }

  /** Without a cause the plan is empty and does not escalate; the notes fall back to the rationale. */
  lemma NoCause(c: Classification, suggested: set<Uuid>, listed: seq<SolutionView>, maxSuggestions: int)
    requires !c.escalate && c.cause.None?
    ensures var p := PlanSpec(c, suggested, listed, maxSuggestions);
            !p.escalate && p.solutions == []
            && (c.rationale.Some? && c.rationale.value != [] ==> p.notes == c.rationale)
  {
  }

  /**
   * Planned solutions are never already in the session's ledger, are all
   * offered as new, come from the listed ones in order, and number at most
   * `Cap(max_suggestions)`.
   */
  lemma PlanNeverRepeats(c: Classification, suggested: set<Uuid>, listed: seq<SolutionView>, maxSuggestions: int)
    ensures var p := PlanSpec(c, suggested, listed, maxSuggestions);
            var unseen := Fresh(listed, suggested);
            (forall i :: 0 <= i < |p.solutions| ==>
               (p.solutions[i].solution.id !in suggested && p.solutions[i].solution in listed
                && !p.solutions[i].alreadySuggested))
            && |p.solutions| <= Cap(maxSuggestions)
            && (p.solutions == [] || (|p.solutions| <= |unseen| && Offer(unseen[..|p.solutions|]) == p.solutions))
  {
    TakeFreshIsPrefixOfFresh(listed, suggested, maxSuggestions);
    var unseen := Fresh(listed, suggested);
    var p := PlanSpec(c, suggested, listed, maxSuggestions);
    if p.solutions != [] {
      var n := Min(|unseen|, Cap(maxSuggestions));
      assert p.solutions == Offer(unseen[..n]);
      forall i | 0 <= i < |p.solutions|
        ensures p.solutions[i].solution.id !in suggested && p.solutions[i].solution in listed
      {
        assert p.solutions[i].solution == unseen[i];
      }
    }
  }

  /**
   * With no new solution left, no call for more details and a non-empty
   * ledger for the session (from any cause), the plan escalates with the
   * "all steps suggested" note.
   */
  lemma ExhaustedEscalates(c: Classification, suggested: set<Uuid>, listed: seq<SolutionView>, maxSuggestions: int)
    requires !c.escalate && c.cause.Some? && !c.needsMoreInfo
    requires Fresh(listed, suggested) == [] && suggested != {}
    ensures PlanSpec(c, suggested, listed, maxSuggestions) == SuggestionPlan([], true, Some(ExhaustedNote))
  {
    TakeFreshIsPrefixOfFresh(listed, suggested, maxSuggestions);
  }

  /** Asking for more details with nothing new to offer notes the rationale and never escalates. */
  lemma NeedsDetailsDoesNotEscalate(c: Classification, suggested: set<Uuid>, listed: seq<SolutionView>, maxSuggestions: int)
    requires !c.escalate && c.cause.Some? && c.needsMoreInfo
    requires Fresh(listed, suggested) == []
    ensures var p := PlanSpec(c, suggested, listed, maxSuggestions);
            !p.escalate && p.solutions == [] && p.notes == Some(OrDefault(c.rationale, NeedsDetailsNote))
  {
    TakeFreshIsPrefixOfFresh(listed, suggested, maxSuggestions);
  }

  /**
   * The ledger rows `persist_new_suggestions` writes: one per planned item
   * not already suggested, except those whose insert fails (`failing`
   * holds their positions); a failure is logged and skipped.
   */
  function NewRows(sessionId: Uuid, items: seq<PlannedSolution>, failing: set<nat>, from: nat): (r: seq<SuggestionRow>)
    ensures |r| <= |items|
    decreases |items|
  {
    if items == [] then []
    else
      var rest := NewRows(sessionId, items[1..], failing, from + 1);
      if items[0].alreadySuggested || from in failing then rest
      else [SuggestionRow(sessionId, items[0].solution.id)] + rest
  }

  /** `persist_new_suggestions`: an empty plan writes nothing; otherwise the loop over the items. */
  method PersistNewSuggestions(ledger: SuggestionLedger, sessionId: Uuid, plan: SuggestionPlan, failing: set<nat>)
    modifies ledger
    ensures ledger.rows == old(ledger.rows) + NewRows(sessionId, plan.solutions, failing, 0)
  {
    if plan.solutions == [] {
      return;
    }
    var i := 0;
    while i < |plan.solutions|
      invariant 0 <= i <= |plan.solutions|
      invariant ledger.rows + NewRows(sessionId, plan.solutions[i..], failing, i)
                == old(ledger.rows) + NewRows(sessionId, plan.solutions, failing, 0)
    {
      assert plan.solutions[i..][1..] == plan.solutions[i + 1..];
      var item := plan.solutions[i];
      if !item.alreadySuggested && i !in failing {
        ledger.Create(SuggestionRow(sessionId, item.solution.id));
      }
      i := i + 1;
    }
  }

  /** Every row written belongs to the session and names one of the items' solutions. */
  lemma {:induction false} NewRowsComeFromItems(sessionId: Uuid, items: seq<PlannedSolution>, failing: set<nat>, from: nat)
    ensures forall k :: 0 <= k < |NewRows(sessionId, items, failing, from)| ==>
              exists j :: 0 <= j < |items| && NewRows(sessionId, items, failing, from)[k] == SuggestionRow(sessionId, items[j].solution.id)
    decreases |items|
  {
    if items == [] {
      assert NewRows(sessionId, items, failing, from) == [];
    } else {
      NewRowsComeFromItems(sessionId, items[1..], failing, from + 1);
      var rest := NewRows(sessionId, items[1..], failing, from + 1);
      forall k | 0 <= k < |rest|
        ensures exists j :: 0 <= j < |items| && rest[k] == SuggestionRow(sessionId, items[j].solution.id)
      {
        var j :| 0 <= j < |items[1..]| && rest[k] == SuggestionRow(sessionId, items[1..][j].solution.id);
        assert items[1..][j] == items[j + 1];
      }
      var r := NewRows(sessionId, items, failing, from);
      if items[0].alreadySuggested || from in failing {
        assert r == rest;
      } else {
        assert r == [SuggestionRow(sessionId, items[0].solution.id)] + rest;
        forall k | 0 <= k < |r|
          ensures exists j :: 0 <= j < |items| && r[k] == SuggestionRow(sessionId, items[j].solution.id)
        {
          if k == 0 {
            assert r[0] == SuggestionRow(sessionId, items[0].solution.id);
          } else {
            assert r[k] == rest[k - 1];
          }
        }
      }
    }
  }

  /** Writing a plan produced by `plan` records every planned solution whose insert succeeds. */
  lemma {:induction false} NewRowsOfPlanned(sessionId: Uuid, items: seq<PlannedSolution>, from: nat)
    requires forall i :: 0 <= i < |items| ==> !items[i].alreadySuggested
    ensures |NewRows(sessionId, items, {}, from)| == |items|
    ensures forall i :: 0 <= i < |items| ==> NewRows(sessionId, items, {}, from)[i] == SuggestionRow(sessionId, items[i].solution.id)
    decreases |items|
  {
    if items != [] {
      NewRowsOfPlanned(sessionId, items[1..], from + 1);
    }
  }
}
