/**
 * `AssistantWorkflowService`: the classifier → planner → responder pipeline
 * of one chat turn, with the request-type overrides, the choice of the
 * follow-up form attached to the answer and the session-status transition.
 * Its decision steps are functions; `HandleMessage` runs them against the
 * conversation store and the suggestion ledger.
 */
module AssistantWorkflow {
  import opened Wrappers
  import opened Json
  import Text
  import opened Store
  import opened MessageFlow
  import opened FormSubmission
  import opened FeedbackFlow
  import opened AssistantMetadata
  import opened Troubleshooting
  import opened SuggestionPlanner
  import FormBuilder

  const ClassifierErrorRationale := "Classification unavailable due to internal error."
  const PlannerErrorNotes := "Planner encountered an internal error."
  const ResolvedNotes := "User reports the issue is resolved; confirm closure."
  const HumanRequestedReason := "User requested human assistance."
  const ClarifyNotes := "Need clearer details before planning steps."
  const PlannerEscalationReason := "Escalation recommended by planner."
  const ConfirmResolvedReason := "Confirm the issue is fully resolved."
  const CheckInAfterSolution := "Quick check-in after solution"
  const CheckInReason := "Quick check-in"
  const DeclinedReason := "User declined escalation"

  // ----- classifier and planner fallbacks -----

  /** `_safe_classify`: the classifier's result, or the fallback asking for more information when it raised (`None`). */
  function SafeClassify(outcome: Option<Classification>): (r: Classification)
    ensures outcome.Some? ==> r == outcome.value
    ensures outcome.None? ==> r.needsMoreInfo && !r.escalate && r.rationale == Some(ClassifierErrorRationale)
                              && r.requestType.None? && r.cause.None? && r.nextQuestions == []
  {
    if outcome.Some? then outcome.value
    else DefaultClassification.(rationale := Some(ClassifierErrorRationale), needsMoreInfo := true)
  }

  /** `_safe_plan`: the planner's plan, or an empty non-escalating plan with an error note when it raised (`None`). */
  function SafePlan(outcome: Option<SuggestionPlan>): (r: SuggestionPlan)
    ensures outcome.Some? ==> r == outcome.value
    ensures outcome.None? ==> r.solutions == [] && !r.escalate && r.notes == Some(PlannerErrorNotes)
  {
    if outcome.Some? then outcome.value else SuggestionPlan([], false, Some(PlannerErrorNotes))
  }

  // ----- request-type overrides -----

  /**
   * `assistant_workflow_service.py` lines 166-204 of `handle_message`: the classification as overridden by
   * its request type, with the fixed plan of that type; `None` for the plan
   * means the planner is asked (troubleshooting, or no request type).
   */
  function Override(c: Classification): (r: (Classification, Option<SuggestionPlan>))
    // a resolution check drops escalation and questions and plans nothing
    ensures c.requestType == Some(ResolutionCheck) ==>
              !r.0.escalate && r.0.escalateReason.None? && !r.0.needsMoreInfo && r.0.nextQuestions == []
              && r.1 == Some(SuggestionPlan([], false, Some(ResolvedNotes)))
    // an escalation request escalates with a non-empty reason and an escalating empty plan
    ensures c.requestType == Some(EscalationRequest) ==>
              r.0.escalate && r.0.escalateReason.Some? && r.0.escalateReason.value != []
              && !r.0.needsMoreInfo && r.0.nextQuestions == []
              && r.1 == Some(SuggestionPlan([], true, r.0.escalateReason))
              && (c.escalateReason.Some? && c.escalateReason.value != [] ==> r.0.escalateReason == c.escalateReason)
    // a clarification asks for details, never escalates, and keeps the questions
    ensures c.requestType == Some(Clarification) ==>
              r.0.needsMoreInfo && !r.0.escalate && r.0.escalateReason.None?
              && r.0.nextQuestions == c.nextQuestions
              && r.1 == Some(SuggestionPlan([], false, Some(OrDefault(c.rationale, ClarifyNotes))))
    ensures c.requestType.None? || c.requestType == Some(Troubleshoot) <==> r.1.None?
    ensures r.1.None? ==> r.0 == c
    // only the four flags and texts above may change
    ensures r.0.category == c.category && r.0.cause == c.cause && r.0.confidence == c.confidence
            && r.0.rationale == c.rationale && r.0.requestType == c.requestType
  {
    match c.requestType
    case Some(ResolutionCheck) =>
      (c.(escalate := false, escalateReason := None, needsMoreInfo := false, nextQuestions := []),
       Some(SuggestionPlan([], false, Some(ResolvedNotes))))
    case Some(EscalationRequest) =>
      var reason := Some(OrDefault(c.escalateReason, HumanRequestedReason));
      (c.(escalate := true, escalateReason := reason, needsMoreInfo := false, nextQuestions := []),
       Some(SuggestionPlan([], true, reason)))
    case Some(Clarification) =>
      (c.(needsMoreInfo := true, escalate := false, escalateReason := None),
       Some(SuggestionPlan([], false, Some(OrDefault(c.rationale, ClarifyNotes)))))
    case _ => (c, None)
  }

  // ----- metadata envelopes -----

  /** The keys of `ClassificationEnvelope`, in declaration order. */
  const ClassificationKeys: seq<string> := ["confidence", "rationale", "escalate", "escalate_reason", "needs_more_info",
    "category", "cause", "questions", "request_type"]

  lemma ClassificationKeysDistinct()
    ensures Distinct(ClassificationKeys)
  {
  }

  function OptText(s: Option<string>): Value {
    if s.Some? then Str(s.value) else Null
  }

  /** `[q for q in questions if q]`. */
  function NonEmptyTexts(qs: seq<string>): (r: seq<string>)
    ensures forall q :: q in r <==> q in qs && q != []
    ensures |r| <= |qs|
  {
    if qs == [] then []
    else if qs[0] == [] then NonEmptyTexts(qs[1..])
    else [qs[0]] + NonEmptyTexts(qs[1..])
  }

  /** The `{id, slug, name}` dict of a category or cause; `uuidText` is `str` of a UUID. */
  function ViewDict(id: Uuid, slug: string, name: string, uuidText: Uuid -> string): Value {
    Obj(FromEntries(["id", "slug", "name"], [Str(uuidText(id)), Str(slug), Str(name)]))
  }

  /** The nine envelope fields, as given, under `ClassificationKeys`; `Null` ones are left out. */
  function ClassificationFields(confidence: Value, rationale: Value, escalate: Value, reason: Value, needsMoreInfo: Value,
                                category: Value, cause: Value, questions: Value, requestType: Value): (r: Dict)
    ensures Get(r, "confidence") == confidence && Get(r, "rationale") == rationale
    ensures Get(r, "escalate") == escalate && Get(r, "escalate_reason") == reason
    ensures Get(r, "needs_more_info") == needsMoreInfo && Get(r, "category") == category
    ensures Get(r, "cause") == cause && Get(r, "questions") == questions && Get(r, "request_type") == requestType
    ensures forall k :: k in r.vals ==> k in ClassificationKeys && r.vals[k] != Null
  {
    var vs := [confidence, rationale, escalate, reason, needsMoreInfo, category, cause, questions, requestType];
    ClassificationKeysDistinct();
    FromEntriesLookup(ClassificationKeys, vs, 0);
    FromEntriesLookup(ClassificationKeys, vs, 1);
    FromEntriesLookup(ClassificationKeys, vs, 2);
    FromEntriesLookup(ClassificationKeys, vs, 3);
    FromEntriesLookup(ClassificationKeys, vs, 4);
    FromEntriesLookup(ClassificationKeys, vs, 5);
    FromEntriesLookup(ClassificationKeys, vs, 6);
    FromEntriesLookup(ClassificationKeys, vs, 7);
    FromEntriesLookup(ClassificationKeys, vs, 8);
    FromEntries(ClassificationKeys, vs)
  }

  /**
   * `_build_classification_envelope` dumped without `None` fields: the flags
   * always, the texts, confidence, category, cause and request type only
   * when present, and the non-empty questions.
   */
  function ClassificationEnvelope(c: Classification, floatText: real -> string, uuidText: Uuid -> string): (r: Dict)
    ensures forall k :: k in r.vals ==> k in ClassificationKeys && r.vals[k] != Null
    ensures Get(r, "escalate") == Bool(c.escalate) && Get(r, "needs_more_info") == Bool(c.needsMoreInfo)
    ensures Get(r, "rationale") == OptText(c.rationale) && Get(r, "escalate_reason") == OptText(c.escalateReason)
    ensures Get(r, "confidence") == if c.confidence.Some? then Float(c.confidence.value, floatText(c.confidence.value)) else Null
    ensures Get(r, "category") == if c.category.Some? then ViewDict(c.category.value.id, c.category.value.slug, c.category.value.name, uuidText) else Null
    ensures Get(r, "cause") == if c.cause.Some? then ViewDict(c.cause.value.id, c.cause.value.slug, c.cause.value.name, uuidText) else Null
    ensures Get(r, "questions") == StrList(NonEmptyTexts(c.nextQuestions))
    ensures Get(r, "request_type") == if c.requestType.Some? then Str(RequestTypeName(c.requestType.value)) else Null
  {
    ClassificationFields(
      if c.confidence.Some? then Float(c.confidence.value, floatText(c.confidence.value)) else Null,
      OptText(c.rationale),
      Bool(c.escalate),
      OptText(c.escalateReason),
      Bool(c.needsMoreInfo),
      if c.category.Some? then ViewDict(c.category.value.id, c.category.value.slug, c.category.value.name, uuidText) else Null,
      if c.cause.Some? then ViewDict(c.cause.value.id, c.cause.value.slug, c.cause.value.name, uuidText) else Null,
      StrList(NonEmptyTexts(c.nextQuestions)),
      if c.requestType.Some? then Str(RequestTypeName(c.requestType.value)) else Null)
  }

  /** A planned solution as `PlannedSolutionEnvelope` dumps it. */
  function SolutionValue(p: PlannedSolution, uuidText: Uuid -> string): Value {
    Obj(FromEntries(["id", "slug", "title", "requires_escalation", "already_suggested"],
      [Str(uuidText(p.solution.id)), Str(p.solution.slug), Str(p.solution.title),
       Bool(p.solution.requiresEscalation), Bool(p.alreadySuggested)]))
  }

  function SolutionValues(ps: seq<PlannedSolution>, uuidText: Uuid -> string): (r: seq<Value>)
    ensures |r| == |ps|
    ensures forall i :: 0 <= i < |ps| ==> r[i] == SolutionValue(ps[i], uuidText)
  {
    if ps == [] then [] else [SolutionValue(ps[0], uuidText)] + SolutionValues(ps[1..], uuidText)
  }

  /** `_build_plan_envelope` dumped without `None` fields: one entry per planned solution, in order. */
  function PlanEnvelope(plan: SuggestionPlan, uuidText: Uuid -> string): (r: Dict)
    ensures Get(r, "escalate") == Bool(plan.escalate)
    ensures Get(r, "notes") == OptText(plan.notes)
    ensures Get(r, "solutions").List? && |Get(r, "solutions").items| == |plan.solutions|
    ensures forall i :: 0 <= i < |plan.solutions| ==> Get(r, "solutions").items[i] == SolutionValue(plan.solutions[i], uuidText)
  {
    var keys := ["escalate", "notes", "solutions"];
    var vs := [Bool(plan.escalate), OptText(plan.notes), List(SolutionValues(plan.solutions, uuidText))];
    FromEntriesLookup(keys, vs, 0);
    FromEntriesLookup(keys, vs, 1);
    FromEntriesLookup(keys, vs, 2);
    FromEntries(keys, vs)
  }

  /**
   * `_embed_structured_metadata`: the answer's metadata gains the two
   * envelopes; every other key is kept.
   */
  function Embed(answer: Answer, c: Classification, plan: SuggestionPlan,
                 floatText: real -> string, uuidText: Uuid -> string): (r: Answer)
    ensures r == answer.(metadata := r.metadata)
    ensures Get(r.metadata, "classification") == Obj(ClassificationEnvelope(c, floatText, uuidText))
    ensures Get(r.metadata, "troubleshooting_plan") == Obj(PlanEnvelope(plan, uuidText))
    ensures forall k :: k != "classification" && k != "troubleshooting_plan" ==> Get(r.metadata, k) == Get(answer.metadata, k)
  {
    var metadata := Put(answer.metadata, "classification", Obj(ClassificationEnvelope(c, floatText, uuidText)));
    answer.(metadata := Put(metadata, "troubleshooting_plan", Obj(PlanEnvelope(plan, uuidText))))
  }

  // ----- follow-up form selection -----

  /**
   * The forms the three follow-up kinds attach; `None` stands for a builder
   * the feedback-flow service does not provide, whose call raises.
   */
  datatype FormCatalog = FormCatalog(escalation: Option<GeneratedForm>, resolution: Option<GeneratedForm>,
                                     feedback: Option<GeneratedForm>)

  /** The answer, classification and plan once the follow-up form is chosen. */
  datatype Attached = Attached(answer: Answer, classification: Classification, plan: SuggestionPlan)

  /** `answer.follow_up_type or metadata.get("follow_up_type")`. */
  function DeclaredTypeRaw(answer: Answer): Value {
    if Truthy(answer.followUpType) then answer.followUpType else Get(answer.metadata, "follow_up_type")
  }

  /** `answer.follow_up_reason or metadata.get("follow_up_reason")`. */
  function DeclaredReason(answer: Answer): Value {
    if Truthy(answer.followUpReason) then answer.followUpReason else Get(answer.metadata, "follow_up_reason")
  }

  /** `(raw or "").strip().lower()`; `None` where a truthy non-string value has no `strip`. */
  function NormalizedType(raw: Value): (r: Option<string>)
    ensures r.None? <==> Truthy(raw) && !raw.Str?
    ensures r.Some? ==> Text.IsNormalized(r.value)
  {
    if !Truthy(raw) then Some("") else if raw.Str? then Some(Text.StripLower(raw.s)) else None
  }

  /** The kind and reason chosen when the answer declares no follow-up type, in priority order. */
  function AutoChoice(c: Classification, plan: SuggestionPlan, declaredReason: Value): (r: Option<(string, Value)>)
    ensures c.requestType == Some(EscalationRequest) || plan.escalate || c.escalate ==> r.Some? && r.value.0 == "escalation"
    ensures !(c.requestType == Some(EscalationRequest) || plan.escalate || c.escalate) && c.requestType == Some(ResolutionCheck)
            ==> r.Some? && r.value.0 == "resolution_check"
    ensures !(c.requestType == Some(EscalationRequest) || plan.escalate || c.escalate) && c.requestType != Some(ResolutionCheck)
            ==> (r.Some? <==> plan.solutions != [] && !c.needsMoreInfo && c.nextQuestions == [])
                && (r.Some? ==> r.value == ("feedback", Str(CheckInAfterSolution)))
    ensures r.Some? ==> Truthy(r.value.1)
  {
    if c.requestType == Some(EscalationRequest) || plan.escalate || c.escalate then
      Some(("escalation", Str(OrDefault(OrText(c.escalateReason, plan.notes), PlannerEscalationReason))))
    else if c.requestType == Some(ResolutionCheck) then
      Some(("resolution_check",
            if Truthy(declaredReason) then declaredReason
            else Str(OrDefault(OrText(plan.notes, c.rationale), ConfirmResolvedReason))))
    else if plan.solutions != [] && !c.needsMoreInfo && c.nextQuestions == [] then
      Some(("feedback", Str(CheckInAfterSolution)))
    else None
  }

  /**
   * One of the three known kinds: the catalog form is attached unless the
   * answer already has a form marked with this kind; the kind and reason are
   * set on the answer and written to its metadata. `None` when the form has to
   * be built and the builder is missing.
   */
  function AttachKind(a: Answer, kind: string, form: Option<GeneratedForm>, reason: Value): (r: Option<Answer>)
    ensures var build := a.form.None? || Get(a.metadata, "form_kind") != Str(kind);
            r.None? <==> build && form.None?
    ensures r.Some? ==> r.value.form.Some?
                        && r.value.form == (if a.form.None? || Get(a.metadata, "form_kind") != Str(kind) then form else a.form)
                        && r.value.followUpType == Str(kind) && r.value.followUpReason == reason
                        && r.value.reply == a.reply && r.value.suggestedActions == a.suggestedActions
                        && r.value.confidence == a.confidence
    ensures r.Some? ==> Get(r.value.metadata, "form_kind") == Str(kind)
                        && Get(r.value.metadata, "follow_up_type") == Str(kind)
                        && Get(r.value.metadata, "follow_up_reason") == reason
  {
    var build := a.form.None? || Get(a.metadata, "form_kind") != Str(kind);
    if build && form.None? then None
    else
      var metadata := Put(Put(Put(a.metadata, "form_kind", Str(kind)), "follow_up_type", Str(kind)), "follow_up_reason", reason);
      Some(a.(form := if build then form else a.form, followUpType := Str(kind), followUpReason := reason, metadata := metadata))
  }

  /**
   * `assistant_workflow_service.py` lines 454-469: the user declined escalation in this turn's form, so no
   * escalation form is attached, the plan and classification stop
   * escalating, and the metadata records the decline.
   */
  function Decline(a: Answer, c: Classification, plan: SuggestionPlan): (r: Attached)
    ensures !r.plan.escalate && !r.classification.escalate
    ensures r.answer.form == a.form && r.answer.followUpType == Null && r.answer.followUpReason == Null
    ensures Get(r.answer.metadata, "form_kind") == Str("escalation")
    ensures Get(r.answer.metadata, "follow_up_type") == Str("none")
    ensures Get(r.answer.metadata, "follow_up_reason") == Str(DeclinedReason)
    ensures r.plan == plan.(escalate := false) && r.classification == c.(escalate := false)
  {
    var metadata := Put(Put(Put(a.metadata, "form_kind", Str("escalation")), "follow_up_type", Str("none")),
                        "follow_up_reason", Str(DeclinedReason));
    Attached(a.(followUpType := Null, followUpReason := Null, metadata := metadata), c.(escalate := false), plan.(escalate := false))
  }

  /**
   * `assistant_workflow_service.py` lines 520-530, a declared kind the service does not know: the raw
   * declared type is kept in the metadata, the reason is kept or removed,
   * and the answer's own type is cleared.
   */
  function UnknownKind(a: Answer, raw: Value, reason: Value): (r: Answer)
    ensures r.form == a.form && r.followUpType == Null && r.followUpReason == reason
    ensures raw.Str? && Truthy(raw) && Text.Lower(raw.s) != "none" ==> Get(r.metadata, "follow_up_type") == raw
    ensures Truthy(reason) ==> Get(r.metadata, "follow_up_reason") == reason
    ensures !Truthy(reason) ==> !Has(r.metadata, "follow_up_reason")
  {
    var dropped := Remove(a.metadata, "follow_up_type");
    var typed := if Truthy(raw) && raw.Str? && Text.Lower(raw.s) != "" && Text.Lower(raw.s) != "none"
                 then Put(dropped, "follow_up_type", raw) else dropped;
    var metadata := if Truthy(reason) then Put(typed, "follow_up_reason", reason) else Remove(typed, "follow_up_reason");
    a.(followUpType := Null, followUpReason := reason, metadata := metadata)
  }

  /** The user answered this turn's escalation form with anything but yes. */
  predicate DeclinedEscalation(formResult: FormResult) {
    formResult.formKind == Some("escalation") && !formResult.escalationConfirmed
  }

  /** The kind the answer declares, once normalised; "none" and "" declare nothing. */
  function DeclaredKind(normalized: string): Option<string> {
    if normalized != "" && normalized != "none" then Some(normalized) else None
  }

  /** The three kinds the service attaches a form for. */
  const KnownKinds: set<string> := {"escalation", "resolution_check", "feedback"}

  /**
   * `assistant_workflow_service.py` lines 454-530 once the kind and reason are chosen: a decline, one of the
   * three forms, or an unknown kind; `None` where a missing builder raises.
   */
  function ApplyChoice(a: Answer, raw: Value, kind: string, reason: Value, c: Classification, plan: SuggestionPlan,
                       formResult: FormResult, catalog: FormCatalog): (r: Option<Attached>)
    ensures r.Some? ==> (r.value.plan.escalate ==> plan.escalate) && (r.value.classification.escalate ==> c.escalate)
                        && r.value.plan.solutions == plan.solutions && r.value.answer.reply == a.reply
    ensures r.Some? && r.value.plan.escalate && r.value.answer.form.None? ==> kind !in KnownKinds
    ensures kind == "escalation" && DeclinedEscalation(formResult) ==> r == Some(Decline(a, c, plan))
    ensures kind == "escalation" && !DeclinedEscalation(formResult) && catalog.escalation.Some? ==>
              r.Some? && r.value.answer.followUpType == Str(kind) && r.value.answer.form.Some?
              && Get(r.value.answer.metadata, "form_kind") == Str(kind) && r.value.plan == plan && r.value.classification == c
    ensures kind == "resolution_check" && catalog.resolution.Some? ==>
              r.Some? && r.value.answer.followUpType == Str(kind) && r.value.answer.form.Some?
    ensures kind == "feedback" && catalog.feedback.Some? ==>
              r.Some? && r.value.answer.followUpType == Str(kind) && r.value.answer.form.Some?
              && (Truthy(reason) ==> r.value.answer.followUpReason == reason)
    ensures kind !in KnownKinds ==> r == Some(Attached(UnknownKind(a, raw, reason), c, plan))
    ensures kind == "escalation" && !DeclinedEscalation(formResult) && catalog.escalation.None? && a.form.None? ==> r.None?
  {
    if kind == "escalation" then
      if DeclinedEscalation(formResult) then Some(Decline(a, c, plan))
      else
        var r := AttachKind(a, kind, catalog.escalation, reason);
        if r.None? then None else Some(Attached(r.value, c, plan))
    else if kind == "resolution_check" then
      var r := AttachKind(a, kind, catalog.resolution, if Truthy(reason) then reason else Str(ConfirmResolvedReason));
      if r.None? then None else Some(Attached(r.value, c, plan))
    else if kind == "feedback" then
      var r := AttachKind(a, kind, catalog.feedback, if Truthy(reason) then reason else Str(CheckInReason));
      if r.None? then None else Some(Attached(r.value, c, plan))
    else Some(Attached(UnknownKind(a, raw, reason), c, plan))
  }

  /**
   * `_attach_follow_up_forms`: `None` where the source raises (a declared
   * type that is not a string, or a missing form builder).
   */
  function AttachFollowUpForms(answer: Answer, c: Classification, plan: SuggestionPlan, formResult: FormResult,
                               catalog: FormCatalog): (r: Option<Attached>)
  {
    var raw := DeclaredTypeRaw(answer);
    var normalized := NormalizedType(raw);
    if normalized.None? then None
    else
      var a := if normalized.value == "none" then answer.(followUpType := Null) else answer;
      var declared := DeclaredKind(normalized.value);
      var choice := if declared.Some? then Some((declared.value, DeclaredReason(answer)))
                    else AutoChoice(c, plan, DeclaredReason(answer));
      if choice.None? then Some(Attached(a, c, plan))
      else ApplyChoice(a, raw, choice.value.0, choice.value.1, c, plan, formResult, catalog)
  }

  /** Every builder is present: the forms the feedback-flow service evidently means to build. */
  predicate CompleteCatalog(catalog: FormCatalog) {
    catalog.escalation.Some? && catalog.resolution.Some? && catalog.feedback.Some?
  }

  /**
   * With no declared follow-up type the forms are tried in order: escalation
   * (unless the user just declined it), then a resolution check, then a
   * feedback check-in after a solution with nothing left to ask; otherwise
   * the answer is left as it was.
   */
  lemma AutoChoiceOrder(answer: Answer, c: Classification, plan: SuggestionPlan, formResult: FormResult, catalog: FormCatalog)
    requires CompleteCatalog(catalog)
    requires NormalizedType(DeclaredTypeRaw(answer)).Some?
    requires DeclaredKind(NormalizedType(DeclaredTypeRaw(answer)).value).None?
    ensures var r := AttachFollowUpForms(answer, c, plan, formResult, catalog);
            var escalating := c.requestType == Some(EscalationRequest) || plan.escalate || c.escalate;
            r.Some?
            && (escalating && !DeclinedEscalation(formResult) ==>
                  r.value.answer.followUpType == Str("escalation") && r.value.answer.form.Some?
                  && Get(r.value.answer.metadata, "form_kind") == Str("escalation") && r.value.plan == plan)
            && (escalating && DeclinedEscalation(formResult) ==>
                  !r.value.plan.escalate && !r.value.classification.escalate && r.value.answer.form == answer.form)
            && (!escalating && c.requestType == Some(ResolutionCheck) ==>
                  r.value.answer.followUpType == Str("resolution_check") && r.value.answer.form.Some?)
            && (!escalating && c.requestType != Some(ResolutionCheck)
                && plan.solutions != [] && !c.needsMoreInfo && c.nextQuestions == [] ==>
                  r.value.answer.followUpType == Str("feedback") && r.value.answer.form.Some?
                  && r.value.answer.followUpReason == Str(CheckInAfterSolution))
            && (!escalating && c.requestType != Some(ResolutionCheck)
                && !(plan.solutions != [] && !c.needsMoreInfo && c.nextQuestions == []) ==>
                  r.value.answer.form == answer.form && r.value.answer.metadata == answer.metadata
                  && r.value.plan == plan && r.value.classification == c)
  {
  }

  /** Choosing the form never starts an escalation: it can only stop one. */
  lemma AttachNeverEscalates(answer: Answer, c: Classification, plan: SuggestionPlan, formResult: FormResult, catalog: FormCatalog)
    requires AttachFollowUpForms(answer, c, plan, formResult, catalog).Some?
    ensures var r := AttachFollowUpForms(answer, c, plan, formResult, catalog).value;
            (r.plan.escalate ==> plan.escalate) && (r.classification.escalate ==> c.escalate)
            && r.plan.solutions == plan.solutions && r.answer.reply == answer.reply
  {
  }

  /**
   * An escalating plan leaves the answer without a form only when the answer
   * declared a follow-up kind the service does not know: every known kind
   * attaches a form, and a decline stops the escalation.
   */
  lemma EscalatingWithoutFormNeedsUnknownKind(answer: Answer, c: Classification, plan: SuggestionPlan,
                                              formResult: FormResult, catalog: FormCatalog)
    requires AttachFollowUpForms(answer, c, plan, formResult, catalog).Some?
    requires var r := AttachFollowUpForms(answer, c, plan, formResult, catalog).value;
             r.plan.escalate && r.answer.form.None?
    ensures var kind := DeclaredKind(NormalizedType(DeclaredTypeRaw(answer)).value);
            kind.Some? && kind.value !in KnownKinds
    ensures AttachFollowUpForms(answer, c, plan, formResult, catalog).value.answer.followUpType == Null
  {
  }

  /** Any value is crash-free only when the declared type is a string or falsy. */
  lemma AttachRaisesOnNonTextType(answer: Answer, c: Classification, plan: SuggestionPlan, formResult: FormResult,
                                  catalog: FormCatalog)
    requires Truthy(DeclaredTypeRaw(answer)) && !DeclaredTypeRaw(answer).Str?
    ensures AttachFollowUpForms(answer, c, plan, formResult, catalog).None?
  {
  }

  /** Every kind is attached once the declared type is a string or falsy and no builder is missing. */
  lemma CompleteCatalogNeverRaises(answer: Answer, c: Classification, plan: SuggestionPlan, formResult: FormResult,
                                   catalog: FormCatalog)
    requires CompleteCatalog(catalog)
    requires !Truthy(DeclaredTypeRaw(answer)) || DeclaredTypeRaw(answer).Str?
    ensures AttachFollowUpForms(answer, c, plan, formResult, catalog).Some?
  {
  }

  // ----- the form builders the service calls -----

  /**
   * `build_escalation_form`, `build_resolution_form` and `build_feedback_form`
   * as the feedback-flow service provides them: it defines none of the three
   * (only the private `_build_resolution_form` and `_build_feedback_form`), so
   * each call raises.
   */
  const AsWrittenCatalog := FormCatalog(None, None, None)

  /**
   * The builders the calls evidently mean: the feedback-flow service's own
   * resolution and check-in forms, and the form builder's escalation form.
   */
  const IntendedCatalog := FormCatalog(Some(FormBuilder.EscalationForm), Some(ConfirmResolutionForm), Some(CheckInForm))

  lemma IntendedCatalogComplete()
    ensures CompleteCatalog(IntendedCatalog)
  {
  }

  /**
   * As written, a turn that escalates, with no declared follow-up type, no
   * form on the answer and no decline in this turn's form, raises (`None`);
   * with the intended builders the same turn gets its form.
   */
  lemma AsWrittenEscalationRaises(answer: Answer, c: Classification, plan: SuggestionPlan, formResult: FormResult)
    requires !Truthy(DeclaredTypeRaw(answer))
    requires answer.form.None? && c.escalate && !DeclinedEscalation(formResult)
    ensures AttachFollowUpForms(answer, c, plan, formResult, AsWrittenCatalog).None?
    ensures AttachFollowUpForms(answer, c, plan, formResult, IntendedCatalog).Some?
  {
    IntendedCatalogComplete();
    CompleteCatalogNeverRaises(answer, c, plan, formResult, IntendedCatalog);
  }

  // ----- one chat turn -----

  /** `AssistantMessageRequest`: `imageCount` is the number of attached images. */
  datatype Request = Request(sessionId: Option<Uuid>, text: Option<string>, metadata: Dict, imageCount: nat)

  /**
   * What the turn depends on outside the store and the ledger: the form
   * lookups, the classifier's result (`None` when it raises), whether the
   * planner raises, the solution table, the response generator, the form
   * builders, the text of floats and UUIDs, the id `uuid4` draws, the clock,
   * and the positions of suggestions whose insert fails.
   */
  datatype Env = Env(
    parseUuid: string -> Option<Uuid>,
    lookupFails: bool,
    classified: Option<Classification>,
    plannerFails: bool,
    table: seq<SolutionView>,
    generate: (Classification, SuggestionPlan) -> Answer,
    catalog: FormCatalog,
    floatText: real -> string,
    uuidText: Uuid -> string,
    newSessionId: Uuid,
    now: nat,
    failing: set<nat>)

  /**
   * The end of a turn: a `PermissionError` for a finished session, an
   * exception raised after the user message was stored, or the reply.
   */
  datatype Outcome =
    | Rejected
    | Raised
    | Replied(sessionId: Uuid, userMessageId: Uuid, assistantMessageId: Uuid, answer: Answer)
    | Dismissed(sessionId: Uuid, userMessageId: Uuid)   // a handled form without an answer: no assistant message

  /** The outcome together with the store's and the ledger's state after the turn. */
  datatype Turn = Turn(outcome: Outcome, sessions: map<Uuid, Session>, messages: seq<Message>, rows: seq<SuggestionRow>)

  /** `_get_or_create_session`: the requested session when it exists, else a new one. */
  function SessionFor(sessions: map<Uuid, Session>, req: Request, env: Env): Uuid {
    if req.sessionId.Some? && req.sessionId.value in sessions then req.sessionId.value else env.newSessionId
  }

  /** The request metadata, with `image_count` when images are attached. */
  function RequestMetadata(req: Request): (r: Dict)
    ensures req.imageCount > 0 ==> Get(r, "image_count") == Int(req.imageCount)
    ensures req.imageCount == 0 ==> r == req.metadata
  {
    if req.imageCount > 0 then Put(req.metadata, "image_count", Int(req.imageCount)) else req.metadata
  }

  /** The user message's metadata: the request metadata updated by the form's metadata updates. */
  function UserMetadata(req: Request, formResult: FormResult): Dict {
    if formResult.metadataUpdates.vals != map[] then Update(RequestMetadata(req), formResult.metadataUpdates)
    else RequestMetadata(req)
  }

  /** The classification and plan of an unhandled turn: overrides first, then the planner with one suggestion. */
  function Decide(env: Env, rows: seq<SuggestionRow>, sessionId: Uuid): (r: (Classification, SuggestionPlan))
    ensures Override(SafeClassify(env.classified)).1.Some? ==> r == (Override(SafeClassify(env.classified)).0, Override(SafeClassify(env.classified)).1.value)
    ensures Override(SafeClassify(env.classified)).1.None? ==> r.0 == SafeClassify(env.classified)
  {
    var o := Override(SafeClassify(env.classified));
    if o.1.Some? then (o.0, o.1.value)
    else
      var listed := if o.0.cause.Some? then ListByCause(env.table, o.0.cause.value.id, ListLimit) else [];
      (o.0, SafePlan(if env.plannerFails then None else Some(PlanSpec(o.0, SuggestedIds(rows, sessionId), listed, 1))))
  }

  function Touched(sessions: map<Uuid, Session>, id: Uuid, now: nat): map<Uuid, Session>
    requires id in sessions
  {
    sessions[id := sessions[id].(updatedAt := now)]
  }

  function WithStatus(sessions: map<Uuid, Session>, id: Uuid, status: string, now: nat): map<Uuid, Session>
    requires id in sessions
  {
    sessions[id := sessions[id].(status := status, updatedAt := now)]
  }

  /** The assistant message storing `answer`; `serialize` gives its metadata. */
  function AssistantMessage(id: Uuid, sessionId: Uuid, answer: Answer, serialize: Answer -> Dict): Message {
    Message(id, sessionId, AssistantRole, answer.reply, serialize(answer))
  }

  /** The generated answer with its envelopes and follow-up form; `None` when attaching the form raises. */
  function Respond(c: Classification, plan: SuggestionPlan, formResult: FormResult, env: Env): Option<Attached> {
    AttachFollowUpForms(Embed(env.generate(c, plan), c, plan, env.floatText, env.uuidText), c, plan, formResult, env.catalog)
  }

  /** The answer an unhandled turn delivers, from the ledger as it was before the turn. */
  function ReplyOf(formResult: FormResult, rows: seq<SuggestionRow>, sessionId: Uuid, env: Env): Option<Attached> {
    var decided := Decide(env, rows, sessionId);
    Respond(decided.0, decided.1, formResult, env)
  }

  /**
   * The collaborators `handle_message` delegates to: the form submission
   * service, the pipeline that answers an unhandled turn (classifier,
   * planner, generator, follow-up forms) and the metadata serializer.
   */
  datatype Services = Services(
    process: (seq<Message>, Uuid, Dict) -> FormResult,
    reply: (FormResult, seq<SuggestionRow>, Uuid) -> Option<Attached>,
    serialize: Answer -> Dict)

  /** The collaborators as this model defines them. */
  function ServicesOf(env: Env): Services {
    Services((messages: seq<Message>, sessionId: Uuid, metadata: Dict) => ProcessSpec(messages, sessionId, metadata, env.parseUuid, env.lookupFails),
             (formResult: FormResult, rows: seq<SuggestionRow>, sessionId: Uuid) => ReplyOf(formResult, rows, sessionId, env),
             Serializer(env.floatText))
  }

  /**
   * `assistant_workflow_service.py` lines 229-244 once the answer is ready: store it, record the new
   * suggestions, and escalate the session when the plan escalates and no
   * form was attached, else touch it.
   */
  function DeliverSpec(sessions: map<Uuid, Session>, messages: seq<Message>, rows: seq<SuggestionRow>,
                       sessionId: Uuid, userId: Uuid, attached: Option<Attached>, serialize: Answer -> Dict, env: Env): Turn
    requires sessionId in sessions
  {
    if attached.None? then Turn(Raised, sessions, messages, rows)
    else
      var a := attached.value;
      var assistantId := |messages|;
      Turn(Replied(sessionId, userId, assistantId, a.answer),
           if a.plan.escalate && a.answer.form.None? then WithStatus(sessions, sessionId, "escalated", env.now)
           else Touched(sessions, sessionId, env.now),
           messages + [AssistantMessage(assistantId, sessionId, a.answer, serialize)],
           rows + NewRows(sessionId, a.plan.solutions, env.failing, 0))
  }

  /**
   * `assistant_workflow_service.py` lines 124-155: a handled form's answer is stored and the session closed
   * or touched; a handled form without an answer only touches the session.
   */
  function HandledSpec(sessions: map<Uuid, Session>, messages: seq<Message>, rows: seq<SuggestionRow>,
                       sessionId: Uuid, userId: Uuid, d: Decision, serialize: Answer -> Dict, env: Env): Turn
    requires sessionId in sessions
  {
    if d.answer.None? then Turn(Dismissed(sessionId, userId), Touched(sessions, sessionId, env.now), messages, rows)
    else
      var assistantId := |messages|;
      Turn(Replied(sessionId, userId, assistantId, d.answer.value),
           if d.completedStatus.Some? then WithStatus(sessions, sessionId, d.completedStatus.value, env.now)
           else Touched(sessions, sessionId, env.now),
           messages + [AssistantMessage(assistantId, sessionId, d.answer.value, serialize)],
           rows)
  }

  /**
   * `assistant_workflow_service.py` lines 111-244 in an admitted session, given the user message, the form
   * decision and the answer the pipeline would deliver: the user message is
   * stored, then the decision answers a handled form, else the answer is
   * delivered.
   */
  function RecordSpec(sessions: map<Uuid, Session>, messages: seq<Message>, rows: seq<SuggestionRow>,
                      sessionId: Uuid, user: Message, d: Decision, attached: Option<Attached>,
                      serialize: Answer -> Dict, env: Env): Turn
    requires sessionId in sessions
  {
    var recorded := messages + [user];
    if d.handled then HandledSpec(sessions, recorded, rows, sessionId, |messages|, d, serialize, env)
    else DeliverSpec(sessions, recorded, rows, sessionId, |messages|, attached, serialize, env)
  }

  /** The form result of a turn: `process` on the request metadata, before the user message is stored. */
  function FormResultOf(messages: seq<Message>, sessionId: Uuid, req: Request, svc: Services): FormResult {
    svc.process(messages, sessionId, RequestMetadata(req))
  }

  /** The user message of a turn: the stripped text, with the metadata the form result updated. */
  function UserMessage(messages: seq<Message>, sessionId: Uuid, req: Request, formResult: FormResult): Message {
    Message(|messages|, sessionId, UserRole, Text.Strip(req.text.GetOr("")), UserMetadata(req, formResult))
  }

  /** `handle_message` from the state before the turn, with the collaborators `svc`. */
  function TurnSpec(sessions: map<Uuid, Session>, messages: seq<Message>, rows: seq<SuggestionRow>,
                    req: Request, env: Env, svc: Services): Turn
  {
    var sessionId := SessionFor(sessions, req, env);
    var admitted := Admit(sessions, sessionId, env.now);
    if admitted[sessionId].status != InProgress then Turn(Rejected, sessions, messages, rows)
    else AdmittedSpec(admitted, messages, rows, sessionId, req, env, svc)
  }

  /** A turn in an admitted session: the form is processed, then `RecordSpec` with what the collaborators compute. */
  function AdmittedSpec(sessions: map<Uuid, Session>, messages: seq<Message>, rows: seq<SuggestionRow>,
                        sessionId: Uuid, req: Request, env: Env, svc: Services): Turn
    requires sessionId in sessions
  {
    var formResult := FormResultOf(messages, sessionId, req, svc);
    RecordSpec(sessions, messages, rows, sessionId, UserMessage(messages, sessionId, req, formResult),
               HandleFormSubmission(formResult), svc.reply(formResult, rows, sessionId), svc.serialize, env)
  }

  /** Stores the ready answer and updates the ledger and the session. */
  method Deliver(store: ConversationStore, ledger: SuggestionLedger, sessionId: Uuid, userId: Uuid,
                 attached: Option<Attached>, serialize: Answer -> Dict, env: Env) returns (outcome: Outcome)
    requires store.Valid() && sessionId in store.sessions
    modifies store, ledger
    ensures store.Valid()
    ensures Turn(outcome, store.sessions, store.messages, ledger.rows)
            == DeliverSpec(old(store.sessions), old(store.messages), old(ledger.rows), sessionId, userId, attached, serialize, env)
  {
    if attached.None? {
      return Raised;
    }
    var a := attached.value;
    var assistantId := store.AddMessage(sessionId, AssistantRole, a.answer.reply, serialize(a.answer));
    PersistNewSuggestions(ledger, sessionId, a.plan, env.failing);
    if a.plan.escalate && a.answer.form.None? {
      store.SetStatus(sessionId, "escalated", env.now);
    } else {
      store.Touch(sessionId, env.now);
    }
    outcome := Replied(sessionId, userId, assistantId, a.answer);
  }

  /** Classifies, plans and generates the answer of an unhandled turn, reading the ledger. */
  method Compose(ledger: SuggestionLedger, sessionId: Uuid, formResult: FormResult, env: Env) returns (attached: Option<Attached>)
    ensures attached == ReplyOf(formResult, ledger.rows, sessionId, env)
  {
    var classification := SafeClassify(env.classified);
    var overridden := Override(classification);
    classification := overridden.0;
    var plan: SuggestionPlan;
    if overridden.1.Some? {
      plan := overridden.1.value;
    } else if env.plannerFails {
      plan := SafePlan(None);
    } else {
      plan := Plan(ledger, sessionId, env.table, classification, 1);
    }
    assert (classification, plan) == Decide(env, ledger.rows, sessionId);
    attached := Respond(classification, plan, formResult, env);
  }

  /** Stores a handled form's answer and closes or touches the session. */
  method Answered(store: ConversationStore, ledger: SuggestionLedger, sessionId: Uuid, userId: Uuid, d: Decision,
                  serialize: Answer -> Dict, env: Env) returns (outcome: Outcome)
    requires store.Valid() && sessionId in store.sessions
    modifies store
    ensures store.Valid()
    ensures Turn(outcome, store.sessions, store.messages, ledger.rows)
            == HandledSpec(old(store.sessions), old(store.messages), ledger.rows, sessionId, userId, d, serialize, env)
  {
    if d.answer.None? {
      store.Touch(sessionId, env.now);
      return Dismissed(sessionId, userId);
    }
    var assistantId := store.AddMessage(sessionId, AssistantRole, d.answer.value.reply, serialize(d.answer.value));
    if d.completedStatus.Some? {
      store.SetStatus(sessionId, d.completedStatus.value, env.now);
    } else {
      store.Touch(sessionId, env.now);
    }
    outcome := Replied(sessionId, userId, assistantId, d.answer.value);
  }

  /**
   * `handle_message`: the session is fetched or created, a finished one is
   * refused, the form is processed, the user message stored, and the form
   * decision or the classifier, planner and generator answer.
   */
  method HandleMessage(store: ConversationStore, ledger: SuggestionLedger, req: Request, env: Env)
    returns (outcome: Outcome)
    requires store.Valid() && env.newSessionId !in store.sessions
    modifies store, ledger
    ensures store.Valid()
    ensures Turn(outcome, store.sessions, store.messages, ledger.rows)
            == TurnSpec(old(store.sessions), old(store.messages), old(ledger.rows), req, env, ServicesOf(env))
  {
    var sessionId := SessionFor(store.sessions, req, env);
    if sessionId !in store.sessions {
      store.CreateSession(sessionId, env.now);
    }
    if store.sessions[sessionId].status != InProgress {
      return Rejected;
    }
    outcome := RunAdmitted(store, ledger, sessionId, req, env);
  }

  /** `handle_message` once the session is admitted. */
  method RunAdmitted(store: ConversationStore, ledger: SuggestionLedger, sessionId: Uuid, req: Request, env: Env)
    returns (outcome: Outcome)
    requires store.Valid() && sessionId in store.sessions
    modifies store, ledger
    ensures store.Valid()
    ensures Turn(outcome, store.sessions, store.messages, ledger.rows)
            == AdmittedSpec(old(store.sessions), old(store.messages), old(ledger.rows), sessionId, req, env, ServicesOf(env))
  {
    var formResult := Process(store, sessionId, RequestMetadata(req), env.parseUuid, env.lookupFails);
    assert formResult == FormResultOf(old(store.messages), sessionId, req, ServicesOf(env));
    var attached := Compose(ledger, sessionId, formResult, env);
    assert attached == ServicesOf(env).reply(formResult, old(ledger.rows), sessionId);
    outcome := Run(store, ledger, sessionId, UserMessage(store.messages, sessionId, req, formResult),
                   HandleFormSubmission(formResult), attached, Serializer(env.floatText), env);
  }

  /** `assistant_workflow_service.py` lines 111-244 of `handle_message` against the store and the ledger. */
  method Run(store: ConversationStore, ledger: SuggestionLedger, sessionId: Uuid, user: Message, d: Decision,
             attached: Option<Attached>, serialize: Answer -> Dict, env: Env) returns (outcome: Outcome)
    requires store.Valid() && sessionId in store.sessions
    requires user.id == |store.messages| && user.sessionId == sessionId && user.role == UserRole
    modifies store, ledger
    ensures store.Valid()
    ensures Turn(outcome, store.sessions, store.messages, ledger.rows)
            == RecordSpec(old(store.sessions), old(store.messages), old(ledger.rows), sessionId, user, d, attached, serialize, env)
  {
    var userId := store.AddMessage(sessionId, UserRole, user.content, user.metadata);
    if d.handled {
      outcome := Answered(store, ledger, sessionId, userId, d, serialize, env);
    } else {
      outcome := Deliver(store, ledger, sessionId, userId, attached, serialize, env);
    }
  }

  /** The outcome of `submit_feedback`. */
  datatype FeedbackOutcome = SessionNotFound | StillActive | Recorded

  /**
   * `submit_feedback`: an unknown session is a `ValueError`, an active one a
   * `PermissionError`; a finished session gets the rating and comment.
   */
  method SubmitFeedback(store: ConversationStore, sessionId: Uuid, rating: int, comment: Option<string>)
    returns (r: FeedbackOutcome)
    modifies store
    ensures r == SessionNotFound <==> sessionId !in old(store.sessions)
    ensures r == StillActive <==> sessionId in old(store.sessions) && old(store.sessions)[sessionId].status == InProgress
    ensures r == Recorded ==> store.sessions == old(store.sessions)[sessionId := old(store.sessions)[sessionId].(
                                feedbackRating := Some(rating), feedbackText := comment)]
    ensures r != Recorded ==> store.sessions == old(store.sessions)
    ensures store.messages == old(store.messages)
  {
    if sessionId !in store.sessions {
      return SessionNotFound;
    }
    if store.sessions[sessionId].status == InProgress {
      return StillActive;
    }
    store.SetFeedback(sessionId, Some(rating), comment);
    r := Recorded;
  }

  // ----- properties of a turn -----

  /** How the state after a turn in an admitted session relates to the state before it. */
  predicate RecordedTurn(sessions: map<Uuid, Session>, messages: seq<Message>, rows: seq<SuggestionRow>,
                         sessionId: Uuid, user: Message, serialize: Answer -> Dict, t: Turn)
  {
    && t.outcome != Rejected
    && |t.messages| == |messages| + (if t.outcome.Replied? then 2 else 1)
    && t.messages[..|messages|] == messages
    && t.messages[|messages|] == user
    && (t.outcome.Replied? ==>
          t.outcome.sessionId == sessionId && t.outcome.userMessageId == |messages|
          && t.outcome.assistantMessageId == |messages| + 1
          && t.messages[|messages| + 1] == AssistantMessage(|messages| + 1, sessionId, t.outcome.answer, serialize))
    && t.sessions.Keys == sessions.Keys
    && (forall id :: id in sessions && id != sessionId ==> t.sessions[id] == sessions[id])
    && (t.outcome == Raised ==> t.sessions == sessions)
    && (!t.outcome.Replied? ==> t.rows == rows)
    && |rows| <= |t.rows| && t.rows[..|rows|] == rows
  }

  /**
   * A turn in an admitted session never refuses it, appends the user
   * message and then at most the reply, leaves every other session alone,
   * and only appends to the ledger.
   */
  lemma RecordKeepsHistory(sessions: map<Uuid, Session>, messages: seq<Message>, rows: seq<SuggestionRow>,
                           sessionId: Uuid, user: Message, d: Decision, attached: Option<Attached>,
                           serialize: Answer -> Dict, env: Env)
    requires sessionId in sessions
    ensures RecordedTurn(sessions, messages, rows, sessionId, user, serialize,
                         RecordSpec(sessions, messages, rows, sessionId, user, d, attached, serialize, env))
  {
    var recorded := messages + [user];
    var t := RecordSpec(sessions, messages, rows, sessionId, user, d, attached, serialize, env);
    assert t.messages[..|recorded|] == recorded;
    assert t.messages[..|messages|] == recorded[..|messages|];
    assert t.rows[..|rows|] == rows;
  }

  lemma DeliverFacts(sessions: map<Uuid, Session>, messages: seq<Message>, rows: seq<SuggestionRow>,
                     sessionId: Uuid, userId: Uuid, attached: Option<Attached>, serialize: Answer -> Dict, env: Env)
    requires sessionId in sessions
    ensures var t := DeliverSpec(sessions, messages, rows, sessionId, userId, attached, serialize, env);
            (t.sessions[sessionId].status == sessions[sessionId].status
             || (t.sessions[sessionId].status == "escalated" && t.outcome.Replied? && attached.Some?
                 && attached.value.plan.escalate && t.outcome.answer == attached.value.answer
                 && attached.value.answer.form.None?))
            && (attached.None? ==> t.rows == rows)
            && (attached.Some? ==> t.rows == rows + NewRows(sessionId, attached.value.plan.solutions, env.failing, 0))
  {
  }

  lemma HandledFacts(sessions: map<Uuid, Session>, messages: seq<Message>, rows: seq<SuggestionRow>,
                     sessionId: Uuid, userId: Uuid, d: Decision, serialize: Answer -> Dict, env: Env)
    requires sessionId in sessions
    ensures var t := HandledSpec(sessions, messages, rows, sessionId, userId, d, serialize, env);
            t.rows == rows
            && (t.sessions[sessionId].status == sessions[sessionId].status
                || (d.completedStatus.Some? && d.answer.Some? && t.sessions[sessionId].status == d.completedStatus.value
                    && t.outcome == Replied(sessionId, userId, |messages|, d.answer.value)))
            && (d.answer.Some? ==> t.outcome.Replied?)
  {
  }

  /**
   * `handle_message` refuses exactly an existing session that is no longer
   * in progress, and then changes nothing.
   */
  lemma TurnRefusesOnlyFinishedSessions(sessions: map<Uuid, Session>, messages: seq<Message>, rows: seq<SuggestionRow>,
                                        req: Request, env: Env, svc: Services)
    requires env.newSessionId !in sessions
    ensures var t := TurnSpec(sessions, messages, rows, req, env, svc);
            (t.outcome == Rejected <==>
               req.sessionId.Some? && req.sessionId.value in sessions && sessions[req.sessionId.value].status != InProgress)
            && (t.outcome == Rejected ==> t == Turn(Rejected, sessions, messages, rows))
  {
    var sessionId := SessionFor(sessions, req, env);
    var admitted := Admit(sessions, sessionId, env.now);
    if admitted[sessionId].status == InProgress {
      var formResult := FormResultOf(messages, sessionId, req, svc);
      RecordKeepsHistory(admitted, messages, rows, sessionId, UserMessage(messages, sessionId, req, formResult),
                         HandleFormSubmission(formResult), svc.reply(formResult, rows, sessionId), svc.serialize, env);
    }
  }

  /**
   * `assistant_workflow_service.py` lines 141-155 are dead: every handled form decision carries an answer,
   * so no turn ends dismissed without an assistant message.
   */
  lemma TurnNeverDismisses(sessions: map<Uuid, Session>, messages: seq<Message>, rows: seq<SuggestionRow>,
                           req: Request, env: Env, svc: Services)
    ensures !TurnSpec(sessions, messages, rows, req, env, svc).outcome.Dismissed?
  {
    var sessionId := SessionFor(sessions, req, env);
    var admitted := Admit(sessions, sessionId, env.now);
    if admitted[sessionId].status == InProgress {
      var formResult := FormResultOf(messages, sessionId, req, svc);
      var d := HandleFormSubmission(formResult);
      var user := UserMessage(messages, sessionId, req, formResult);
      if d.handled {
        HandledFacts(admitted, messages + [user], rows, sessionId, |messages|, d, svc.serialize, env);
      } else {
        DeliverFacts(admitted, messages + [user], rows, sessionId, |messages|, svc.reply(formResult, rows, sessionId),
                     svc.serialize, env);
      }
    }
  }

  /**
   * A turn that is not refused stores the stripped user text as a user
   * message of the session, then at most the reply; it writes no other
   * session, and only appends to the ledger.
   */
  lemma TurnKeepsHistory(sessions: map<Uuid, Session>, messages: seq<Message>, rows: seq<SuggestionRow>,
                         req: Request, env: Env, svc: Services)
    requires env.newSessionId !in sessions
    ensures var t := TurnSpec(sessions, messages, rows, req, env, svc);
            var sessionId := SessionFor(sessions, req, env);
            t.outcome != Rejected ==>
              && |t.messages| == |messages| + (if t.outcome.Replied? then 2 else 1)
              && t.messages[..|messages|] == messages
              && t.messages[|messages|].role == UserRole
              && t.messages[|messages|].sessionId == sessionId
              && t.messages[|messages|].content == Text.Strip(req.text.GetOr(""))
              && (t.outcome.Replied? ==>
                    t.messages[|messages| + 1].role == AssistantRole
                    && t.messages[|messages| + 1].content == t.outcome.answer.reply)
              && t.sessions.Keys == sessions.Keys + {sessionId}
              && (forall id :: id in sessions && id != sessionId ==> t.sessions[id] == sessions[id])
              && |rows| <= |t.rows| && t.rows[..|rows|] == rows
  {
    var sessionId := SessionFor(sessions, req, env);
    var admitted := Admit(sessions, sessionId, env.now);
    if admitted[sessionId].status == InProgress {
      var formResult := FormResultOf(messages, sessionId, req, svc);
      RecordKeepsHistory(admitted, messages, rows, sessionId, UserMessage(messages, sessionId, req, formResult),
                         HandleFormSubmission(formResult), svc.reply(formResult, rows, sessionId), svc.serialize, env);
    }
  }

  /**
   * In an admitted session that was in progress, a recorded turn keeps it in
   * progress, gives it the handled decision's completed status together with
   * that decision's answer, or escalates it with the delivered answer of an
   * escalating plan that carries no form.
   */
  lemma RecordStatus(sessions: map<Uuid, Session>, messages: seq<Message>, rows: seq<SuggestionRow>,
                     sessionId: Uuid, user: Message, d: Decision, attached: Option<Attached>,
                     serialize: Answer -> Dict, env: Env)
    requires sessionId in sessions && sessions[sessionId].status == InProgress
    requires d.handled <==> d.answer.Some?
    ensures var t := RecordSpec(sessions, messages, rows, sessionId, user, d, attached, serialize, env);
            sessionId in t.sessions &&
            (|| t.sessions[sessionId].status == InProgress
             || (d.handled && d.completedStatus == Some(t.sessions[sessionId].status)
                 && t.outcome.Replied? && t.outcome.answer == d.answer.value)
             || (!d.handled && t.sessions[sessionId].status == "escalated" && t.outcome.Replied? && attached.Some?
                 && attached.value.plan.escalate && attached.value.answer.form.None?
                 && t.outcome.answer == attached.value.answer))
  {
    if d.handled {
      HandledFacts(sessions, messages + [user], rows, sessionId, |messages|, d, serialize, env);
    } else {
      DeliverFacts(sessions, messages + [user], rows, sessionId, |messages|, attached, serialize, env);
    }
  }

  /** A turn leaves its session in progress, resolved or escalated. */
  lemma TurnStatus(sessions: map<Uuid, Session>, messages: seq<Message>, rows: seq<SuggestionRow>, req: Request, env: Env, svc: Services)
    requires env.newSessionId !in sessions
    ensures var t := TurnSpec(sessions, messages, rows, req, env, svc);
            var sessionId := SessionFor(sessions, req, env);
            t.outcome != Rejected ==>
              sessionId in t.sessions && t.sessions[sessionId].status in {InProgress, "resolved", "escalated"}
  {
    var sessionId := SessionFor(sessions, req, env);
    var admitted := Admit(sessions, sessionId, env.now);
    if admitted[sessionId].status == InProgress {
      var formResult := FormResultOf(messages, sessionId, req, svc);
      RecordStatus(admitted, messages, rows, sessionId, UserMessage(messages, sessionId, req, formResult),
                   HandleFormSubmission(formResult), svc.reply(formResult, rows, sessionId), svc.serialize, env);
    }
  }

  /**
   * A turn closes its session as resolved only when the user confirmed a
   * resolution check, and then replies without a form.
   */
  lemma TurnResolvesOnlyConfirmedChecks(sessions: map<Uuid, Session>, messages: seq<Message>, rows: seq<SuggestionRow>,
                                        req: Request, env: Env, svc: Services)
    requires env.newSessionId !in sessions
    ensures var t := TurnSpec(sessions, messages, rows, req, env, svc);
            var sessionId := SessionFor(sessions, req, env);
            var formResult := FormResultOf(messages, sessionId, req, svc);
            t.outcome != Rejected && sessionId in t.sessions && t.sessions[sessionId].status == "resolved" ==>
              t.outcome.Replied? && t.outcome.answer.form.None?
              && Text.Lower(formResult.formKind.GetOr("")) == "resolution_check"
              && formResult.resolutionConfirmed == Some(true)
  {
    var sessionId := SessionFor(sessions, req, env);
    var admitted := Admit(sessions, sessionId, env.now);
    if admitted[sessionId].status == InProgress {
      var formResult := FormResultOf(messages, sessionId, req, svc);
      var d := HandleFormSubmission(formResult);
      RecordStatus(admitted, messages, rows, sessionId, UserMessage(messages, sessionId, req, formResult),
                   d, svc.reply(formResult, rows, sessionId), svc.serialize, env);
    }
  }

  /**
   * A turn escalates its session only with an unhandled form, when the plan
   * escalates and the reply carries no form; with every form builder present
   * that happens only for an unknown declared follow-up type, which the
   * reply no longer carries.
   */
  lemma TurnEscalatesOnlyWithoutForm(sessions: map<Uuid, Session>, messages: seq<Message>, rows: seq<SuggestionRow>,
                                     req: Request, env: Env, svc: Services)
    requires env.newSessionId !in sessions
    requires EscalationClearsKind(svc)
    ensures var t := TurnSpec(sessions, messages, rows, req, env, svc);
            var sessionId := SessionFor(sessions, req, env);
            var formResult := FormResultOf(messages, sessionId, req, svc);
            t.outcome != Rejected && sessionId in t.sessions && t.sessions[sessionId].status == "escalated" ==>
              t.outcome.Replied? && t.outcome.answer.form.None?
              && !HandleFormSubmission(formResult).handled && t.outcome.answer.followUpType == Null
  {
    var sessionId := SessionFor(sessions, req, env);
    var admitted := Admit(sessions, sessionId, env.now);
    if admitted[sessionId].status == InProgress {
      var formResult := FormResultOf(messages, sessionId, req, svc);
      var d := HandleFormSubmission(formResult);
      var attached := svc.reply(formResult, rows, sessionId);
      RecordStatus(admitted, messages, rows, sessionId, UserMessage(messages, sessionId, req, formResult),
                   d, attached, svc.serialize, env);
    }
  }

  /** Collaborators whose answer, once it escalates without a form, declares no follow-up type. */
  ghost predicate EscalationClearsKind(svc: Services) {
    forall formResult, rows, sessionId ::
      var a := svc.reply(formResult, rows, sessionId);
      a.Some? && a.value.plan.escalate && a.value.answer.form.None? ==> a.value.answer.followUpType == Null
  }

  /** Collaborators whose answer plans at most one solution, none the session was already offered. */
  ghost predicate RepliesFresh(svc: Services) {
    forall formResult, rows, sessionId ::
      var a := svc.reply(formResult, rows, sessionId);
      a.Some? ==>
        |a.value.plan.solutions| <= 1
        && forall i :: 0 <= i < |a.value.plan.solutions| ==> a.value.plan.solutions[i].solution.id !in SuggestedIds(rows, sessionId)
  }

  /** The collaborators of this model have both properties. */
  lemma ServicesOfAreSound(env: Env)
    ensures EscalationClearsKind(ServicesOf(env)) && RepliesFresh(ServicesOf(env))
  {
    var svc := ServicesOf(env);
    forall formResult, rows, sessionId
      ensures var a := svc.reply(formResult, rows, sessionId);
              a.Some? && a.value.plan.escalate && a.value.answer.form.None? ==> a.value.answer.followUpType == Null
    {
      var a := ReplyOf(formResult, rows, sessionId, env);
      if a.Some? && a.value.plan.escalate && a.value.answer.form.None? {
        ReplyEscalationClearsKind(formResult, rows, sessionId, env);
      }
    }
    forall formResult, rows, sessionId
      ensures var a := svc.reply(formResult, rows, sessionId);
              a.Some? ==>
                |a.value.plan.solutions| <= 1
                && forall i :: 0 <= i < |a.value.plan.solutions| ==> a.value.plan.solutions[i].solution.id !in SuggestedIds(rows, sessionId)
    {
      if ReplyOf(formResult, rows, sessionId, env).Some? {
        ReplyIsFresh(formResult, rows, sessionId, env);
      }
    }
  }

  /** A delivered answer carries the decided plan's solutions: at most one, none already offered. */
  lemma ReplyIsFresh(formResult: FormResult, rows: seq<SuggestionRow>, sessionId: Uuid, env: Env)
    requires ReplyOf(formResult, rows, sessionId, env).Some?
    ensures var p := ReplyOf(formResult, rows, sessionId, env).value.plan;
            |p.solutions| <= 1
            && forall i :: 0 <= i < |p.solutions| ==> p.solutions[i].solution.id !in SuggestedIds(rows, sessionId)
  {
    var decided := Decide(env, rows, sessionId);
    var answer := Embed(env.generate(decided.0, decided.1), decided.0, decided.1, env.floatText, env.uuidText);
    AttachNeverEscalates(answer, decided.0, decided.1, formResult, env.catalog);
    DecidedPlanIsFresh(env, rows, sessionId);
  }

  /** A delivered answer that escalates without a form no longer declares a follow-up type. */
  lemma ReplyEscalationClearsKind(formResult: FormResult, rows: seq<SuggestionRow>, sessionId: Uuid, env: Env)
    requires var a := ReplyOf(formResult, rows, sessionId, env);
             a.Some? && a.value.plan.escalate && a.value.answer.form.None?
    ensures ReplyOf(formResult, rows, sessionId, env).value.answer.followUpType == Null
  {
    var decided := Decide(env, rows, sessionId);
    var answer := Embed(env.generate(decided.0, decided.1), decided.0, decided.1, env.floatText, env.uuidText);
    EscalatingWithoutFormNeedsUnknownKind(answer, decided.0, decided.1, formResult, env.catalog);
  }

  /**
   * The plan of an unhandled turn offers at most one solution, and none the
   * session's ledger already holds.
   */
  lemma DecidedPlanIsFresh(env: Env, rows: seq<SuggestionRow>, sessionId: Uuid)
    ensures var p := Decide(env, rows, sessionId).1;
            |p.solutions| <= 1
            && forall i :: 0 <= i < |p.solutions| ==> p.solutions[i].solution.id !in SuggestedIds(rows, sessionId)
  {
    var o := Override(SafeClassify(env.classified));
    if o.1.None? && !env.plannerFails {
      var listed := if o.0.cause.Some? then ListByCause(env.table, o.0.cause.value.id, ListLimit) else [];
      PlanNeverRepeats(o.0, SuggestedIds(rows, sessionId), listed, 1);
    }
  }

  /**
   * The suggestions a turn records: only an unhandled turn whose answer was
   * delivered writes ledger rows, from its plan's solutions.
   */
  lemma RecordRows(sessions: map<Uuid, Session>, messages: seq<Message>, rows: seq<SuggestionRow>,
                   sessionId: Uuid, user: Message, d: Decision, attached: Option<Attached>,
                   serialize: Answer -> Dict, env: Env)
    requires sessionId in sessions
    ensures RecordSpec(sessions, messages, rows, sessionId, user, d, attached, serialize, env).rows
            == rows + (if !d.handled && attached.Some? then NewRows(sessionId, attached.value.plan.solutions, env.failing, 0)
                       else [])
  {
    if d.handled {
      HandledFacts(sessions, messages + [user], rows, sessionId, |messages|, d, serialize, env);
    } else {
      DeliverFacts(sessions, messages + [user], rows, sessionId, |messages|, attached, serialize, env);
      if attached.None? {
        assert rows + [] == rows;
      }
    }
  }

  /**
   * A turn adds at most one suggestion to the ledger, for its own session,
   * and never one the session was already offered.
   */
  lemma TurnNeverRepeatsSuggestion(sessions: map<Uuid, Session>, messages: seq<Message>, rows: seq<SuggestionRow>,
                                   req: Request, env: Env, svc: Services)
    requires env.newSessionId !in sessions
    requires RepliesFresh(svc)
    ensures var t := TurnSpec(sessions, messages, rows, req, env, svc);
            var sessionId := SessionFor(sessions, req, env);
            |rows| <= |t.rows| <= |rows| + 1 && t.rows[..|rows|] == rows
            && forall k :: |rows| <= k < |t.rows| ==>
                 t.rows[k].sessionId == sessionId && t.rows[k].solutionId !in SuggestedIds(rows, sessionId)
  {
    var sessionId := SessionFor(sessions, req, env);
    var admitted := Admit(sessions, sessionId, env.now);
    if admitted[sessionId].status == InProgress {
      var formResult := FormResultOf(messages, sessionId, req, svc);
      var d := HandleFormSubmission(formResult);
      var user := UserMessage(messages, sessionId, req, formResult);
      var attached := svc.reply(formResult, rows, sessionId);
      RecordRows(admitted, messages, rows, sessionId, user, d, attached, svc.serialize, env);
      if !d.handled && attached.Some? {
        FreshRows(rows, sessionId, attached.value.plan.solutions, env.failing);
      } else {
        assert rows + [] == rows;
      }
    }
  }

  /** Rows made from at most one fresh solution keep the properties of `TurnNeverRepeatsSuggestion`. */
  lemma FreshRows(rows: seq<SuggestionRow>, sessionId: Uuid, items: seq<PlannedSolution>, failing: set<nat>)
    requires |items| <= 1
    requires forall i :: 0 <= i < |items| ==> items[i].solution.id !in SuggestedIds(rows, sessionId)
    ensures var t := rows + NewRows(sessionId, items, failing, 0);
            |rows| <= |t| <= |rows| + 1 && t[..|rows|] == rows
            && forall k :: |rows| <= k < |t| ==>
                 t[k].sessionId == sessionId && t[k].solutionId !in SuggestedIds(rows, sessionId)
  {
    var added := NewRows(sessionId, items, failing, 0);
    NewRowsComeFromItems(sessionId, items, failing, 0);
    var t := rows + added;
    assert t[..|rows|] == rows;
    forall k | |rows| <= k < |t|
      ensures t[k].sessionId == sessionId && t[k].solutionId !in SuggestedIds(rows, sessionId)
    {
      assert t[k] == added[k - |rows|];
    }
  }
}
