/**
 * `UnifiedWorkflowService`, the third orchestration generation: the
 * classifier decides the intent, the next action and the solution; the
 * generator only writes the reply; the form builder maps the next action to
 * a form. The classifier, the generator, base64 decoding and the message
 * lookup behind `replied_to` are parameters; image analysis and usage
 * logging, whose failures the service swallows, are not part of this model.
 */
module UnifiedWorkflow {
  import opened Wrappers
  import opened Json
  import Text
  import opened Store
  import opened MessageFlow
  import opened Troubleshooting
  import FormBuilder
  import AssistantMetadata
  import ImagePayload

  /** `UserMessageRequest`; `images` are the base64 payloads, `mimeHints` the optional hints beside them. */
  datatype Request = Request(
    sessionId: Option<Uuid>,
    text: Option<string>,
    images: seq<string>,
    mimeHints: Option<seq<Option<string>>>,
    metadata: Dict)

  /** The part of the classifier's `ClassificationResult` the workflow reads. */
  datatype Decision = Decision(
    intent: UserIntent,
    nextAction: NextAction,
    confidence: real,
    reasoning: string,
    solutionSlug: Option<string>)

  /** `ResponseResult`: the reply text and an optional single suggested action. */
  datatype Response = Response(reply: string, suggestedAction: Option<string>)

  /**
   * The collaborators and the world: the classifier's decision (`None` when
   * it raises), the generator (`None` when it raises), base64 decoding, the
   * message a `replied_to` value names (`None` when it does not name one or
   * the lookup raises), whether the consumed-flag update raises, the
   * solution catalog, whether the suggestion insert raises, the text of
   * floats, the id `uuid4` draws and the clock.
   */
  datatype Env = Env(
    classified: Option<Decision>,
    respond: Decision -> Option<Response>,
    decode: string -> Option<seq<ImagePayload.byte>>,
    messageRef: Value -> Option<Uuid>,
    consumeFails: bool,
    table: seq<SolutionView>,
    trackFails: bool,
    floatText: real -> string,
    newSessionId: Uuid,
    now: nat)

  datatype Outcome =
    | Rejected
    | Raised
    | Replied(sessionId: Uuid, userMessageId: Uuid, assistantMessageId: Uuid, answer: Answer)
    | Dismissed(sessionId: Uuid, userMessageId: Uuid)   // empty reply, no assistant message

  datatype Turn = Turn(outcome: Outcome, sessions: map<Uuid, Session>, messages: seq<Message>, rows: seq<SuggestionRow>)

  /** The statuses this service refuses to continue. */
  const ClosedStatuses: set<string> := {"resolved", "escalated"}

  function SessionFor(sessions: map<Uuid, Session>, req: Request, env: Env): Uuid {
    if req.sessionId.Some? && req.sessionId.value in sessions then req.sessionId.value else env.newSessionId
  }

  // ----- form interactions -----

  /** `metadata.get("follow_up_form_response", {})`. */
  function FormResponse(metadata: Dict): (r: Value)
    ensures !Has(metadata, "follow_up_form_response") ==> r == Obj(Empty)
    ensures Has(metadata, "follow_up_form_response") ==> r == Get(metadata, "follow_up_form_response")
  {
    if Has(metadata, "follow_up_form_response") then metadata.vals["follow_up_form_response"] else Obj(Empty)
  }

  /** A truthy `client_hidden` with a dict (possibly the default `{}`) as the form response. */
  predicate IsFormInteraction(metadata: Dict) {
    Truthy(Get(metadata, "client_hidden")) && FormResponse(metadata).Obj?
  }

  /** A form interaction whose response has status "dismissed". */
  predicate IsDismissal(metadata: Dict) {
    IsFormInteraction(metadata) && Get(FormResponse(metadata).d, "status") == Str("dismissed")
  }

  /** The message id a form interaction replies to, when it gives a truthy one. */
  function RepliedTo(metadata: Dict): (r: Option<Value>)
    ensures r.Some? <==> IsFormInteraction(metadata) && Truthy(Get(FormResponse(metadata).d, "replied_to"))
    ensures r.Some? ==> r.value == Get(FormResponse(metadata).d, "replied_to") && Truthy(r.value)
  {
    if IsFormInteraction(metadata) && Truthy(Get(FormResponse(metadata).d, "replied_to"))
    then Some(Get(FormResponse(metadata).d, "replied_to"))
    else None
  }

  /** The metadata `_mark_form_consumed` writes back: the old metadata with `form_consumed` set. */
  function ConsumedMetadata(metadata: Dict): (r: Dict)
    ensures r.vals == metadata.vals["form_consumed" := Bool(true)]
  {
    Put(metadata, "form_consumed", Bool(true))
  }

  /** The messages after `_mark_form_consumed`: an unknown message or a failure changes nothing. */
  function ConsumeSpec(messages: seq<Message>, target: Option<Uuid>, fails: bool): (r: seq<Message>)
    ensures |r| == |messages|
  {
    if target.None? || fails || target.value >= |messages| then messages
    else messages[target.value := messages[target.value].(metadata := ConsumedMetadata(messages[target.value].metadata))]
  }

  /** `unified_workflow.py` lines 88-92: the message the interaction replies to is marked consumed, whichever session it belongs to. */
  function ConsumedSpec(messages: seq<Message>, metadata: Dict, env: Env): (r: seq<Message>)
    ensures |r| == |messages|
  {
    var target := RepliedTo(metadata);
    if target.None? then messages else ConsumeSpec(messages, env.messageRef(target.value), env.consumeFails)
  }

  // ----- the user message -----

  /** The hint at position `i`: present only when the hint list is non-empty and long enough. */
  function HintAt(hints: Option<seq<Option<string>>>, i: nat): Option<string> {
    if hints.Some? && hints.value != [] && i < |hints.value| then hints.value[i] else None
  }

  function AttachmentValue(imageB64: string, mime: string): Value {
    Obj(FromEntries(["type", "base64", "mime_type"], [Str("image"), Str(imageB64), Str(mime)]))
  }

  /** The attachment entries of a request: one per image, in order, with the mime its own hint resolves to. */
  function Attachments(req: Request, decode: string -> Option<seq<ImagePayload.byte>>): (r: seq<Value>)
    ensures |r| == |req.images|
  {
    seq(|req.images|, i requires 0 <= i < |req.images| =>
      AttachmentValue(req.images[i], ImagePayload.ResolveImageMime(HintAt(req.mimeHints, i), req.images[i], decode)))
  }

  /** The user message's metadata: the request metadata, with `has_images` and the attachments when images came. */
  function UserMetadata(req: Request, decode: string -> Option<seq<ImagePayload.byte>>): (r: Dict)
    ensures req.images == [] ==> r.vals == req.metadata.vals
    ensures req.images != [] ==>
              r.vals == req.metadata.vals["has_images" := Bool(true)]["attachments" := List(Attachments(req, decode))]
  {
    var base := if req.metadata.vals == map[] then Empty else req.metadata;
    if req.images == [] then base
    else Put(Put(base, "has_images", Bool(true)), "attachments", List(Attachments(req, decode)))
  }

  /**
   * Builds the attachment entries one image at a time, as
   * `_persist_user_message` appends them.
   */
  method BuildAttachments(req: Request, decode: string -> Option<seq<ImagePayload.byte>>) returns (attachments: seq<Value>)
    ensures attachments == Attachments(req, decode)
  {
    ghost var all := Attachments(req, decode);
    attachments := [];
    var i := 0;
    while i < |req.images|
      invariant 0 <= i <= |req.images|
      invariant attachments == all[..i]
    {
      var hint: Option<string> := None;
      if req.mimeHints.Some? && req.mimeHints.value != [] && i < |req.mimeHints.value| {
        hint := req.mimeHints.value[i];
      }
      assert hint == HintAt(req.mimeHints, i);
      var mime := ImagePayload.ResolveImageMime(hint, req.images[i], decode);
      assert all[i] == AttachmentValue(req.images[i], mime);
      attachments := attachments + [AttachmentValue(req.images[i], mime)];
      assert all[..i + 1] == all[..i] + [all[i]];
      i := i + 1;
    }
    assert all[..i] == all;
  }

  // ----- the answer -----

  /** `unified_workflow.py` lines 192-195: no suggested action when the turn closes or escalates, else the generator's one, if any. */
  function SuggestedActions(action: NextAction, suggested: Option<string>): (r: seq<string>)
    ensures action in {CloseResolved, Escalate} ==> r == []
    ensures action !in {CloseResolved, Escalate} && suggested.Some? && suggested.value != [] ==> r == [suggested.value]
    ensures suggested.None? || suggested.value == [] ==> r == []
  {
    if action !in {CloseResolved, Escalate} && suggested.Some? && suggested.value != [] then [suggested.value] else []
  }

  /** The answer of a turn: the reply, the actions, the form of the next action, and the decision as metadata. */
  function AnswerFor(d: Decision, response: Response): Answer {
    Answer(response.reply, SuggestedActions(d.nextAction, response.suggestedAction), FormBuilder.BuildForm(d.nextAction),
           Some(d.confidence),
           FromEntries(["intent", "next_action", "reasoning"],
                       [Str(IntentName(d.intent)), Str(ActionName(d.nextAction)), Str(d.reasoning)]),
           Null, Null)
  }

  // ----- suggestion tracking -----

  /** The catalog's solutions with the slug. */
  function WithSlug(table: seq<SolutionView>, slug: string): (r: seq<SolutionView>)
    ensures forall s :: s in r <==> s in table && s.slug == slug
  {
    if table == [] then []
    else
      var rest := WithSlug(table[1..], slug);
      assert forall s :: s in table <==> s == table[0] || s in table[1..];
      if table[0].slug == slug then [table[0]] + rest else rest
  }

  /**
   * `get_by_slug` inside `_track_solution`'s `try`: the one solution with the
   * slug; none, or several (`scalar_one_or_none` raises), give `None`.
   */
  function GetBySlug(table: seq<SolutionView>, slug: string): (r: Option<SolutionView>)
    ensures r.Some? <==> exists i :: OnlyAt(table, slug, i)
    ensures forall i :: OnlyAt(table, slug, i) ==> r == Some(table[i])
  {
    var found := WithSlug(table, slug);
    WithSlugOne(table, slug);
    if |found| == 1 then
      assert found[0] in found;
      Some(found[0])
    else None
  }

  /** Row `i` is the only row of the catalog with the slug. */
  predicate OnlyAt(table: seq<SolutionView>, slug: string, i: int) {
    0 <= i < |table| && table[i].slug == slug
    && forall j :: 0 <= j < |table| && j != i ==> table[j].slug != slug
  }

  /** Exactly one solution is found for a slug exactly when a single row carries it. */
  lemma {:induction false} WithSlugOne(table: seq<SolutionView>, slug: string)
    ensures |WithSlug(table, slug)| == 1 <==> exists i :: OnlyAt(table, slug, i)
  {
    if table != [] {
      var tail := table[1..];
      WithSlugOne(tail, slug);
      forall i | 0 < i < |table|
        ensures OnlyAt(table, slug, i) <==> table[0].slug != slug && OnlyAt(tail, slug, i - 1)
      {
        forall j | 0 <= j < |tail| ensures tail[j] == table[j + 1] {}
      }
      if table[0].slug == slug {
        if |WithSlug(tail, slug)| == 0 {
          forall j | 0 <= j < |table| && j != 0 ensures table[j].slug != slug {
            assert table[j] == tail[j - 1];
            assert table[j] !in WithSlug(tail, slug);
          }
          assert OnlyAt(table, slug, 0);
        } else {
          var s0 := WithSlug(tail, slug)[0];
          assert s0 in tail;
          var k :| 0 <= k < |tail| && tail[k] == s0;
          assert table[k + 1] == s0;
          forall i | 0 <= i < |table| ensures !OnlyAt(table, slug, i) {
            if i == 0 {
              assert table[k + 1].slug == slug;
            } else {
              assert table[0].slug == slug;
            }
          }
        }
      } else {
        if exists i :: OnlyAt(tail, slug, i) {
          var i :| OnlyAt(tail, slug, i);
          assert OnlyAt(table, slug, i + 1);
        }
        if exists i :: OnlyAt(table, slug, i) {
          var i :| OnlyAt(table, slug, i);
          assert i != 0;
          assert OnlyAt(tail, slug, i - 1);
        }
      }
    }
  }

  /** The ledger after `_track_solution`: one row when the slug names exactly one solution and the insert succeeds. */
  function TrackedRows(rows: seq<SuggestionRow>, sessionId: Uuid, slug: Option<string>, table: seq<SolutionView>,
                       fails: bool): seq<SuggestionRow>
  {
    if slug.None? || slug.value == [] then rows
    else
      var solution := GetBySlug(table, slug.value);
      if solution.None? || fails then rows else rows + [SuggestionRow(sessionId, solution.value.id)]
  }

  /** `unified_workflow.py` lines 221-229: the status the next action gives the session. */
  function StatusAfter(sessions: map<Uuid, Session>, sessionId: Uuid, action: NextAction, now: nat): map<Uuid, Session>
    requires sessionId in sessions
  {
    if action == CloseResolved then sessions[sessionId := sessions[sessionId].(status := "resolved", updatedAt := now)]
    else if action == Escalate then sessions[sessionId := sessions[sessionId].(status := "escalated", updatedAt := now)]
    else sessions[sessionId := sessions[sessionId].(updatedAt := now)]
  }

  function AssistantMessage(id: Uuid, sessionId: Uuid, answer: Answer, serialize: Answer -> Dict): Message {
    Message(id, sessionId, AssistantRole, answer.reply, serialize(answer))
  }

  // ----- the turn -----

  /**
   * `unified_workflow.py` lines 142-244 once the user message is stored: classify, generate, store
   * the answer, track the solution, set the status. An exception from the
   * classifier or the generator ends the turn with the user message stored.
   */
  function ReplySpec(sessions: map<Uuid, Session>, messages: seq<Message>, rows: seq<SuggestionRow>,
                     sessionId: Uuid, userId: Uuid, env: Env, serialize: Answer -> Dict): Turn
    requires sessionId in sessions
  {
    if env.classified.None? then Turn(Raised, sessions, messages, rows)
    else
      var d := env.classified.value;
      var response := env.respond(d);
      if response.None? then Turn(Raised, sessions, messages, rows)
      else
        Record(sessions, messages, rows, sessionId, userId, d, AnswerFor(d, response.value), env, serialize)
  }

  /** `unified_workflow.py` lines 197-229: store the answer, track the decided solution, set the status. */
  function Record(sessions: map<Uuid, Session>, messages: seq<Message>, rows: seq<SuggestionRow>,
                  sessionId: Uuid, userId: Uuid, d: Decision, answer: Answer, env: Env, serialize: Answer -> Dict): Turn
    requires sessionId in sessions
  {
    var assistantId := |messages|;
    Turn(Replied(sessionId, userId, assistantId, answer),
         StatusAfter(sessions, sessionId, d.nextAction, env.now),
         messages + [AssistantMessage(assistantId, sessionId, answer, serialize)],
         TrackedRows(rows, sessionId, d.solutionSlug, env.table, env.trackFails))
  }

  /** `handle_message` from the state before the turn; `serialize` stores an answer's metadata. */
  function TurnSpec(sessions: map<Uuid, Session>, messages: seq<Message>, rows: seq<SuggestionRow>,
                    req: Request, env: Env, serialize: Answer -> Dict): Turn
  {
    var sessionId := SessionFor(sessions, req, env);
    var admitted := Admit(sessions, sessionId, env.now);
    if admitted[sessionId].status in ClosedStatuses then Turn(Rejected, sessions, messages, rows)
    else
      var consumed := ConsumedSpec(messages, req.metadata, env);
      var userId := |consumed|;
      var metadata := UserMetadata(req, env.decode);
      if IsDismissal(req.metadata) then
        Turn(Dismissed(sessionId, userId), admitted,
             consumed + [Message(userId, sessionId, UserRole, req.text.GetOr(""), metadata)], rows)
      else
        ReplySpec(admitted, consumed + [Message(userId, sessionId, UserRole, Text.Strip(req.text.GetOr("")), metadata)],
                  rows, sessionId, userId, env, serialize)
  }

  // ----- the service -----

  /** `_mark_form_consumed`: sets `form_consumed` on the named message; a missing message or a failure is ignored. */
  method MarkFormConsumed(store: ConversationStore, target: Option<Uuid>, fails: bool)
    requires store.Valid()
    modifies store
    ensures store.Valid()
    ensures store.messages == ConsumeSpec(old(store.messages), target, fails)
    ensures store.sessions == old(store.sessions)
  {
    if target.None? || fails {
      return;
    }
    var message := store.GetMessage(target.value);
    if message.None? {
      return;
    }
    store.UpdateMessageMetadata(target.value, ConsumedMetadata(message.value.metadata));
  }

  /** `_track_solution`: records the suggestion when its slug names one solution; failures are swallowed. */
  method TrackSolution(ledger: SuggestionLedger, sessionId: Uuid, slug: Option<string>, table: seq<SolutionView>, fails: bool)
    modifies ledger
    ensures ledger.rows == TrackedRows(old(ledger.rows), sessionId, slug, table, fails)
  {
    if slug.None? || slug.value == [] {
      return;
    }
    var solution := GetBySlug(table, slug.value);
    if solution.None? || fails {
      return;
    }
    ledger.Create(SuggestionRow(sessionId, solution.value.id));
  }

  /** `_persist_user_message`. */
  method PersistUserMessage(store: ConversationStore, sessionId: Uuid, content: string, req: Request,
                            decode: string -> Option<seq<ImagePayload.byte>>) returns (id: Uuid)
    requires store.Valid()
    modifies store
    ensures store.Valid()
    ensures id == |old(store.messages)|
    ensures store.messages == old(store.messages) + [Message(id, sessionId, UserRole, content, UserMetadata(req, decode))]
    ensures store.sessions == old(store.sessions)
  {
    var metadata := if req.metadata.vals == map[] then Empty else req.metadata;
    if req.images != [] {
      metadata := Put(metadata, "has_images", Bool(true));
      var attachments := BuildAttachments(req, decode);
      metadata := Put(metadata, "attachments", List(attachments));
    }
    id := store.AddMessage(sessionId, UserRole, content, metadata);
  }

  /** `unified_workflow.py` lines 142-244 against the store and the ledger. */
  method Reply(store: ConversationStore, ledger: SuggestionLedger, sessionId: Uuid, userId: Uuid, env: Env,
               serialize: Answer -> Dict) returns (outcome: Outcome)
    requires store.Valid() && sessionId in store.sessions
    modifies store, ledger
    ensures store.Valid()
    ensures Turn(outcome, store.sessions, store.messages, ledger.rows)
            == ReplySpec(old(store.sessions), old(store.messages), old(ledger.rows), sessionId, userId, env, serialize)
  {
    if env.classified.None? {
      return Raised;
    }
    var d := env.classified.value;
    var response := env.respond(d);
    if response.None? {
      return Raised;
    }
    var answer := AnswerFor(d, response.value);
    var assistantId := store.AddMessage(sessionId, AssistantRole, answer.reply, serialize(answer));
    TrackSolution(ledger, sessionId, d.solutionSlug, env.table, env.trackFails);
    if d.nextAction == CloseResolved {
      store.SetStatus(sessionId, "resolved", env.now);
    } else if d.nextAction == Escalate {
      store.SetStatus(sessionId, "escalated", env.now);
    } else {
      store.Touch(sessionId, env.now);
    }
    outcome := Replied(sessionId, userId, assistantId, answer);
  }

  /**
   * `handle_message`: a resolved or escalated session is refused; a form
   * interaction marks the form it answers as consumed; a dismissal stores
   * only the user message; any other turn is classified and answered.
   */
  method HandleMessage(store: ConversationStore, ledger: SuggestionLedger, req: Request, env: Env)
    returns (outcome: Outcome)
    requires store.Valid() && env.newSessionId !in store.sessions
    modifies store, ledger
    ensures store.Valid()
    ensures Turn(outcome, store.sessions, store.messages, ledger.rows)
            == TurnSpec(old(store.sessions), old(store.messages), old(ledger.rows), req, env,
                        AssistantMetadata.Serializer(env.floatText))
  {
    var sessionId := SessionFor(store.sessions, req, env);
    if sessionId !in store.sessions {
      store.CreateSession(sessionId, env.now);
    }
    if store.sessions[sessionId].status in ClosedStatuses {
      return Rejected;
    }
    var target := RepliedTo(req.metadata);
    if target.Some? {
      MarkFormConsumed(store, env.messageRef(target.value), env.consumeFails);
    }
    if IsDismissal(req.metadata) {
      var userId := PersistUserMessage(store, sessionId, req.text.GetOr(""), req, env.decode);
      return Dismissed(sessionId, userId);
    }
    var userId := PersistUserMessage(store, sessionId, Text.Strip(req.text.GetOr("")), req, env.decode);
    outcome := Reply(store, ledger, sessionId, userId, env, AssistantMetadata.Serializer(env.floatText));
  }

  // ----- properties -----

  /**
   * Only a resolved or escalated session is refused (any other status,
   * "closed" included, goes on), and a refused turn changes nothing.
   */
  lemma RefusesOnlyClosedSessions(sessions: map<Uuid, Session>, messages: seq<Message>, rows: seq<SuggestionRow>,
                                  req: Request, env: Env, serialize: Answer -> Dict)
    requires env.newSessionId !in sessions
    ensures var t := TurnSpec(sessions, messages, rows, req, env, serialize);
            (t.outcome == Rejected <==>
               req.sessionId.Some? && req.sessionId.value in sessions && sessions[req.sessionId.value].status in ClosedStatuses)
            && (t.outcome == Rejected ==> t == Turn(Rejected, sessions, messages, rows))
  {
    var sessionId := SessionFor(sessions, req, env);
    var admitted := Admit(sessions, sessionId, env.now);
    if admitted[sessionId].status !in ClosedStatuses && !IsDismissal(req.metadata) {
      var consumed := ConsumedSpec(messages, req.metadata, env);
      var user := Message(|consumed|, sessionId, UserRole, Text.Strip(req.text.GetOr("")), UserMetadata(req, env.decode));
      ReplyFacts(admitted, consumed + [user], rows, sessionId, |consumed|, env, serialize);
    }
  }

  /** What storing an answer does to the sessions, the messages and the ledger. */
  lemma RecordFacts(sessions: map<Uuid, Session>, messages: seq<Message>, rows: seq<SuggestionRow>,
                    sessionId: Uuid, userId: Uuid, d: Decision, answer: Answer, env: Env, serialize: Answer -> Dict)
    requires sessionId in sessions
    ensures var t := Record(sessions, messages, rows, sessionId, userId, d, answer, env, serialize);
            && t.outcome == Replied(sessionId, userId, |messages|, answer)
            && t.messages == messages + [AssistantMessage(|messages|, sessionId, answer, serialize)]
            && t.sessions.Keys == sessions.Keys
            && (forall id :: id in sessions && id != sessionId ==> t.sessions[id] == sessions[id])
            && t.sessions[sessionId].status
               == (match d.nextAction
                   case CloseResolved => "resolved"
                   case Escalate => "escalated"
                   case _ => sessions[sessionId].status)
            && t.rows == TrackedRows(rows, sessionId, d.solutionSlug, env.table, env.trackFails)
  {
  }

  /** A turn past the user message either fails with nothing more stored or stores the classifier's answer. */
  lemma ReplyFacts(sessions: map<Uuid, Session>, messages: seq<Message>, rows: seq<SuggestionRow>,
                   sessionId: Uuid, userId: Uuid, env: Env, serialize: Answer -> Dict)
    requires sessionId in sessions
    ensures var t := ReplySpec(sessions, messages, rows, sessionId, userId, env, serialize);
            && (t.outcome == Raised || t.outcome.Replied?)
            && (t.outcome == Raised ==> t == Turn(Raised, sessions, messages, rows))
            && (t.outcome.Replied? ==>
                  && env.classified.Some?
                  && t == Record(sessions, messages, rows, sessionId, userId, env.classified.value, t.outcome.answer, env, serialize))
  {
  }

  /**
   * A dismissal stores only the user message, with the text as sent (not
   * stripped): no assistant message, no status change or touch, no ledger
   * row; the form it answers is still marked consumed first.
   */
  lemma DismissalStoresOnlyUserMessage(sessions: map<Uuid, Session>, messages: seq<Message>, rows: seq<SuggestionRow>,
                                       req: Request, env: Env, serialize: Answer -> Dict)
    requires env.newSessionId !in sessions
    requires IsDismissal(req.metadata)
    ensures var t := TurnSpec(sessions, messages, rows, req, env, serialize);
            var sessionId := SessionFor(sessions, req, env);
            var consumed := ConsumedSpec(messages, req.metadata, env);
            t.outcome != Rejected ==>
              && t.outcome == Dismissed(sessionId, |messages|)
              && t.sessions == Admit(sessions, sessionId, env.now)
              && t.rows == rows
              && t.messages == consumed + [Message(|messages|, sessionId, UserRole, req.text.GetOr(""), UserMetadata(req, env.decode))]
  {
    ConsumeKeepsOthers(messages, env.messageRef(Get(FormResponse(req.metadata).d, "replied_to")), env.consumeFails);
  }

  /**
   * `_mark_form_consumed` changes at most the named message, and there only
   * the metadata, where `form_consumed` becomes true and every other key is
   * kept.
   */
  lemma ConsumeKeepsOthers(messages: seq<Message>, target: Option<Uuid>, fails: bool)
    ensures var r := ConsumeSpec(messages, target, fails);
            && |r| == |messages|
            && (forall i :: 0 <= i < |messages| && (target.None? || i != target.value) ==> r[i] == messages[i])
            && (target.Some? && target.value < |messages| ==>
                  var m := messages[target.value];
                  && r[target.value].(metadata := m.metadata) == m
                  && r[target.value].metadata.vals == (if fails then m.metadata.vals else m.metadata.vals["form_consumed" := Bool(true)]))
  {
  }

  /**
   * A turn that goes on keeps the message history as it was, except for the
   * consumed flag, stores the user message and then at most the reply,
   * leaves every other session alone, and adds at most one ledger row.
   */
  lemma TurnKeepsHistory(sessions: map<Uuid, Session>, messages: seq<Message>, rows: seq<SuggestionRow>,
                         req: Request, env: Env, serialize: Answer -> Dict)
    requires env.newSessionId !in sessions
    ensures var t := TurnSpec(sessions, messages, rows, req, env, serialize);
            var sessionId := SessionFor(sessions, req, env);
            t.outcome != Rejected ==>
              && |t.messages| == |messages| + (if t.outcome.Replied? then 2 else 1)
              && t.messages[..|messages|] == ConsumedSpec(messages, req.metadata, env)
              && t.messages[|messages|].role == UserRole && t.messages[|messages|].sessionId == sessionId
              && t.messages[|messages|].metadata == UserMetadata(req, env.decode)
              && t.sessions.Keys == sessions.Keys + {sessionId}
              && (forall id :: id in sessions && id != sessionId ==> t.sessions[id] == sessions[id])
              && |rows| <= |t.rows| <= |rows| + 1 && t.rows[..|rows|] == rows
  {
    var sessionId := SessionFor(sessions, req, env);
    var admitted := Admit(sessions, sessionId, env.now);
    var consumed := ConsumedSpec(messages, req.metadata, env);
    if admitted[sessionId].status !in ClosedStatuses && !IsDismissal(req.metadata) {
      var user := Message(|consumed|, sessionId, UserRole, Text.Strip(req.text.GetOr("")), UserMetadata(req, env.decode));
      assert TurnSpec(sessions, messages, rows, req, env, serialize)
          == ReplySpec(admitted, consumed + [user], rows, sessionId, |consumed|, env, serialize);
      ReplyAfterUser(admitted, consumed, user, rows, sessionId, env, serialize);
    }
  }

  /** The reply step seen from before the user message: the history and the user message are kept. */
  lemma ReplyAfterUser(admitted: map<Uuid, Session>, consumed: seq<Message>, user: Message, rows: seq<SuggestionRow>,
                       sessionId: Uuid, env: Env, serialize: Answer -> Dict)
    requires sessionId in admitted
    ensures var t := ReplySpec(admitted, consumed + [user], rows, sessionId, |consumed|, env, serialize);
            && |t.messages| == |consumed| + (if t.outcome.Replied? then 2 else 1)
            && t.messages[..|consumed|] == consumed
            && t.messages[|consumed|] == user
            && t.sessions.Keys == admitted.Keys
            && (forall id :: id in admitted && id != sessionId ==> t.sessions[id] == admitted[id])
            && |rows| <= |t.rows| <= |rows| + 1 && t.rows[..|rows|] == rows
  {
    var recorded := consumed + [user];
    var t := ReplySpec(admitted, recorded, rows, sessionId, |consumed|, env, serialize);
    ReplyKeepsHistory(admitted, recorded, rows, sessionId, |consumed|, env, serialize);
    assert t.messages[..|recorded|] == recorded;
    assert t.messages[..|consumed|] == t.messages[..|recorded|][..|consumed|];
    assert t.messages[|consumed|] == t.messages[..|recorded|][|consumed|];
  }

  /** Past the user message, a turn appends at most the reply, touches only its own session and adds at most one row. */
  lemma ReplyKeepsHistory(sessions: map<Uuid, Session>, messages: seq<Message>, rows: seq<SuggestionRow>,
                          sessionId: Uuid, userId: Uuid, env: Env, serialize: Answer -> Dict)
    requires sessionId in sessions
    ensures var t := ReplySpec(sessions, messages, rows, sessionId, userId, env, serialize);
            && |t.messages| == |messages| + (if t.outcome.Replied? then 1 else 0)
            && t.messages[..|messages|] == messages
            && t.sessions.Keys == sessions.Keys
            && (forall id :: id in sessions && id != sessionId ==> t.sessions[id] == sessions[id])
            && |rows| <= |t.rows| <= |rows| + 1 && t.rows[..|rows|] == rows
  {
    var t := ReplySpec(sessions, messages, rows, sessionId, userId, env, serialize);
    ReplyFacts(sessions, messages, rows, sessionId, userId, env, serialize);
    if t.outcome.Replied? {
      RecordFacts(sessions, messages, rows, sessionId, userId, env.classified.value, t.outcome.answer, env, serialize);
      TrackedRowsFacts(rows, sessionId, env.classified.value.solutionSlug, env.table, env.trackFails);
      assert t.messages[..|messages|] == messages;
    }
  }

  /**
   * The unified turn's final status follows the classifier's next action:
   * close_resolved resolves, escalate escalates, anything else only touches
   * the session; a refused or failed turn leaves the status as it was.
   */
  lemma StatusFollowsNextAction(sessions: map<Uuid, Session>, messages: seq<Message>, rows: seq<SuggestionRow>,
                                req: Request, env: Env, serialize: Answer -> Dict)
    requires env.newSessionId !in sessions
    ensures var t := TurnSpec(sessions, messages, rows, req, env, serialize);
            var sessionId := SessionFor(sessions, req, env);
            var before := Admit(sessions, sessionId, env.now)[sessionId].status;
            sessionId in t.sessions
            && (t.outcome.Replied? ==>
                  && env.classified.Some?
                  && (env.classified.value.nextAction == CloseResolved ==> t.sessions[sessionId].status == "resolved")
                  && (env.classified.value.nextAction == Escalate ==> t.sessions[sessionId].status == "escalated")
                  && (env.classified.value.nextAction !in {CloseResolved, Escalate} ==> t.sessions[sessionId].status == before))
            && (!t.outcome.Replied? ==> t.sessions[sessionId].status == before)
  {
    var sessionId := SessionFor(sessions, req, env);
    var admitted := Admit(sessions, sessionId, env.now);
    if admitted[sessionId].status !in ClosedStatuses && !IsDismissal(req.metadata) {
      var consumed := ConsumedSpec(messages, req.metadata, env);
      var recorded := consumed + [Message(|consumed|, sessionId, UserRole, Text.Strip(req.text.GetOr("")), UserMetadata(req, env.decode))];
      var t := ReplySpec(admitted, recorded, rows, sessionId, |consumed|, env, serialize);
      ReplyFacts(admitted, recorded, rows, sessionId, |consumed|, env, serialize);
      if t.outcome.Replied? {
        RecordFacts(admitted, recorded, rows, sessionId, |consumed|, env.classified.value, t.outcome.answer, env, serialize);
      }
    }
  }

  /**
   * Tracking adds at most one row, for the session, naming a catalog
   * solution with the slug; nothing checks whether the session already has
   * that row.
   */
  lemma TrackedRowsFacts(rows: seq<SuggestionRow>, sessionId: Uuid, slug: Option<string>, table: seq<SolutionView>, fails: bool)
    ensures var r := TrackedRows(rows, sessionId, slug, table, fails);
            |rows| <= |r| <= |rows| + 1 && r[..|rows|] == rows
            && (|r| > |rows| ==>
                  && slug.Some? && !fails
                  && exists s :: s in table && s.slug == slug.value && r[|rows|] == SuggestionRow(sessionId, s.id))
  {
    var r := TrackedRows(rows, sessionId, slug, table, fails);
    assert r[..|rows|] == rows;
  }

  /** Tracking the same solution twice stores it twice: the ledger has no uniqueness. */
  lemma TrackingRepeats(rows: seq<SuggestionRow>, sessionId: Uuid, slug: string, table: seq<SolutionView>)
    requires slug != [] && GetBySlug(table, slug).Some?
    ensures var once := TrackedRows(rows, sessionId, Some(slug), table, false);
            var row := SuggestionRow(sessionId, GetBySlug(table, slug).value.id);
            TrackedRows(once, sessionId, Some(slug), table, false) == rows + [row, row]
  {
  }

  /** The answer's form, actions and metadata follow the classifier's decision. */
  lemma AnswerFollowsDecision(d: Decision, response: Response)
    ensures var a := AnswerFor(d, response);
            && (a.form.Some? <==> d.nextAction in {PresentFeedbackForm, PresentResolutionForm, PresentEscalationForm})
            && (a.form.Some? ==> IsYesNoForm(a.form.value))
            && (d.nextAction in {CloseResolved, Escalate} ==> a.suggestedActions == [])
            && |a.suggestedActions| <= 1
            && a.reply == response.reply && a.confidence == Some(d.confidence)
            && Get(a.metadata, "intent") == Str(IntentName(d.intent))
            && Get(a.metadata, "next_action") == Str(ActionName(d.nextAction))
            && Get(a.metadata, "reasoning") == Str(d.reasoning)
  {
    var ks := ["intent", "next_action", "reasoning"];
    var vs := [Str(IntentName(d.intent)), Str(ActionName(d.nextAction)), Str(d.reasoning)];
    assert Distinct(ks);
    FromEntriesLookup(ks, vs, 0);
    FromEntriesLookup(ks, vs, 1);
    FromEntriesLookup(ks, vs, 2);
  }

  /** Every attachment's mime is a supported image type. */
  lemma AttachmentMimesSupported(req: Request, decode: string -> Option<seq<ImagePayload.byte>>, i: nat)
    requires i < |req.images|
    ensures var a := Attachments(req, decode)[i];
            a.Obj? && Get(a.d, "type") == Str("image") && Get(a.d, "base64") == Str(req.images[i])
            && Get(a.d, "mime_type").Str? && Get(a.d, "mime_type").s in ImagePayload.SupportedMimes
  {
    var mime := ImagePayload.ResolveImageMime(HintAt(req.mimeHints, i), req.images[i], decode);
    assert Attachments(req, decode)[i] == AttachmentValue(req.images[i], mime);
    AttachmentValueFields(req.images[i], mime);
  }

  lemma AttachmentValueFields(imageB64: string, mime: string)
    ensures var a := AttachmentValue(imageB64, mime);
            a.Obj? && Get(a.d, "type") == Str("image") && Get(a.d, "base64") == Str(imageB64)
            && Get(a.d, "mime_type") == Str(mime)
  {
    var ks := ["type", "base64", "mime_type"];
    var vs := [Str("image"), Str(imageB64), Str(mime)];
    assert Distinct(ks);
    FromEntriesLookup(ks, vs, 0);
    FromEntriesLookup(ks, vs, 1);
    FromEntriesLookup(ks, vs, 2);
  }
}
