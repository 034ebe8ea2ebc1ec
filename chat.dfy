/**
 * The prototype `/chat` route: each session is a small dict holding a
 * phase, an index into the label's alternative action sets, the label, its
 * confidence and a status. A request names the session, an event and
 * optional user text; the route may detect the label from the text, remaps
 * the event from common replies, and then answers according to the event
 * and the phase, updating the session dict in place. The troubleshooting
 * map and the intent detector are parameters.
 */
module PrototypeChat {
  import opened Wrappers
  import Text

  const Fallback := "inconclusive"

  /** One action of the troubleshooting map: a `{type, target, value}` dict. */
  datatype Action = Action(kind: string, target: string, value: string)

  /** A label's entry in the troubleshooting map. */
  datatype Node = Node(causes: seq<string>, actions: seq<Action>, alternatives: seq<seq<Action>>)

  /**
   * A session dict: `None` where the key is absent. `alt_idx` is only ever
   * written by this route (0, then +1), so it is a `nat`. `otherKeys` says
   * whether the dict holds keys this route does not read.
   */
  datatype Session = Session(
    phase: Option<string>,
    altIdx: Option<nat>,
    flowLabel: Option<string>,
    confidence: Option<real>,
    status: Option<string>,
    otherKeys: bool)

  /** `bool(s)`: a dict is falsy only when empty. */
  predicate NonEmpty(s: Session) {
    s.phase.Some? || s.altIdx.Some? || s.flowLabel.Some? || s.confidence.Some? || s.status.Some? || s.otherKeys
  }

  /** `ChatReq`. */
  datatype ChatRequest = ChatRequest(sessionId: string, userInput: Option<string>, event: string)

  /** What the detector returned: an intent and a confidence. `None` stands for any exception. */
  datatype Detection = Detection(intent: string, confidence: real)

  /** Which of the route's messages was sent; the text itself is localised formatting. */
  datatype Message =
    | IntroMessage(flowLabel: string, confidence: real, causes: seq<string>)
    | StepsMessage
    | AlternativeMessage
    | BackupMessage
    | FinishedMessage
    | TapPrompt

  datatype Reply = Reply(message: Message, quickReplies: seq<string>, actions: seq<Action>)

  /** The route's outcome: HTTP 404, an uncaught `KeyError`, or a reply. */
  datatype Outcome = NotFound | Failed | Replied(reply: Reply)

  const GenericBackup := [
    Action("setting", "cycle", "intensive"),
    Action("maintenance", "spray_arms", "check_and_clean"),
    Action("placement", "device", "upper_rack_front")
  ]

  const StepsReplies := ["Solved", "Not solved", "More options", "Try again"]

  /** `norm`: `(s or "").strip().lower()`. */
  function Norm(s: Option<string>): (r: string)
    ensures Text.IsNormalized(r)
  {
    Text.StripLower(if s.Some? then s.value else "")
  }

  /** `.lower().replace(" ", "_")` on the detected intent. */
  function IntentKey(intent: string): (r: string)
    ensures |r| == |intent| && ' ' !in r
  {
    var lowered := Text.Lower(intent);
    seq(|lowered|, i requires 0 <= i < |lowered| => if lowered[i] == ' ' then '_' else lowered[i])
  }

  /** The two `setdefault` calls. */
  function Defaulted(s: Session): (r: Session)
    ensures r.phase.Some? && r.altIdx.Some?
    ensures s.phase.Some? ==> r.phase == s.phase
    ensures s.altIdx.Some? ==> r.altIdx == s.altIdx
    ensures r.flowLabel == s.flowLabel && r.confidence == s.confidence && r.status == s.status
  {
    s.(phase := if s.phase.Some? then s.phase else Some("intro"),
       altIdx := if s.altIdx.Some? then s.altIdx else Some(0))
  }

  /** `not s.get("label")`. */
  predicate NoLabel(s: Session) {
    s.flowLabel.None? || s.flowLabel.value == []
  }

  /** The intent-detection step: it runs only without a label and with user text. */
  function WithIntent(s: Session, ui: string, flow: map<string, Node>, detect: string -> Option<Detection>): Session {
    if NoLabel(s) && ui != [] then
      match detect(ui)
      case None => s.(flowLabel := Some(Fallback), confidence := Some(0.0))
      case Some(d) =>
        var key := IntentKey(d.intent);
        s.(flowLabel := Some(if key in flow then key else Fallback), confidence := Some(d.confidence))
    else s
  }

  /** The label the route works with: `s.get("label", FALLBACK)` after detection. */
  function LabelOf(s: Session): string {
    if s.flowLabel.Some? then s.flowLabel.value else Fallback
  }

  const YesReplies: set<string> := {"yes", "y"}
  const NoReplies: set<string> := {"no", "n"}
  const SolvedReplies: set<string> := {"solved", "resolved"}
  const NotSolvedReplies: set<string> := {"not solved", "not_solved", "nope"}
  const RetryReplies: set<string> := {"try again", "try_again", "retry"}
  const MoreReplies: set<string> := {"more", "more options", "next"}

  /** The events the route acts on; any other event text gets the tap prompt. */
  datatype Event = Start | Confirm | NotSolved | TryAgain | Solved | Done | Other

  /** The event a normalised event text names. */
  function EventOf(ev: string): Event {
    if ev == "start" then Start
    else if ev == "confirm" then Confirm
    else if ev == "not_solved" then NotSolved
    else if ev == "try_again" then TryAgain
    else if ev == "solved" then Solved
    else if ev == "done" then Done
    else Other
  }

  /** The "safety net" mapping of common replies onto events. */
  function Remap(ev: string, ui: string): Event {
    if ev == "start" && ui in YesReplies then Confirm
    else if ev == "start" && ui in NoReplies then Done
    else if ui in SolvedReplies then Solved
    else if ui in NotSolvedReplies then NotSolved
    else if ui in RetryReplies then TryAgain
    else if ui in MoreReplies then NotSolved
    else EventOf(ev)
  }

  /** The quick replies offered with an alternative set, given how many sets remain after it. */
  function AlternativeReplies(moreExists: bool): seq<string> {
    ["Solved", "Not solved"] + (if moreExists then ["More options"] else []) + ["Try again"]
  }

  /** The answer to event `ev` for a session already defaulted and labelled, with the label's node. */
  function Respond(s: Session, node: Node, ev: Event): (r: (Outcome, Session))
    requires s.phase.Some? && s.altIdx.Some?
    ensures !r.0.NotFound? && r.1.phase.Some? && r.1.altIdx.Some?
    ensures r.1.flowLabel == s.flowLabel && r.1.confidence == s.confidence && r.1.otherKeys == s.otherKeys
  {
    if ev == Start && s.phase.value == "intro" then
      if s.confidence.None? then (Failed, s)
      else (Replied(Reply(IntroMessage(LabelOf(s), s.confidence.value, node.causes), ["Yes", "No"], [])), s)
    else if ev == Confirm then
      (Replied(Reply(StepsMessage, StepsReplies, node.actions)), s.(phase := Some("steps"), altIdx := Some(0)))
    else if ev == NotSolved || ev == TryAgain then
      var idx := s.altIdx.value;
      if idx < |node.alternatives| then
        (Replied(Reply(AlternativeMessage, AlternativeReplies(idx + 1 < |node.alternatives|), node.alternatives[idx])),
         s.(phase := Some("alternatives"), altIdx := Some(idx + 1)))
      else
        (Replied(Reply(BackupMessage, ["Solved", "Not solved"], GenericBackup)), s.(phase := Some("alternatives")))
    else if ev == Solved || ev == Done then
      (Replied(Reply(FinishedMessage, ["Send feedback"], [])),
       s.(phase := Some("end"), status := Some(if ev == Solved then "solved" else "finished")))
    else
      (Replied(Reply(TapPrompt, ["Yes", "No"], [])), s)
  }

  /**
   * One request against a found session, given the request's normalised
   * user text `ui` and event `ev`: its outcome and the session dict afterwards.
   */
  function Turn(s: Session, ui: string, ev: string, flow: map<string, Node>, detect: string -> Option<Detection>)
    : (r: (Outcome, Session))
    ensures !r.0.NotFound? && r.1.phase.Some? && r.1.altIdx.Some?
  {
    var labelled := WithIntent(Defaulted(s), ui, flow, detect);
    if Fallback !in flow then (Failed, labelled)
    else
      var current := LabelOf(labelled);
      var node := if current in flow then flow[current] else flow[Fallback];
      Respond(labelled, node, Remap(ev, ui))
  }

  /**
   * The route over the session table. Only sessions that exist and are
   * non-empty are served; the others get a 404 and leave the table as it
   * was.
   */
  function ChatOutcome(sessions: map<string, Session>, req: ChatRequest, flow: map<string, Node>,
                       detect: string -> Option<Detection>): (r: (Outcome, map<string, Session>))
    ensures r.0 == NotFound <==> req.sessionId !in sessions || !NonEmpty(sessions[req.sessionId])
    ensures r.0 == NotFound ==> r.1 == sessions
  {
    if req.sessionId !in sessions || !NonEmpty(sessions[req.sessionId]) then (NotFound, sessions)
    else
      var t := Turn(sessions[req.sessionId], Norm(req.userInput), Norm(Some(req.event)), flow, detect);
      (t.0, sessions[req.sessionId := t.1])
  }

  /** `SESSIONS` and the `chat` handler. */
  class ChatRoute {
    var sessions: map<string, Session>

    constructor (initial: map<string, Session>)
      ensures sessions == initial
    {
      sessions := initial;
    }

    /** `chat`: the session dict is updated step by step, and kept updated when a lookup fails. */
    method Chat(req: ChatRequest, flow: map<string, Node>, detect: string -> Option<Detection>) returns (r: Outcome)
      modifies this
      ensures r == ChatOutcome(old(sessions), req, flow, detect).0
      ensures sessions == ChatOutcome(old(sessions), req, flow, detect).1
    {
      if req.sessionId !in sessions || !NonEmpty(sessions[req.sessionId]) {
        return NotFound;
      }
      r := Serve(req.sessionId, Norm(req.userInput), Norm(Some(req.event)), flow, detect);
    }

    /**
     * The handler's work on the found session `id`, given the normalised
     * user text and event: defaults and detection, the node lookup, then the
     * answer to the event.
     */
    method Serve(id: string, ui: string, evText: string, flow: map<string, Node>, detect: string -> Option<Detection>)
      returns (r: Outcome)
      requires id in sessions
      modifies this
      ensures r == Turn(old(sessions)[id], ui, evText, flow, detect).0
      ensures sessions == old(sessions)[id := Turn(old(sessions)[id], ui, evText, flow, detect).1]
    {
      var s, current := Prepare(id, ui, flow, detect);
      if Fallback !in flow {
        return Failed;
      }
      var node := if current in flow then flow[current] else flow[Fallback];
      r := Answer(id, s, node, Remap(evText, ui));
    }

    /** The two `setdefault` calls and the detection step, written into the session dict. */
    method Prepare(id: string, ui: string, flow: map<string, Node>, detect: string -> Option<Detection>)
      returns (s: Session, current: string)
      requires id in sessions
      modifies this
      ensures s == WithIntent(Defaulted(old(sessions)[id]), ui, flow, detect) && current == LabelOf(s)
      ensures sessions == old(sessions)[id := s]
    {
      s := sessions[id];
      if s.phase.None? {
        s := s.(phase := Some("intro"));
      }
      if s.altIdx.None? {
        s := s.(altIdx := Some(0));
      }
      if NoLabel(s) && ui != [] {
        var detected := detect(ui);
        if detected.None? {
          current := Fallback;
          s := s.(flowLabel := Some(current), confidence := Some(0.0));
        } else {
          var key := IntentKey(detected.value.intent);
          current := if key in flow then key else Fallback;
          s := s.(flowLabel := Some(current), confidence := Some(detected.value.confidence));
        }
      } else {
        current := LabelOf(s);
      }
      sessions := sessions[id := s];
    }

    /** The answer to event `ev`, with the session dict updated field by field. */
    method Answer(id: string, s: Session, node: Node, ev: Event) returns (r: Outcome)
      requires id in sessions && sessions[id] == s && s.phase.Some? && s.altIdx.Some?
      modifies this
      ensures r == Respond(s, node, ev).0
      ensures sessions == old(sessions)[id := Respond(s, node, ev).1]
    {
      if ev == Start && s.phase.value == "intro" {
        if s.confidence.None? {
          return Failed;
        }
        return Replied(Reply(IntroMessage(LabelOf(s), s.confidence.value, node.causes), ["Yes", "No"], []));
      }
      var t := s;
      if ev == Confirm {
        t := t.(phase := Some("steps"), altIdx := Some(0));
        sessions := sessions[id := t];
        return Replied(Reply(StepsMessage, StepsReplies, node.actions));
      }
      if ev == NotSolved || ev == TryAgain {
        t := t.(phase := Some("alternatives"));
        var alts := node.alternatives;
        if t.altIdx.value < |alts| {
          var actions := alts[t.altIdx.value];
          t := t.(altIdx := Some(t.altIdx.value + 1));
          sessions := sessions[id := t];
          var quick := ["Solved", "Not solved"];
          if t.altIdx.value < |alts| {
            quick := quick + ["More options"];
          }
          quick := quick + ["Try again"];
          return Replied(Reply(AlternativeMessage, quick, actions));
        }
        sessions := sessions[id := t];
        return Replied(Reply(BackupMessage, ["Solved", "Not solved"], GenericBackup));
      }
      if ev == Solved || ev == Done {
        t := t.(phase := Some("end"), status := Some(if ev == Solved then "solved" else "finished"));
        sessions := sessions[id := t];
        return Replied(Reply(FinishedMessage, ["Send feedback"], []));
      }
      return Replied(Reply(TapPrompt, ["Yes", "No"], []));
    }
  }

  // ---------------------------------------------------------------------
  // Properties
  // ---------------------------------------------------------------------

  /**
   * A served request touches no other session and leaves its own with a
   * phase and an alternative index.
   */
  lemma ServedTouchesOnlyItsSession(sessions: map<string, Session>, req: ChatRequest, flow: map<string, Node>,
                                    detect: string -> Option<Detection>)
    requires ChatOutcome(sessions, req, flow, detect).0 != NotFound
    ensures var after := ChatOutcome(sessions, req, flow, detect).1;
      && after.Keys == sessions.Keys
      && (forall id :: id in sessions && id != req.sessionId ==> after[id] == sessions[id])
      && after[req.sessionId].phase.Some? && after[req.sessionId].altIdx.Some?
  {
    var t := Turn(sessions[req.sessionId], Norm(req.userInput), Norm(Some(req.event)), flow, detect);
    assert ChatOutcome(sessions, req, flow, detect).1 == sessions[req.sessionId := t.1];
  }

  /**
   * Detection runs only for a session without a label and a request with
   * text; it then leaves a label of the map or the fallback. A label once
   * set is never replaced.
   */
  lemma IntentDetectionRule(s: Session, ui: string, flow: map<string, Node>, detect: string -> Option<Detection>)
    ensures !NoLabel(s) || ui == [] ==> WithIntent(s, ui, flow, detect) == s
    ensures NoLabel(s) && ui != [] ==>
      var l := WithIntent(s, ui, flow, detect).flowLabel;
      l.Some? && (l.value in flow || l.value == Fallback)
    ensures NoLabel(s) && ui != [] && detect(ui).None? ==>
      WithIntent(s, ui, flow, detect).flowLabel == Some(Fallback) && WithIntent(s, ui, flow, detect).confidence == Some(0.0)
    ensures NoLabel(s) && ui != [] && detect(ui).Some? ==>
      WithIntent(s, ui, flow, detect).confidence == Some(detect(ui).value.confidence)
  {
  }

  /**
   * The remapped event is the request's own event unless the text is one of
   * the known replies; "yes" and "no" only remap a `start` event.
   */
  lemma RemapRules(ev: string, ui: string)
    ensures ui !in YesReplies + NoReplies + SolvedReplies + NotSolvedReplies + RetryReplies + MoreReplies
        ==> Remap(ev, ui) == EventOf(ev)
    ensures ev == "start" && ui in YesReplies ==> Remap(ev, ui) == Confirm
    ensures ev == "start" && ui in NoReplies ==> Remap(ev, ui) == Done
    ensures ev != "start" && ui in YesReplies + NoReplies ==> Remap(ev, ui) == EventOf(ev)
    ensures ui in MoreReplies + NotSolvedReplies ==> Remap(ev, ui) == NotSolved
    ensures ui in SolvedReplies ==> Remap(ev, ui) == Solved
    ensures ui in RetryReplies ==> Remap(ev, ui) == TryAgain
  {
  }

  /** `start` in the intro phase answers with the intro and leaves the session as defaulted. */
  lemma IntroKeepsPhase(s: Session, node: Node)
    requires s.phase == Some("intro") && s.altIdx.Some? && s.confidence.Some?
    ensures Respond(s, node, Start).1 == s
    ensures Respond(s, node, Start).0.Replied? && Respond(s, node, Start).0.reply.message.IntroMessage?
    ensures Respond(s, node, Start).0.reply.message.causes == node.causes
  {
  }

  /** `confirm` starts the steps phase with the alternatives rewound, and sends the node's actions. */
  lemma ConfirmResetsAlternatives(s: Session, node: Node)
    requires s.phase.Some? && s.altIdx.Some?
    ensures Respond(s, node, Confirm).1.phase == Some("steps") && Respond(s, node, Confirm).1.altIdx == Some(0)
    ensures Respond(s, node, Confirm).0 == Replied(Reply(StepsMessage, StepsReplies, node.actions))
  {
  }

  /**
   * `not_solved` and `try_again` walk through the alternative sets one by
   * one, offering "More options" only while another set remains, then fall
   * back to the generic backup without moving the index further.
   */
  lemma AlternativesAdvance(s: Session, node: Node, ev: Event)
    requires s.phase.Some? && s.altIdx.Some? && (ev == NotSolved || ev == TryAgain)
    ensures var (out, after) := Respond(s, node, ev);
      var idx := s.altIdx.value;
      && after.phase == Some("alternatives") && out.Replied?
      && (idx < |node.alternatives| ==>
            after.altIdx == Some(idx + 1) && out.reply.actions == node.alternatives[idx]
            && ("More options" in out.reply.quickReplies <==> idx + 1 < |node.alternatives|))
      && (idx >= |node.alternatives| ==>
            after.altIdx == s.altIdx && out.reply.actions == GenericBackup && "More options" !in out.reply.quickReplies)
  {
  }

  /** No event moves the index past the number of alternative sets of the node in use. */
  lemma AltIdxStaysBounded(s: Session, node: Node, ev: Event)
    requires s.phase.Some? && s.altIdx.Some? && s.altIdx.value <= |node.alternatives|
    ensures Respond(s, node, ev).1.altIdx.Some? && Respond(s, node, ev).1.altIdx.value <= |node.alternatives|
  {
  }

  /** `solved` and `done` end the session, with status "solved" or "finished". */
  lemma FinishEndsSession(s: Session, node: Node, ev: Event)
    requires s.phase.Some? && s.altIdx.Some? && (ev == Solved || ev == Done)
    ensures Respond(s, node, ev).1.phase == Some("end")
    ensures Respond(s, node, ev).1.status == Some(if ev == Solved then "solved" else "finished")
    ensures Respond(s, node, ev).1.altIdx == s.altIdx && Respond(s, node, ev).1.flowLabel == s.flowLabel
  {
  }

  /**
   * Over a whole request: a session whose label is set keeps it, and the
   * index stays within the alternatives of the node that label selects.
   */
  lemma TurnKeepsLabelAndBound(s: Session, ui: string, ev: string, flow: map<string, Node>,
                               detect: string -> Option<Detection>)
    requires !NoLabel(s) && Fallback in flow
    requires var node := if s.flowLabel.value in flow then flow[s.flowLabel.value] else flow[Fallback];
      s.altIdx.Some? && s.altIdx.value <= |node.alternatives|
    ensures Turn(s, ui, ev, flow, detect).1.flowLabel == s.flowLabel
    ensures var node := if s.flowLabel.value in flow then flow[s.flowLabel.value] else flow[Fallback];
      Turn(s, ui, ev, flow, detect).1.altIdx.value <= |node.alternatives|
  {
    var labelled := WithIntent(Defaulted(s), ui, flow, detect);
    assert labelled == Defaulted(s);
    var node := if s.flowLabel.value in flow then flow[s.flowLabel.value] else flow[Fallback];
    AltIdxStaysBounded(labelled, node, Remap(ev, ui));
  }
}
