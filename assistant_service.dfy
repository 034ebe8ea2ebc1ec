/**
 * `AssistantService`, the first orchestration generation: form submission,
 * an optional ticket for a confirmed escalation, the generated answer, the
 * escalation of repeated suggestions, and the optional check-in form. The
 * form-submission service, the generator, the ticket tool and the knowledge
 * search are parameters; image analysis, whose failures the service
 * swallows, writes no message and is not part of this model.
 */
module AssistantService {
  import opened Wrappers
  import Parsing
  import opened Json
  import Text
  import opened Store
  import opened MessageFlow
  import opened FormSubmission
  import FeedbackFlow
  import opened RecommendationTracker
  import AssistantMetadata

  /** `_build_escalation_form`. */
  const EscalationForm := YesNoForm("Escalate?", "Should I connect you with a technician?",
    "Would you like to escalate this to a technician?", "Yes, escalate it", "No, keep troubleshooting")

  /** The escalation statuses that count as "already escalated". */
  const ObservedStatuses: set<string> := {"recommended", "awaiting_confirmation", "ticket_opened", "user_confirmed"}

  const RecommendedEscalation := Obj(Put(Empty, "status", Str("recommended")))

  // ----- escalation of repeated suggestions -----

  /** `str(escalation.get("status", "")).lower()`. */
  function EscalationStatus(escalation: Dict): string {
    Text.Lower(PyStr(if Has(escalation, "status") then escalation.vals["status"] else Str("")))
  }

  /**
   * `_contains_escalation_flag`: an `escalation` dict with an observed
   * status, or a `form_kind` of "escalation" once stripped and lower-cased.
   */
  predicate ContainsEscalationFlag(container: Dict) {
    (Get(container, "escalation").Obj? && EscalationStatus(Get(container, "escalation").d) in ObservedStatuses)
    || FeedbackFlow.KindMatches(Get(container, "form_kind"), "escalation")
  }

  /** The message's metadata, or its `extra` dict, carries an escalation flag. */
  predicate FlagsEscalation(m: Message) {
    ContainsEscalationFlag(m.metadata)
    || (Get(m.metadata, "extra").Obj? && ContainsEscalationFlag(Get(m.metadata, "extra").d))
  }

  predicate AlreadyEscalatedSpec(messages: seq<Message>) {
    exists i :: 0 <= i < |messages| && FlagsEscalation(messages[i])
  }

  /** `_already_escalated`: a loop over every message given. */
  method AlreadyEscalated(messages: seq<Message>) returns (found: bool)
    ensures found <==> AlreadyEscalatedSpec(messages)
  {
    var i := 0;
    while i < |messages|
      invariant 0 <= i <= |messages|
      invariant forall j :: 0 <= j < i ==> !FlagsEscalation(messages[j])
    {
      if FlagsEscalation(messages[i]) {
        return true;
      }
      i := i + 1;
    }
    return false;
  }

  /** The current answer's actions, normalised, blanks dropped. */
  function CurrentActions(actions: seq<string>): (r: set<string>)
    ensures forall a :: a in r ==> a != []
  {
    set a | a in actions && Normalize(a) != [] :: Normalize(a)
  }

  /** A repeat: every current action was recommended before, or there is none and something was recommended before. */
  predicate Repeated(current: set<string>, history: History) {
    (current != {} && current <= NormalizedActions(history))
    || (current == {} && TotalRecommendations(history) >= 1)
  }

  /** The answer `_maybe_escalate` leaves behind when it escalates. */
  function Escalated(answer: Answer): (r: Answer)
    ensures r.suggestedActions == [] && r.form.Some? && r.reply == answer.reply
    ensures answer.form.Some? ==> r.form == answer.form
    ensures Get(r.metadata, "form_kind") == Str("escalation") && Get(r.metadata, "escalation") == RecommendedEscalation
    ensures forall k :: k != "form_kind" && k != "escalation" ==> Get(r.metadata, k) == Get(answer.metadata, k)
  {
    answer.(suggestedActions := [],
            form := if answer.form.None? then Some(EscalationForm) else answer.form,
            metadata := Put(Put(answer.metadata, "escalation", RecommendedEscalation), "form_kind", Str("escalation")))
  }

  /**
   * `_maybe_escalate`: with a history, no earlier escalation, a repeated
   * suggestion and no escalation form among the two newest assistant
   * messages, the answer escalates.
   */
  function MaybeEscalateSpec(answer: Answer, history: History, prior: seq<Message>): (r: (bool, Answer))
    ensures !r.0 ==> r.1 == answer
    ensures r.0 ==> r.1 == Escalated(answer)
  {
    if IsEmpty(history) || AlreadyEscalatedSpec(prior) then (false, answer)
    else if !Repeated(CurrentActions(answer.suggestedActions), history) then (false, answer)
    else if FeedbackFlow.RecentFormKindSpec(prior, "escalation", 2) then (false, answer)
    else (true, Escalated(answer))
  }

  method MaybeEscalate(answer: Answer, history: History, prior: seq<Message>) returns (escalated: bool, updated: Answer)
    ensures (escalated, updated) == MaybeEscalateSpec(answer, history, prior)
  {
    if IsEmpty(history) {
      return false, answer;
    }
    var already := AlreadyEscalated(prior);
    if already {
      return false, answer;
    }
    var current := CurrentActions(answer.suggestedActions);
    var repeated := false;
    if current != {} && current <= NormalizedActions(history) {
      repeated := true;
    }
    if current == {} && TotalRecommendations(history) >= 1 {
      repeated := true;
    }
    if !repeated {
      return false, answer;
    }
    var recent := FeedbackFlow.RecentFormKind(prior, "escalation", 2);
    if recent {
      return false, answer;
    }
    return true, Escalated(answer);
  }

  /** The kind "escalation" is already stripped and lower-case. */
  lemma EscalationIsNormalized()
    ensures Text.Lower("escalation") == "escalation" && Text.StripLower("escalation") == "escalation"
  {
    assert Text.IsLower("escalation");
    assert Text.IsStripped("escalation");
  }

  /**
   * The check of lines 321-322 never decides: a recent escalation form is
   * already an escalation flag, which stopped the method earlier.
   */
  lemma RecentEscalationIsAlreadyEscalated(prior: seq<Message>)
    ensures FeedbackFlow.RecentFormKindSpec(prior, "escalation", 2) ==> AlreadyEscalatedSpec(prior)
  {
    EscalationIsNormalized();
    FeedbackFlow.CarriedWithinIsBounded(prior, "escalation", 2);
    if FeedbackFlow.RecentFormKindSpec(prior, "escalation", 2) {
      var i :| 0 <= i < |prior| && i < 2 && FeedbackFlow.CarriesFormKind(prior[i], "escalation");
      assert FlagsEscalation(prior[i]);
    }
  }

  /**
   * For a history `_aggregate` built, the decision reduces to: a history, no
   * earlier escalation, and no new action (none at all, or only ones already
   * recommended).
   */
  lemma EscalatesOnlyRepeats(answer: Answer, messages: seq<Message>, prior: seq<Message>)
    ensures var history := AggregateSpec(messages);
            var current := CurrentActions(answer.suggestedActions);
            MaybeEscalateSpec(answer, history, prior).0
            <==> !IsEmpty(history) && !AlreadyEscalatedSpec(prior) && current <= NormalizedActions(history)
  {
    var history := AggregateSpec(messages);
    AggregateValid(messages);
    EmptyIffNoRecommendations(history);
    RecentEscalationIsAlreadyEscalated(prior);
  }

  // ----- metadata merge -----

  /** One entry of `_merge_metadata`: an `extra` dict merges into an `extra` dict, anything else overwrites. */
  function MergeEntry(d: Dict, k: string, v: Value): Dict {
    if k == "extra" && Get(d, "extra").Obj? && v.Obj? then Put(d, "extra", Obj(Update(Get(d, "extra").d, v.d)))
    else Put(d, k, v)
  }

  /** The entries of `updates` under `ks`, merged in order. */
  function MergeKeys(original: Dict, updates: Dict, ks: seq<string>): Dict
    decreases |ks|
  {
    if ks == [] then original
    else
      var n := |ks| - 1;
      MergeEntry(MergeKeys(original, updates, ks[..n]), ks[n], Get(updates, ks[n]))
  }

  /** `_merge_metadata`: the original itself for empty updates, else a merged copy. */
  function MergeMetadataSpec(original: Dict, updates: Dict): Dict {
    if updates.vals == map[] then original else MergeKeys(original, updates, updates.keys)
  }

  method MergeMetadata(original: Dict, updates: Dict) returns (merged: Dict)
    ensures merged == MergeMetadataSpec(original, updates)
  {
    if updates.vals == map[] {
      return original;
    }
    merged := original;
    var i := 0;
    while i < |updates.keys|
      invariant 0 <= i <= |updates.keys|
      invariant merged == MergeKeys(original, updates, updates.keys[..i])
    {
      assert updates.keys[..i + 1][..i] == updates.keys[..i];
      var key := updates.keys[i];
      var value := Get(updates, key);
      if key == "extra" && Get(merged, "extra").Obj? && value.Obj? {
        merged := Put(merged, "extra", Obj(Update(Get(merged, "extra").d, value.d)));
      } else {
        merged := Put(merged, key, value);
      }
      i := i + 1;
    }
    assert updates.keys[..i] == updates.keys;
  }

  /** What the merge gives a key: the update's value, except that two `extra` dicts merge shallowly. */
  function Merged(original: Dict, updates: Dict, k: string): Value {
    if k == "extra" && Get(original, "extra").Obj? && Get(updates, "extra").Obj?
    then Obj(Update(Get(original, "extra").d, Get(updates, "extra").d))
    else Get(updates, k)
  }

  lemma {:induction false} MergeKeysFacts(original: Dict, updates: Dict, ks: seq<string>, k: string)
    requires Distinct(ks)
    ensures Get(MergeKeys(original, updates, ks), k) == if k in ks then Merged(original, updates, k) else Get(original, k)
    decreases |ks|
  {
    if ks != [] {
      var n := |ks| - 1;
      assert Distinct(ks[..n]);
      MergeKeysFacts(original, updates, ks[..n], k);
      if ks[n] == "extra" {
        assert "extra" !in ks[..n];
        MergeKeysFacts(original, updates, ks[..n], "extra");
      }
    }
  }

  /**
   * `_merge_metadata` keeps every key the updates do not name, takes the
   * update for every other key, and merges two `extra` dicts shallowly,
   * the update's entries winning.
   */
  lemma MergeMetadataFacts(original: Dict, updates: Dict, k: string)
    requires ValidDict(updates)
    ensures Get(MergeMetadataSpec(original, updates), k) == if Has(updates, k) then Merged(original, updates, k) else Get(original, k)
    ensures k == "extra" && Get(original, "extra").Obj? && Get(updates, "extra").Obj? && ValidDict(Get(updates, "extra").d) ==>
              Get(MergeMetadataSpec(original, updates), "extra").d.vals
              == Get(original, "extra").d.vals + Get(updates, "extra").d.vals
  {
    if updates.vals != map[] {
      MergeKeysFacts(original, updates, updates.keys, k);
    }
  }

  // ----- tickets -----

  /** `_metadata_has_ticket`: a `ticket` dict at the top level or under `extra`. */
  predicate MetadataHasTicket(metadata: Dict) {
    Get(metadata, "ticket").Obj?
    || (Get(metadata, "extra").Obj? && Get(Get(metadata, "extra").d, "ticket").Obj?)
  }

  const TicketSummaryDefault := "Escalation approved via follow-up form."

  /** Non-blank optional text. */
  predicate NotBlank(s: Option<string>) {
    s.Some? && !Text.IsBlank(s.value)
  }

  /** `_build_ticket_summary`: the form summary, then the user's note, joined by a blank line; a fixed text when both are missing. */
  function BuildTicketSummary(userText: Option<string>, formSummary: Option<string>): (r: string)
    ensures !Parsing.Filled(formSummary) && !NotBlank(userText) ==> r == TicketSummaryDefault
    ensures Parsing.Filled(formSummary) && !NotBlank(userText) ==> r == formSummary.value
    ensures !Parsing.Filled(formSummary) && NotBlank(userText) ==> r == "User note: " + Text.Strip(userText.value)
    ensures Parsing.Filled(formSummary) && NotBlank(userText) ==> r == formSummary.value + "\n\n" + "User note: " + Text.Strip(userText.value)
  {
    var parts := (if Parsing.Filled(formSummary) then [formSummary.value] else [])
                 + (if NotBlank(userText) then ["User note: " + Text.Strip(userText.value)] else []);
    assert |parts| == 2 ==> Text.Join(parts, "\n\n") == parts[0] + "\n\n" + parts[1] by {
      if |parts| == 2 {
        assert parts[1..] == [parts[1]];
      }
    }
    if parts == [] then TicketSummaryDefault else Text.Join(parts, "\n\n")
  }

  /** The id a ticket line shows: the ticket's own id when truthy, else "TICKET". */
  function TicketIdText(details: Dict): (r: string)
    ensures Truthy(Get(details, "ticket_id")) ==> r == PyStr(Get(details, "ticket_id"))
    ensures !Truthy(Get(details, "ticket_id")) ==> r == "TICKET"
  {
    if Truthy(Get(details, "ticket_id")) then PyStr(Get(details, "ticket_id")) else "TICKET"
  }

  /** A non-blank `created_at` string: the ticket line then says when the ticket was opened. */
  predicate HasOpenedAt(details: Dict) {
    Get(details, "created_at").Str? && !Text.IsBlank(Get(details, "created_at").s)
  }

  /**
   * `_format_ticket_line`: "Ticket created: ", the ticket id (or "TICKET"),
   * then " (opened at <created_at>)." when a non-blank opening time is given,
   * else ".".
   */
  function FormatTicketLine(details: Dict): (r: string)
    ensures var head := TicketLinePrefix + TicketIdText(details);
            Text.StartsWith(r, head)
            && r[|head|..] == if HasOpenedAt(details) then " (opened at " + Get(details, "created_at").s + ")." else "."
  {
    var id := if Truthy(Get(details, "ticket_id")) then PyStr(Get(details, "ticket_id")) else "TICKET";
    var created := Get(details, "created_at");
    var rest := if created.Str? && !Text.IsBlank(created.s) then " (opened at " + created.s + ")." else ".";
    Text.StartsWithPrefix(TicketLinePrefix + id, rest);
    TicketLinePrefix + id + rest
  }

  const TicketLinePrefix := "Ticket created: "

  /** `_compose_user_text`: the stripped text and the form summary, non-empty parts only, joined by a blank line. */
  function ComposeUserText(originalText: Option<string>, formSummary: Option<string>): (r: string)
    ensures !NotBlank(originalText) && !Parsing.Filled(formSummary) ==> r == ""
    ensures NotBlank(originalText) && !Parsing.Filled(formSummary) ==> r == Text.Strip(originalText.value)
    ensures !NotBlank(originalText) && Parsing.Filled(formSummary) ==> r == formSummary.value
    ensures NotBlank(originalText) && Parsing.Filled(formSummary) ==> r == Text.Strip(originalText.value) + "\n\n" + formSummary.value
  {
    var parts := (if NotBlank(originalText) then [Text.Strip(originalText.value)] else [])
                 + (if Parsing.Filled(formSummary) then [formSummary.value] else []);
    assert |parts| == 2 ==> Text.Join(parts, "\n\n") == parts[0] + "\n\n" + parts[1] by {
      if |parts| == 2 {
        assert parts[1..] == [parts[1]];
      }
    }
    Text.Join(parts, "\n\n")
  }

  /** `_append_with_spacing`: the addition alone after a blank base, else after the right-stripped base and a blank line. */
  function AppendWithSpacing(original: string, addition: string): (r: string)
    ensures Text.RStrip(original) == [] ==> r == addition
    ensures Text.RStrip(original) != [] ==> r == Text.RStrip(original) + "\n\n" + addition
  {
    var base := Text.RStrip(original);
    if base == [] then addition else base + "\n\n" + addition
  }

  function TicketConfirmation(ticketId: string): string {
    "I've opened ticket " + ticketId + " for our technicians. They'll follow up with next steps shortly."
  }

  /** The metadata `_attach_ticket_metadata` leaves: defaults only, nothing already there overwritten. */
  function TicketMetadata(metadata: Dict, details: Dict): Dict {
    var escalation := Get(metadata, "escalation");
    var combined := SetDefault(if escalation.Obj? then escalation.d else Empty, "status", Str("ticket_opened"));
    SetDefault(SetDefault(Put(metadata, "escalation", Obj(combined)), "form_kind", Str("escalation")), "ticket", Obj(details))
  }

  /** `_attach_ticket_metadata`. */
  function AttachTicketMetadata(answer: Answer, details: Dict): Answer {
    var ticketId := Get(details, "ticket_id");
    var reply := if ticketId.Str? && ticketId.s != [] && !Text.Contains(answer.reply, ticketId.s)
                 then AppendWithSpacing(answer.reply, TicketConfirmation(ticketId.s))
                 else answer.reply;
    answer.(metadata := TicketMetadata(answer.metadata, details), reply := reply)
  }

  /**
   * Attaching a ticket never overwrites an escalation status, a form kind or
   * a ticket already present, and touches no other key.
   */
  lemma TicketMetadataKeepsExisting(metadata: Dict, details: Dict)
    ensures var r := TicketMetadata(metadata, details);
            var escalation := Get(metadata, "escalation");
            && Get(r, "form_kind") == (if Has(metadata, "form_kind") then Get(metadata, "form_kind") else Str("escalation"))
            && Get(r, "ticket") == (if Has(metadata, "ticket") then Get(metadata, "ticket") else Obj(details))
            && Get(r, "escalation").Obj?
            && (escalation.Obj? && Has(escalation.d, "status") ==> Get(Get(r, "escalation").d, "status") == Get(escalation.d, "status"))
            && (!(escalation.Obj? && Has(escalation.d, "status")) ==> Get(Get(r, "escalation").d, "status") == Str("ticket_opened"))
            && (forall k :: k != "escalation" && k != "form_kind" && k != "ticket" ==> Get(r, k) == Get(metadata, k))
  {
    var escalation := Get(metadata, "escalation");
    var combined := SetDefault(if escalation.Obj? then escalation.d else Empty, "status", Str("ticket_opened"));
    var m1 := Put(metadata, "escalation", Obj(combined));
    var m2 := SetDefault(m1, "form_kind", Str("escalation"));
    assert TicketMetadata(metadata, details) == SetDefault(m2, "ticket", Obj(details));
  }

  /** The reply names the ticket afterwards; the confirmation is added only when the reply did not name it yet. */
  lemma AttachTicketNamesTicket(answer: Answer, details: Dict)
    ensures var r := AttachTicketMetadata(answer, details);
            var id := Get(details, "ticket_id");
            && r.metadata == TicketMetadata(answer.metadata, details)
            && (id.Str? && id.s != [] ==> Text.Contains(r.reply, id.s))
            && (!(id.Str? && id.s != [] && !Text.Contains(answer.reply, id.s)) ==> r.reply == answer.reply)
  {
    var ticketId := Get(details, "ticket_id");
    if ticketId.Str? && ticketId.s != [] && !Text.Contains(answer.reply, ticketId.s) {
      ConfirmationNamesTicket(answer.reply, ticketId.s);
    }
  }

  /** The confirmation, wherever it is appended, names the ticket. */
  lemma ConfirmationNamesTicket(original: string, ticketId: string)
    ensures Text.Contains(AppendWithSpacing(original, TicketConfirmation(ticketId)), ticketId)
  {
    var c := TicketConfirmation(ticketId);
    var prefix := "I've opened ticket ";
    var rest := " for our technicians. They'll follow up with next steps shortly.";
    assert c == prefix + (ticketId + rest);
    assert Text.StartsWith(ticketId + rest, ticketId) by {
      assert (ticketId + rest)[..|ticketId|] == ticketId;
    }
    Text.ContainsInSuffix(prefix, ticketId + rest, ticketId);
    var base := Text.RStrip(original);
    if base != [] {
      assert AppendWithSpacing(original, c) == (base + "\n\n") + c;
      Text.ContainsInSuffix(base + "\n\n", c, ticketId);
    }
  }

  /** Attaching the same ticket twice is attaching it once. */
  lemma AttachTicketIdempotent(answer: Answer, details: Dict)
    ensures AttachTicketMetadata(AttachTicketMetadata(answer, details), details) == AttachTicketMetadata(answer, details)
  {
    var once := AttachTicketMetadata(answer, details);
    AttachTicketNamesTicket(answer, details);
    AttachTicketNamesTicket(once, details);
    TicketMetadataKeepsExisting(answer.metadata, details);
    var m := once.metadata;
    assert Has(m, "form_kind") && Has(m, "ticket");
    var escalation := Get(m, "escalation");
    assert escalation.Obj? && Has(escalation.d, "status");
    assert SetDefault(escalation.d, "status", Str("ticket_opened")) == escalation.d;
    assert Put(m, "escalation", Obj(escalation.d)) == m;
    assert TicketMetadata(m, details) == m;
  }

  // ----- the stored assistant message -----

  /**
   * `_persist_assistant_message`: the actions, the form (or `None`), the
   * confidence (or `None`) and the knowledge hits; a boolean
   * `client_hidden`, a text `form_kind` and a text
   * `follow_up_form_summary` of the answer's metadata copied to the top
   * level; and whatever metadata remains without `client_hidden` under
   * `extra` when not empty.
   */
  function AssistantEnvelope(answer: Answer, hits: seq<Value>, floatText: real -> string): Dict {
    var base := EnvelopeBase(AssistantMetadata.StrList(answer.suggestedActions), StoredForm(answer.form),
                             StoredConfidence(answer.confidence, floatText), List(hits));
    CopyTopLevel(base, Get(answer.metadata, "client_hidden"), Remove(answer.metadata, "client_hidden"))
  }

  function StoredForm(form: Option<GeneratedForm>): Value {
    if form.Some? then AssistantMetadata.FormValue(form.value) else Null
  }

  function StoredConfidence(confidence: Option<real>, floatText: real -> string): Value {
    if confidence.Some? then Float(confidence.value, floatText(confidence.value)) else Null
  }

  /** The four entries every stored assistant message has, `None` included. */
  function EnvelopeBase(actions: Value, form: Value, confidence: Value, hits: Value): (r: Dict)
    ensures r.vals == map["suggested_actions" := actions, "follow_up_form" := form, "confidence" := confidence, "knowledge_hits" := hits]
  {
    Dict(["suggested_actions", "follow_up_form", "confidence", "knowledge_hits"],
         map["suggested_actions" := actions, "follow_up_form" := form, "confidence" := confidence, "knowledge_hits" := hits])
  }

  /** The entries copied out of the answer's metadata, and the rest of it under `extra`. */
  function CopyTopLevel(base: Dict, hidden: Value, extra: Dict): Dict {
    var withHidden := if hidden.Bool? then Put(base, "client_hidden", hidden) else base;
    var withKind := CopyText(withHidden, extra, "form_kind");
    var withSummary := CopyText(withKind, extra, "follow_up_form_summary");
    if extra.vals != map[] then Put(withSummary, "extra", Obj(extra)) else withSummary
  }

  /** `if isinstance(extra.get(key), str): metadata[key] = ...`. */
  function CopyText(d: Dict, extra: Dict, key: string): (r: Dict)
    ensures r.vals == if Get(extra, key).Str? then d.vals[key := Get(extra, key)] else d.vals
  {
    if Get(extra, key).Str? then Put(d, key, Get(extra, key)) else d
  }

  const CopiedKeys: set<string> := {"client_hidden", "form_kind", "follow_up_form_summary", "extra"}

  /** Only the copied keys change; each is set exactly when the source has a value of the right type. */
  lemma CopyTopLevelFacts(base: Dict, hidden: Value, extra: Dict)
    requires forall k :: k in CopiedKeys ==> k !in base.vals
    ensures var r := CopyTopLevel(base, hidden, extra);
      && (forall k :: k !in CopiedKeys ==> Get(r, k) == Get(base, k))
      && (forall k :: k in r.vals ==> k in base.vals || k in CopiedKeys)
      && Get(r, "client_hidden") == (if hidden.Bool? then hidden else Null)
      && Get(r, "form_kind") == (if Get(extra, "form_kind").Str? then Get(extra, "form_kind") else Null)
      && Get(r, "follow_up_form_summary") == (if Get(extra, "follow_up_form_summary").Str? then Get(extra, "follow_up_form_summary") else Null)
      && Get(r, "extra") == (if extra.vals != map[] then Obj(extra) else Null)
  {
  }

  /** The stored message keeps the actions, the form, the confidence and the knowledge hits, `None` included. */
  lemma EnvelopeKeepsAnswer(answer: Answer, hits: seq<Value>, floatText: real -> string)
    ensures var r := AssistantEnvelope(answer, hits, floatText);
      && Get(r, "suggested_actions") == AssistantMetadata.StrList(answer.suggestedActions)
      && Get(r, "follow_up_form") == StoredForm(answer.form)
      && Get(r, "confidence") == StoredConfidence(answer.confidence, floatText)
      && Get(r, "knowledge_hits") == List(hits)
  {
    BaseKept(AssistantMetadata.StrList(answer.suggestedActions), StoredForm(answer.form),
             StoredConfidence(answer.confidence, floatText), List(hits), answer.metadata);
  }

  lemma BaseKept(actions: Value, form: Value, confidence: Value, hits: Value, metadata: Dict)
    ensures var r := CopyTopLevel(EnvelopeBase(actions, form, confidence, hits), Get(metadata, "client_hidden"),
                                  Remove(metadata, "client_hidden"));
            Get(r, "suggested_actions") == actions && Get(r, "follow_up_form") == form
            && Get(r, "confidence") == confidence && Get(r, "knowledge_hits") == hits
  {
    var base := EnvelopeBase(actions, form, confidence, hits);
    assert forall k :: k in CopiedKeys ==> k !in base.vals by {
      assert base.vals.Keys == {"suggested_actions", "follow_up_form", "confidence", "knowledge_hits"};
    }
    CopyTopLevelFacts(base, Get(metadata, "client_hidden"), Remove(metadata, "client_hidden"));
    assert "suggested_actions" !in CopiedKeys && "follow_up_form" !in CopiedKeys;
    assert "confidence" !in CopiedKeys && "knowledge_hits" !in CopiedKeys;
  }

  /**
   * The stored message copies `client_hidden` only when boolean and
   * `form_kind` and `follow_up_form_summary` only when text, stores the rest
   * of the answer's metadata without `client_hidden` under `extra` exactly
   * when that rest is not empty, and has no other key.
   */
  lemma AssistantEnvelopeFacts(answer: Answer, hits: seq<Value>, floatText: real -> string)
    ensures var r := AssistantEnvelope(answer, hits, floatText);
      && Get(r, "client_hidden") == (if Get(answer.metadata, "client_hidden").Bool? then Get(answer.metadata, "client_hidden") else Null)
      && Get(r, "form_kind") == (if Get(answer.metadata, "form_kind").Str? then Get(answer.metadata, "form_kind") else Null)
      && Get(r, "follow_up_form_summary") ==
           (if Get(answer.metadata, "follow_up_form_summary").Str? then Get(answer.metadata, "follow_up_form_summary") else Null)
      && (Has(r, "extra") <==> answer.metadata.vals.Keys - {"client_hidden"} != {})
      && (Has(r, "extra") ==> Get(r, "extra").Obj? && Get(r, "extra").d.vals == answer.metadata.vals - {"client_hidden"})
      && (forall k :: k in r.vals ==> k in EnvelopeKeys)
  {
    EnvelopeFacts(AssistantMetadata.StrList(answer.suggestedActions), StoredForm(answer.form),
                  StoredConfidence(answer.confidence, floatText), List(hits), answer.metadata);
  }

  lemma EnvelopeFacts(actions: Value, form: Value, confidence: Value, hits: Value, metadata: Dict)
    ensures var r := CopyTopLevel(EnvelopeBase(actions, form, confidence, hits), Get(metadata, "client_hidden"),
                                  Remove(metadata, "client_hidden"));
      && Get(r, "client_hidden") == (if Get(metadata, "client_hidden").Bool? then Get(metadata, "client_hidden") else Null)
      && Get(r, "form_kind") == (if Get(metadata, "form_kind").Str? then Get(metadata, "form_kind") else Null)
      && Get(r, "follow_up_form_summary") ==
           (if Get(metadata, "follow_up_form_summary").Str? then Get(metadata, "follow_up_form_summary") else Null)
      && (Has(r, "extra") <==> metadata.vals.Keys - {"client_hidden"} != {})
      && (Has(r, "extra") ==> Get(r, "extra").Obj? && Get(r, "extra").d.vals == metadata.vals - {"client_hidden"})
      && (forall k :: k in r.vals ==> k in EnvelopeKeys)
  {
    var extra := Remove(metadata, "client_hidden");
    var base := EnvelopeBase(actions, form, confidence, hits);
    CopyTopLevelFacts(base, Get(metadata, "client_hidden"), extra);
    assert Get(extra, "form_kind") == Get(metadata, "form_kind");
    assert Get(extra, "follow_up_form_summary") == Get(metadata, "follow_up_form_summary");
    assert extra.vals != map[] <==> metadata.vals.Keys - {"client_hidden"} != {} by {
      if metadata.vals.Keys - {"client_hidden"} != {} {
        var k :| k in metadata.vals.Keys - {"client_hidden"};
        assert k in extra.vals;
      }
    }
  }

  const EnvelopeKeys: set<string> := {"suggested_actions", "follow_up_form", "confidence", "knowledge_hits",
    "client_hidden", "form_kind", "follow_up_form_summary", "extra"}

  /** The reply of a turn that only records a form: hidden from the client. */
  const HiddenAnswer := Answer("", [], None, None, Put(Empty, "client_hidden", Bool(true)), Null, Null)

  // ----- one chat turn -----

  /** `AssistantMessageRequest`: `imageCount` is the number of attached images. */
  datatype Request = Request(sessionId: Option<Uuid>, text: Option<string>, metadata: Dict, imageCount: nat)

  /**
   * What a turn depends on outside the store: the form lookups, whether a
   * ticket tool is configured and the details it returns for a summary
   * (`None` when it fails or is unsuccessful), whether a knowledge tool is
   * configured and the hits it returns for a query, the generator (given the
   * user text, the recommendation summary and the hits; `None` when it
   * raises), the value `random.random()` draws, the text of floats, the id
   * `uuid4` draws and the clock.
   */
  datatype Env = Env(
    parseUuid: string -> Option<Uuid>,
    lookupFails: bool,
    ticketTool: bool,
    openTicket: string -> Option<Dict>,
    knowledgeTool: bool,
    search: string -> seq<Value>,
    generate: (string, Option<string>, seq<Value>) -> Option<Answer>,
    randomDraw: real,
    floatText: real -> string,
    newSessionId: Uuid,
    now: nat)

  /** The end of a turn: the reply, or an exception of the generator after the user message was stored. */
  datatype Outcome =
    | Raised
    | Replied(sessionId: Uuid, userMessageId: Uuid, assistantMessageId: Uuid, answer: Answer, hits: seq<Value>)

  datatype Turn = Turn(outcome: Outcome, sessions: map<Uuid, Session>, messages: seq<Message>)

  /** `_get_or_create_session`: the requested session when it exists, else a new one; no status is checked. */
  function SessionFor(sessions: map<Uuid, Session>, req: Request, env: Env): Uuid {
    if req.sessionId.Some? && req.sessionId.value in sessions then req.sessionId.value else env.newSessionId
  }

  /** The updates merged once a ticket is opened. */
  function TicketUpdates(details: Dict, summary: string): (r: Dict)
    ensures ValidDict(r)
    ensures Get(r, "ticket") == Obj(details) && Get(r, "follow_up_form_summary") == Str(summary)
  {
    Dict(["ticket", "follow_up_form_summary", "extra"],
         map["ticket" := Obj(details), "follow_up_form_summary" := Str(summary),
             "extra" := Obj(Dict(["ticket"], map["ticket" := Obj(details)]))])
  }

  /** The form summary once the ticket line is added. */
  function SummaryWithTicket(summary: Option<string>, details: Dict): string {
    if Parsing.Filled(summary) then summary.value + "\n\n" + FormatTicketLine(details) else FormatTicketLine(details)
  }

  /** What the turn knows before storing the user message. */
  datatype Intake = Intake(formResult: FormResult, metadata: Dict, ticket: Option<Dict>, summary: Option<string>)

  /** A ticket is requested: a confirmed escalation, a configured tool, and no ticket in the metadata yet. */
  predicate WantsTicket(formResult: FormResult, metadata: Dict, env: Env) {
    formResult.escalationConfirmed && env.ticketTool && !MetadataHasTicket(metadata)
  }

  /**
   * `assistant_service.py` lines 66-86 of `handle_message` once the form is processed: the
   * metadata updates merged, and a ticket opened for a confirmed escalation
   * when none is recorded; a non-empty ticket adds its line to the summary
   * and its details to the metadata.
   */
  function IntakeSpec(formResult: FormResult, metadata: Dict, text: Option<string>, env: Env): Intake {
    var merged := MergeMetadataSpec(metadata, formResult.metadataUpdates);
    if !WantsTicket(formResult, merged, env) then Intake(formResult, merged, None, formResult.summary)
    else
      var details := env.openTicket(BuildTicketSummary(text, formResult.summary));
      if details.None? || details.value.vals == map[] then Intake(formResult, merged, None, formResult.summary)
      else
        var summary := SummaryWithTicket(formResult.summary, details.value);
        Intake(formResult, MergeMetadataSpec(merged, TicketUpdates(details.value, summary)), details, Some(summary))
  }

  /** The user message's metadata: the intake's, with `image_count` when images are attached. */
  function UserMetadata(intake: Intake, req: Request): Dict {
    if req.imageCount > 0 then Put(intake.metadata, "image_count", Int(req.imageCount)) else intake.metadata
  }

  /** `_maybe_lookup_knowledge`: no hits for a blank text or without a tool, else the hits for the stripped text. */
  function KnowledgeHits(text: string, env: Env): seq<Value> {
    if Text.IsBlank(text) || !env.knowledgeTool then [] else env.search(Text.Strip(text))
  }

  /**
   * `assistant_service.py` lines 123-146: the generated answer, escalated when it repeats earlier
   * suggestions, with the ticket attached, and with the check-in form when
   * it did not escalate.
   */
  function FinishAnswer(generated: Answer, history: History, recent: seq<Message>, ticket: Option<Dict>, randomDraw: real): Answer {
    var escalation := MaybeEscalateSpec(generated, history, recent);
    var ticketed := if ticket.Some? then AttachTicketMetadata(escalation.1, ticket.value) else escalation.1;
    if escalation.0 then ticketed else FeedbackFlow.FeedbackFormAttached(ticketed, recent, randomDraw)
  }

  /**
   * The collaborators `handle_message` delegates to: the form submission
   * service and the generator as the turn calls it.
   */
  datatype Services = Services(
    process: (seq<Message>, Uuid, Dict) -> FormResult,
    respond: (seq<Message>, Uuid, string, History, Option<Dict>) -> Option<(Answer, seq<Value>)>)

  /** The answer of an unanswered form turn and its knowledge hits, from the messages once the user message is stored. */
  function RespondSpec(messages: seq<Message>, sessionId: Uuid, text: string, history: History, ticket: Option<Dict>, env: Env)
    : Option<(Answer, seq<Value>)>
  {
    var hits := KnowledgeHits(text, env);
    var generated := env.generate(text, ContextSummary(history), hits);
    if generated.None? then None
    else
      var recent := RecentByRole(messages, sessionId, AssistantRole, 5);
      Some((FinishAnswer(generated.value, history, recent, ticket, env.randomDraw), hits))
  }

  function ServicesOf(env: Env): Services {
    Services((messages: seq<Message>, sessionId: Uuid, metadata: Dict) => ProcessSpec(messages, sessionId, metadata, env.parseUuid, env.lookupFails),
             (messages: seq<Message>, sessionId: Uuid, text: string, history: History, ticket: Option<Dict>) =>
               RespondSpec(messages, sessionId, text, history, ticket, env))
  }

  /**
   * `assistant_service.py` lines 88-167 once the intake is known: the user message is stored, a
   * skipped response becomes the hidden answer, otherwise the generator
   * answers; the answer is stored and the session touched.
   */
  function RecordSpec(sessions: map<Uuid, Session>, messages: seq<Message>, sessionId: Uuid, req: Request,
                      history: History, intake: Intake, env: Env, svc: Services): Turn
    requires sessionId in sessions
  {
    var text := ComposeUserText(req.text, intake.summary);
    var userId := |messages|;
    var recorded := messages + [Message(userId, sessionId, UserRole, text, UserMetadata(intake, req))];
    var reply := if intake.formResult.skipResponse then Some((HiddenAnswer, [])) else svc.respond(recorded, sessionId, text, history, intake.ticket);
    if reply.None? then Turn(Raised, sessions, recorded)
    else
      var assistantId := |recorded|;
      var answer := reply.value.0;
      Turn(Replied(sessionId, userId, assistantId, answer, reply.value.1),
           sessions[sessionId := sessions[sessionId].(updatedAt := env.now)],
           recorded + [Message(assistantId, sessionId, AssistantRole, answer.reply, AssistantEnvelope(answer, reply.value.1, env.floatText))])
  }

  /** `handle_message` from the state before the turn, with the collaborators `svc`. */
  function TurnSpec(sessions: map<Uuid, Session>, messages: seq<Message>, req: Request, env: Env, svc: Services): Turn {
    var sessionId := SessionFor(sessions, req, env);
    var admitted := Admit(sessions, sessionId, env.now);
    var history := BuildHistory(messages, sessionId, DefaultFetchLimit);
    var formResult := svc.process(messages, sessionId, req.metadata);
    RecordSpec(admitted, messages, sessionId, req, history, IntakeSpec(formResult, req.metadata, req.text, env), env, svc)
  }

  // ----- the turn against the store -----

  /** `assistant_service.py` lines 66-86: merges the form's updates and opens a ticket when one is wanted. */
  method PrepareIntake(formResult: FormResult, metadata: Dict, text: Option<string>, env: Env) returns (intake: Intake)
    ensures intake == IntakeSpec(formResult, metadata, text, env)
  {
    var merged := MergeMetadata(metadata, formResult.metadataUpdates);
    if !(formResult.escalationConfirmed && env.ticketTool && !MetadataHasTicket(merged)) {
      return Intake(formResult, merged, None, formResult.summary);
    }
    var details := env.openTicket(BuildTicketSummary(text, formResult.summary));
    if details.None? || details.value.vals == map[] {
      return Intake(formResult, merged, None, formResult.summary);
    }
    var summary := SummaryWithTicket(formResult.summary, details.value);
    var updated := MergeMetadata(merged, TicketUpdates(details.value, summary));
    intake := Intake(formResult, updated, details, Some(summary));
  }

  /** `assistant_service.py` lines 108-146: knowledge hits, the generated answer, escalation, the ticket and the check-in form. */
  method Respond(store: ConversationStore, sessionId: Uuid, text: string, history: History, ticket: Option<Dict>, env: Env)
    returns (reply: Option<(Answer, seq<Value>)>)
    ensures reply == RespondSpec(store.messages, sessionId, text, history, ticket, env)
  {
    var hits := KnowledgeHits(text, env);
    var generated := env.generate(text, ContextSummary(history), hits);
    if generated.None? {
      return None;
    }
    var recent := RecentByRole(store.messages, sessionId, AssistantRole, 5);
    var escalated, answer := MaybeEscalate(generated.value, history, recent);
    if ticket.Some? {
      answer := AttachTicketMetadata(answer, ticket.value);
    }
    if !escalated {
      answer := FeedbackFlow.MaybeAttachFeedbackForm(answer, recent, env.randomDraw);
    }
    reply := Some((answer, hits));
  }

  /** `assistant_service.py` lines 88-167: stores the user message, answers, stores the answer and touches the session. */
  method Record(store: ConversationStore, sessionId: Uuid, req: Request, history: History, intake: Intake, env: Env)
    returns (outcome: Outcome)
    requires store.Valid() && sessionId in store.sessions
    modifies store
    ensures store.Valid()
    ensures Turn(outcome, store.sessions, store.messages)
            == RecordSpec(old(store.sessions), old(store.messages), sessionId, req, history, intake, env, ServicesOf(env))
  {
    var text := ComposeUserText(req.text, intake.summary);
    var userId := store.AddMessage(sessionId, UserRole, text, UserMetadata(intake, req));
    var reply: Option<(Answer, seq<Value>)>;
    if intake.formResult.skipResponse {
      reply := Some((HiddenAnswer, []));
    } else {
      reply := Respond(store, sessionId, text, history, intake.ticket, env);
    }
    if reply.None? {
      return Raised;
    }
    var answer := reply.value.0;
    var assistantId := store.AddMessage(sessionId, AssistantRole, answer.reply, AssistantEnvelope(answer, reply.value.1, env.floatText));
    store.Touch(sessionId, env.now);
    outcome := Replied(sessionId, userId, assistantId, answer, reply.value.1);
  }

  /**
   * `handle_message`: the session is fetched or created, the
   * recommendation history built, the form processed, and the turn
   * recorded.
   */
  method HandleMessage(store: ConversationStore, req: Request, env: Env) returns (outcome: Outcome)
    requires store.Valid() && env.newSessionId !in store.sessions
    modifies store
    ensures store.Valid()
    ensures Turn(outcome, store.sessions, store.messages) == TurnSpec(old(store.sessions), old(store.messages), req, env, ServicesOf(env))
  {
    var sessionId := SessionFor(store.sessions, req, env);
    if sessionId !in store.sessions {
      store.CreateSession(sessionId, env.now);
    }
    var listed := MessagesOf(store.messages, sessionId);
    var history := Aggregate(if |listed| <= DefaultFetchLimit then listed else listed[..DefaultFetchLimit]);
    var formResult := Process(store, sessionId, req.metadata, env.parseUuid, env.lookupFails);
    var intake := PrepareIntake(formResult, req.metadata, req.text, env);
    outcome := Record(store, sessionId, req, history, intake, env);
  }

  // ----- properties of a turn -----

  /**
   * A turn appends the user message and then at most the reply, creates
   * only the session it runs in, and leaves every other session alone; an
   * exception of the generator leaves the session untouched.
   */
  lemma RecordKeepsHistory(sessions: map<Uuid, Session>, messages: seq<Message>, sessionId: Uuid, req: Request,
                           history: History, intake: Intake, env: Env, svc: Services)
    requires sessionId in sessions
    ensures var t := RecordSpec(sessions, messages, sessionId, req, history, intake, env, svc);
            && |t.messages| == |messages| + (if t.outcome.Replied? then 2 else 1)
            && t.messages[..|messages|] == messages
            && t.messages[|messages|] == Message(|messages|, sessionId, UserRole, ComposeUserText(req.text, intake.summary), UserMetadata(intake, req))
            && (t.outcome.Replied? ==>
                  t.outcome.sessionId == sessionId && t.outcome.userMessageId == |messages|
                  && t.outcome.assistantMessageId == |messages| + 1
                  && t.messages[|messages| + 1] == Message(|messages| + 1, sessionId, AssistantRole, t.outcome.answer.reply,
                                                          AssistantEnvelope(t.outcome.answer, t.outcome.hits, env.floatText)))
            && t.sessions.Keys == sessions.Keys
            && (forall id :: id in sessions && id != sessionId ==> t.sessions[id] == sessions[id])
            && t.sessions[sessionId].status == sessions[sessionId].status
            && (t.outcome == Raised ==> t.sessions == sessions)
  {
    var t := RecordSpec(sessions, messages, sessionId, req, history, intake, env, svc);
    var recorded := messages + [Message(|messages|, sessionId, UserRole, ComposeUserText(req.text, intake.summary), UserMetadata(intake, req))];
    assert t.messages[..|recorded|] == recorded;
    assert t.messages[..|messages|] == recorded[..|messages|];
  }

  /** A turn never refuses: every session, whatever its status, gets the user message, and a missing one is created. */
  lemma TurnKeepsHistory(sessions: map<Uuid, Session>, messages: seq<Message>, req: Request, env: Env, svc: Services)
    ensures var t := TurnSpec(sessions, messages, req, env, svc);
            var sessionId := SessionFor(sessions, req, env);
            && t.messages[..|messages|] == messages
            && |t.messages| == |messages| + (if t.outcome.Replied? then 2 else 1)
            && t.messages[|messages|].role == UserRole && t.messages[|messages|].sessionId == sessionId
            && t.sessions.Keys == sessions.Keys + {sessionId}
            && (forall id :: id in sessions && id != sessionId ==> t.sessions[id] == sessions[id])
            && (sessionId in sessions ==> t.sessions[sessionId].status == sessions[sessionId].status)
            && (sessionId !in sessions ==> t.sessions[sessionId].status == InProgress)
  {
    var sessionId := SessionFor(sessions, req, env);
    var admitted := Admit(sessions, sessionId, env.now);
    var history := BuildHistory(messages, sessionId, DefaultFetchLimit);
    var formResult := svc.process(messages, sessionId, req.metadata);
    RecordKeepsHistory(admitted, messages, sessionId, req, history, IntakeSpec(formResult, req.metadata, req.text, env), env, svc);
  }

  /** A form that asks for no response gets the hidden empty reply, stored with `client_hidden` and nothing else from its metadata. */
  lemma SkippedResponseIsHidden(sessions: map<Uuid, Session>, messages: seq<Message>, sessionId: Uuid, req: Request,
                                history: History, intake: Intake, env: Env, svc: Services)
    requires sessionId in sessions && intake.formResult.skipResponse
    ensures var t := RecordSpec(sessions, messages, sessionId, req, history, intake, env, svc);
            && t.outcome == Replied(sessionId, |messages|, |messages| + 1, HiddenAnswer, [])
            && |t.messages| == |messages| + 2
            && t.messages[|messages| + 1].content == ""
            && Get(t.messages[|messages| + 1].metadata, "client_hidden") == Bool(true)
            && Get(t.messages[|messages| + 1].metadata, "knowledge_hits") == List([])
            && !Has(t.messages[|messages| + 1].metadata, "extra")
  {
    AssistantEnvelopeFacts(HiddenAnswer, [], env.floatText);
    EnvelopeKeepsAnswer(HiddenAnswer, [], env.floatText);
    assert HiddenAnswer.metadata.vals.Keys - {"client_hidden"} == {};
  }

  /**
   * A ticket is opened only for a confirmed escalation with a tool and no
   * ticket recorded; once opened, the user message's metadata records it at
   * the top level and under `extra`, and the summary ends with its line.
   * Without a ticket the metadata is the merged request metadata.
   */
  lemma IntakeFacts(formResult: FormResult, metadata: Dict, text: Option<string>, env: Env)
    ensures var intake := IntakeSpec(formResult, metadata, text, env);
            var merged := MergeMetadataSpec(metadata, formResult.metadataUpdates);
            && intake.formResult == formResult
            && (intake.ticket.Some? ==>
                  && WantsTicket(formResult, merged, env)
                  && intake.ticket.value.vals != map[]
                  && intake.summary == Some(SummaryWithTicket(formResult.summary, intake.ticket.value))
                  && Get(intake.metadata, "ticket") == Obj(intake.ticket.value)
                  && Get(intake.metadata, "follow_up_form_summary") == Str(intake.summary.value)
                  && MetadataHasTicket(intake.metadata))
            && (intake.ticket.None? ==> intake.metadata == merged && intake.summary == formResult.summary)
            && (MetadataHasTicket(merged) ==> intake.ticket.None?)
  {
    var intake := IntakeSpec(formResult, metadata, text, env);
    var merged := MergeMetadataSpec(metadata, formResult.metadataUpdates);
    if intake.ticket.Some? {
      TicketRecorded(merged, intake.ticket.value, intake.summary.value);
    }
  }

  /** Merging a ticket's updates records the ticket and the summary. */
  lemma TicketRecorded(merged: Dict, details: Dict, summary: string)
    ensures var r := MergeMetadataSpec(merged, TicketUpdates(details, summary));
            Get(r, "ticket") == Obj(details) && Get(r, "follow_up_form_summary") == Str(summary)
  {
    var updates := TicketUpdates(details, summary);
    MergeMetadataFacts(merged, updates, "ticket");
    MergeMetadataFacts(merged, updates, "follow_up_form_summary");
  }

  /** The ticket line follows the form summary, or stands alone when there is none. */
  lemma SummaryWithTicketEnds(summary: Option<string>, details: Dict)
    ensures var r := SummaryWithTicket(summary, details);
            var line := FormatTicketLine(details);
            |line| <= |r| && r[|r| - |line|..] == line
            && (Parsing.Filled(summary) ==> Text.StartsWith(r, summary.value))
  {
    var r := SummaryWithTicket(summary, details);
    if Parsing.Filled(summary) {
      assert r[..|summary.value|] == summary.value;
    }
  }

  /**
   * An answer that escalated is stored with the top-level `form_kind`
   * "escalation", whatever ticket or draw follows.
   */
  lemma EscalatedAnswerIsFlagged(generated: Answer, history: History, recent: seq<Message>, ticket: Option<Dict>,
                                 randomDraw: real, hits: seq<Value>, floatText: real -> string, id: Uuid, sessionId: Uuid)
    requires MaybeEscalateSpec(generated, history, recent).0
    ensures var answer := FinishAnswer(generated, history, recent, ticket, randomDraw);
            FlagsEscalation(Message(id, sessionId, AssistantRole, answer.reply, AssistantEnvelope(answer, hits, floatText)))
  {
    var answer := FinishAnswer(generated, history, recent, ticket, randomDraw);
    var escalated := Escalated(generated);
    if ticket.Some? {
      TicketMetadataKeepsExisting(escalated.metadata, ticket.value);
      AttachTicketNamesTicket(escalated, ticket.value);
    }
    assert Get(answer.metadata, "form_kind") == Str("escalation");
    AssistantEnvelopeFacts(answer, hits, floatText);
    EscalationIsNormalized();
  }

  /**
   * Escalation is recommended at most once: a turn whose recent assistant
   * messages include one that escalated does not escalate again.
   */
  lemma EscalatesAtMostOnce(generated: Answer, history: History, recent: seq<Message>, ticket: Option<Dict>, randomDraw: real,
                            hits: seq<Value>, floatText: real -> string, id: Uuid, sessionId: Uuid,
                            later: Answer, laterHistory: History, laterRecent: seq<Message>)
    requires MaybeEscalateSpec(generated, history, recent).0
    requires var answer := FinishAnswer(generated, history, recent, ticket, randomDraw);
             Message(id, sessionId, AssistantRole, answer.reply, AssistantEnvelope(answer, hits, floatText)) in laterRecent
    ensures !MaybeEscalateSpec(later, laterHistory, laterRecent).0
  {
    EscalatedAnswerIsFlagged(generated, history, recent, ticket, randomDraw, hits, floatText, id, sessionId);
    var answer := FinishAnswer(generated, history, recent, ticket, randomDraw);
    FlaggedMessageBlocksEscalation(later, laterHistory, laterRecent,
                                   Message(id, sessionId, AssistantRole, answer.reply, AssistantEnvelope(answer, hits, floatText)));
  }

  /** One flagged message among the recent ones is enough to stop escalation. */
  lemma FlaggedMessageBlocksEscalation(answer: Answer, history: History, recent: seq<Message>, m: Message)
    requires m in recent && FlagsEscalation(m)
    ensures !MaybeEscalateSpec(answer, history, recent).0
  {
    var i :| 0 <= i < |recent| && recent[i] == m;
    assert FlagsEscalation(recent[i]);
  }
}
