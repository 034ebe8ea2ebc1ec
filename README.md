# Troubleshooting chat backend — a verified model of its decision logic

The system is the backend of a troubleshooting chat. A user describes a
problem, possibly with images. The backend classifies the problem against a
catalog: problem category, then a cause of that category, then the
solutions of that cause. It plans which solutions to offer and has a
language model phrase the reply. It attaches short follow-up forms: "did
that help?", "is the problem resolved?" and "shall we escalate to a
human?". Each answered form moves the session towards resolved, escalated
or closed. Everything is stored per session: the messages, images, forms,
the suggestion ledger and the current problem hypothesis.

This project models the deterministic core of that backend in Dafny and
proves what the code promises about it. External collaborators are
parameters or in-memory state: the language-model calls, JSON decoding,
base64 decoding, UUID parsing, the clock and randomness.

- **Follow-up form gate.**
  - `FormSubmission` and `FormSubmissionDto` normalise a submission and interpret it per form kind.
  - `FeedbackFlow` gives the deterministic replies to answered forms and the optional check-in form.
  - `FormBuilder` maps a next action to a form.
  - `FormHandler` reads resolution and escalation answers and changes the session status.
- **Three orchestration generations.**
  - `AssistantService` adds tickets, repeated-suggestion escalation and metadata merging.
  - `AssistantWorkflow` runs classifier → planner → responder, with request-type overrides, follow-up form choice and the session-status transition.
  - `UnifiedWorkflow` runs an intent/next-action classifier, consumes forms, tracks solutions and dismisses silently.
  - They share the conversation store (`Store`) and the suggestion ledger (`Troubleshooting`).
- **Suggestion planning and history.**
  - `SuggestionPlanner` skips already-offered solutions, caps the count and escalates when nothing is left.
  - `RecommendationTracker` counts suggested actions.
- **Classification result mapping.** `ProblemClassifier` and `UnifiedClassifier` resolve catalog slugs, flag solutions already tried, keep distinct follow-up questions and write the problem state.
- **Context aggregation.**
  - `ConversationContext` builds and trims the event list.
  - `ImageAnalysis` covers image rows, the vision summary and deduplicated image descriptions.
  - `FormRepository` holds form status and timestamp rules, one response per field, and the form snapshot.
- **Metadata envelope and usage accounting.**
  - `AssistantMetadata` defines key precedence and serialisation.
  - `UsageMetrics` resolves pricing keys and computes costs with exact reals.
- **Session feedback.** `SessionManager` and `AssistantWorkflow.SubmitFeedback`.
- **Catalog import.** `CatalogImport` upserts categories, causes and solutions, removes stale solutions and counts every change.
- **Parsing helpers.**
  - `ImagePayload` covers MIME normalisation, magic-byte detection and `data:` URLs (section 3 of RFC 2397).
  - `Parsing` covers code fences, `{...}` block extraction and the [0, 1] clamp.
  - `ResponseParsing` reads the generator's payload and form.
- **The prototype flow.**
  - `PrototypeChat` is the `/chat` phase and alternatives state machine.
  - `KnowledgeSearch` is the mock token-overlap search: score, stable sort, truncate.
- **Shared modules.**
  - `Json` holds Python's dynamic values.
  - `Text` holds the ASCII string helpers.
  - `Lookup` covers first-match and last-write searches.
  - `Wrappers` and `MessageFlow` hold records.

## How the code is modelled

- **Code that updates state becomes imperative Dafny.**
  - The stores are classes whose tables are `map` or `seq` fields, with `modifies` clauses on their methods.
  - Each loop of the source is a `while` loop with invariants.
  - Each method is proved against a specification function of the old state.
  - The properties the code promises are lemmas about those functions.
- **Pure Python helpers become functions.** Each has a named result and contracts that state what the result means.
- **Answers are values.** Where the source mutates an answer object that no other code can see, the model's function returns the updated record.

## Model

| member | source | states |
|---|---|---|
| AssistantMetadata.CleanStr | backend/app/data/DTO/assistant_metadata_dto.py:88-92 | present exactly for a string that is not blank, and then its stripped, non-empty text |
| AssistantMetadata.Remaining | backend/app/data/DTO/assistant_metadata_dto.py:46-74 | the keys left after popping the seven known keys, with their values unchanged |
| AssistantMetadata.ConsumeMetadata | backend/app/data/DTO/assistant_metadata_dto.py:42-77 | `client_hidden` taken only as a bool, the answer's own follow-up type and reason win, kind and summary taken when non-blank, escalation and ticket only as dicts, `extra` replaced only when something is left |
| AssistantMetadata.FromAnswer | backend/app/data/DTO/assistant_metadata_dto.py:27-40 | actions, form and confidence copied; type and reason fall back to the dict's cleaned values; the form kind is the dict's cleaned `form_kind` |
| AssistantMetadata.StrList | backend/app/data/DTO/assistant_metadata_dto.py:15 | the dumped action list holds the actions one for one |
| AssistantMetadata.DumpFields | backend/app/data/DTO/assistant_metadata_dto.py:82 | every field is found under its own key, no key holds a `None`, and the keys run in field declaration order, each once |
| AssistantMetadata.ToMessageMetadata | backend/app/data/DTO/assistant_metadata_dto.py:79-85 | no stored value is `None`; every field's dumped value (actions, form, confidence, hidden flag, texts, `extra`, escalation, ticket) is stored under its own key and an unset field or empty `extra` is left out; the keys run in field declaration order, each once |
| AssistantMetadata.FromAnswerCleaned | backend/app/data/DTO/assistant_metadata_dto.py:36-37 | every text field of the structured view is absent or non-empty and stripped |
| AssistantMetadata.CleanStrCleaned | backend/app/data/DTO/assistant_metadata_dto.py:88-92 | cleaning an already cleaned text changes nothing |
| AssistantMetadata.KnownFieldsRoundTrip | backend/app/data/DTO/assistant_metadata_dto.py:42-85 | consuming the stored dict recovers every known field of a cleaned structured view |
| AssistantMetadata.ConsumeKnown | backend/app/data/DTO/assistant_metadata_dto.py:42-77 | consuming a dict reads back each known key that holds its dumped form |
| AssistantMetadata.StoredFormKind | backend/app/data/DTO/assistant_metadata_dto.py:60-62 | the stored `form_kind` is the cleaned kind of the answer's dict |
| Json.FromEntriesKeys | backend/app/data/DTO/assistant_metadata_dto.py:82 | a dump with distinct field names lists exactly the kept keys, in field order, each once |
| AssistantService.AlreadyEscalated | backend/app/services/assistant_service.py:372-398 | true exactly when some message flags an escalation at the top level or under `extra`: an observed escalation status or the form kind "escalation" |
| AssistantService.CurrentActions | backend/app/services/assistant_service.py:305-309 | the normalised current actions, none of them empty |
| AssistantService.Escalated | backend/app/services/assistant_service.py:324-331 | escalating clears the actions, keeps an existing form or adds one, keeps the reply, sets `form_kind` and the recommended escalation and leaves every other key alone |
| AssistantService.MaybeEscalateSpec | backend/app/services/assistant_service.py:291-332 | an answer that does not escalate is returned unchanged; one that does is the escalated answer |
| AssistantService.MaybeEscalate | backend/app/services/assistant_service.py:291-332 | the decision and the answer it leaves are those of the specification |
| AssistantService.EscalationIsNormalized | backend/app/services/assistant_service.py:330 | the stored kind "escalation" is already stripped and lower-case, so later scans see it |
| AssistantService.RecentEscalationIsAlreadyEscalated | backend/app/services/assistant_service.py:302-303 | a recent escalation form always counts as an earlier escalation, so the check on line 321 never decides |
| AssistantService.EscalatesOnlyRepeats | backend/app/services/assistant_service.py:299-322 | for a history built from the messages, escalation happens exactly with a non-empty history, no earlier escalation, and no action that was not recommended before |
| AssistantService.MergeMetadata | backend/app/services/assistant_service.py:454-468 | the merge loop computes the specified merge |
| AssistantService.MergeMetadataFacts | backend/app/services/assistant_service.py:454-468 | keys the updates do not name keep their values, the others take the update, and two `extra` dicts merge shallowly with the update winning |
| AssistantService.BuildTicketSummary | backend/app/services/assistant_service.py:492-501 | the form summary, then the stripped user note, joined by a blank line; the fixed text when both are missing |
| AssistantService.TicketIdText | backend/app/services/assistant_service.py:505 | the ticket's own id when truthy, else "TICKET" |
| AssistantService.FormatTicketLine | backend/app/services/assistant_service.py:503-509 | the line is "Ticket created: ", the ticket id, then " (opened at <created_at>)." for a non-blank opening time or "." otherwise |
| AssistantService.ComposeUserText | backend/app/services/assistant_service.py:424-434 | the stripped text and the form summary, non-empty parts only, joined by a blank line |
| AssistantService.AppendWithSpacing | backend/app/services/assistant_service.py:531-536 | the addition alone after a blank base, else after the right-stripped base and a blank line |
| AssistantService.TicketMetadataKeepsExisting | backend/app/services/assistant_service.py:511-522 | an existing escalation status, form kind or ticket is never overwritten, defaults fill the missing ones, and no other key changes |
| AssistantService.AttachTicketNamesTicket | backend/app/services/assistant_service.py:511-529 | afterwards the reply names a non-empty ticket id, and it is changed only when it did not name it yet |
| AssistantService.ConfirmationNamesTicket | backend/app/services/assistant_service.py:526-529 | the appended confirmation always contains the ticket id |
| AssistantService.AttachTicketIdempotent | backend/app/services/assistant_service.py:511-529 | attaching the same ticket twice is attaching it once |
| AssistantService.EnvelopeBase | backend/app/services/assistant_service.py:222-227 | the four entries every stored assistant message has |
| AssistantService.CopyText | backend/app/services/assistant_service.py:232-238 | a key is copied to the top level exactly when its value is a string |
| AssistantService.CopyTopLevelFacts | backend/app/services/assistant_service.py:228-241 | only the copied keys change, each set exactly when the source has a value of the right type |
| AssistantService.EnvelopeKeepsAnswer | backend/app/services/assistant_service.py:221-227 | the stored message keeps the actions, form, confidence and knowledge hits |
| AssistantService.AssistantEnvelopeFacts | backend/app/services/assistant_service.py:214-249 | `client_hidden` only when boolean, kind and summary only when text, `extra` exactly when the answer's metadata has keys besides `client_hidden`, and no other key |
| AssistantService.TicketUpdates | backend/app/services/assistant_service.py:83-90 | the merged updates record the ticket and the summary |
| AssistantService.PrepareIntake | backend/app/services/assistant_service.py:67-90 | the merged metadata, the summary and the ticket are those of the specification |
| AssistantService.Respond | backend/app/services/assistant_service.py:106-148 | knowledge hits, generated answer, escalation, ticket and check-in form as specified |
| AssistantService.Record | backend/app/services/assistant_service.py:92-165 | the stored messages, sessions and outcome are those of the specified turn, and the store stays well formed |
| AssistantService.HandleMessage | backend/app/services/assistant_service.py:63-165 | the whole turn, from fetching or creating the session, matches the specification |
| AssistantService.RecordKeepsHistory | backend/app/services/assistant_service.py:97-156 | a turn appends the user message and then at most the reply, keeps every other session, keeps the status, and an exception of the generator leaves the sessions unchanged |
| AssistantService.TurnKeepsHistory | backend/app/services/assistant_service.py:63-65 | a turn never refuses: every session gets the user message and a missing one is created in progress |
| AssistantService.SkippedResponseIsHidden | backend/app/services/assistant_service.py:107-114 | a form that asks for no response gets the empty hidden reply, stored with `client_hidden` and no `extra` |
| AssistantService.IntakeFacts | backend/app/services/assistant_service.py:73-90 | a ticket is opened only for a confirmed escalation with a tool and no ticket on record; once opened, the metadata records it and the summary ends with its line |
| AssistantService.TicketRecorded | backend/app/services/assistant_service.py:83-90 | merging the ticket updates records the ticket and the summary |
| AssistantService.SummaryWithTicketEnds | backend/app/services/assistant_service.py:81-82 | the ticket line ends the summary and follows the form summary when there is one |
| AssistantService.EscalatedAnswerIsFlagged | backend/app/services/assistant_service.py:134-154 | an escalated answer is stored with the top-level kind "escalation", whatever ticket or draw follows |
| AssistantService.EscalatesAtMostOnce | backend/app/services/assistant_service.py:302-303 | once an escalated answer is among the recent messages, no later turn escalates |
| AssistantService.FlaggedMessageBlocksEscalation | backend/app/services/assistant_service.py:302-303 | one flagged recent message is enough to stop escalation |
| AssistantWorkflow.SafeClassify | backend/app/services/assistant_workflow_service.py:278-286 | the classifier's result when it answers; otherwise a fallback that asks for more information, does not escalate, has no request type, cause or questions and carries the internal-error rationale |
| AssistantWorkflow.SafePlan | backend/app/services/assistant_workflow_service.py:288-293 | the planner's plan when it answers; otherwise an empty, non-escalating plan with the planner-error note |
| AssistantWorkflow.Override | backend/app/services/assistant_workflow_service.py:166-204 | a resolution check stops escalation and questions and plans nothing; an escalation request escalates with a non-empty reason (the classifier's own when it has one) and an escalating empty plan; a clarification asks for details without escalating, keeps the questions and notes the rationale or the default; the planner is asked exactly for troubleshooting or no request type; category, cause, confidence, rationale and request type never change |
| AssistantWorkflow.NonEmptyTexts | backend/app/services/assistant_workflow_service.py:328-329 | exactly the non-empty questions are kept |
| AssistantWorkflow.ClassificationFields | backend/app/services/assistant_workflow_service.py:43-52 | each of the nine envelope fields reads back as given, and only non-null fields of the envelope are present |
| AssistantWorkflow.ClassificationEnvelope | backend/app/services/assistant_workflow_service.py:306-330 | the dumped envelope always has both flags, and the texts, confidence, category and cause views, non-empty questions and request type name exactly when present; no `None` field is kept |
| AssistantWorkflow.SolutionValues | backend/app/services/assistant_workflow_service.py:333-343 | one envelope per planned solution, in order |
| AssistantWorkflow.PlanEnvelope | backend/app/services/assistant_workflow_service.py:332-348 | the plan envelope carries the plan's escalation flag, its notes when present, and one entry per solution in order |
| AssistantWorkflow.Embed | backend/app/services/assistant_workflow_service.py:295-303 | the answer gains the classification and plan envelopes in its metadata; every other field and metadata key is unchanged |
| AssistantWorkflow.NormalizedType | backend/app/services/assistant_workflow_service.py:426-428 | the declared type is stripped and lower-cased; a truthy non-string value has no `strip` and raises |
| AssistantWorkflow.AutoChoice | backend/app/services/assistant_workflow_service.py:433-452 | without a declared type: escalation when requested, planned or classified; else a resolution check when classified as one; else the feedback check-in exactly when a solution is offered and nothing is left to ask; the chosen reason is always truthy |
| AssistantWorkflow.AttachKind | backend/app/services/assistant_workflow_service.py:471-518 | a known kind keeps an existing form marked with that kind, otherwise attaches the catalog form (raising when the builder is missing); it sets the kind and reason on the answer and in its metadata and keeps reply, actions and confidence |
| AssistantWorkflow.Decline | backend/app/services/assistant_workflow_service.py:454-469 | a declined escalation stops both the plan's and the classification's escalation, attaches no form, clears the answer's type and reason, and records the decline in the metadata |
| AssistantWorkflow.UnknownKind | backend/app/services/assistant_workflow_service.py:520-530 | an unknown kind clears the answer's type, keeps the raw declared type in the metadata unless it reads "none", and keeps the reason only when truthy |
| AssistantWorkflow.ApplyChoice | backend/app/services/assistant_workflow_service.py:454-530 | the chosen kind is applied: a decline, one of the three forms with its kind in the metadata, or an unknown kind; escalation is never started, solutions and reply are kept, and an escalating answer without a form implies an unknown kind |
| AssistantWorkflow.AutoChoiceOrder | backend/app/services/assistant_workflow_service.py:435-518 | with every builder present and no declared type, the forms are tried in order escalation (or its decline), resolution check, feedback check-in, and otherwise the answer is left as it was |
| AssistantWorkflow.AttachNeverEscalates | backend/app/services/assistant_workflow_service.py:416-530 | attaching follow-up forms can only stop an escalation, never start one, and keeps the solutions and the reply |
| AssistantWorkflow.EscalatingWithoutFormNeedsUnknownKind | backend/app/services/assistant_workflow_service.py:454-530 | an answer that still escalates without a form declared a kind the service does not know, and its type is cleared |
| AssistantWorkflow.AttachRaisesOnNonTextType | backend/app/services/assistant_workflow_service.py:426-427 | a truthy declared type that is not a string makes the step raise |
| AssistantWorkflow.CompleteCatalogNeverRaises | backend/app/services/assistant_workflow_service.py:416-530 | with every form builder present and a textual or falsy declared type, the step always completes |
| AssistantWorkflow.IntendedCatalogComplete | backend/app/services/feedback_flow_service.py:89-122 | the intended builders (the feedback-flow forms and the form builder's escalation form) are all present |
| AssistantWorkflow.AsWrittenEscalationRaises | backend/app/services/assistant_workflow_service.py:471-472 | as written, an escalating answer with no declared type raises on the missing builder, while the intended builders deliver it |
| AssistantWorkflow.RequestMetadata | backend/app/services/assistant_workflow_service.py:104-106 | the request metadata gains `image_count` exactly when images are attached |
| AssistantWorkflow.Decide | backend/app/services/assistant_workflow_service.py:157-204 | an overridden request type fixes the classification and plan; otherwise the safe classification is kept and the planner decides |
| AssistantWorkflow.Deliver | backend/app/services/assistant_workflow_service.py:225-242 | stores the answer, records the plan's suggestions, and escalates or touches the session, exactly as the delivery specification says; the store stays valid |
| AssistantWorkflow.Compose | backend/app/services/assistant_workflow_service.py:157-223 | the composed answer is the one the specification derives from the form result, the ledger and the collaborators |
| AssistantWorkflow.Answered | backend/app/services/assistant_workflow_service.py:123-143 | a handled form's answer is stored and the session gets the decision's completed status or is touched; the ledger is untouched |
| AssistantWorkflow.HandleMessage | backend/app/services/assistant_workflow_service.py:97-251 | the whole turn leaves the store and ledger as the turn specification says, starting from the fetched or created session |
| AssistantWorkflow.RunAdmitted | backend/app/services/assistant_workflow_service.py:102-251 | a turn in an admitted session follows the admitted-turn specification |
| AssistantWorkflow.Run | backend/app/services/assistant_workflow_service.py:111-244 | after the user message is stored, the form decision or the composed answer is recorded as the record specification says |
| AssistantWorkflow.SubmitFeedback | backend/app/services/assistant_workflow_service.py:270-276 | an unknown session is refused as not found, an active one as still active, and only a finished one gets the rating and comment; messages never change |
| AssistantWorkflow.RecordKeepsHistory | backend/app/services/assistant_workflow_service.py:112-251 | an admitted turn appends the user message and at most the reply, leaves other sessions alone and only appends to the ledger |
| AssistantWorkflow.DeliverFacts | backend/app/services/assistant_workflow_service.py:225-242 | delivery escalates the session only for an escalating answer without a form, and records the plan's solutions exactly when an answer was composed |
| AssistantWorkflow.HandledFacts | backend/app/services/assistant_workflow_service.py:123-143 | a handled form never writes the ledger, changes the status only to the decision's completed status, and replies whenever the decision has an answer |
| AssistantWorkflow.TurnRefusesOnlyFinishedSessions | backend/app/services/assistant_workflow_service.py:98-100 | a turn is refused exactly for an existing session that is no longer in progress, and a refused turn changes nothing |
| AssistantWorkflow.TurnNeverDismisses | backend/app/services/assistant_workflow_service.py:123-155 | every handled form decision carries an answer, so the dismissed branch is never reached |
| AssistantWorkflow.TurnKeepsHistory | backend/app/services/assistant_workflow_service.py:97-251 | a turn that is not refused appends the stripped user text as a user message, then at most the reply as an assistant message, adds only its own session and only appends to the ledger |
| AssistantWorkflow.RecordStatus | backend/app/services/assistant_workflow_service.py:123-242 | a session in progress stays in progress, takes the handled decision's completed status with its answer, or is escalated with an escalating answer that has no form |
| AssistantWorkflow.TurnStatus | backend/app/services/assistant_workflow_service.py:97-251 | after a turn the session is in progress, resolved or escalated |
| AssistantWorkflow.TurnResolvesOnlyConfirmedChecks | backend/app/services/assistant_workflow_service.py:123-143 | a session is resolved only after the user confirmed a resolution-check form, and the reply then has no form |
| AssistantWorkflow.TurnEscalatesOnlyWithoutForm | backend/app/services/assistant_workflow_service.py:239-242 | a session is escalated only by an unhandled turn whose reply has no form and no follow-up type |
| AssistantWorkflow.ServicesOfAreSound | backend/app/services/assistant_workflow_service.py:197-223 | the modelled collaborators clear the follow-up type of an escalating formless answer and plan at most one solution not yet offered |
| AssistantWorkflow.ReplyIsFresh | backend/app/services/assistant_workflow_service.py:197-223 | a delivered answer carries at most one solution, none the session was already offered |
| AssistantWorkflow.ReplyEscalationClearsKind | backend/app/services/assistant_workflow_service.py:416-530 | a delivered answer that escalates without a form declares no follow-up type |
| AssistantWorkflow.DecidedPlanIsFresh | backend/app/services/assistant_workflow_service.py:197-204 | the plan of an unhandled turn offers at most one solution, none already offered in the session |
| AssistantWorkflow.RecordRows | backend/app/services/assistant_workflow_service.py:230 | only an unhandled turn with a delivered answer writes ledger rows, one per planned solution |
| AssistantWorkflow.TurnNeverRepeatsSuggestion | backend/app/services/assistant_workflow_service.py:197-230 | a turn adds at most one ledger row, for its own session, never for a solution the session was already offered, and keeps the earlier rows |
| CatalogImport.FormatStep | backend/app/services/troubleshooting_import_service.py:197-204 | a blank step gives no line; any other step gives a line starting with "-" |
| CatalogImport.FormatSteps | backend/app/services/troubleshooting_import_service.py:196-204 | at most one line per step, each starting with "-" |
| CatalogImport.FormatStepsConcat | backend/app/services/troubleshooting_import_service.py:197-204 | the lines of two step lists are the lines of the first followed by those of the second, so each step contributes its own lines in order |
| CatalogImport.FormatStepsOne | backend/app/services/troubleshooting_import_service.py:197-204 | a single step gives exactly its formatted line when it is not blank and no line when it is |
| CatalogImport.BlankStepsRenderEmpty | backend/app/services/troubleshooting_import_service.py:205 | steps that are all blank render as the empty text |
| CatalogImport.OneStepRender | backend/app/services/troubleshooting_import_service.py:198-205 | one stripped step is kept when it starts with "-" and prefixed with "- " otherwise |
| CatalogImport.SeverityWeight | backend/app/services/troubleshooting_import_service.py:216-222 | every severity weighs between 5 and 40 |
| CatalogImport.ResolvePriority | backend/app/services/troubleshooting_import_service.py:207-223 | an explicit priority wins; otherwise the severity weight plus the cause's position |
| CatalogImport.PrioritiesFollowOrder | backend/app/services/troubleshooting_import_service.py:216-223 | without explicit priorities, a later cause of the same problem gets a strictly larger priority |
| CatalogImport.UpsertCategorySpec | backend/app/services/troubleshooting_import_service.py:62-86 | an existing category, found by slug, keeps its id, takes the imported name and the imported description only when one is given; otherwise a new category with a fresh id; no other table changes |
| CatalogImport.UpsertCauseSpec | backend/app/services/troubleshooting_import_service.py:88-127 | a cause is found by category and slug; its description defaults to its name, its priority is resolved, its hints are imported, and an existing row keeps its id while a new one takes a fresh id |
| CatalogImport.CauseRows | backend/app/data/repositories/problem_solution_repository.py:17-26 | exactly the solutions of the cause, ordered by step order and then title |
| CatalogImport.CauseRowsDistinct | backend/app/data/repositories/problem_solution_repository.py:17-26 | in a table whose ids are distinct, the listing holds no row twice |
| CatalogImport.SlugIndex | backend/app/services/troubleshooting_import_service.py:137 | every listed slug is a key, and each key maps to a listed row with that slug |
| CatalogImport.SlugIndexLastWins | backend/app/services/troubleshooting_import_service.py:137 | when several listed rows share a slug, the index keeps the last of them |
| CatalogImport.SlugOrder | backend/app/services/troubleshooting_import_service.py:182 | the removal loop visits every key of the index exactly once and nothing else |
| CatalogImport.ReplaceRow | backend/app/services/troubleshooting_import_service.py:164 | the rows with the saved row's id are replaced, every other row is kept in place |
| CatalogImport.DeleteById | backend/app/data/repositories/base_repository.py:124-132 | exactly the rows with the id are removed |
| CatalogImport.ActionStep | backend/app/services/troubleshooting_import_service.py:140-180 | a known slug keeps its id, takes the action's position as step order and counts as updated only when some field changed; an unknown slug appends a new row with the next id and counts as created; the slug is processed either way |
| CatalogImport.ActionsFold | backend/app/services/troubleshooting_import_service.py:140-180 | the first loop keeps the index's keys and ids, processes exactly the actions' slugs, and creates or updates at most one row per action |
| CatalogImport.NotAmongSlugs | backend/app/services/troubleshooting_import_service.py:166-180 | a slug no action carries is never processed |
| CatalogImport.DeletedIdsIndexed | backend/app/services/troubleshooting_import_service.py:182-186 | the removal loop deletes only ids of indexed rows |
| CatalogImport.DeletedIdsAre | backend/app/services/troubleshooting_import_service.py:182-186 | an id is deleted exactly when it belongs to the indexed row of an unprocessed slug |
| CatalogImport.RemoveFold | backend/app/services/troubleshooting_import_service.py:182-190 | the removal loop keeps exactly the rows whose ids it did not delete, counts at most one removal per key, and with distinct ids its counter is exactly the number of rows that went |
| CatalogImport.RemoveStep | backend/app/services/troubleshooting_import_service.py:183-188 | one key deletes its row unless the slug was processed, and with distinct ids counts exactly the row that went |
| CatalogImport.DeleteDistinct | backend/app/data/repositories/base_repository.py:124-132 | with distinct ids a delete by id removes at most one row and leaves the ids distinct |
| CatalogImport.DeleteAbsent | backend/app/data/repositories/base_repository.py:124-132 | deleting an id no row carries leaves the table unchanged |
| CatalogImport.SyncSpec | backend/app/services/troubleshooting_import_service.py:129-192 | the sync touches only solutions, and creates or updates at most one solution per action |
| CatalogImport.AsWrittenExisting | backend/app/data/repositories/problem_solution_repository.py:17-26 | the listing as written returns at most ten solutions, all of the cause |
| CatalogImport.CauseStep | backend/app/services/troubleshooting_import_service.py:48-58 | one cause counts exactly once as created or updated, and no category counter changes |
| CatalogImport.CausesFold | backend/app/services/troubleshooting_import_service.py:48-58 | the causes loop counts every cause exactly once as created or updated |
| CatalogImport.ProblemStep | backend/app/services/troubleshooting_import_service.py:41-58 | a problem counts its category once and each of its causes once |
| CatalogImport.ProblemsFold | backend/app/services/troubleshooting_import_service.py:38-60 | the import counts every problem's category exactly once, and every cause exactly once, as created or updated |
| CatalogImport.TroubleshootingImportService.ImportCatalog | backend/app/services/troubleshooting_import_service.py:38-60 | the tables and counters the import leaves are those of the import specification |
| CatalogImport.TroubleshootingImportService.ApplyProblem | backend/app/services/troubleshooting_import_service.py:41-58 | one problem's iteration leaves the state the problem step specifies |
| CatalogImport.TroubleshootingImportService.ApplyCauses | backend/app/services/troubleshooting_import_service.py:48-58 | the causes loop leaves the state the causes fold specifies |
| CatalogImport.TroubleshootingImportService.ApplyCause | backend/app/services/troubleshooting_import_service.py:49-58 | one cause's iteration leaves the state the cause step specifies |
| CatalogImport.TroubleshootingImportService.UpsertCategory | backend/app/services/troubleshooting_import_service.py:62-86 | the row, created flag and tables are those of the category upsert specification |
| CatalogImport.TroubleshootingImportService.UpsertCause | backend/app/services/troubleshooting_import_service.py:88-127 | the row, created flag and tables are those of the cause upsert specification |
| CatalogImport.TroubleshootingImportService.SyncSolutions | backend/app/services/troubleshooting_import_service.py:129-192 | the tables and counters are those of the sync specification over every existing solution of the cause |
| CatalogImport.TroubleshootingImportService.ApplyAction | backend/app/services/troubleshooting_import_service.py:140-180 | one action leaves the loop state of the action step; categories and causes are untouched |
| CatalogImport.TroubleshootingImportService.UpdateSolution | backend/app/services/troubleshooting_import_service.py:145-167 | a known slug's row is revised, and written back and counted only when it changed |
| CatalogImport.TroubleshootingImportService.AddSolution | backend/app/services/troubleshooting_import_service.py:169-180 | an unknown slug appends a new row with the next id |
| CatalogImport.TroubleshootingImportService.ReviseFields | backend/app/services/troubleshooting_import_service.py:146-162 | the row takes every imported field, and `changed` holds exactly when the row differs |
| CatalogImport.TroubleshootingImportService.RemoveStale | backend/app/services/troubleshooting_import_service.py:183-190 | one key of the removal loop leaves the rows and counter of the removal step |
| CatalogImport.RenderInstructions | backend/app/services/troubleshooting_import_service.py:194-205 | the rendered text is that of the rendering specification |
| CatalogImport.SyncReusesExisting | backend/app/services/troubleshooting_import_service.py:136-180 | when every existing solution is listed and every action's slug exists for the cause, a re-import creates nothing and adds no row |
| CatalogImport.ExistingSlugsIndexed | backend/app/services/troubleshooting_import_service.py:137 | a slug the cause already has is a key of the full index |
| CatalogImport.FoldCreatesNothing | backend/app/services/troubleshooting_import_service.py:145-167 | actions whose slugs are all indexed create no row |
| CatalogImport.FoldKeepsRowCount | backend/app/services/troubleshooting_import_service.py:145-167 | actions whose slugs are all indexed keep the number of rows |
| CatalogImport.StaleSolutionsRemoved | backend/app/services/troubleshooting_import_service.py:182-190 | a listed slug that no action carries loses its row, and the removal counter is at most the number of listed slugs |
| CatalogImport.CreatedStepOrder | backend/app/services/troubleshooting_import_service.py:140-177 | a created solution has the action's slug and its 1-based position as step order |
| CatalogImport.AsWrittenSyncDuplicates | backend/app/data/repositories/problem_solution_repository.py:17 | with the listing limited to ten, importing the slug of a cause's eleventh solution creates a second row with that slug and keeps the old one |
| CatalogImport.NewSlugSync | backend/app/services/troubleshooting_import_service.py:169-180 | an action whose slug is not listed creates a row and keeps every unlisted row |
| PrototypeChat.Norm | api/routes/chat.py:10-11 | the result is stripped and lower-case |
| PrototypeChat.IntentKey | api/routes/chat.py:36 | the key has the intent's length and no spaces |
| PrototypeChat.Defaulted | api/routes/chat.py:25-26 | after the two `setdefault` calls the session has a phase and an alternative index; values already present, and every other key, are kept |
| PrototypeChat.Respond | api/routes/chat.py:76-143 | every event gets a reply, and the session keeps its phase and index defined and its label, confidence and other keys |
| PrototypeChat.Turn | api/routes/chat.py:25-143 | a found session always gets an answer or a failure, never a 404, and keeps a phase and an index |
| PrototypeChat.ChatOutcome | api/routes/chat.py:19-23 | the request is a 404 exactly when the session is missing or empty, and a 404 leaves the table as it was |
| PrototypeChat.ChatRoute.Chat | api/routes/chat.py:19-143 | the reply and the session table are those of the route's specification |
| PrototypeChat.ChatRoute.Serve | api/routes/chat.py:25-143 | the found session is updated in the table to the turn's session, and the reply is the turn's |
| PrototypeChat.ChatRoute.Prepare | api/routes/chat.py:25-53 | the stored session is defaulted and, when needed, labelled by detection, and the label in use is returned |
| PrototypeChat.ChatRoute.Answer | api/routes/chat.py:76-143 | the reply and the stored session are those of the event's answer |
| PrototypeChat.ServedTouchesOnlyItsSession | api/routes/chat.py:19-143 | a served request keeps the table's keys, leaves every other session unchanged and leaves its own with a phase and an index |
| PrototypeChat.IntentDetectionRule | api/routes/chat.py:30-53 | detection runs only without a label and with text; it then sets a flow label or the fallback, with confidence 0.0 when detection fails and the detected confidence otherwise; a set label is never replaced |
| PrototypeChat.RemapRules | api/routes/chat.py:60-74 | "yes"/"no" turn a `start` into `confirm`/`done` and do nothing otherwise; the solved, not-solved, retry and more replies map to their events; any other text keeps the request's event |
| PrototypeChat.IntroKeepsPhase | api/routes/chat.py:79-85 | `start` in the intro phase sends the intro with the node's causes and changes nothing |
| PrototypeChat.ConfirmResetsAlternatives | api/routes/chat.py:88-98 | `confirm` enters the steps phase with the index rewound and sends the node's actions with the four quick replies |
| PrototypeChat.AlternativesAdvance | api/routes/chat.py:101-130 | `not_solved` and `try_again` send the next alternative set and advance the index, offering "More options" exactly while another set remains; past the last set they send the generic backup and keep the index |
| PrototypeChat.AltIdxStaysBounded | api/routes/chat.py:101-118 | no event moves the index past the node's number of alternative sets |
| PrototypeChat.FinishEndsSession | api/routes/chat.py:133-140 | `solved` and `done` end the session with status "solved" or "finished" and keep the index and label |
| PrototypeChat.TurnKeepsLabelAndBound | api/routes/chat.py:25-143 | over a whole request a set label is kept and the index stays within the selected node's alternatives |
| ConversationContext.NormalizeText | backend/app/services/conversation_context_service.py:51-56 | a non-string gives nothing; a string gives its stripped text, and nothing exactly when it is blank |
| ConversationContext.EnsureList | backend/app/services/conversation_context_service.py:125-132 | every item is non-empty stripped text: a list keeps its items' non-blank texts, `None` gives nothing, any other value gives its stripped text unless blank |
| ConversationContext.TrimEvents | backend/app/services/conversation_context_service.py:134-138 | at most 30 events are kept, and they are the last ones, in order |
| ConversationContext.TrimEventsIdempotent | backend/app/services/conversation_context_service.py:134-138 | trimming twice trims nothing more |
| ConversationContext.ExtraKeyNotIgnored | backend/app/services/conversation_context_service.py:145-157 | a flattened `extra.` key is never one of the ignored keys |
| ConversationContext.CondenseExtra | backend/app/services/conversation_context_service.py:153-158 | flattening `extra` adds no ignored key and no empty value, keeps every earlier key, and adds `extra.<key>` for every non-empty entry |
| ConversationContext.CondenseStep | backend/app/services/conversation_context_service.py:148-159 | one entry keeps the dict condensed and every earlier key, adds a kept entry under its own key and every non-empty entry of an `extra` dict under `extra.<key>` |
| ConversationContext.Condense | backend/app/services/conversation_context_service.py:145-159 | the condensed dict holds no ignored key and no empty value, and holds every kept entry's key and every `extra.<key>` of a non-empty entry of an `extra` dict |
| ConversationContext.KeptKeyCondensed | backend/app/services/conversation_context_service.py:148-159 | a metadata key that is not ignored, not empty and not a dict `extra` is in the condensed dict |
| ConversationContext.SummaryShowsKey | backend/app/services/conversation_context_service.py:161-174 | every condensed key makes the summary present and shows in it as its `key: snippet` piece |
| ConversationContext.Snippet | backend/app/services/conversation_context_service.py:165-171 | a dict or list is dumped and cut to 160 characters keeping its first 157; any other value is its `str` |
| ConversationContext.Pieces | backend/app/services/conversation_context_service.py:164-172 | one `key: snippet` piece per condensed entry, in order |
| ConversationContext.MetadataSummary | backend/app/services/conversation_context_service.py:140-174 | the summary is absent exactly when nothing is left after condensing; otherwise it is the pieces joined with "; " and contains every piece |
| ConversationContext.SummarizeMetadata | backend/app/services/conversation_context_service.py:140-174 | the loops compute the metadata summary |
| ConversationContext.FlattenExtra | backend/app/services/conversation_context_service.py:153-158 | the inner loop computes the flattened `extra` entries |
| ConversationContext.BuildPieces | backend/app/services/conversation_context_service.py:164-172 | the second loop computes the pieces |
| ConversationContext.GatherRaises | backend/app/services/conversation_context_service.py:32-41 | the message loop raises exactly when one of its steps raises |
| ConversationContext.GatherLoop | backend/app/services/conversation_context_service.py:32-41 | the loop extending the events computes the gathered events |
| ConversationContext.PartIf | backend/app/services/conversation_context_service.py:62-85 | a part is added exactly when it is present |
| ConversationContext.EventParts | backend/app/services/conversation_context_service.py:62-88 | the reply part comes first and the metadata part last; every present part is listed and none is listed when all are absent |
| ConversationContext.AssistantEvent | backend/app/services/conversation_context_service.py:58-90 | the event raises exactly when `extra` is present and not a dict; otherwise there is no event exactly when there are no parts, and the event text starts with the reply, contains every part and contains the metadata summary when there is one |
| ConversationContext.MessageEvent | backend/app/services/conversation_context_service.py:32-41 | a user message gives an event exactly when its text is not blank; an assistant message gives its assistant event; other roles give nothing |
| ConversationContext.MessageOutput | backend/app/services/conversation_context_service.py:32-41 | a message contributes at most one event, and raises exactly when its event raises |
| ConversationContext.MessageEventsBounded | backend/app/services/conversation_context_service.py:32-41 | the messages give at most one event each |
| ConversationContext.MessageEventsRaise | backend/app/services/conversation_context_service.py:58-90 | the message loop raises exactly when some assistant message has a non-dict `extra` |
| ConversationContext.ImageEntry | backend/app/services/conversation_context_service.py:97-103 | a description gives an event exactly when it is a non-blank string |
| ConversationContext.ImageEventNumbered | backend/app/services/conversation_context_service.py:97-103 | a description at position k is image event number k + 1, whatever was skipped before it |
| ConversationContext.ImageEventSource | backend/app/services/conversation_context_service.py:97-103 | every image event is that of a described entry, numbered by its position |
| ConversationContext.ImageEventsSnoc | backend/app/services/conversation_context_service.py:97-103 | one more description adds its event exactly when it is a non-blank string |
| ConversationContext.BuildImageEvents | backend/app/services/conversation_context_service.py:92-104 | the loop computes the image events |
| ConversationContext.FormTitle | backend/app/services/conversation_context_service.py:114 | a missing, falsy or blank title reads "Follow-up form"; a string title is stripped; a truthy non-string title raises |
| ConversationContext.FormStatusText | backend/app/services/conversation_context_service.py:115 | a falsy status reads "in_progress"; any other is its `str` |
| ConversationContext.InputItems | backend/app/services/conversation_context_service.py:117 | falsy inputs give no items; a list gives its items |
| ConversationContext.InputEvent | backend/app/services/conversation_context_service.py:118-122 | an input gives an event exactly when its answer is non-blank text |
| ConversationContext.InputOutput | backend/app/services/conversation_context_service.py:117-122 | a non-dict input raises; a dict gives at most one event |
| ConversationContext.InputEventsCount | backend/app/services/conversation_context_service.py:117-122 | the inputs give events exactly when every item is a dict, one per answered item |
| ConversationContext.FormEvents | backend/app/services/conversation_context_service.py:111-113 | a non-dict form gives nothing |
| ConversationContext.FormsEvents | backend/app/services/conversation_context_service.py:106-110 | forms that are not a list give nothing |
| ConversationContext.FormDefaults | backend/app/services/conversation_context_service.py:114-116 | a form without title or status reads as "Form 'Follow-up form' [in_progress]" |
| ConversationContext.BuildFormEvents | backend/app/services/conversation_context_service.py:106-123 | the loop computes the form events |
| ConversationContext.BuildOneForm | backend/app/services/conversation_context_service.py:111-122 | one form's loop body computes that form's events |
| ConversationContext.AiContextOf | backend/app/services/conversation_context_service.py:18-49 | a session without an aggregate gets an empty context; otherwise the context is for the session and has at most 30 events |
| ConversationContext.EventsInSourceOrder | backend/app/services/conversation_context_service.py:30-49 | with at most 30 events in all, the context lists the message events, then the image events, then the form events |
| ConversationContext.GetAiContext | backend/app/services/conversation_context_service.py:18-49 | the loops compute the context of the specification |
| FeedbackFlow.HandleFormSubmission | backend/app/services/feedback_flow_service.py:25-42 | a form is handled exactly when it is a helpful feedback answer or a confirmed resolution check, compared lower-cased; a handled form always has an answer; a helpful answer asks for a yes/no resolution check; a confirmed check closes the session as resolved, with no form and no actions |
| FeedbackFlow.CarriedWithinIsBounded | backend/app/services/feedback_flow_service.py:65-86 | only the first `limit` messages are inspected: the kind is found exactly when one of them carries it |
| FeedbackFlow.RecentFormKind | backend/app/services/feedback_flow_service.py:64-86 | the loop finds the kind exactly when the specification does |
| FeedbackFlow.MaybeAttachFeedbackForm | backend/app/services/feedback_flow_service.py:44-62 | the answer is kept when it has a form, has no actions, a feedback form was offered in the last two messages, or the draw exceeds 0.5; otherwise it gains the check-in form and `form_kind` "feedback" |
| FormBuilder.BuildForm | backend/app/services/form_builder_service.py:11-73 | exactly the three "present" actions get a form, each one required yes/no single-choice question with its own wording |
| FormHandler.ScanLoop | backend/app/services/form_handler_service.py:42-55 | the loop over the fields computes the scan of the specification |
| FormHandler.NoRecovery | backend/app/services/form_handler_service.py:42-45 | once a field makes the scan raise, the whole handler raises |
| FormHandler.Decide | backend/app/services/form_handler_service.py:57-89 | a resolution answer decides alone: "yes" closes as resolved, anything else continues; otherwise a "yes" escalation escalates and anything else continues; the status to write follows the action |
| FormHandler.HandleFormResponse | backend/app/services/form_handler_service.py:20-89 | the outcome is the decision on the scanned fields, a raising scan changes nothing, only the decided status is written to an existing session, and no message is written |
| FormHandler.LastFieldWins | backend/app/services/form_handler_service.py:42-55 | a later field of a kind overrides that kind's answer with whether its value is exactly "yes", and leaves the other kind's answer alone |
| FormHandler.NeitherKindContinues | backend/app/services/form_handler_service.py:42-89 | when every field is a dict with a text label answering neither question, both answers stay unset, the flow continues and no status is written |
| FormHandler.FieldsOf | backend/app/services/form_handler_service.py:32-42 | a missing "fields" iterates nothing; a list iterates its items; a dict its keys and a text its characters, each as a string; any other value raises |
| FormHandler.IteratedFieldsOf | backend/app/services/form_handler_service.py:32-45 | a dict or text given as "fields" continues the flow when empty and raises on its first item otherwise |
| FormRepository.StatusUpdate | backend/app/data/repositories/conversation_form_repository.py:51-65 | the form takes the status and the update time; submitting stamps the submission and clears any rejection; rejecting stamps the rejection, stores the reason and keeps the submission time; reopening clears all three; the other fields are kept |
| FormRepository.StatusUpdateLastWins | backend/app/data/repositories/conversation_form_repository.py:39-70 | setting the same status twice is setting it once at the later time |
| FormRepository.RejectKeepsSubmission | backend/app/data/repositories/conversation_form_repository.py:55-61 | rejecting a submitted form keeps its submission time |
| FormRepository.NormalizeValue | backend/app/data/repositories/conversation_form_repository.py:267-274 | `None` stays `None`, booleans become "yes"/"no", text is stripped and blank text is `None` |
| FormRepository.NormalizeValueIdempotent | backend/app/data/repositories/conversation_form_repository.py:267-274 | a normalised answer normalises to itself |
| FormRepository.FindResponse | backend/app/data/repositories/conversation_form_repository.py:86-91 | the position found holds a response to the form and field, and none is found only when no row has that pair |
| FormRepository.Upserted | backend/app/data/repositories/conversation_form_repository.py:93-108 | saving inserts a row exactly when the pair had no response |
| FormRepository.UpsertedKeepsOnePerField | backend/app/data/repositories/conversation_form_repository.py:86-108 | saving keeps at most one response per form and field |
| FormRepository.UpsertedHoldsAnswer | backend/app/data/repositories/conversation_form_repository.py:93-108 | after saving, the pair's response holds exactly the saved value, option and time |
| FormRepository.UpsertedKeepsOthers | backend/app/data/repositories/conversation_form_repository.py:93-108 | saving leaves the response of every other pair where it was |
| FormRepository.InputTypeOf | backend/app/data/repositories/conversation_form_repository.py:138-142 | a stored type reads back as yes/no or single choice exactly for those texts; anything else rejected falls back to text |
| FormRepository.InputTypeRoundTrip | backend/app/data/repositories/conversation_form_repository.py:138-142 | every input type reads back from its own stored text |
| FormRepository.NewForm | backend/app/data/repositories/conversation_form_repository.py:128-133 | a new form is open, not submitted or rejected, and has no title exactly when the title is empty |
| FormRepository.FieldOf | backend/app/data/repositories/conversation_form_repository.py:138-151 | the field belongs to the form at its position, with the read input type and a placeholder exactly when one is given |
| FormRepository.OptionPayloads | backend/app/data/repositories/conversation_form_repository.py:155-156 | falsy options give none; readable options are a list with one payload per item |
| FormRepository.OptionsOf | backend/app/data/repositories/conversation_form_repository.py:156-163 | one option row per payload, owned by the field and positioned by index |
| FormRepository.StagedFields | backend/app/data/repositories/conversation_form_repository.py:137-151 | one field row per payload, owned by the new form and positioned by index |
| FormRepository.StagedOptionsOwned | backend/app/data/repositories/conversation_form_repository.py:137-163 | every staged option belongs to one of the new form's fields |
| FormRepository.TouchKeepsTimestamps | backend/app/data/repositories/conversation_form_repository.py:110-113 | touching a form's update time keeps every form's timestamps consistent with its status |
| FormRepository.StagedFieldsKeepOrder | backend/app/data/repositories/conversation_form_repository.py:137-153 | adding a new form's fields keeps every field in an existing form and positions increasing within each form |
| FormRepository.AnswerOf | backend/app/data/repositories/conversation_form_repository.py:229-234 | the selected option's label when the option is found among the session's options; without a selected option, or when it is not found, the stored value |
| FormRepository.LatestIndex | backend/app/data/repositories/conversation_form_repository.py:213-215 | the position found holds a response for the field and no later one does; none is found only when no response is for the field |
| FormRepository.LatestForField | backend/app/data/repositories/conversation_form_repository.py:213-215 | the kept response is the last stored response to the field, and none is kept only when the field has none |
| FormRepository.InputOf | backend/app/data/repositories/conversation_form_repository.py:224-245 | an input entry has an answer and the field's prompt, and a field without a response gives none |
| FormRepository.InputsUpTo | backend/app/data/repositories/conversation_form_repository.py:223-245 | the inputs are answered entries, at most one per field |
| FormRepository.SnapshotOf | backend/app/data/repositories/conversation_form_repository.py:221-258 | the snapshot has the form's status, its title or "", and its answered inputs |
| FormRepository.SessionForms | backend/app/data/repositories/conversation_form_repository.py:172-177 | exactly the session's forms, each once, in creation order |
| FormRepository.SnapshotsUpTo | backend/app/data/repositories/conversation_form_repository.py:221-258 | one snapshot per form of the session, in creation order, each the snapshot of that form |
| FormRepository.InputsOfForm | backend/app/data/repositories/conversation_form_repository.py:222-243 | a form's inputs are exactly the answered inputs of its own fields |
| FormRepository.FormContext | backend/app/data/repositories/conversation_form_repository.py:169-265 | a snapshot is in the context exactly when it is the snapshot of one of the session's forms and has answers or was submitted or rejected |
| FormRepository.CollectInputs | backend/app/data/repositories/conversation_form_repository.py:222-243 | the loop over a form's fields collects that form's answered inputs |
| FormRepository.KeepShown | backend/app/data/repositories/conversation_form_repository.py:261-265 | the closing filter keeps exactly the shown snapshots, in order |
| FormRepository.SavedAnswerShows | backend/app/data/repositories/conversation_form_repository.py:213-245 | after an answer without a selected option is saved, the field's context entry shows exactly that answer |
| FormRepository.InputFromLatest | backend/app/data/repositories/conversation_form_repository.py:229-245 | an answer read from a response without a selected option is the response's text |
| FormRepository.SavedResponseLatest | backend/app/data/repositories/conversation_form_repository.py:93-108 | after saving, the field's latest response is the saved one |
| FormRepository.ConversationFormRepository.SetStatus | backend/app/data/repositories/conversation_form_repository.py:39-70 | an unknown form gives `None` and changes nothing; a known form is replaced by its status update; other tables are untouched and the invariants hold |
| FormRepository.ConversationFormRepository.SaveFieldResponse | backend/app/data/repositories/conversation_form_repository.py:72-117 | the normalised answer updates or inserts the pair's response, the returned row holds it, an existing form is touched, and the other tables are untouched |
| FormRepository.ConversationFormRepository.CreateFormWithFields | backend/app/data/repositories/conversation_form_repository.py:119-167 | a new open form, its fields and their options are appended positioned by index; unreadable options raise and write nothing |
| FormRepository.ConversationFormRepository.GetFormContext | backend/app/data/repositories/conversation_form_repository.py:169-265 | the context is that of the specification over the stored tables |
| FormRepository.ReadOptions | backend/app/data/repositories/conversation_form_repository.py:155-163 | the option rows read item by item are those of the payloads, or `None` where the loop raises |
| FormRepository.StageFields | backend/app/data/repositories/conversation_form_repository.py:137-163 | the staged field and option rows are those of the specification, or `None` where reading options raises |
| FormRepository.StageStep | backend/app/data/repositories/conversation_form_repository.py:137-163 | one more payload extends the staged fields and options by its own rows |
| FormSubmissionDto.NormalizeScalar | backend/app/data/DTO/form_submission_dto.py:8-31 | the result is normalised; `None` and the empty list give `None`; booleans give "true"/"false"; text gives its stripped lower-cased form unless blank |
| FormSubmissionDto.NormalizeScalarIdempotent | backend/app/data/DTO/form_submission_dto.py:8-31 | normalising a normalised value changes nothing |
| FormSubmissionDto.NormalizedValue | backend/app/data/DTO/form_submission_dto.py:40-44 | the field's normalised value, or its label's when the value normalises to nothing |
| FormSubmissionDto.NormalizedStatus | backend/app/data/DTO/form_submission_dto.py:56-57 | the status normalised like field values |
| FormSubmissionDto.FirstChoiceIsFirstMatch | backend/app/data/DTO/form_submission_dto.py:59-64 | the first field with a normalised value decides; with none, the top-level value decides |
| FormSubmission.NormalizeAtom | backend/app/services/form_submission_service.py:281-295 | the text is normalised: strings stripped and lower-cased unless blank, booleans "true"/"false", other non-numbers `None` |
| FormSubmission.NormalizeValue | backend/app/services/form_submission_service.py:281-295 | `None`, the empty list and dicts give `None`; a list contributes only its first element; other values are normalised as atoms |
| FormSubmission.NormalizeText | backend/app/services/form_submission_service.py:297-302 | only strings give text, stripped and lower-cased, and blank strings give `None` |
| FormSubmission.KindText | backend/app/services/form_submission_service.py:304-316 | a kind is read exactly from a non-blank string |
| FormSubmission.ExtractFormKind | backend/app/services/form_submission_service.py:304-316 | a top-level `form_kind` wins, then `extra.form_kind`; a non-dict gives nothing |
| FormSubmission.ExtractSubmission | backend/app/services/form_submission_service.py:259-265 | the response dict wins over the submission dict, and nothing is found exactly when neither is a dict |
| FormSubmission.ResolveFormKind | backend/app/services/form_submission_service.py:232-257 | the inline kind wins; otherwise a kind comes only from a stored message of the same session named by a parseable `replied_to`, when the lookup succeeds, and such a message always gives its own kind |
| FormSubmission.EntryValue | backend/app/services/form_submission_service.py:271-275 | an entry's usable value is its normalised "value", present only for a dict that has that key |
| FormSubmission.FirstFieldValue | backend/app/services/form_submission_service.py:269-276 | none exactly when no entry has a usable value; otherwise the usable value of an entry that every earlier entry lacks |
| FormSubmission.FirstFormChoiceSpec | backend/app/services/form_submission_service.py:267-278 | the first entry's usable value when some entry of a "fields" list has one, and the normalised top-level value otherwise |
| FormSubmission.FirstFormChoice | backend/app/services/form_submission_service.py:267-279 | the loop returns the specification's first choice, normalised |
| FormSubmission.MaybeAttachSummary | backend/app/services/form_submission_service.py:227-230 | a present summary is stored only when none is stored already; otherwise the updates are unchanged |
| FormSubmission.HandleEscalation | backend/app/services/form_submission_service.py:140-170 | escalation is confirmed exactly for a yes-choice, and a submitted form always gets a summary |
| FormSubmission.HandleFeedback | backend/app/services/form_submission_service.py:172-199 | a status other than "submitted" gives no answer; otherwise a yes or no choice decides; there is a summary unless both status and choice are missing |
| FormSubmission.HandleResolutionCheck | backend/app/services/form_submission_service.py:201-226 | the same rule as feedback for the resolution answer |
| FormSubmission.KindUpdates | backend/app/services/form_submission_service.py:54-56 | the updates name the kind exactly when there is a non-empty one |
| FormSubmission.Dismissed | backend/app/services/form_submission_service.py:61-80 | a dismissal confirms and resolves nothing, skips the reply except for escalation forms, and stores its summary |
| FormSubmission.Escalation | backend/app/services/form_submission_service.py:82-96 | an escalation form is confirmed exactly for a yes-choice, and then marked `user_confirmed` in the updates |
| FormSubmission.AttachSummaryKeeps | backend/app/services/form_submission_service.py:227-230 | attaching a summary leaves every other key as it was |
| FormSubmission.EscalationUpdates | backend/app/services/form_submission_service.py:54-85 | the updates carry the kind, and the confirmation marker exactly for a yes |
| FormSubmission.Feedback | backend/app/services/form_submission_service.py:98-138 | a feedback form, or an unknown kind, reads the answer like feedback and confirms and resolves nothing |
| FormSubmission.ResolutionCheck | backend/app/services/form_submission_service.py:112-125 | a resolution check resolves exactly when the answer confirms it |
| FormSubmission.Interpret | backend/app/services/form_submission_service.py:43-138 | dismissals skip the reply except for escalation forms; escalation is confirmed exactly for a yes on a non-dismissed escalation form; only a confirmed resolution check resolves; the kind is echoed and the summary stored |
| FormSubmission.Process | backend/app/services/form_submission_service.py:31-138 | the result is that of the specification: neutral without a submission, otherwise the decision table on the resolved kind, status and first choice |
| ImageAnalysis.CoerceJson | backend/app/services/image_analysis_service.py:170-184 | an empty text gives `{}`; a fence-stripped text that decodes is returned as decoded; otherwise the result is `{}` or the decoded `{...}` block found inside it |
| ImageAnalysis.ConfidenceOf | backend/app/services/image_analysis_service.py:126-129 | the confidence is 0.0 when absent or not a number, else the number clamped to [0, 1] |
| ImageAnalysis.LabelOf | backend/app/services/image_analysis_service.py:130-131 | the label is absent exactly for `None` or "", otherwise it is the value as text |
| ImageAnalysis.DetailTexts | backend/app/services/image_analysis_service.py:132-136 | a list's items as text, a truthy scalar as one text, nothing for a falsy value |
| ImageAnalysis.SummaryOf | backend/app/services/image_analysis_service.py:121-143 | a payload that is not a dict raises; otherwise the description is stripped, taken from the payload when truthy and from the reply text otherwise, and the confidence lies in [0, 1] |
| ImageAnalysis.ParseSummary | backend/app/services/image_analysis_service.py:121-143 | parsing raises exactly when the coerced payload is not a dict; an empty reply gives the empty summary |
| ImageAnalysis.KeyOf | backend/app/data/repositories/conversation_image_repository.py:44-49 | an image has a deduplication key exactly when its analysis text is present and not blank |
| ImageAnalysis.DetailsOf | backend/app/data/repositories/conversation_image_repository.py:53-59 | every detail is non-empty and stripped; metadata that is not a dict gives no details |
| ImageAnalysis.Shown | backend/app/data/repositories/conversation_image_repository.py:62 | at most the first four details are shown, a prefix of the details, all of them when there are four or fewer |
| ImageAnalysis.ContextLine | backend/app/data/repositories/conversation_image_repository.py:61-65 | without details the line is the text; with details it starts with the text and " (Image details: " and ends with ")" |
| ImageAnalysis.ImageRepository.Create | backend/app/data/repositories/base_repository.py:18-28 | the row is appended and its id is its position |
| ImageAnalysis.ImageRepository.Update | backend/app/data/repositories/base_repository.py:79-93 | the row under the id is replaced and no other row changes |
| ImageAnalysis.SessionRowIds | backend/app/data/repositories/conversation_image_repository.py:20-22 | the ids of exactly the session's rows, rising (creation order) |
| ImageAnalysis.RowsOf | backend/app/data/repositories/conversation_image_repository.py:20-22 | the session's rows, one per session id, in creation order |
| ImageAnalysis.ImageRepository.ListBySession | backend/app/data/repositories/conversation_image_repository.py:17-26 | the session's first `limit` rows (all of them when fewer) in creation order |
| ImageAnalysis.ImageRepository.GetAnalysisContext | backend/app/data/repositories/conversation_image_repository.py:38-66 | the context lines of the session's first 500 images |
| ImageAnalysis.DescribeImages | backend/app/data/repositories/conversation_image_repository.py:41-66 | the loop with its `seen` set yields exactly the context lines of the first image with each key |
| ImageAnalysis.KeptPrefix | backend/app/data/repositories/conversation_image_repository.py:43-65 | the lines come out in image order: a longer input only appends lines |
| ImageAnalysis.KeptDistinct | backend/app/data/repositories/conversation_image_repository.py:49-52 | no two kept images share a key |
| ImageAnalysis.KeptCovers | backend/app/data/repositories/conversation_image_repository.py:44-52 | every image with a key is represented by a kept image with the same key |
| ImageAnalysis.KeptFirst | backend/app/data/repositories/conversation_image_repository.py:49-52 | the first image with a given key is the one kept |
| ImageAnalysis.DetailsBeyondFourIgnored | backend/app/data/repositories/conversation_image_repository.py:62 | details after the fourth never change the context line |
| ImageAnalysis.ImageAnalysisService.PersistImages | backend/app/services/image_analysis_service.py:56-69 | one pending row per image is appended in order, and each returned image has the next id |
| ImageAnalysis.ImageAnalysisService.UpdateImagesWithSummary | backend/app/services/image_analysis_service.py:145-158 | every stored image is written back with the summary, keeping its source |
| ImageAnalysis.ImageAnalysisService.AnalyzeAndStore | backend/app/services/image_analysis_service.py:38-54 | an empty request and a missing client are refused before anything is stored; a failing summary leaves the pending rows; otherwise the ids are the new rows and each new row carries the summary |
| ImageAnalysis.SummaryRoundTrip | backend/app/services/image_analysis_service.py:121-158 | a summary written in the stored payload shape parses back unchanged |
| ImageAnalysis.UnfencedKept | backend/app/services/image_analysis_service.py:186-197 | a stripped text that does not open with a fence is left unchanged |
| ImageAnalysis.CoerceJsonFindsEmbeddedObject | backend/app/services/image_analysis_service.py:170-205 | a JSON object surrounded by prose is recovered here, while the reply service's `_coerce_json` gives `{}` |
| ImageAnalysis.CoerceJsonAgrees | backend/app/services/image_analysis_service.py:170-184 | where the first decode succeeds both services' `_coerce_json` agree |
| ImageAnalysis.StorageUrisDistinct | backend/app/services/image_analysis_service.py:58-63 | different images of a request get different storage uris |
| ImageAnalysis.PersistThenWrite | backend/app/services/image_analysis_service.py:47-49 | storing then writing the summary leaves the old rows followed by the analysed rows |
| ImageAnalysis.AnalyzedRowsShareSummary | backend/app/services/image_analysis_service.py:145-158 | every analysed image carries the same description and details and keeps its "inline_base64" source |
| ImageAnalysis.AnalyzedLine | backend/app/data/repositories/conversation_image_repository.py:44-65 | an analysed image's context line is its stripped description with its non-blank details |
| ImagePayload.NormalizeMime | backend/app/services/utils/image_payload.py:84-88 | absent or empty hints give `None`; otherwise the result is stripped and lower-case, with "image/jpg" read as "image/jpeg" |
| ImagePayload.MatchIndex | backend/app/services/utils/image_payload.py:68-70 | the first signature the header starts with, and none before it matches |
| ImagePayload.HeaderMime | backend/app/services/utils/image_payload.py:68-75 | a detected mime is supported, and a WEBP container is always detected |
| ImagePayload.DetectImageMime | backend/app/services/utils/image_payload.py:60-75 | an undecodable head gives `None`, and a detected mime is supported |
| ImagePayload.ResolveImageMime | backend/app/services/utils/image_payload.py:33-57 | the result is always supported: the hint when it is supported, else the detected mime, else "image/png" |
| ImagePayload.DataUrlRoundTrip | backend/app/services/utils/image_payload.py:78-81 | the mime and payload are read back from the data URL |
| ImagePayload.SignatureDetected | backend/app/services/utils/image_payload.py:21-27 | a header that starts with a signature is detected as that signature's mime |
| ImagePayload.NoTwoSignatures | backend/app/services/utils/image_payload.py:21-27 | no header starts with two different signatures, so their order does not matter |
| ImagePayload.WebpDetected | backend/app/services/utils/image_payload.py:72-73 | "image/webp" is reported exactly for a RIFF container tagged WEBP |
| ImagePayload.UnsupportedHintIgnored | backend/app/services/utils/image_payload.py:42-53 | an unsupported hint changes nothing compared with no hint |
| ImagePayload.NormalizeMimeIdempotent | backend/app/services/utils/image_payload.py:84-88 | normalising a normalised mime changes nothing |
| KnowledgeSearch.Tokens | backend/app/services/chroma_service.py:32-38 | the query's tokens are lower-case words, none of them empty |
| KnowledgeSearch.Count | backend/app/services/chroma_service.py:38 | the overlap counts query tokens, duplicates included, and is zero exactly when no token is found |
| KnowledgeSearch.Similarity | backend/app/services/chroma_service.py:41 | a positive overlap gives a positive similarity, never above 1, equal to overlap over token count when that is at most 1 |
| KnowledgeSearch.Take | backend/app/services/chroma_service.py:51 | `hits[:limit]` is a prefix of the hits, of length `limit` or less, counting a negative limit from the end |
| KnowledgeSearch.HitOf | backend/app/services/chroma_service.py:42-49 | a hit keeps the entry's label, scores a matching entry with the share of query tokens found, summarises the first three causes joined with "; ", and lists the values of at most the first three actions |
| KnowledgeSearch.ScoredExact | backend/app/services/chroma_service.py:34-49 | a hit is made for every entry sharing a token with the query and for no other, with a similarity in (0, 1] |
| KnowledgeSearch.StableSortSpec | backend/app/services/chroma_service.py:50 | the sort keeps the hits, puts the highest similarity first, and keeps tied hits in their map order |
| KnowledgeSearch.KnowledgeBase.Search | backend/app/services/chroma_service.py:30-51 | the loop's hits, sorted and truncated, are the result defined by the scoring, sorting and truncation functions |
| KnowledgeSearch.TopOfSorted | backend/app/services/chroma_service.py:50-51 | the truncated sorted hits are at most `limit` of them, in order, all among the hits, and all of them when the limit allows |
| KnowledgeSearch.TopOfSortedRanks | backend/app/services/chroma_service.py:50-51 | no hit cut off by the limit ranks above a hit that is kept |
| KnowledgeSearch.SearchResultSpec | backend/app/services/chroma_service.py:30-51 | at most `limit` hits, highest similarity first, each for an entry sharing a token with the query; every such entry when the limit allows; no omitted hit ranks above a returned one |
| KnowledgeSearch.PreviewJoin | backend/app/services/chroma_service.py:46 | the summary is empty without causes, the single cause alone, and otherwise the first two or three causes separated by "; " |
| Listing.TextAtMostTotal | backend/app/data/repositories/problem_solution_repository.py:22 | any two titles compare one way or the other |
| Listing.TextAtMostTransitive | backend/app/data/repositories/problem_solution_repository.py:22 | the title order is transitive |
| Listing.AtMostTotal | backend/app/data/repositories/problem_solution_repository.py:22 | any two rows compare one way or the other by step order and then title |
| Listing.AtMostTransitive | backend/app/data/repositories/problem_solution_repository.py:22 | the step-order-then-title order is transitive |
| Listing.Insert | backend/app/data/repositories/problem_solution_repository.py:22 | inserting a row adds exactly that row to the multiset |
| Listing.Sort | backend/app/data/repositories/problem_solution_repository.py:22 | the ordered rows are a permutation of the rows |
| Listing.SortMembers | backend/app/data/repositories/problem_solution_repository.py:22 | ordering keeps the length and exactly the members |
| Listing.InsertLowerBound | backend/app/data/repositories/problem_solution_repository.py:22 | a bound below a row and below every row of a list is below every row after the insertion |
| Listing.InsertOrdered | backend/app/data/repositories/problem_solution_repository.py:22 | inserting into an ordered list keeps it ordered |
| Listing.SortOrdered | backend/app/data/repositories/problem_solution_repository.py:22 | the result is ordered by step order and then title |
| Listing.InsertDistinct | backend/app/data/repositories/problem_solution_repository.py:22 | inserting a new row into a list without repeats gives a list without repeats |
| Listing.SortDistinct | backend/app/data/repositories/problem_solution_repository.py:22 | ordering a list without repeats gives a list without repeats |
| Listing.Take | backend/app/data/repositories/problem_solution_repository.py:23 | at most `n` elements, a prefix of the input, all of it when it is short enough |
| Listing.TakeOrdered | backend/app/data/repositories/problem_solution_repository.py:22-23 | a limited ordered listing stays ordered, and every row it leaves out is at least every row it keeps |
| MessageFlow.ParseIntent | backend/app/data/DTO/simplified_flow_dto.py:23-34 | a text names an intent exactly when it is one of the enum's values, and then it names that one intent |
| MessageFlow.ParseAction | backend/app/data/DTO/simplified_flow_dto.py:37-47 | a text names a next action exactly when it is one of the enum's values, and then it names that one action |
| Parsing.SplitLines | backend/app/services/response_generation_service.py:162 | `splitlines` gives no line for an empty text, at least one otherwise, and no line holds a break |
| Parsing.SplitJoin | backend/app/services/response_generation_service.py:162-174 | splitting lines joined by "\n" gives them back when none holds a break and the last is not empty |
| Parsing.StripCodeFence | backend/app/services/response_generation_service.py:157-174 | the result is stripped, and a text that does not open with a fence is only stripped |
| Parsing.FenceRoundTrip | backend/app/services/response_generation_service.py:157-174 | a body between an opening "```tag" line and a closing "```" line comes back as the stripped body |
| Parsing.ExtractJsonBlock | backend/app/services/image_analysis_service.py:199-205 | a found block opens with "{" and closes with "}" |
| Parsing.ExtractJsonBlockBounds | backend/app/services/image_analysis_service.py:199-205 | the block runs from the first "{" to the last "}" |
| Parsing.ExtractJsonBlockSpan | backend/app/services/image_analysis_service.py:199-205 | a block is found exactly when some "{" comes before some "}" |
| Parsing.ExtractJsonBlockEmbedded | backend/app/services/image_analysis_service.py:199-205 | an object in prose with no "{" before it and no "}" after it is recovered whole |
| Parsing.OutputTexts | backend/app/services/response_generation_service.py:137-140 | the "output_text" items' texts, empty exactly when there is no such item |
| Parsing.ExtractText | backend/app/services/response_generation_service.py:136-143 | the text is stripped, and empty when the reply has neither output text items nor `output_text` |
| Parsing.ExtractTextPrefersItems | backend/app/services/response_generation_service.py:141-142 | when an "output_text" item exists the reply's `output_text` is ignored |
| Parsing.FloatOf | backend/app/services/image_analysis_service.py:126-129 | `float` keeps integers and floats and fails on `None`, lists and dicts |
| Parsing.Clamp | backend/app/services/image_analysis_service.py:140 | the value is clamped to [0, 1] and kept when already inside |
| Parsing.CleanTexts | backend/app/services/response_generation_service.py:215-225 | every kept text is non-empty and stripped, and no more texts come out than go in |
| Parsing.CleanTextsSource | backend/app/services/response_generation_service.py:215-225 | every kept text is the stripped form of an input text |
| Parsing.CleanTextsComplete | backend/app/services/response_generation_service.py:215-225 | every input text that is not blank is kept, stripped |
| Parsing.CleanTextsOfClean | backend/app/services/response_generation_service.py:215-225 | cleaning already clean texts changes nothing |
| ProblemClassifier.LoadCatalog | backend/app/services/problem_classifier_service.py:105-111 | one entry per listed category, in order, with the causes listed for its id |
| ProblemClassifier.KeptFromItems | backend/app/services/problem_classifier_service.py:264-280 | at most two questions are kept, none empty, each the cleaned form of an item |
| ProblemClassifier.KeptDistinct | backend/app/services/problem_classifier_service.py:273-276 | the kept questions differ pairwise after folding |
| ProblemClassifier.KeptSaturated | backend/app/services/problem_classifier_service.py:278-279 | once two questions are kept, later items change nothing |
| ProblemClassifier.KeptGrows | backend/app/services/problem_classifier_service.py:267-279 | the questions kept from a prefix of the items are a prefix of those kept from all of them |
| ProblemClassifier.KeptComplete | backend/app/services/problem_classifier_service.py:267-279 | while fewer than two are kept, every item that cleans to a non-empty text is among them up to folding |
| ProblemClassifier.SelectedShape | backend/app/services/problem_classifier_service.py:264-280 | at most two questions, each stripped, non-empty and the stripped form of an item, pairwise distinct up to case; while fewer than two are kept, every non-blank item is among them up to case |
| ProblemClassifier.KeepLoop | backend/app/services/problem_classifier_service.py:265-280 | the loop with its `seen` set and `break` yields exactly the selection the specification function defines |
| ProblemClassifier.SelectFollowUpQuestions | backend/app/services/problem_classifier_service.py:263-280 | the selected questions, with `strip` cleaning and `lower` folding |
| ProblemClassifier.MatchedCategory | backend/app/services/problem_classifier_service.py:149-152 | the category is found by the stripped slug and is the last catalog entry with it; none is found when no entry has it |
| ProblemClassifier.MatchedCause | backend/app/services/problem_classifier_service.py:154-160 | a cause is found only with a category and a cause slug, and carries the stripped cause slug |
| ProblemClassifier.ResultCopiesPayload | backend/app/services/problem_classifier_service.py:184-193 | the result copies the payload's scalar fields, needs more information when the model set the flag or asked any question, and carries the selected questions |
| ProblemClassifier.ResultResolves | backend/app/services/problem_classifier_service.py:148-182 | a category is set exactly when the stripped slug names one in the catalog, the last one with it; a cause only with a category, carrying the stripped cause slug |
| ProblemClassifier.CauseWithinCategory | backend/app/services/problem_classifier_service.py:155-160 | with distinct category ids, the cause found is one of the matched category's causes, found whenever that category lists the slug |
| ProblemClassifier.FindCause | backend/app/services/problem_classifier_service.py:154-160 | the loop stops at the first catalog entry of the matched category and yields the last of its causes with the stripped slug, or none, exactly as the specification function defines |
| ProblemClassifier.MapResult | backend/app/services/problem_classifier_service.py:148-193 | the loop over the catalog and the mapping give the result the specification function defines |
| ProblemClassifier.BlankQuestionStillNeedsInfo | backend/app/services/problem_classifier_service.py:191-192 | a payload whose only question is blank still needs more information while keeping no question |
| ProblemClassifier.StateRow | backend/app/services/problem_classifier_service.py:197-204 | the row carries the category and cause ids exactly when they were resolved, the confidence, the "openai_responses_v1" source and no manual override |
| ProblemClassifier.PersistSessionState | backend/app/services/problem_classifier_service.py:195-206 | one upsert of the session's row; a failing write is swallowed and changes nothing |
| ProblemClassifier.FirstSentence | backend/app/services/problem_classifier_service.py:224 | the text before the first full stop, a prefix of the description without a full stop |
| ProblemClassifier.CauseHintShape | backend/app/services/problem_classifier_service.py:221-225 | detection hints win; otherwise the description's first sentence, stripped, cut to 80 characters plus "..." only when longer |
| ProblemClassifier.CauseSummary | backend/app/services/problem_classifier_service.py:226-229 | a cause is listed starting with its slug |
| ProblemClassifier.EntryLines | backend/app/services/problem_classifier_service.py:215-231 | an entry adds its heading and, when it has causes, one causes line |
| ProblemClassifier.CatalogListsEveryCategory | backend/app/services/problem_classifier_service.py:208-232 | every category's heading is in the catalog block |
| ProblemClassifier.CatalogLineCount | backend/app/services/problem_classifier_service.py:208-232 | two header lines, one heading per category and one causes line per category with causes |
| ProblemClassifier.RecentEvents | backend/app/services/problem_classifier_service.py:244 | at most the last eight events, in order |
| ProblemClassifier.ContextBlockShape | backend/app/services/problem_classifier_service.py:234-247 | the block opens with "User report", then the stripped user text or the placeholder when there is none, then the event lines |
| ProblemClassifier.EventLinesShape | backend/app/services/problem_classifier_service.py:242-245 | no event lines without events; otherwise a header and the at most eight most recent events, oldest first, as bullets |
| ProblemClassifier.ParseResponse | backend/app/services/problem_classifier_service.py:140-146 | a response without a parsed payload raises, otherwise the payload is returned |
| ProblemClassifier.CatalogOf | backend/app/services/problem_classifier_service.py:105-111 | the catalog lists every category with its causes, in order |
| ProblemClassifier.ClassifyOverwritesState | backend/app/services/problem_classifier_service.py:90-103 | without a client classify raises; a raised classify or a failed write changes no state; otherwise the session's row is replaced, clearing an earlier category when none is resolved, and other sessions keep theirs |
| ProblemClassifier.Classify | backend/app/services/problem_classifier_service.py:90-103 | the outcome and the new state are those the specification functions define |
| RecommendationTracker.NormalizedActions | backend/app/services/recommendation_tracker.py:21-22 | the normalised actions are exactly the history's keys |
| RecommendationTracker.FormatRecord | backend/app/services/recommendation_tracker.py:43-45 | a record is listed as "- text", with " (xN)" only when repeated |
| RecommendationTracker.FormatRecords | backend/app/services/recommendation_tracker.py:40-46 | one line per record |
| RecommendationTracker.ContextSummary | backend/app/services/recommendation_tracker.py:30-38 | there is no summary exactly for an empty history |
| RecommendationTracker.CollectActions | backend/app/services/recommendation_tracker.py:71-87 | every collected action is non-blank and stripped; metadata whose `suggested_actions` is neither a list nor a string gives none |
| RecommendationTracker.RecordOne | backend/app/services/recommendation_tracker.py:93-100 | one action adds at most one key |
| RecommendationTracker.RecordStep | backend/app/services/recommendation_tracker.py:96-100 | the `setdefault` step gives the history the specification function defines |
| RecommendationTracker.RecordActions | backend/app/services/recommendation_tracker.py:89-100 | the loop over the actions gives the history the specification function defines |
| RecommendationTracker.MessageActions | backend/app/services/recommendation_tracker.py:62-68 | a message that is not the assistant's contributes no action |
| RecommendationTracker.Aggregate | backend/app/services/recommendation_tracker.py:60-69 | the loop over the messages gives the history the specification function defines |
| RecommendationTracker.RecordOneCounts | backend/app/services/recommendation_tracker.py:96-100 | recording one action adds one occurrence exactly when the action is not blank |
| RecommendationTracker.RecordOneKeys | backend/app/services/recommendation_tracker.py:96-100 | recording one action adds its normalised key when not blank, and no other |
| RecommendationTracker.RecordOneKeepsTexts | backend/app/services/recommendation_tracker.py:99 | `setdefault` keeps every earlier record's first text |
| RecommendationTracker.RecordCounts | backend/app/services/recommendation_tracker.py:89-100 | the counts grow by the number of non-blank actions recorded |
| RecommendationTracker.NewKeysMembers | backend/app/services/recommendation_tracker.py:96-99 | a key is new exactly when some action normalises to it and it is not empty |
| RecommendationTracker.RecordKeys | backend/app/services/recommendation_tracker.py:89-100 | recording adds exactly the keys of the non-blank actions |
| RecommendationTracker.RecordKeepsTexts | backend/app/services/recommendation_tracker.py:99 | recording keeps every key's first text |
| RecommendationTracker.NonBlankOfCollected | backend/app/services/recommendation_tracker.py:66-68 | every collected action is counted |
| RecommendationTracker.OnlyAssistantMessagesCount | backend/app/services/recommendation_tracker.py:63-64 | messages of other roles change nothing |
| RecommendationTracker.AggregateCounts | backend/app/services/recommendation_tracker.py:24-25 | the total is the number of non-blank actions over all assistant messages |
| RecommendationTracker.EmptyIffNoRecommendations | backend/app/services/recommendation_tracker.py:24-28 | a history is empty exactly when it holds no recommendation |
| RecommendationTracker.RecordOneValid | backend/app/services/recommendation_tracker.py:96-100 | recording one action keeps every key listed once, with a positive count and a stripped text that lower-cases to the key |
| RecommendationTracker.AggregateValid | backend/app/services/recommendation_tracker.py:60-69 | every history the aggregation builds is well formed |
| ResponseParsing.CoerceJson | backend/app/services/response_generation_service.py:146-155 | an empty text or one the decoder rejects gives `{}`; otherwise the fence-stripped text's decoded value, dict or not |
| ResponseParsing.StrListOf | backend/app/services/response_generation_service.py:214-227 | a list's items as stripped non-blank texts; any other truthy value as one stripped text; nothing otherwise |
| ResponseParsing.EnsureListOfStr | backend/app/services/response_generation_service.py:214-227 | the loop gives the texts the specification function defines |
| ResponseParsing.OptionalText | backend/app/services/response_generation_service.py:197 | a placeholder validates exactly when it is `None` or text |
| ResponseParsing.OptionOf | backend/app/services/response_generation_service.py:185-188 | `value` falls back to `label` then "option"; the caption falls back to `value` then "Option" |
| ResponseParsing.OptionsOf | backend/app/services/response_generation_service.py:184-191 | one option per dict item |
| ResponseParsing.FieldOf | backend/app/services/response_generation_service.py:182-199 | a field raises exactly when its options are a truthy scalar or its placeholder is neither `None` nor text; otherwise its options, `required`, default type "text" and default question "" |
| ResponseParsing.FieldsOf | backend/app/services/response_generation_service.py:181-199 | one field per dict item |
| ResponseParsing.FormOf | backend/app/services/response_generation_service.py:177-207 | no form for a non-dict payload or no fields; a form has fields and the default title "Additional details" unless one is named |
| ResponseParsing.ParseForm | backend/app/services/response_generation_service.py:177-207 | the loop gives the form the specification function defines |
| ResponseParsing.ConfidenceOf | backend/app/services/response_generation_service.py:112-119 | no confidence exactly where `float` fails, otherwise clamped to [0, 1] |
| ResponseParsing.ReplyOf | backend/app/services/response_generation_service.py:107 | the payload's reply when truthy, else the raw text, else the fixed apology |
| ResponseParsing.AnswerOf | backend/app/services/response_generation_service.py:103-134 | a non-dict payload or a failing form raises; otherwise reply, actions, form and confidence as defined, and the metadata is the payload without the four answer keys |
| ResponseParsing.ParseResponse | backend/app/services/response_generation_service.py:103-134 | the answer of the extracted text and its decoded payload |
| ResponseParsing.FieldsRaisedStays | backend/app/services/response_generation_service.py:181-199 | once a field item raises, the whole form raises |
| ResponseParsing.CoerceJsonIgnoresFence | backend/app/services/response_generation_service.py:146-174 | a fenced reply decodes exactly as the bare reply |
| ResponseParsing.StrListIdempotent | backend/app/services/response_generation_service.py:214-224 | cleaning a cleaned list changes nothing |
| ResponseParsing.BlankScalarKept | backend/app/services/response_generation_service.py:214-227 | a blank string survives as one blank action while a blank list item is dropped |
| ResponseParsing.OptionRoundTrip | backend/app/services/response_generation_service.py:185-188 | an option in the asked-for shape reads back as written |
| ResponseParsing.FieldRoundTrip | backend/app/services/response_generation_service.py:182-199 | a field in the asked-for shape reads back as written |
| ResponseParsing.FieldsRoundTrip | backend/app/services/response_generation_service.py:181-199 | a list of fields in the asked-for shape reads back as written |
| ResponseParsing.FormRoundTrip | backend/app/services/response_generation_service.py:177-207 | a form with fields in the asked-for shape reads back as written |
| SessionManager.FeedbackSpec | backend/app/services/session_manager_service.py:79-97 | an unknown session and a closed one are refused and change nothing; any other session gets both feedback columns overwritten and keeps its status; other sessions are untouched |
| SessionManager.HistorySpec | backend/app/services/session_manager_service.py:43-77 | an unknown session is refused; otherwise the session and at most `limit` of its own messages |
| SessionManager.SessionManagerService.SubmitFeedback | backend/app/services/session_manager_service.py:79-97 | the new sessions are those the specification function defines, and messages are untouched |
| SessionManager.SessionManagerService.GetSessionHistory | backend/app/services/session_manager_service.py:43-77 | the history the specification function defines, hidden messages included |
| SessionManager.SecondFeedbackWins | backend/app/services/session_manager_service.py:91-96 | a second feedback replaces the first entirely |
| SessionManager.FeedbackKeepsStatuses | backend/app/services/session_manager_service.py:91-94 | feedback never changes any session's status |
| SessionManager.HistoryIsPrefix | backend/app/data/repositories/conversation_message_repository.py:17-26 | the history is the first `limit` of the session's messages, in store order |
| Store.ConversationStore.GetMessage | backend/app/data/repositories/base_repository.py:30-36 | a message is found exactly for an existing id, and it is the stored message with that id |
| Store.ConversationStore.CreateSession | backend/app/data/repositories/base_repository.py:18-28 | the session is stored "in_progress" and messages are untouched |
| Store.ConversationStore.AddMessage | backend/app/data/repositories/base_repository.py:18-28 | the message is appended with the next id, and nothing else changes |
| Store.ConversationStore.UpdateMessageMetadata | backend/app/data/repositories/base_repository.py:79-93 | only the one message's metadata changes |
| Store.ConversationStore.Touch | backend/app/data/repositories/conversation_session_repository.py:24-33 | only the session's `updated_at` changes; an unknown session is left alone |
| Store.ConversationStore.SetStatus | backend/app/data/repositories/conversation_session_repository.py:35-45 | only the session's status and `updated_at` change; an unknown session is left alone |
| Store.ConversationStore.SetFeedback | backend/app/services/session_manager_service.py:92-96 | only the session's two feedback columns change |
| Store.Admit | backend/app/services/assistant_workflow_service.py:350-357 | an existing session is kept; a missing one is created "in_progress"; no other session changes |
| Store.MessageAt | backend/app/data/repositories/base_repository.py:30-36 | a message is found exactly for an existing id |
| Store.MessagesOf | backend/app/data/repositories/conversation_message_repository.py:17-26 | exactly the session's messages; each caller then takes the first `limit` |
| Store.MessagesOfInOrder | backend/app/data/repositories/conversation_message_repository.py:22 | with ids rising along the store, the session's messages come out oldest first |
| Store.RecentByRole | backend/app/data/repositories/conversation_message_repository.py:28-44 | at most `limit` of the session's messages with the role |
| Store.RecentByRoleNewestFirst | backend/app/data/repositories/conversation_message_repository.py:40 | with ids equal to positions, the messages come out newest first |
| Store.RecentByRoleTakesNewest | backend/app/data/repositories/conversation_message_repository.py:36-42 | a message of that session and role is left out only when `limit` messages were taken and all of them are newer |
| SuggestionPlanner.OfCause | backend/app/data/repositories/problem_solution_repository.py:21 | exactly the solutions of the cause |
| SuggestionPlanner.ListByCause | backend/app/data/repositories/problem_solution_repository.py:17-26 | at most `limit` solutions of the cause, ordered by step order and then title; fewer only when all of the cause's solutions are returned, and none left out comes before one returned |
| SuggestionPlanner.Fresh | backend/app/services/suggestion_planner_service.py:51-54 | exactly the listed solutions never suggested in the session |
| SuggestionPlanner.Offer | backend/app/services/suggestion_planner_service.py:55-69 | every solution is offered as not already suggested |
| SuggestionPlanner.ScanTakesFresh | backend/app/services/suggestion_planner_service.py:51-71 | from any point of the loop, the rest it takes is the next never-suggested solutions, as many as the room left allows |
| SuggestionPlanner.TakeFreshIsPrefixOfFresh | backend/app/services/suggestion_planner_service.py:51-71 | the loop takes the first `max_suggestions` never-suggested solutions in list order, at least one when any exists |
| SuggestionPlanner.PlanLoop | backend/app/services/suggestion_planner_service.py:49-71 | the loop with its `break` yields the solutions the specification function defines |
| SuggestionPlanner.Plan | backend/app/services/suggestion_planner_service.py:33-80 | the plan of the classification, the session's ledger and the cause's first 25 listed solutions, as the specification function defines it |
| SuggestionPlanner.EscalatingClassification | backend/app/services/suggestion_planner_service.py:35-38 | an escalating classification gives an escalating plan with no solutions, noting the reason |
| SuggestionPlanner.NoCause | backend/app/services/suggestion_planner_service.py:40-43 | without a cause the plan has no solutions, does not escalate and notes the rationale when there is one |
| SuggestionPlanner.PlanNeverRepeats | backend/app/services/suggestion_planner_service.py:45-73 | planned solutions are never in the session's ledger, are listed, are offered as new, come in list order and number at most `max_suggestions` |
| SuggestionPlanner.ExhaustedEscalates | backend/app/services/suggestion_planner_service.py:76-78 | with nothing new, no call for details and a non-empty ledger, the plan escalates with the "all steps suggested" note |
| SuggestionPlanner.NeedsDetailsDoesNotEscalate | backend/app/services/suggestion_planner_service.py:74-75 | asking for details with nothing new notes the rationale or the fixed text and never escalates |
| SuggestionPlanner.NewRows | backend/app/services/suggestion_planner_service.py:86-96 | no more rows than planned items |
| SuggestionPlanner.PersistNewSuggestions | backend/app/services/suggestion_planner_service.py:82-96 | the ledger grows by exactly the rows the specification function defines, failing inserts skipped |
| SuggestionPlanner.NewRowsComeFromItems | backend/app/services/suggestion_planner_service.py:86-94 | every row written is the session's and names a planned solution |
| SuggestionPlanner.NewRowsOfPlanned | backend/app/services/suggestion_planner_service.py:86-94 | writing a plan records every planned solution, in order, when no insert fails |
| Troubleshooting.OrText | backend/app/services/suggestion_planner_service.py:42 | Python's `a or b` on optional text: `a` when it is non-empty text, else `b` |
| Troubleshooting.OrDefault | backend/app/services/suggestion_planner_service.py:75 | `a or "default"`: `a` when it is non-empty text, else the default |
| Troubleshooting.SuggestedIds | backend/app/services/suggestion_planner_service.py:45-46 | exactly the solution ids the ledger holds for the session |
| Troubleshooting.SuggestionLedger.Create | backend/app/services/suggestion_planner_service.py:94 | the row is appended and nothing else changes |
| Troubleshooting.ProblemStateStore.Upsert | backend/app/data/repositories/session_problem_state_repository.py:20-52 | the session's row is created or has every field replaced, and other sessions keep theirs |
| UnifiedClassifier.Put | backend/app/services/unified_classifier.py:362 | `catalog[slug] = entry` keeps the catalog well formed: a new slug goes last, a known one keeps its place and takes the new entry |
| UnifiedClassifier.CatalogOf | backend/app/services/unified_classifier.py:331-364 | the catalog built from the categories is well formed |
| UnifiedClassifier.CatalogOfLookup | backend/app/services/unified_classifier.py:336-362 | a slug some category has is in the catalog and holds the last category with it |
| UnifiedClassifier.CatalogOfMissing | backend/app/services/unified_classifier.py:336-362 | a slug no category has is not in the catalog |
| UnifiedClassifier.CatalogOfOrder | backend/app/services/unified_classifier.py:336-362 | with distinct slugs the catalog lists the categories in order |
| UnifiedClassifier.LoadCatalog | backend/app/services/unified_classifier.py:331-364 | the loop builds the catalog the specification function defines |
| UnifiedClassifier.ResolvedCategory | backend/app/services/unified_classifier.py:437-441 | a category is resolved exactly when the payload's slug is a catalog key, and it is that key's entry |
| UnifiedClassifier.ResolvedCause | backend/app/services/unified_classifier.py:443-448 | a cause is resolved exactly when the resolved category lists the payload's cause slug, and it is one of its causes |
| UnifiedClassifier.ResolvedSolution | backend/app/services/unified_classifier.py:450-457 | a solution is resolved exactly when the resolved cause lists the payload's solution slug, and it is one of its solutions |
| UnifiedClassifier.ResultCopiesPayload | backend/app/services/unified_classifier.py:423-434 | the result raises exactly on an unknown intent or next action, and otherwise copies intent, next action, confidence, reasoning, clarifying question, contradiction details, out-of-scope reason, the escalation flag and reason, and the attempted solutions, with no solution summary |
| UnifiedClassifier.ResultResolvesNested | backend/app/services/unified_classifier.py:436-460 | category, cause and solution are each set only when found where the source looks, with their names, the attempted cause and whether the solution was already tried |
| UnifiedClassifier.BuildResult | backend/app/services/unified_classifier.py:415-460 | the loops with their `break`s give the result the specification function defines |
| UnifiedClassifier.PersistedRow | backend/app/services/unified_classifier.py:462-498 | a row is written exactly when the result names a catalog category, with its id, the payload's confidence, the "ai_classification" source and no manual override |
| UnifiedClassifier.PersistProblemState | backend/app/services/unified_classifier.py:462-498 | one upsert of the specified row when there is one, and no change otherwise |
| UnifiedClassifier.PersistedAfterBuild | backend/app/services/unified_classifier.py:472-498 | persisting a built result stores exactly the resolved category and cause, with no cause id when none was resolved |
| UnifiedClassifier.SessionSolutionIds | backend/app/services/unified_classifier.py:368-372 | exactly the solution ids of the session's ledger rows |
| UnifiedClassifier.WithIds | backend/app/data/repositories/problem_solution_repository.py:28-35 | exactly the stored solutions whose id is listed |
| UnifiedClassifier.Slugs | backend/app/services/unified_classifier.py:379 | the slugs of the solutions, in order |
| UnifiedClassifier.AttemptedSolutionsExact | backend/app/services/unified_classifier.py:366-381 | no ledger rows give no slugs; otherwise a slug is listed exactly when a stored solution with it was suggested in the session |
| UnifiedClassifier.ExistingProblem | backend/app/services/unified_classifier.py:300-314 | a slug is found exactly when the session's state names a known category, and it is that category's slug |
| UnifiedClassifier.FormatCatalogFocused | backend/app/services/unified_classifier.py:316-329 | an unknown category gives the "not found" line; a known one shows every cause's header line and every solution line of the category |
| UnifiedClassifier.CauseLines | backend/app/services/unified_classifier.py:322-327 | every cause of the category contributes its "Cause:" header and every solution of it a "→ slug: title" line |
| UnifiedClassifier.CauseLinesOnly | backend/app/services/unified_classifier.py:322-327 | every line is a cause's header or a line of one of its solutions |
| UnifiedClassifier.CauseLinesConcat | backend/app/services/unified_classifier.py:322-327 | the lines follow the causes' order, one block per cause |
| UnifiedClassifier.CauseLinesOne | backend/app/services/unified_classifier.py:323-325 | a cause's block is its header followed by one line per solution in the listed order |
| UnifiedClassifier.CategoryLines | backend/app/services/unified_classifier.py:286-288 | one listing line per catalog category, in insertion order |
| UnifiedClassifier.EventLines | backend/app/services/unified_classifier.py:268-271 | one indented line per event, in order |
| UnifiedClassifier.ContentShape | backend/app/services/unified_classifier.py:250-280 | the content opens with the user's text or the image-only line, and has an "Already tried" line exactly when solutions were attempted |
| UnifiedClassifier.ParseResponse | backend/app/services/unified_classifier.py:383-413 | a response without a parsed payload raises, otherwise the payload is returned |
| UnifiedClassifier.ClassifyPersistsOnlyResolved | backend/app/services/unified_classifier.py:98-135 | without a client classify raises; a raised classify changes no state; a returned one changes the session's state only when the payload named a catalog category, and then stores its id |
| UnifiedClassifier.Classify | backend/app/services/unified_classifier.py:98-135 | the outcome and the new state are those the specification functions define |
| UnifiedWorkflow.FormResponse | backend/app/services/unified_workflow.py:84 | `follow_up_form_response` when present, `{}` otherwise |
| UnifiedWorkflow.RepliedTo | backend/app/services/unified_workflow.py:89-91 | a form interaction gives its response's `replied_to` exactly when that value is truthy; anything else gives none |
| UnifiedWorkflow.ConsumedMetadata | backend/app/services/unified_workflow.py:380-382 | the old metadata with `form_consumed` set to true |
| UnifiedWorkflow.ConsumeSpec | backend/app/services/unified_workflow.py:371-387 | marking a form consumed never adds or removes a message |
| UnifiedWorkflow.ConsumedSpec | backend/app/services/unified_workflow.py:88-92 | marking the replied-to form consumed never adds or removes a message |
| UnifiedWorkflow.Attachments | backend/app/services/unified_workflow.py:272-285 | one attachment per image, in order |
| UnifiedWorkflow.UserMetadata | backend/app/services/unified_workflow.py:266-285 | the request metadata unchanged without images; with images, `has_images` and the attachments added |
| UnifiedWorkflow.BuildAttachments | backend/app/services/unified_workflow.py:270-285 | the loop gives the attachments the specification function defines |
| UnifiedWorkflow.SuggestedActions | backend/app/services/unified_workflow.py:192-195 | no suggested action when the turn closes or escalates, else the generator's one when it has one |
| UnifiedWorkflow.WithSlug | backend/app/data/repositories/problem_solution_repository.py:37-42 | exactly the stored solutions with the slug |
| UnifiedWorkflow.GetBySlug | backend/app/data/repositories/problem_solution_repository.py:37-42 | a solution is found exactly when a single row carries the slug, and it is that row; no row or several rows give none |
| UnifiedWorkflow.WithSlugOne | backend/app/data/repositories/problem_solution_repository.py:37-42 | the slug's rows number exactly one exactly when a single row carries the slug |
| UnifiedWorkflow.MarkFormConsumed | backend/app/services/unified_workflow.py:371-387 | the messages become those the specification function defines; sessions are untouched |
| UnifiedWorkflow.TrackSolution | backend/app/services/unified_workflow.py:332-349 | the ledger becomes the one the specification function defines |
| UnifiedWorkflow.PersistUserMessage | backend/app/services/unified_workflow.py:258-293 | one user message is appended with the request's metadata and attachments; sessions are untouched |
| UnifiedWorkflow.Reply | backend/app/services/unified_workflow.py:142-244 | the store and ledger after classification, generation and storage are those the specification function defines |
| UnifiedWorkflow.HandleMessage | backend/app/services/unified_workflow.py:66-244 | the outcome, sessions, messages and ledger are those the specification function defines |
| UnifiedWorkflow.RefusesOnlyClosedSessions | backend/app/services/unified_workflow.py:80-81 | only a resolved or escalated session is refused, "closed" included among those that go on, and a refused turn changes nothing |
| UnifiedWorkflow.RecordFacts | backend/app/services/unified_workflow.py:197-229 | storing an answer appends the assistant message, sets the status the next action gives and touches no other session |
| UnifiedWorkflow.ReplyFacts | backend/app/services/unified_workflow.py:142-244 | a turn past the user message either fails with nothing more stored or stores the classifier's answer |
| UnifiedWorkflow.DismissalStoresOnlyUserMessage | backend/app/services/unified_workflow.py:94-118 | a dismissal stores only the user message with the text as sent, after marking the answered form consumed |
| UnifiedWorkflow.ConsumeKeepsOthers | backend/app/services/unified_workflow.py:371-387 | only the named message's metadata changes, where `form_consumed` becomes true and every other key is kept |
| UnifiedWorkflow.TurnKeepsHistory | backend/app/services/unified_workflow.py:74-244 | a turn that goes on keeps the history except the consumed flag, stores the user message and at most the reply, leaves other sessions alone and adds at most one ledger row |
| UnifiedWorkflow.ReplyAfterUser | backend/app/services/unified_workflow.py:126-244 | the reply step keeps the history and the user message |
| UnifiedWorkflow.ReplyKeepsHistory | backend/app/services/unified_workflow.py:142-244 | past the user message a turn appends at most the reply, touches only its own session and adds at most one row |
| UnifiedWorkflow.StatusFollowsNextAction | backend/app/services/unified_workflow.py:221-229 | close_resolved resolves, escalate escalates, anything else keeps the status; a refused or failed turn keeps it too |
| UnifiedWorkflow.TrackedRowsFacts | backend/app/services/unified_workflow.py:332-349 | tracking adds at most one row, for the session, naming a stored solution with the slug |
| UnifiedWorkflow.TrackingRepeats | backend/app/services/unified_workflow.py:332-349 | tracking the same solution twice stores it twice: nothing checks the ledger first |
| UnifiedWorkflow.AnswerFollowsDecision | backend/app/services/unified_workflow.py:192-207 | the answer has a yes/no form exactly for the three form actions, at most one suggested action, none when closing or escalating, and the decision's intent, action and reasoning in its metadata |
| UnifiedWorkflow.AttachmentMimesSupported | backend/app/services/unified_workflow.py:272-285 | every attachment is an image entry with the image's data and a supported mime |
| UsageMetrics.FirstDictDump | backend/app/services/utils/usage_metrics.py:54-64 | a non-empty result is a dict one of the dump methods returned |
| UsageMetrics.FirstDictDumpIsFirst | backend/app/services/utils/usage_metrics.py:54-63 | the first dump that returns a dict wins |
| UsageMetrics.TruncateReal | backend/app/services/utils/usage_metrics.py:25-27 | `int` of a float truncates toward zero |
| UsageMetrics.TokenCount | backend/app/services/utils/usage_metrics.py:25-27 | a falsy count is 0 and an integer is kept |
| UsageMetrics.PrefixMatch | backend/app/services/utils/usage_metrics.py:97-100 | the first pricing key that case-insensitively starts the model name, and none before it does |
| UsageMetrics.EntryFor | backend/app/services/utils/usage_metrics.py:82 | the pricing entry of a key, present exactly when the key is in the table |
| UsageMetrics.ComputeUsageCost | backend/app/services/utils/usage_metrics.py:67-89 | unpriced exactly for an empty table or no usable key; otherwise each part is its token count times its rate per million tokens from the key's entry, the total is their sum, and the key is returned |
| UsageMetrics.TokenCost | backend/app/services/utils/usage_metrics.py:86-87 | the cost is tokens times rate per million, zero for a zero rate, and never negative for non-negative inputs |
| UsageMetrics.MatchPricingKey | backend/app/services/utils/usage_metrics.py:92-101 | a key found is a key of the pricing table |
| UsageMetrics.ModelName | backend/app/services/utils/usage_metrics.py:24 | the response's model when truthy comes first |
| UsageMetrics.NoUsageData | backend/app/services/utils/usage_metrics.py:20-22 | a response without usage data gives no details |
| UsageMetrics.ExtractedDetails | backend/app/services/utils/usage_metrics.py:12-46 | the model falls back from the response to the payload to the default, the total defaults to input plus output, and the costs are those of the pricing table |
| UsageMetrics.MatchPricingKeyFacts | backend/app/services/utils/usage_metrics.py:92-101 | the key found is the name itself when listed, else the first case-insensitive prefix; none when no key fits |
| UsageMetrics.FirstPrefixNotLongest | backend/app/services/utils/usage_metrics.py:98-100 | the first matching prefix wins even when a later key is a longer one |
| UsageMetrics.PricingExample | backend/app/services/utils/usage_metrics.py:82-89 | rates are per million tokens |
| UsageMetrics.CostsAreNonNegative | backend/app/services/utils/usage_metrics.py:82-89 | non-negative rates give non-negative costs |
| UsageMetrics.EmbedUsageKeepsOthers | backend/app/services/utils/usage_metrics.py:104-118 | embedding sets "usage" to the record and keeps every other key |

## Left out

- Language-model calls and prompt wording are not part of this model. This covers `_invoke_openai`, `_build_instructions`, `_generate_summary`, `_extract_text`, `ResponseGenerationService.generate`, `services/openai_service.py` and the executor plumbing.
  - The classifier, generator and vision replies are parameters, and so is the prompt content where a decision depends on it.
  - `_log_prompt_preview` and all logging are left out.
- `json.loads`, `json.dumps`, `float(str)`, `base64.b64decode`, UUID parsing and UUID text are oracles.
  - Each is a function parameter, with `None` for the exception it raises.
  - `random.random()` and `uuid4` are inputs as well.
- The ORM repositories and their SQL are left out. Stores are in-memory `map`/`seq` fields.
  - The order of an `ORDER BY created_at` listing is the order of storage.
  - `list_by_cause` orders by `step_order`, then `title` (`Listing`). Titles compare by code point, a proper prefix first; the database collation is left out. Rows equal in both keys keep their table order, one of the orders the query may return.
  - Foreign-key and NOT NULL constraints are not modelled.
  - Timestamps are a `now` parameter in the form repository; elsewhere they are not modelled.
- Image analysis inside the three orchestrators is not modelled: `_maybe_analyze_images` and `UnifiedWorkflowService._analyze_images`.
  - The services swallow its failures and it writes no chat message.
  - The analysis service itself is modelled in `ImageAnalysis`.
- Usage recording is not modelled: `AssistantWorkflowService._record_usage` and `UnifiedWorkflowService._log_usage`.
  - `UnifiedClassifier.classify` sets `result.usage` from `extract_usage_details` of the model response (backend/app/services/unified_classifier.py:127-133). The model response is a parameter, so `UnifiedClassifier.ClassificationResult` has no usage field.
  - They write rows to the usage repository, whose SQL is out, and their failures are swallowed.
  - The computation they use is `UsageMetrics`.
- `list_sessions` and the orchestrators' own `get_session_history` are read-only listings.
  - They are the same lookup as `SessionManager.SessionManagerService.GetSessionHistory`, which is modelled.
  - `list_sessions` (`list_recent`) is left out.
- `AssistantService._maybe_lookup_knowledge`: the knowledge tool is a search parameter that returns the validated hits. Its failure and skipped malformed hits are folded into that parameter.
- `AssistantService._open_ticket`: the ticket tool is a parameter, with `None` for a failed or missing ticket.
- Python strings are simplified.
  - `str.strip` and `str.isspace` use Python's full whitespace set (`Text.IsSpace`).
  - `str.lower` and `str.casefold` change only the ASCII letters `A`-`Z`; other Unicode case mappings are left out.
  - `repr` string escapes are not modelled.
- Numbers are simplified.
  - Costs, confidences and similarities are exact reals, not IEEE floats.
  - The text a float prints as is a parameter.
- The services have no per-session locking, so no concurrency is modelled.
- The `/chat` prototype's troubleshooting map and intent detector are parameters.
  - Loading the map from its JSON file is left out, as is the `ChromaService` constructor.
  - HTTP status codes other than the 404 for an unknown session are left out.
- Answers and plans are values. Where a helper mutates an answer, plan or classification in place, the model returns the updated record.
  - These objects are local to one turn, so no aliasing is lost.
  - `follow_up_type` and `follow_up_reason` are fields of the answer record, although `AssistantAnswer` does not declare them.
- Some imports and call arguments have no effect on decisions and are abstracted away.
  - The DTO names that `assistant_workflow_service.py` imports but `backend/app/data/DTO/__init__.py` does not export.
  - The `knowledge_hits` argument passed to `from_answer`.
  - `settings.openai_pricing`: the pricing table is a parameter.
- HTTP routers, dependency wiring, configuration, the Streamlit UI, i18n, Redis caching and the mock tools under `backend/app/tools/` are not part of this model.
- The read-side metrics aggregation is not part of this model: `metrics_service.py` and `model_usage_repository.py`.

## Findings

| source | as written | input that shows it | evidently intended | confidence | as-written member | corrected member |
|---|---|---|---|---|---|---|
| backend/app/services/assistant_workflow_service.py:472 | `_attach_follow_up_forms` calls `build_escalation_form`, `build_resolution_form` and `build_feedback_form` on the feedback-flow service. That service has no public `build_*` method: its form builders are the private `_build_feedback_form` and `_build_resolution_form` (backend/app/services/feedback_flow_service.py:89, 107). So each call raises `AttributeError`. | A turn whose classification escalates, with no declared follow-up type, no form on the answer and no declined escalation | Attach the escalation, resolution or check-in form | not executed | AssistantWorkflow.AsWrittenEscalationRaises | AssistantWorkflow.IntendedCatalogComplete, AssistantWorkflow.CompleteCatalogNeverRaises |
| backend/app/services/troubleshooting_import_service.py:136 | `_sync_solutions` lists a cause's existing solutions with `list_by_cause`, whose `limit` defaults to 10 (backend/app/data/repositories/problem_solution_repository.py:17). Solutions past the tenth are invisible to the sync. | A cause with 11 stored solutions, re-imported with the eleventh solution's slug | Every existing solution of the cause is matched by slug: re-import updates in place, creates no duplicate, and deletes only stale rows | not executed | CatalogImport.AsWrittenSyncDuplicates | CatalogImport.SyncReusesExisting |
