/**
 * `SessionManagerService`: session history and end-of-session feedback over
 * the conversation store. Unlike the workflow service's own feedback entry
 * point, this one refuses only closed sessions.
 */
module SessionManager {
  import opened Wrappers
  import opened Store

  const Closed := "closed"

  /** How `submit_feedback` ends: a `ValueError`, a `PermissionError`, or the feedback written. */
  datatype FeedbackOutcome = SessionNotFound | SessionClosed | FeedbackSaved

  /** The sessions and outcome `submit_feedback` leaves. */
  datatype FeedbackResult = FeedbackResult(outcome: FeedbackOutcome, sessions: map<Uuid, Session>)

  /**
   * `submit_feedback` on the session table: an unknown session and a closed
   * session change nothing; any other session, whatever its status, gets
   * both feedback columns overwritten (a missing comment clears the text)
   * and keeps its status. The rating is taken as given.
   */
  function FeedbackSpec(sessions: map<Uuid, Session>, sessionId: Uuid, rating: int, comment: Option<string>): (r: FeedbackResult)
    ensures r.outcome == SessionNotFound <==> sessionId !in sessions
    ensures r.outcome == SessionClosed <==> sessionId in sessions && sessions[sessionId].status == Closed
    ensures r.outcome != FeedbackSaved ==> r.sessions == sessions
    ensures r.sessions.Keys == sessions.Keys
    ensures forall id :: id in sessions && id != sessionId ==> r.sessions[id] == sessions[id]
    ensures r.outcome == FeedbackSaved ==>
              && r.sessions[sessionId].feedbackRating == Some(rating)
              && r.sessions[sessionId].feedbackText == comment
              && r.sessions[sessionId].status == sessions[sessionId].status
              && r.sessions[sessionId].updatedAt == sessions[sessionId].updatedAt
  {
    if sessionId !in sessions then FeedbackResult(SessionNotFound, sessions)
    else if sessions[sessionId].status == Closed then FeedbackResult(SessionClosed, sessions)
    else
      var s := sessions[sessionId];
      FeedbackResult(FeedbackSaved, sessions[sessionId := s.(feedbackRating := Some(rating), feedbackText := comment)])
  }

  /** `get_session_history`'s result: the session row and its first `limit` messages in order. */
  datatype History = History(session: Session, messages: seq<Message>)

  /** The history of a session: `None` (a `ValueError`) for an unknown one. */
  function HistorySpec(sessions: map<Uuid, Session>, messages: seq<Message>, sessionId: Uuid, limit: nat): (r: Option<History>)
    ensures r.None? <==> sessionId !in sessions
    ensures r.Some? ==> r.value.session == sessions[sessionId] && |r.value.messages| <= limit
    ensures r.Some? ==> forall m :: m in r.value.messages ==> m in messages && m.sessionId == sessionId
  {
    if sessionId !in sessions then None
    else
      var all := MessagesOf(messages, sessionId);
      var shown := if |all| <= limit then all else all[..limit];
      assert forall m :: m in shown ==> m in all;
      Some(History(sessions[sessionId], shown))
  }

  class SessionManagerService {
    const store: ConversationStore

    constructor (store: ConversationStore)
      ensures this.store == store
    {
      this.store := store;
    }

    /** `submit_feedback`: the store's sessions become those of `FeedbackSpec`; messages are untouched. */
    method SubmitFeedback(sessionId: Uuid, rating: int, comment: Option<string>) returns (outcome: FeedbackOutcome)
      modifies store
      ensures FeedbackResult(outcome, store.sessions) == FeedbackSpec(old(store.sessions), sessionId, rating, comment)
      ensures store.messages == old(store.messages)
    {
      if sessionId !in store.sessions {
        return SessionNotFound;
      }
      if store.sessions[sessionId].status == Closed {
        return SessionClosed;
      }
      store.SetFeedback(sessionId, Some(rating), comment);
      outcome := FeedbackSaved;
    }

    /** `get_session_history`: reads the store, hidden messages included, and changes nothing. */
    method GetSessionHistory(sessionId: Uuid, limit: nat) returns (r: Option<History>)
      ensures r == HistorySpec(store.sessions, store.messages, sessionId, limit)
    {
      if sessionId !in store.sessions {
        return None;
      }
      var all := store.SessionMessages(sessionId);
      var shown := if |all| <= limit then all else all[..limit];
      r := Some(History(store.sessions[sessionId], shown));
    }
  }

  // ----- properties -----

  /** Feedback is an overwrite: a second submission replaces the first entirely. */
  lemma SecondFeedbackWins(sessions: map<Uuid, Session>, sessionId: Uuid,
                           rating1: int, comment1: Option<string>, rating2: int, comment2: Option<string>)
    ensures var first := FeedbackSpec(sessions, sessionId, rating1, comment1);
            FeedbackSpec(first.sessions, sessionId, rating2, comment2) == FeedbackSpec(sessions, sessionId, rating2, comment2)
  {
    var first := FeedbackSpec(sessions, sessionId, rating1, comment1);
    if first.outcome == FeedbackSaved {
      assert first.sessions[sessionId].status == sessions[sessionId].status;
      assert first.sessions[sessionId := first.sessions[sessionId].(feedbackRating := Some(rating2), feedbackText := comment2)]
          == sessions[sessionId := sessions[sessionId].(feedbackRating := Some(rating2), feedbackText := comment2)];
    }
  }

  /** Feedback never moves a session into or out of "closed", so a refused session stays refused. */
  lemma FeedbackKeepsStatuses(sessions: map<Uuid, Session>, sessionId: Uuid, rating: int, comment: Option<string>, id: Uuid)
    requires id in sessions
    ensures FeedbackSpec(sessions, sessionId, rating, comment).sessions[id].status == sessions[id].status
  {
  }

  /** A history lists the session's messages in store order, up to the limit. */
  lemma {:induction false} HistoryIsPrefix(sessions: map<Uuid, Session>, messages: seq<Message>, sessionId: Uuid, limit: nat)
    requires sessionId in sessions
    ensures var h := HistorySpec(sessions, messages, sessionId, limit).value.messages;
            var all := MessagesOf(messages, sessionId);
            h == all[..if |all| <= limit then |all| else limit]
  {
    var all := MessagesOf(messages, sessionId);
    assert all[..|all|] == all;
  }
}
