/**
 * The conversation tables the services read and write: sessions keyed by id
 * and the append-only list of messages. The ORM repositories
 * (`ConversationSessionRepository`, `ConversationMessageRepository`) become
 * one in-memory store; a message's id is its position in the list.
 */
module Store {
  import opened Wrappers
  import opened Json

  type Uuid = nat

  datatype Role = UserRole | AssistantRole | SystemRole | ToolRole

  datatype Message = Message(id: Uuid, sessionId: Uuid, role: Role, content: string, metadata: Dict)

  /** A conversation session row; `updatedAt` is the clock value of the last write. */
  datatype Session = Session(
    status: string,
    updatedAt: nat,
    feedbackRating: Option<int>,
    feedbackText: Option<string>)

  const InProgress := "in_progress"

  class ConversationStore {
    var sessions: map<Uuid, Session>
    var messages: seq<Message>

    /** Every message's id is its position, so ids are unique. */
    ghost predicate Valid()
      reads this
    {
      IdsArePositions(messages)
    }

    constructor ()
      ensures Valid() && sessions == map[] && messages == []
    {
      sessions := map[];
      messages := [];
    }

    /** `get_by_id` on messages. */
    function GetMessage(id: Uuid): (r: Option<Message>)
      reads this
      requires Valid()
      ensures r.Some? <==> id < |messages|
      ensures r.Some? ==> r.value.id == id && r.value in messages
    {
      MessageAt(messages, id)
    }

    /** `list_by_session`: the session's messages in creation order. */
    function SessionMessages(sessionId: Uuid): seq<Message>
      reads this
    {
      MessagesOf(messages, sessionId)
    }

    /** Creates a session in "in_progress". */
    method CreateSession(id: Uuid, now: nat)
      modifies this
      ensures sessions == old(sessions)[id := Session(InProgress, now, None, None)]
      ensures messages == old(messages)
    {
      sessions := sessions[id := Session(InProgress, now, None, None)];
    }

    /** Appends a message; the list only ever grows at its end. */
    method AddMessage(sessionId: Uuid, role: Role, content: string, metadata: Dict) returns (id: Uuid)
      requires Valid()
      modifies this
      ensures Valid()
      ensures id == |old(messages)|
      ensures messages == old(messages) + [Message(id, sessionId, role, content, metadata)]
      ensures sessions == old(sessions)
    {
      id := |messages|;
      messages := messages + [Message(id, sessionId, role, content, metadata)];
    }

    /** Replaces one message's metadata and nothing else. */
    method UpdateMessageMetadata(id: Uuid, metadata: Dict)
      requires Valid() && id < |messages|
      modifies this
      ensures Valid()
      ensures messages == old(messages)[id := old(messages)[id].(metadata := metadata)]
      ensures sessions == old(sessions)
    {
      messages := messages[id := messages[id].(metadata := metadata)];
    }

    /** `touch`: only `updatedAt` changes; an unknown session is left alone. */
    method Touch(sessionId: Uuid, now: nat)
      modifies this
      ensures sessions == if sessionId in old(sessions)
                          then old(sessions)[sessionId := old(sessions)[sessionId].(updatedAt := now)]
                          else old(sessions)
      ensures messages == old(messages)
    {
      if sessionId in sessions {
        sessions := sessions[sessionId := sessions[sessionId].(updatedAt := now)];
      }
    }

    /** `set_status`: the status and `updatedAt` change; an unknown session is left alone. */
    method SetStatus(sessionId: Uuid, status: string, now: nat)
      modifies this
      ensures sessions == if sessionId in old(sessions)
                          then old(sessions)[sessionId := old(sessions)[sessionId].(status := status, updatedAt := now)]
                          else old(sessions)
      ensures messages == old(messages)
    {
      if sessionId in sessions {
        sessions := sessions[sessionId := sessions[sessionId].(status := status, updatedAt := now)];
      }
    }

    /** Writes both feedback columns of a known session; nothing else changes. */
    method SetFeedback(sessionId: Uuid, rating: Option<int>, comment: Option<string>)
      requires sessionId in sessions
      modifies this
      ensures sessions == old(sessions)[sessionId := old(sessions)[sessionId].(feedbackRating := rating, feedbackText := comment)]
      ensures messages == old(messages)
    {
      sessions := sessions[sessionId := sessions[sessionId].(feedbackRating := rating, feedbackText := comment)];
    }
  }

  /** The sessions once `_get_or_create_session` has run: a missing session is created in progress. */
  function Admit(sessions: map<Uuid, Session>, sessionId: Uuid, now: nat): (r: map<Uuid, Session>)
    ensures sessionId in r && r.Keys == sessions.Keys + {sessionId}
    ensures forall id :: id in sessions ==> r[id] == sessions[id]
    ensures sessionId !in sessions ==> r[sessionId] == Session(InProgress, now, None, None)
  {
    if sessionId in sessions then sessions else sessions[sessionId := Session(InProgress, now, None, None)]
  }

  /** The message with id `id` in a list whose ids are the positions. */
  function MessageAt(ms: seq<Message>, id: Uuid): (r: Option<Message>)
    ensures r.Some? <==> id < |ms|
    ensures r.Some? ==> r.value == ms[id]
  {
    if id < |ms| then Some(ms[id]) else None
  }

  /** The messages of one session, keeping their order. */
  function MessagesOf(ms: seq<Message>, sessionId: Uuid): (r: seq<Message>)
    ensures |r| <= |ms|
    ensures forall m :: m in r <==> m in ms && m.sessionId == sessionId
  {
    if ms == [] then []
    else
      var rest := MessagesOf(ms[1..], sessionId);
      assert forall m :: m in ms <==> m == ms[0] || m in ms[1..];
      if ms[0].sessionId == sessionId then [ms[0]] + rest else rest
  }

  /**
   * `list_recent_by_role`: the newest `limit` messages of one session with
   * the given role, newest first.
   */
  function RecentByRole(ms: seq<Message>, sessionId: Uuid, role: Role, limit: nat): (r: seq<Message>)
    ensures |r| <= limit
    ensures forall m :: m in r ==> m in ms && m.sessionId == sessionId && m.role == role
    decreases |ms|
  {
    if ms == [] || limit == 0 then []
    else
      var last := ms[|ms| - 1];
      if last.sessionId == sessionId && last.role == role
      then [last] + RecentByRole(ms[..|ms| - 1], sessionId, role, limit - 1)
      else RecentByRole(ms[..|ms| - 1], sessionId, role, limit)
  }

  /** Ids that are positions rise along the list. */
  lemma PositionsRise(ms: seq<Message>)
    requires IdsArePositions(ms)
    ensures IdsRising(ms)
  {
  }

  /** Message ids rise along the list, as they do when ids are positions. */
  predicate IdsRising(ms: seq<Message>) {
    forall i, j :: 0 <= i < j < |ms| ==> ms[i].id < ms[j].id
  }

  /** A session's messages come out oldest first. */
  lemma {:induction false} MessagesOfInOrder(ms: seq<Message>, sessionId: Uuid)
    requires IdsRising(ms)
    ensures IdsRising(MessagesOf(ms, sessionId))
    decreases |ms|
  {
    if ms != [] {
      var rest := MessagesOf(ms[1..], sessionId);
      assert IdsRising(ms[1..]) by {
        forall i, j | 0 <= i < j < |ms| - 1 ensures ms[1..][i].id < ms[1..][j].id {
          assert ms[1..][i] == ms[i + 1] && ms[1..][j] == ms[j + 1];
        }
      }
      MessagesOfInOrder(ms[1..], sessionId);
      assert forall m :: m in ms[1..] ==> ms[0].id < m.id;
    }
  }

  /** Every message's id is its position, as in the store. */
  predicate IdsArePositions(ms: seq<Message>) {
    forall i :: 0 <= i < |ms| ==> ms[i].id == i
  }

  /** Message ids fall along the list: newest first. */
  predicate IdsFalling(ms: seq<Message>) {
    forall i, j :: 0 <= i < j < |ms| ==> ms[i].id > ms[j].id
  }

  /** Every message `list_recent_by_role` takes has an id below a bound of all ids. */
  lemma {:induction false} RecentBelow(ms: seq<Message>, sessionId: Uuid, role: Role, limit: nat, bound: int)
    requires forall k :: 0 <= k < |ms| ==> ms[k].id < bound
    ensures forall i :: 0 <= i < |RecentByRole(ms, sessionId, role, limit)| ==> RecentByRole(ms, sessionId, role, limit)[i].id < bound
    decreases |ms|
  {
    if ms != [] && limit != 0 {
      var n := |ms| - 1;
      if ms[n].sessionId == sessionId && ms[n].role == role {
        RecentBelow(ms[..n], sessionId, role, limit - 1, bound);
      } else {
        RecentBelow(ms[..n], sessionId, role, limit, bound);
      }
    }
  }

  /** Every message `list_recent_by_role` takes from a list is older than a message added after it. */
  lemma RecentBelowLast(ms: seq<Message>, sessionId: Uuid, role: Role, limit: nat)
    requires IdsArePositions(ms)
    ensures forall i :: 0 <= i < |RecentByRole(ms, sessionId, role, limit)| ==> RecentByRole(ms, sessionId, role, limit)[i].id < |ms|
  {
    RecentBelow(ms, sessionId, role, limit, |ms|);
  }

  /** A message newer than every message of a newest-first list can go in front of it. */
  lemma ConsFalling(x: Message, rest: seq<Message>)
    requires IdsFalling(rest)
    requires forall i :: 0 <= i < |rest| ==> rest[i].id < x.id
    ensures IdsFalling([x] + rest)
  {
    var r := [x] + rest;
    forall i, j | 0 <= i < j < |r| ensures r[i].id > r[j].id {
      assert r[j] == rest[j - 1];
      if i > 0 {
        assert r[i] == rest[i - 1];
      }
    }
  }

  /** A message older than `x` and than every message of `rest` is older than every message of `[x] + rest`. */
  lemma ConsAbove(m: Message, x: Message, rest: seq<Message>)
    requires m.id < x.id
    requires forall i :: 0 <= i < |rest| ==> m.id < rest[i].id
    ensures forall i :: 0 <= i < |[x] + rest| ==> m.id < ([x] + rest)[i].id
  {
    forall i | 0 <= i < |[x] + rest| ensures m.id < ([x] + rest)[i].id {
      if i > 0 {
        assert ([x] + rest)[i] == rest[i - 1];
      }
    }
  }

  /** `list_recent_by_role` returns newest first. */
  lemma {:induction false} RecentByRoleNewestFirst(ms: seq<Message>, sessionId: Uuid, role: Role, limit: nat)
    requires IdsArePositions(ms)
    ensures IdsFalling(RecentByRole(ms, sessionId, role, limit))
    decreases |ms|
  {
    if ms != [] && limit != 0 {
      var n := |ms| - 1;
      var last := ms[n];
      var prefix := ms[..n];
      assert IdsArePositions(prefix);
      if last.sessionId == sessionId && last.role == role {
        var rest := RecentByRole(prefix, sessionId, role, limit - 1);
        RecentByRoleNewestFirst(prefix, sessionId, role, limit - 1);
        RecentBelowLast(prefix, sessionId, role, limit - 1);
        ConsFalling(last, rest);
      } else {
        RecentByRoleNewestFirst(prefix, sessionId, role, limit);
      }
    }
  }

  /**
   * Every message of the session and role that `r` leaves out is older than
   * all of `r`, which then holds `limit` messages.
   */
  predicate TakesNewest(ms: seq<Message>, r: seq<Message>, sessionId: Uuid, role: Role, limit: nat) {
    forall k :: 0 <= k < |ms| && ms[k].sessionId == sessionId && ms[k].role == role && ms[k] !in r ==>
      |r| == limit && forall i :: 0 <= i < |r| ==> ms[k].id < r[i].id
  }

  /** Taking the last message, when it matches, keeps the newest messages taken. */
  lemma TakesNewestMatch(ms: seq<Message>, rest: seq<Message>, sessionId: Uuid, role: Role, limit: nat)
    requires IdsArePositions(ms) && ms != [] && limit != 0
    requires TakesNewest(ms[..|ms| - 1], rest, sessionId, role, limit - 1)
    ensures TakesNewest(ms, [ms[|ms| - 1]] + rest, sessionId, role, limit)
  {
    var n := |ms| - 1;
    var last := ms[n];
    var r := [last] + rest;
    assert r[0] == last && r[1..] == rest;
    forall k | 0 <= k < |ms| && ms[k].sessionId == sessionId && ms[k].role == role && ms[k] !in r
      ensures |r| == limit && forall i :: 0 <= i < |r| ==> ms[k].id < r[i].id
    {
      assert k < n && ms[..n][k] == ms[k];
      assert ms[k] !in rest;
      ConsAbove(ms[k], last, rest);
    }
  }

  /** Passing over a last message that does not match keeps the newest messages taken. */
  lemma TakesNewestSkip(ms: seq<Message>, r: seq<Message>, sessionId: Uuid, role: Role, limit: nat)
    requires ms != [] && !(ms[|ms| - 1].sessionId == sessionId && ms[|ms| - 1].role == role)
    requires TakesNewest(ms[..|ms| - 1], r, sessionId, role, limit)
    ensures TakesNewest(ms, r, sessionId, role, limit)
  {
    var n := |ms| - 1;
    forall k | 0 <= k < |ms| && ms[k].sessionId == sessionId && ms[k].role == role
      ensures k < n && ms[..n][k] == ms[k]
    {
    }
  }

  /**
   * A message of that session and role is left out of `list_recent_by_role`
   * only when `limit` messages were taken, all of them newer than it.
   */
  lemma {:induction false} RecentByRoleTakesNewest(ms: seq<Message>, sessionId: Uuid, role: Role, limit: nat)
    requires IdsArePositions(ms)
    ensures TakesNewest(ms, RecentByRole(ms, sessionId, role, limit), sessionId, role, limit)
    decreases |ms|
  {
    if ms != [] && limit != 0 {
      var n := |ms| - 1;
      var prefix := ms[..n];
      assert IdsArePositions(prefix);
      if ms[n].sessionId == sessionId && ms[n].role == role {
        RecentByRoleTakesNewest(prefix, sessionId, role, limit - 1);
        TakesNewestMatch(ms, RecentByRole(prefix, sessionId, role, limit - 1), sessionId, role, limit);
      } else {
        RecentByRoleTakesNewest(prefix, sessionId, role, limit);
        TakesNewestSkip(ms, RecentByRole(prefix, sessionId, role, limit), sessionId, role, limit);
      }
    }
  }
}
