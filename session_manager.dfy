/*
 * Multi-turn session storage (`sessions/session_manager.py`): each session
 * keeps its conversation, a context dict and its last access time; the
 * manager keys sessions by id and drops the ones idle for longer than the
 * timeout.  The clock is a parameter of every operation that reads it.
 */
module Sessions {
  import opened Base
  import opened Json
  import opened Models

  const MAX_MESSAGES: nat := 50
  /** How many of the newest messages survive a trim: `min(10, max_messages // 2)`. */
  const PRESERVED_COUNT: nat := Min(10, MAX_MESSAGES / 2) as nat
  const MICROS_PER_MINUTE: int := 60_000_000

  /** Number of user-role messages. */
  function CountUsers(ms: seq<ChatMessage>): (n: nat)
    ensures n <= |ms|
  {
    if ms == [] then 0 else CountUsers(ms[..|ms| - 1]) + (if ms[|ms| - 1].role == User then 1 else 0)
  }

  /** The history `SessionData.add_message` leaves: the message is appended and,
      when the history then exceeds the maximum and holds more than one user
      message, only the first message and the newest ones are kept. */
  function AfterAdd(ms: seq<ChatMessage>, m: ChatMessage): seq<ChatMessage> {
    var s := ms + [m];
    if |s| > MAX_MESSAGES && CountUsers(s) > 1 then s[..1] + s[|s| - PRESERVED_COUNT..] else s
  }

  /** What `add_message` keeps: the new message is always last; a trim keeps
      the very first message and the ten newest, and happens exactly when the
      history would exceed fifty messages with more than one user message. */
  lemma AfterAddKeeps(ms: seq<ChatMessage>, m: ChatMessage)
    ensures var r := AfterAdd(ms, m);
      r[|r| - 1] == m
      && (|ms| + 1 > MAX_MESSAGES && CountUsers(ms + [m]) > 1 ==>
            |r| == 11 && r[0] == (ms + [m])[0] && r[1..] == (ms + [m])[|ms| + 1 - 10..])
      && (|ms| + 1 <= MAX_MESSAGES || CountUsers(ms + [m]) <= 1 ==> r == ms + [m])
  {
  }

  /** A history is within bounds when it has at most fifty messages, or at most one user message. */
  predicate WithinBound(ms: seq<ChatMessage>) {
    |ms| <= MAX_MESSAGES || CountUsers(ms) <= 1
  }

  /** `add_message` keeps a history within bounds. */
  lemma {:induction false} AfterAddWithinBound(ms: seq<ChatMessage>, m: ChatMessage)
    requires WithinBound(ms)
    ensures WithinBound(AfterAdd(ms, m))
  {
    var s := ms + [m];
    assert s[..|s| - 1] == ms;
    if |s| > MAX_MESSAGES && CountUsers(s) <= 1 {
      assert AfterAdd(ms, m) == s;
    }
  }

  /** The fifty-message cap does not hold by itself: with no user message the
      history grows past it. */
  lemma AssistantOnlyHistoryGrows(ms: seq<ChatMessage>, m: ChatMessage)
    requires |ms| == MAX_MESSAGES && CountUsers(ms) == 0 && m.role == Assistant
    ensures |AfterAdd(ms, m)| == MAX_MESSAGES + 1
  {
    var s := ms + [m];
    assert s[..|s| - 1] == ms;
  }

  /** One entry of `get_conversation_context`. */
  function ContextEntry(m: ChatMessage): Dict {
    [("role", JStr(Lower(RoleValue(m.role)))),
     ("content", JStr(m.content)),
     ("timestamp", JStr(m.timestamp.iso))]
  }

  /** `get_conversation_context(limit)`: the newest `limit` messages, or all of them when `limit` is 0. */
  function ConversationContext(ms: seq<ChatMessage>, limit: int): (r: seq<Dict>)
    ensures |r| <= |ms|
    ensures limit == 0 ==> |r| == |ms|
    ensures limit > 0 ==> |r| == Min(limit, |ms|)
    ensures forall i :: 0 <= i < |r| ==> r[i] == ContextEntry(ms[|ms| - |r| + i])
  {
    var recent := if limit != 0 then SliceFrom(ms, -limit) else ms;
    seq(|recent|, i requires 0 <= i < |recent| => ContextEntry(recent[i]))
  }

  /** The role of a context entry is the role's value, which is already lower case. */
  lemma ContextEntryRole(m: ChatMessage)
    ensures Get(ContextEntry(m), "role") == Some(JStr(RoleValue(m.role)))
  {
    var v := RoleValue(m.role);
    assert Lower(v) == v;
  }

  class SessionData {
    const sessionId: string
    var messages: seq<ChatMessage>
    var context: Dict
    const createdAt: Instant
    var lastAccessed: Instant

    constructor (id: string, now: Instant)
      ensures sessionId == id && messages == [] && context == []
      ensures createdAt == now && lastAccessed == now
    {
      sessionId := id;
      messages := [];
      context := [];
      createdAt := now;
      lastAccessed := now;
    }

    /** `add_message`. */
    method AddMessage(m: ChatMessage, now: Instant)
      modifies this
      ensures messages == AfterAdd(old(messages), m)
      ensures lastAccessed == now
      ensures context == old(context)
    {
      messages := messages + [m];
      lastAccessed := now;
      if |messages| > MAX_MESSAGES {
        if CountUsers(messages) > 1 {
          messages := messages[..1] + messages[|messages| - PRESERVED_COUNT..];
        }
      }
    }

    /** `is_expired`: idle for strictly longer than the timeout. */
    predicate IsExpired(now: Instant, timeoutMinutes: int)
      reads this
    {
      now.micros - lastAccessed.micros > timeoutMinutes * MICROS_PER_MINUTE
    }
  }

  class SessionManager {
    var sessions: map<string, SessionData>
    const sessionTimeout: int
    const cleanupInterval: int

    /** Every session is stored under its own id. */
    ghost predicate Valid()
      reads this
    {
      forall id :: id in sessions ==> sessions[id].sessionId == id
    }

    constructor (sessionTimeoutMinutes: int, cleanupIntervalMinutes: int)
      ensures Valid() && sessions == map[]
      ensures sessionTimeout == sessionTimeoutMinutes && cleanupInterval == cleanupIntervalMinutes
    {
      sessions := map[];
      sessionTimeout := sessionTimeoutMinutes;
      cleanupInterval := cleanupIntervalMinutes;
    }

    /** The conversation stored for `id`, empty when there is no such session. */
    function HistoryOf(id: string): seq<ChatMessage>
      reads this, sessions.Values
    {
      if id in sessions then sessions[id].messages else []
    }

    /** `create_or_get_session`: a new session for an unknown id; otherwise the
        stored one, with its access time refreshed. */
    method CreateOrGetSession(id: string, now: Instant) returns (s: SessionData)
      requires Valid()
      modifies this, if id in sessions then {sessions[id]} else {}
      ensures Valid()
      ensures sessions == old(sessions)[id := s] && s.sessionId == id
      ensures id in old(sessions) ==> s == old(sessions[id]) && s.messages == old(s.messages)
                                       && s.context == old(s.context)
      ensures id !in old(sessions) ==> fresh(s) && s.messages == [] && s.context == [] && s.createdAt == now
      ensures s.lastAccessed == now
    {
      if id !in sessions {
        s := new SessionData(id, now);
        sessions := sessions[id := s];
      } else {
        s := sessions[id];
        s.lastAccessed := now;
      }
    }

    /** `add_user_message`: appends a user message to the (possibly new) session and returns it. */
    method AddUserMessage(id: string, content: string, now: Instant) returns (m: ChatMessage)
      requires Valid()
      modifies this, if id in sessions then {sessions[id]} else {}
      ensures Valid()
      ensures m == ChatMessage(User, content, now, None)
      ensures id in sessions && sessions.Keys == old(sessions.Keys) + {id}
      ensures forall k :: k in old(sessions) && k != id ==> sessions[k] == old(sessions[k])
      ensures HistoryOf(id) == AfterAdd(old(HistoryOf(id)), m)
      ensures sessions[id].lastAccessed == now
    {
      var s := CreateOrGetSession(id, now);
      m := ChatMessage(User, content, now, None);
      s.AddMessage(m, now);
    }

    /** `add_assistant_message`: appends an assistant message to the (possibly new) session and returns it. */
    method AddAssistantMessage(id: string, content: string, metadata: Option<Dict>, now: Instant)
      returns (m: ChatMessage)
      requires Valid()
      modifies this, if id in sessions then {sessions[id]} else {}
      ensures Valid()
      ensures m == ChatMessage(Assistant, content, now, metadata)
      ensures id in sessions && sessions.Keys == old(sessions.Keys) + {id}
      ensures forall k :: k in old(sessions) && k != id ==> sessions[k] == old(sessions[k])
      ensures HistoryOf(id) == AfterAdd(old(HistoryOf(id)), m)
      ensures sessions[id].lastAccessed == now
    {
      var s := CreateOrGetSession(id, now);
      m := ChatMessage(Assistant, content, now, metadata);
      s.AddMessage(m, now);
    }

    /** `get_conversation_history`: the session's context entries, none for an unknown id. */
    function GetConversationHistory(id: string, limit: int): (r: seq<Dict>)
      reads this, sessions.Values
      ensures id !in sessions ==> r == []
      ensures id in sessions ==> r == ConversationContext(sessions[id].messages, limit)
    {
      if id !in sessions then [] else ConversationContext(sessions[id].messages, limit)
    }

    /** `update_session_context`: merges the updates into the (possibly new) session's context. */
    method UpdateSessionContext(id: string, updates: Dict, now: Instant)
      requires Valid()
      modifies this, if id in sessions then {sessions[id]} else {}
      ensures Valid()
      ensures id in sessions && sessions.Keys == old(sessions.Keys) + {id}
      ensures forall k :: k in old(sessions) && k != id ==> sessions[k] == old(sessions[k])
      ensures sessions[id].context == DictUpdate(if id in old(sessions) then old(sessions[id].context) else [], updates)
      ensures sessions[id].messages == old(HistoryOf(id))
      ensures sessions[id].lastAccessed == now
    {
      var s := CreateOrGetSession(id, now);
      s.context := DictUpdate(s.context, updates);
    }

    /** `get_session_context`: a copy of the context, empty for an unknown id. */
    function GetSessionContext(id: string): (r: Dict)
      reads this, sessions.Values
      ensures id !in sessions ==> r == []
      ensures id in sessions ==> r == sessions[id].context
    {
      if id in sessions then sessions[id].context else []
    }

    /** `get_session_stats`. */
    function GetSessionStats(id: string): (r: Option<Dict>)
      reads this, sessions.Values
      ensures r.None? <==> id !in sessions
      ensures r.Some? ==> Get(r.value, "message_count") == Some(JInt(|sessions[id].messages|))
    {
      if id !in sessions then None
      else
        var s := sessions[id];
        var ks := Keys(s.context);
        Some([("session_id", JStr(id)),
              ("message_count", JInt(|s.messages|)),
              ("created_at", JStr(s.createdAt.iso)),
              ("last_accessed", JStr(s.lastAccessed.iso)),
              ("context_keys", JArr(seq(|ks|, i requires 0 <= i < |ks| => JStr(ks[i]))))])
    }

    /** `delete_session`: true exactly when the session existed; it is gone afterwards. */
    method DeleteSession(id: string) returns (deleted: bool)
      requires Valid()
      modifies this
      ensures Valid()
      ensures deleted == (id in old(sessions))
      ensures sessions == old(sessions) - {id}
    {
      if id in sessions {
        sessions := sessions - {id};
        deleted := true;
      } else {
        deleted := false;
      }
    }

    /** `get_active_sessions_count`. */
    function GetActiveSessionsCount(): nat
      reads this
    {
      |sessions|
    }

    /** The ids of the sessions idle for longer than the manager's timeout. */
    function ExpiredIds(now: Instant): set<string>
      reads this, sessions.Values
    {
      set id | id in sessions && sessions[id].IsExpired(now, sessionTimeout)
    }

    /** `_cleanup_expired_sessions`: removes exactly the expired sessions. */
    method CleanupExpiredSessions(now: Instant)
      requires Valid()
      modifies this
      ensures Valid()
      ensures sessions == old(sessions) - old(ExpiredIds(now))
    {
      var expired := set id | id in sessions && sessions[id].IsExpired(now, sessionTimeout);
      var remaining := expired;
      ghost var start := sessions;
      while remaining != {}
        invariant remaining <= expired
        invariant sessions == start - (expired - remaining)
        decreases |remaining|
      {
        var id :| id in remaining;
        sessions := sessions - {id};
        remaining := remaining - {id};
      }
    }
  }
}
