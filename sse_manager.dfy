/*
 * Server-sent-event connections (`streaming/sse_manager.py`): each
 * connection owns an unbounded message queue and an active flag; the
 * manager tracks connections by id and by session, allows at most one live
 * connection per session (a reconnect supersedes the old one), caps the
 * number of connections, and sweeps out closed or hour-old connections.
 * Ids drawn from `uuid4` and the event-loop clock are parameters.
 */
module Sse {
  import opened Base
  import opened Models
  import opened StreamMessages

  /** Connections older than this many microseconds (one hour) are swept out. */
  const CONNECTION_TTL: int := 3600 * 1_000_000

  /** The state of one connection: its ids, the messages queued for the
      client (oldest first), whether it is active, and its creation time. */
  datatype Connection = Connection(
    connectionId: string,
    sessionId: string,
    queue: seq<StreamMessage>,
    isActive: bool,
    createdAt: int)

  /** A new connection: active, with nothing queued. */
  function Opened(connectionId: string, sessionId: string, loopTime: int): (c: Connection)
    ensures c.connectionId == connectionId && c.sessionId == sessionId && c.createdAt == loopTime
    ensures c.isActive && c.queue == []
  {
    Connection(connectionId, sessionId, [], true, loopTime)
  }

  /** `send_message`: an active connection queues the message and reports
      success; an inactive one is left alone and reports failure. */
  function Send(c: Connection, m: StreamMessage): (r: (Connection, bool))
    ensures r.1 <==> c.isActive
    ensures r.0.queue == (if c.isActive then c.queue + [m] else c.queue)
    ensures r.0.(queue := c.queue) == c
    ensures r.0.connectionId == c.connectionId && r.0.sessionId == c.sessionId
  {
    if c.isActive then (c.(queue := c.queue + [m]), true) else (c, false)
  }

  /** `close`: only the active flag changes. */
  function Closed(c: Connection): (r: Connection)
    ensures !r.isActive && r.(isActive := c.isActive) == c
  {
    c.(isActive := false)
  }

  /** The connection after each message of `ms` has been sent to it in turn. */
  function SendEvery(c: Connection, ms: seq<StreamMessage>): Connection
    decreases |ms|
  {
    if ms == [] then c else SendEvery(Send(c, ms[0]).0, ms[1..])
  }

  /** Once closed, a connection takes no more messages: whatever is sent
      afterwards leaves it exactly as it was. */
  lemma {:induction false} ClosedTakesNothing(c: Connection, ms: seq<StreamMessage>)
    ensures SendEvery(Closed(c), ms) == Closed(c)
    decreases |ms|
  {
    if ms != [] {
      ClosedTakesNothing(c, ms[1..]);
    }
  }

  /** An active connection queues exactly the messages sent to it, in order. */
  lemma {:induction false} ActiveQueuesAll(c: Connection, ms: seq<StreamMessage>)
    requires c.isActive
    ensures SendEvery(c, ms) == c.(queue := c.queue + ms)
    decreases |ms|
  {
    if ms != [] {
      var c' := Send(c, ms[0]).0;
      ActiveQueuesAll(c', ms[1..]);
      assert c.queue + [ms[0]] + ms[1..] == c.queue + ms;
    }
  }

  /** The object form of a connection, `SSEConnection`, whose methods update it in place. */
  class SseConnection {
    const connectionId: string
    const sessionId: string
    var queue: seq<StreamMessage>
    var isActive: bool
    const createdAt: int

    function View(): Connection
      reads this
    {
      Connection(connectionId, sessionId, queue, isActive, createdAt)
    }

    constructor (connectionId: string, sessionId: string, loopTime: int)
      ensures View() == Opened(connectionId, sessionId, loopTime)
    {
      this.connectionId := connectionId;
      this.sessionId := sessionId;
      queue := [];
      isActive := true;
      createdAt := loopTime;
    }

    method SendMessage(m: StreamMessage) returns (ok: bool)
      modifies this
      ensures (View(), ok) == Send(old(View()), m)
    {
      if !isActive {
        return false;
      }
      queue := queue + [m];
      ok := true;
    }

    method Close()
      modifies this
      ensures View() == Closed(old(View()))
    {
      isActive := false;
    }
  }

  /** What happens to a connection that the manager drops: it is sent the
      session-end message of its session (if still active) and closed. */
  function Retired(c: Connection, now: Instant): (r: Connection)
    ensures !r.isActive && r.connectionId == c.connectionId && r.sessionId == c.sessionId
    ensures r.queue == c.queue + (if c.isActive then [CreateSessionEndMessage(c.sessionId, now)] else [])
  {
    Closed(Send(c, CreateSessionEndMessage(c.sessionId, now)).0)
  }

  /** The final states of the connections among `ids` that the manager drops. */
  function RetiredAll(conns: map<string, Connection>, ids: set<string>, now: Instant): (r: map<string, Connection>)
    ensures r.Keys == ids * conns.Keys
  {
    map c | c in ids && c in conns :: Retired(conns[c], now)
  }

  /** Dropping one more connection adds its final state. */
  lemma RetiredAllStep(conns: map<string, Connection>, ids: set<string>, c: string, now: Instant)
    requires c in conns
    ensures RetiredAll(conns, ids + {c}, now) == RetiredAll(conns, ids, now)[c := Retired(conns[c], now)]
  {
  }

  /** Taking one more element out of the to-do part of `all`. */
  lemma MoveOne<T>(all: set<T>, todo: set<T>, x: T)
    requires x in todo && todo <= all
    ensures all - (todo - {x}) == (all - todo) + {x}
  {
  }

  lemma NothingLeft<T>(all: set<T>, todo: set<T>)
    requires todo == {}
    ensures all - todo == all
  {
  }

  /** Removing one more key from a map. */
  lemma RemoveOneMore<K, V>(m: map<K, V>, ids: set<K>, k: K)
    ensures m - (ids + {k}) == (m - ids) - {k}
  {
  }

  /**
   * Every connection is stored under its own id and tracked under its own
   * session; every session is tracked with exactly one id, that of a stored
   * connection of the session (so no two connections share a session).
   */
  ghost predicate Tracked(conns: map<string, Connection>, sessions: map<string, set<string>>) {
    (forall c :: c in conns ==> conns[c].connectionId == c)
    && (forall c :: c in conns ==> conns[c].sessionId in sessions && c in sessions[conns[c].sessionId])
    && (forall s :: s in sessions ==> |sessions[s]| == 1)
    && (forall s, c :: s in sessions && c in sessions[s] ==> c in conns && conns[c].sessionId == s)
  }

  /** At most `cap` connections, or none at all when the cap is not positive. */
  predicate WithinCap<V>(conns: map<string, V>, cap: int) {
    |conns| <= cap || |conns| == 0
  }

  /** Dropping connections keeps within the cap. */
  lemma DropWithinCap<V>(conns: map<string, V>, ids: set<string>, cap: int)
    requires WithinCap(conns, cap)
    ensures WithinCap(conns - ids, cap)
  {
    assert (conns - ids).Keys <= conns.Keys;
    SubsetCard((conns - ids).Keys, conns.Keys);
  }

  lemma {:induction false} SubsetCard<T>(xs: set<T>, ys: set<T>)
    requires xs <= ys
    ensures |xs| <= |ys|
    ensures |xs| == 0 ==> xs == {}
  {
    if xs != {} {
      var x :| x in xs;
      SubsetCard(xs - {x}, ys - {x});
    }
  }

  lemma RemoveAbsentKey<K, V>(m: map<K, V>, k: K)
    requires k !in m
    ensures m - {k} == m
  {
  }

  lemma RemoveNothing<K, V>(m: map<K, V>)
    ensures m - {} == m
  {
  }

  lemma UpdateTwice<K, V>(m: map<K, V>, k: K, v: V, w: V)
    ensures m[k := v][k := w] == m[k := w]
  {
  }

  lemma UpdateRemovedKey<K, V>(m: map<K, V>, k: K, v: V)
    ensures (m - {k})[k := v] == m[k := v]
  {
  }

  lemma RemoveUpdatedKey<K, V>(m: map<K, V>, k: K, v: V)
    ensures m[k := v] - {k} == m - {k}
  {
  }

  lemma SingletonOf<T>(xs: set<T>, x: T)
    requires |xs| == 1 && x in xs
    ensures xs == {x}
  {
    assert |xs - {x}| == 0;
  }

  /** Each tracked session has exactly the one connection recorded for it. */
  lemma SessionHasOne(conns: map<string, Connection>, sessions: map<string, set<string>>, s: string, c: string)
    requires Tracked(conns, sessions) && s in sessions && c in sessions[s]
    ensures sessions[s] == {c}
  {
    SingletonOf(sessions[s], c);
  }

  /** No two stored connections share a session. */
  lemma {:induction false} OneConnectionPerSession(conns: map<string, Connection>, sessions: map<string, set<string>>,
                                                  c: string, d: string)
    requires Tracked(conns, sessions) && c in conns && d in conns
    ensures conns[c].sessionId == conns[d].sessionId ==> c == d
  {
    var s := conns[c].sessionId;
    if conns[d].sessionId == s {
      SessionHasOne(conns, sessions, s, c);
    }
  }

  /** Forgetting a connection and its session keeps the bookkeeping consistent. */
  lemma {:induction false} RemoveKeepsTracked(conns: map<string, Connection>, sessions: map<string, set<string>>,
                                              cid: string)
    requires Tracked(conns, sessions) && cid in conns
    ensures sessions[conns[cid].sessionId] == {cid}
    ensures Tracked(conns - {cid}, sessions - {conns[cid].sessionId})
  {
    SessionHasOne(conns, sessions, conns[cid].sessionId, cid);
  }

  /** Forgetting a session and its connection keeps the bookkeeping consistent,
      and no connection of that session remains. */
  lemma {:induction false} DropSessionKeepsTracked(conns: map<string, Connection>, sessions: map<string, set<string>>,
                                                   s: string)
    requires Tracked(conns, sessions) && s in sessions
    ensures Tracked(conns - sessions[s], sessions - {s})
    ensures forall c :: c in conns - sessions[s] ==> (conns - sessions[s])[c].sessionId != s
  {
    var c :| c in sessions[s];
    RemoveKeepsTracked(conns, sessions, c);
    assert conns - sessions[s] == conns - {c};
  }

  /** A session that is not tracked has no connection. */
  lemma UntrackedSessionHasNone(conns: map<string, Connection>, sessions: map<string, set<string>>, s: string)
    requires Tracked(conns, sessions) && s !in sessions
    ensures forall c :: c in conns ==> conns[c].sessionId != s
  {
  }

  /** Registering a new connection for a session with none keeps the bookkeeping consistent. */
  lemma AddKeepsTracked(conns: map<string, Connection>, sessions: map<string, set<string>>, conn: Connection)
    requires Tracked(conns, sessions)
    requires conn.connectionId !in conns && conn.sessionId !in sessions
    ensures Tracked(conns[conn.connectionId := conn], sessions[conn.sessionId := {conn.connectionId}])
  {
  }

  /** The bookkeeping looks only at the ids of the connections, so sending and closing keep it. */
  lemma SameIdsKeepTracked(conns: map<string, Connection>, conns': map<string, Connection>,
                           sessions: map<string, set<string>>)
    requires Tracked(conns, sessions) && conns'.Keys == conns.Keys
    requires forall c :: c in conns ==>
      conns'[c].connectionId == conns[c].connectionId && conns'[c].sessionId == conns[c].sessionId
    ensures Tracked(conns', sessions)
  {
  }

  /** A session's set holds at most one connection, active or not. */
  lemma SessionCountAtMostOne(conns: map<string, Connection>, sessions: map<string, set<string>>,
                              s: string, active: set<string>)
    requires Tracked(conns, sessions)
    ensures |(if s in sessions then sessions[s] else {}) * active| <= 1
  {
    if s in sessions {
      var c :| c in sessions[s];
      SessionHasOne(conns, sessions, s, c);
      SubsetCard(sessions[s] * active, {c});
    }
  }

  /** `list(ids)`: the members of a set, each once, in some order. */
  method ListIds(ids: set<string>) returns (r: seq<string>)
    ensures Distinct(r) && Elems(r) == ids
    ensures forall c :: c in r <==> c in ids
  {
    r := [];
    var todo := ids;
    while todo != {}
      invariant Distinct(r)
      invariant forall c :: c in ids <==> c in r || c in todo
      invariant forall c :: c in r ==> c !in todo
      decreases |todo|
    {
      var c :| c in todo;
      r := r + [c];
      todo := todo - {c};
    }
  }

  /**
   * `SSEManager`.  The manager holds the state of each connection by value;
   * a connection it drops is handed back in its final state, which in the
   * source the stream reading from that connection goes on to see.
   */
  class SseManager {
    const maxConnections: int
    var connections: map<string, Connection>
    var sessionConnections: map<string, set<string>>

    /** The manager's invariant: consistent bookkeeping, within the cap. */
    ghost predicate Valid()
      reads this
    {
      Tracked(connections, sessionConnections) && WithinCap(connections, maxConnections)
    }

    constructor (maxConnections: int)
      ensures Valid() && connections == map[] && sessionConnections == map[]
      ensures this.maxConnections == maxConnections
    {
      this.maxConnections := maxConnections;
      connections := map[];
      sessionConnections := map[];
    }

    /** The ids tracked for a session, none for an unknown one. */
    function SessionIds(s: string): set<string>
      reads this
    {
      if s in sessionConnections then sessionConnections[s] else {}
    }

    /**
     * Retires and drops each stored connection among `ids`, in any order,
     * returning the dropped connections; nothing else changes.
     */
    method DropIds(ids: set<string>, now: Instant) returns (dropped: map<string, Connection>)
      modifies this
      ensures connections == old(connections) - ids && sessionConnections == old(sessionConnections)
      ensures dropped == RetiredAll(old(connections), ids, now)
    {
      dropped := map[];
      var todo := ids;
      while todo != {}
        invariant todo <= ids
        invariant connections == old(connections) - (ids - todo)
        invariant sessionConnections == old(sessionConnections)
        invariant dropped == RetiredAll(old(connections), ids - todo, now)
        decreases todo
      {
        var x :| x in todo;
        MoveOne(ids, todo, x);
        RemoveOneMore(old(connections), ids - todo, x);
        if x in connections {
          RetiredAllStep(old(connections), ids - todo, x, now);
          dropped := dropped[x := Retired(connections[x], now)];
          connections := connections - {x};
        } else {
          assert RetiredAll(old(connections), (ids - todo) + {x}, now) == RetiredAll(old(connections), ids - todo, now);
        }
        todo := todo - {x};
      }
      NothingLeft(ids, todo);
    }

    /**
     * The first half of `create_connection`: each earlier connection of the
     * session is retired and dropped, and the session's set of ids, if it
     * has one, emptied.  The dropped connections are returned.
     */
    method Supersede(s: string, now: Instant) returns (dropped: map<string, Connection>)
      requires Valid()
      modifies this
      ensures connections == old(connections) - old(SessionIds(s))
      ensures dropped == RetiredAll(old(connections), old(SessionIds(s)), now)
      ensures sessionConnections ==
        if s in old(sessionConnections) then old(sessionConnections)[s := {}] else old(sessionConnections)
      ensures Tracked(connections, sessionConnections - {s})
      ensures forall c :: c in connections ==> connections[c].sessionId != s
    {
      if s in sessionConnections {
        DropSessionKeepsTracked(connections, sessionConnections, s);
        dropped := DropIds(sessionConnections[s], now);
        RemoveUpdatedKey(sessionConnections, s, {});
        sessionConnections := sessionConnections[s := {}];
      } else {
        dropped := map[];
        assert RetiredAll(connections, {}, now) == dropped;
        UntrackedSessionHasNone(connections, sessionConnections, s);
        RemoveAbsentKey(sessionConnections, s);
        RemoveNothing(connections);
      }
    }

    /**
     * The second half of `create_connection`: a fresh active connection,
     * its queue holding the session-start message, is stored and becomes
     * its session's one tracked id.
     */
    method Register(s: string, cid: string, loopTime: int, now: Instant) returns (conn: Connection)
      requires Tracked(connections, sessionConnections - {s})
      requires cid !in connections && |connections| < maxConnections
      requires forall c :: c in connections ==> connections[c].sessionId != s
      requires s in sessionConnections ==> sessionConnections[s] == {}
      modifies this
      ensures Valid()
      ensures conn == Send(Opened(cid, s, loopTime), CreateSessionStartMessage(s, now)).0
      ensures connections == old(connections)[cid := conn]
      ensures sessionConnections == old(sessionConnections)[s := {cid}]
    {
      conn := Send(Opened(cid, s, loopTime), CreateSessionStartMessage(s, now)).0;
      ghost var sessions0 := sessionConnections;
      AddKeepsTracked(connections, sessions0 - {s}, conn);
      UpdateRemovedKey(sessions0, s, {cid});
      connections := connections[cid := conn];
      if s !in sessionConnections {
        sessionConnections := sessionConnections[s := {}];
      }
      assert sessionConnections[s] + {cid} == {cid};
      UpdateTwice(sessions0, s, {}, {cid});
      sessionConnections := sessionConnections[s := sessionConnections[s] + {cid}];
    }

    /**
     * `create_connection`: refuses when the cap is reached, even for a
     * session that would give up its own connection; otherwise supersedes
     * the session's earlier connection and registers a fresh active one
     * whose queue holds the session-start message.  A missing session id is
     * made up from `sessionHex`.  The superseded connections are returned.
     */
    method CreateConnection(sessionId: Option<string>, sessionHex: string, connectionHex: string,
                            loopTime: int, now: Instant)
      returns (r: Result<(string, Connection), string>, dropped: map<string, Connection>)
      requires Valid()
      requires "conn_" + connectionHex !in connections
      modifies this
      ensures Valid()
      ensures old(|connections|) >= maxConnections <==> r.Err?
      ensures r.Err? ==> r.error == "최대 연결 수 초과 (" + IntToString(maxConnections) + ")"
      ensures r.Err? ==> unchanged(this) && dropped == map[]
      ensures r.Ok? ==>
        var s := if sessionId.Some? then sessionId.value else "session_" + sessionHex;
        var cid := "conn_" + connectionHex;
        var gone := old(SessionIds(s));
        r.value == (cid, Send(Opened(cid, s, loopTime), CreateSessionStartMessage(s, now)).0)
        && connections == (old(connections) - gone)[cid := r.value.1]
        && sessionConnections == old(sessionConnections)[s := {cid}]
        && dropped == RetiredAll(old(connections), gone, now)
    {
      dropped := map[];
      if |connections| >= maxConnections {
        return Err("최대 연결 수 초과 (" + IntToString(maxConnections) + ")"), dropped;
      }
      var s := if sessionId.Some? then sessionId.value else "session_" + sessionHex;
      var cid := "conn_" + connectionHex;
      dropped := Supersede(s, now);
      SubsetCard(connections.Keys, old(connections).Keys);
      var conn := Register(s, cid, loopTime, now);
      UpdateTwice(old(sessionConnections), s, {}, {cid});
      r := Ok((cid, conn));
    }

    /**
     * `remove_connection` of a stored connection: retires it and forgets its
     * session, whose only connection it is, and returns its final state.
     */
    method RemoveStored(cid: string, now: Instant) returns (dropped: Connection)
      requires Valid() && cid in connections
      modifies this
      ensures Valid()
      ensures dropped == Retired(old(connections)[cid], now)
      ensures connections == old(connections) - {cid}
      ensures sessionConnections == old(sessionConnections) - {old(connections)[cid].sessionId}
    {
      var conn := connections[cid];
      var s := conn.sessionId;
      RemoveKeepsTracked(connections, sessionConnections, cid);
      DropWithinCap(connections, {cid}, maxConnections);
      var sent := Send(conn, CreateSessionEndMessage(s, now));
      dropped := Closed(sent.0);
      connections := connections - {cid};
      if s in sessionConnections {
        var remaining := sessionConnections[s] - {cid};
        sessionConnections := if remaining == {} then sessionConnections - {s} else sessionConnections[s := remaining];
      }
    }

    /** `remove_connection`: an unknown id changes nothing. */
    method RemoveConnection(cid: string, now: Instant) returns (dropped: Option<Connection>)
      requires Valid()
      modifies this
      ensures Valid()
      ensures cid !in old(connections) ==>
        dropped == None && connections == old(connections) && sessionConnections == old(sessionConnections)
      ensures cid in old(connections) ==>
        var conn := old(connections)[cid];
        dropped == Some(Retired(conn, now))
        && connections == old(connections) - {cid}
        && sessionConnections == old(sessionConnections) - {conn.sessionId}
    {
      dropped := None;
      if cid in connections {
        var d := RemoveStored(cid, now);
        dropped := Some(d);
      }
    }

    /** `send_to_connection`: queues the message on a known, active connection and says whether it did. */
    method SendToConnection(cid: string, m: StreamMessage) returns (ok: bool)
      modifies this
      ensures sessionConnections == old(sessionConnections)
      ensures ok == (cid in old(connections) && old(connections)[cid].isActive)
      ensures connections ==
        if cid in old(connections) then old(connections)[cid := Send(old(connections)[cid], m).0] else old(connections)
    {
      ok := false;
      if cid in connections {
        var sent := Send(connections[cid], m);
        connections := connections[cid := sent.0];
        ok := sent.1;
      }
    }

    /** The ids of the stored connections that are active. */
    function ActiveIds(): set<string>
      reads this
    {
      set c | c in connections && connections[c].isActive
    }

    /**
     * Sends `m` to each id of the list `ids` in turn and counts the
     * connections that took it; the sending loop `send_to_session` and
     * `broadcast_message` share.
     */
    method SendEach(ids: seq<string>, m: StreamMessage) returns (count: nat)
      requires Distinct(ids)
      modifies this
      ensures sessionConnections == old(sessionConnections)
      ensures count == CountListed(ids, old(ActiveIds()))
      ensures connections.Keys == old(connections).Keys
      ensures forall c :: c in connections ==>
        connections[c] == if c in ids then Send(old(connections)[c], m).0 else old(connections)[c]
    {
      ghost var active := ActiveIds();
      count := 0;
      for i := 0 to |ids|
        invariant sessionConnections == old(sessionConnections)
        invariant count == CountListed(ids[..i], active)
        invariant connections.Keys == old(connections).Keys
        invariant forall c :: c in connections ==>
          connections[c] == if c in ids[..i] then Send(old(connections)[c], m).0 else old(connections)[c]
      {
        var c := ids[i];
        assert c !in ids[..i];
        assert ids[..i + 1] == ids[..i] + [c];
        var ok := SendToConnection(c, m);
        if ok {
          count := count + 1;
        }
      }
      assert ids[..|ids|] == ids;
    }

    /** `send_to_session`: sends to the session's connection, if it has one, and counts the deliveries. */
    method SendToSession(sessionId: string, m: StreamMessage) returns (count: nat)
      requires Valid()
      modifies this
      ensures Valid() && sessionConnections == old(sessionConnections)
      ensures count == |SessionIds(sessionId) * old(ActiveIds())| && count <= 1
      ensures connections.Keys == old(connections).Keys
      ensures forall c :: c in connections ==>
        connections[c] == if c in SessionIds(sessionId) then Send(old(connections)[c], m).0 else old(connections)[c]
    {
      var ids := ListIds(SessionIds(sessionId));
      SessionCountAtMostOne(connections, sessionConnections, sessionId, ActiveIds());
      CountListedIsCard(ids, ActiveIds());
      ghost var before := connections;
      count := SendEach(ids, m);
      SameIdsKeepTracked(before, connections, sessionConnections);
    }

    /** `broadcast_message`: sends to every connection and counts the active ones. */
    method BroadcastMessage(m: StreamMessage) returns (count: nat)
      requires Valid()
      modifies this
      ensures Valid() && sessionConnections == old(sessionConnections)
      ensures count == |old(ActiveIds())|
      ensures connections.Keys == old(connections).Keys
      ensures forall c :: c in connections ==> connections[c] == Send(old(connections)[c], m).0
    {
      var ids := ListIds(connections.Keys);
      CountListedIsCard(ids, ActiveIds());
      assert connections.Keys * ActiveIds() == ActiveIds();
      ghost var before := connections;
      count := SendEach(ids, m);
      SameIdsKeepTracked(before, connections, sessionConnections);
    }

    /** The connections `cleanup_inactive_connections` sweeps: closed, or older than an hour. */
    function StaleIds(loopTime: int): set<string>
      reads this
    {
      set c | c in connections && (!connections[c].isActive || loopTime - connections[c].createdAt > CONNECTION_TTL)
    }

    /** `cleanup_inactive_connections`: removes exactly the stale connections, retiring each
        (in any order: each removal touches only its own connection and session). */
    method CleanupInactiveConnections(loopTime: int, now: Instant) returns (dropped: map<string, Connection>)
      requires Valid()
      modifies this
      ensures Valid()
      ensures connections == old(connections) - old(StaleIds(loopTime))
      ensures dropped == RetiredAll(old(connections), old(StaleIds(loopTime)), now)
    {
      var stale := StaleIds(loopTime);
      ghost var before := connections;
      dropped := map[];
      var todo := stale;
      while todo != {}
        invariant todo <= stale <= before.Keys
        invariant Valid()
        invariant connections == before - (stale - todo)
        invariant dropped == RetiredAll(before, stale - todo, now)
        decreases todo
      {
        var c :| c in todo;
        MoveOne(stale, todo, c);
        RemoveOneMore(before, stale - todo, c);
        RetiredAllStep(before, stale - todo, c, now);
        var d := RemoveStored(c, now);
        dropped := dropped[c := d];
        todo := todo - {c};
      }
      NothingLeft(stale, todo);
    }

    /** `get_connection_count`. */
    function GetConnectionCount(): nat
      reads this
    {
      |connections|
    }

    /** `get_session_count`. */
    function GetSessionCount(): nat
      reads this
    {
      |sessionConnections|
    }
  }
}
