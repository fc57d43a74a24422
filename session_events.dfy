/**
 * Values exchanged by an agent session: the metadata of a tunneled connection,
 * the notifications sent to the event listener, the errors of Connect, the
 * steps of the teardown sequence and the snapshot returned by Session().
 * Also the event-log arithmetic the session's invariant is stated in.
 */
module SessionEvents {

  type ConnId = string

  /** Client-process metadata a connection is created from (restapi.ConnectionData). */
  datatype ConnectionData = ConnectionData(id: ConnId, pid: string, processName: string)

  /** One GPU of the session's reservation, as the reservation describes it; opaque here. */
  type GpuDescriptor = string

  /** Notifications delivered to the event listener, in the order they are emitted. */
  datatype Event =
    | SessionClosed(sessionId: string)
    | ConnectionCreated(sessionId: string, data: ConnectionData)
    | ConnectionClosed(sessionId: string, data: ConnectionData, exitCode: int)

  /** Why Connect failed: the session is closed, the new connection could not be
      started (the start error wrapped with the session and connection ids), or
      handing the stream to the connection failed. */
  datatype ConnectError =
    | ErrClosed
    | ErrStartFailed(sessionId: string, connId: ConnId)
    | ErrAttachFailed(connId: ConnId)

  datatype ConnectResult = Connected | Failed(error: ConnectError)

  /** The steps of the closing watcher, in the order the teardown performs them. */
  datatype TeardownStep = MarkClosed | Joined | SignalsClosed | GpusReleased | SessionClosedEmitted

  const TeardownOrder: seq<TeardownStep> :=
    [MarkClosed, Joined, SignalsClosed, GpusReleased, SessionClosedEmitted]

  datatype SessionState = StateActive | StateClosed

  /** What Session() reports (restapi.Session). */
  datatype SessionReport = SessionReport(
    id: string,
    state: SessionState,
    version: string,
    gpus: seq<GpuDescriptor>,
    connections: seq<ConnectionData>,
    persistent: bool)

  /** The ids of a list of connections. */
  function IdsOf(cs: seq<ConnectionData>): (ids: set<ConnId>) {
    if cs == [] then {} else IdsOf(cs[..|cs| - 1]) + {cs[|cs| - 1].id}
  }

  /** Appending a connection adds its id to the ids of the list. */
  lemma IdsOfAppend(cs: seq<ConnectionData>, d: ConnectionData)
    ensures IdsOf(cs + [d]) == IdsOf(cs) + {d.id}
  {
    assert (cs + [d])[..|cs|] == cs;
  }

  /** The id of every entry is among the list's ids. */
  lemma {:induction false} IdsOfContains(cs: seq<ConnectionData>, i: nat)
    requires i < |cs|
    ensures cs[i].id in IdsOf(cs)
  {
    if i < |cs| - 1 {
      IdsOfContains(cs[..|cs| - 1], i);
    }
  }

  /** An id that no entry of the list carries is not among the list's ids. */
  lemma {:induction false} IdsOfMissing(cs: seq<ConnectionData>, x: ConnId)
    requires forall i :: 0 <= i < |cs| ==> cs[i].id != x
    ensures x !in IdsOf(cs)
  {
    if cs != [] {
      IdsOfMissing(cs[..|cs| - 1], x);
    }
  }

  /** No two entries of the list share a connection id. */
  predicate DistinctIds(cs: seq<ConnectionData>) {
    forall i, j :: 0 <= i < j < |cs| ==> cs[i].id != cs[j].id
  }

  /** Appending an entry whose id is new keeps the ids distinct. */
  lemma DistinctIdsAppend(cs: seq<ConnectionData>, d: ConnectionData)
    requires DistinctIds(cs) && forall i :: 0 <= i < |cs| ==> cs[i].id != d.id
    ensures DistinctIds(cs + [d])
  {
    var xs := cs + [d];
    forall i, j | 0 <= i < j < |xs| ensures xs[i].id != xs[j].id {
      assert xs[i] == cs[i];
    }
  }

  /** A list with distinct ids has exactly one entry per id. */
  lemma {:induction false} DistinctIdsCount(cs: seq<ConnectionData>)
    requires DistinctIds(cs)
    ensures |IdsOf(cs)| == |cs|
  {
    if cs != [] {
      var last := |cs| - 1;
      var front := cs[..last];
      assert cs == front + [cs[last]];
      IdsOfAppend(front, cs[last]);
      DistinctIdsCount(front);
      IdsOfMissing(front, cs[last].id);
    }
  }

  /** What an event is counted under: its kind and the connection it concerns. */
  datatype EventKey = CreatedKey(id: ConnId) | ClosedKey(id: ConnId) | SessionClosedKey

  function KeyOf(e: Event): (k: EventKey) {
    match e
    case SessionClosed(_) => SessionClosedKey
    case ConnectionCreated(_, d) => CreatedKey(d.id)
    case ConnectionClosed(_, d, _) => ClosedKey(d.id)
  }

  /** How many events of the log are counted under key k. */
  function Count(log: seq<Event>, k: EventKey): (n: nat)
    ensures n <= |log|
  {
    if log == [] then 0
    else (if KeyOf(log[0]) == k then 1 else 0) + Count(log[1..], k)
  }

  /** Appending one event adds one to its own key's count and nothing to the others. */
  lemma {:induction false} CountAppend(log: seq<Event>, e: Event, k: EventKey)
    ensures Count(log + [e], k) == Count(log, k) + (if KeyOf(e) == k then 1 else 0)
  {
    if log != [] {
      assert (log + [e])[1..] == log[1..] + [e];
      CountAppend(log[1..], e, k);
    }
  }

  /**
   * The listener has been told about every connection consistently: for each id,
   * the ConnectionCreated events outnumber the ConnectionClosed events by one
   * exactly when that id is live in the connection map, and equal them otherwise.
   */
  ghost predicate Balanced(log: seq<Event>, conns: map<ConnId, ConnectionData>) {
    forall c :: Count(log, CreatedKey(c)) == Count(log, ClosedKey(c)) + (if c in conns then 1 else 0)
  }

  /** Registering a new connection and announcing it keeps the log balanced. */
  lemma BalancedAfterCreate(log: seq<Event>, conns: map<ConnId, ConnectionData>, sid: string, d: ConnectionData)
    requires Balanced(log, conns) && d.id !in conns
    ensures Balanced(log + [ConnectionCreated(sid, d)], conns[d.id := d])
    ensures Count(log + [ConnectionCreated(sid, d)], SessionClosedKey) == Count(log, SessionClosedKey)
  {
    CountAppend(log, ConnectionCreated(sid, d), SessionClosedKey);
    forall c ensures Count(log + [ConnectionCreated(sid, d)], CreatedKey(c))
                  == Count(log + [ConnectionCreated(sid, d)], ClosedKey(c)) + (if c in conns[d.id := d] then 1 else 0)
    {
      CountAppend(log, ConnectionCreated(sid, d), CreatedKey(c));
      CountAppend(log, ConnectionCreated(sid, d), ClosedKey(c));
    }
  }

  /** Removing a live connection and announcing its exit keeps the log balanced. */
  lemma BalancedAfterClose(log: seq<Event>, conns: map<ConnId, ConnectionData>, sid: string, c0: ConnId, code: int)
    requires Balanced(log, conns) && c0 in conns && conns[c0].id == c0
    ensures Balanced(log + [ConnectionClosed(sid, conns[c0], code)], conns - {c0})
    ensures Count(log + [ConnectionClosed(sid, conns[c0], code)], SessionClosedKey) == Count(log, SessionClosedKey)
  {
    var e := ConnectionClosed(sid, conns[c0], code);
    CountAppend(log, e, SessionClosedKey);
    forall c ensures Count(log + [e], CreatedKey(c)) == Count(log + [e], ClosedKey(c)) + (if c in conns - {c0} then 1 else 0)
    {
      CountAppend(log, e, CreatedKey(c));
      CountAppend(log, e, ClosedKey(c));
    }
  }

  /** Events other than connection events leave the balance as it is. */
  lemma BalancedAfterSessionClosed(log: seq<Event>, conns: map<ConnId, ConnectionData>, sid: string)
    requires Balanced(log, conns)
    ensures Balanced(log + [SessionClosed(sid)], conns)
    ensures Count(log + [SessionClosed(sid)], SessionClosedKey) == Count(log, SessionClosedKey) + 1
  {
    CountAppend(log, SessionClosed(sid), SessionClosedKey);
    forall c ensures Count(log + [SessionClosed(sid)], CreatedKey(c))
                  == Count(log + [SessionClosed(sid)], ClosedKey(c)) + (if c in conns then 1 else 0)
    {
      CountAppend(log, SessionClosed(sid), CreatedKey(c));
      CountAppend(log, SessionClosed(sid), ClosedKey(c));
    }
  }

  /** In a balanced log no connection is reported closed more often than it was created. */
  lemma {:induction false} ClosedNeverExceedsCreated(log: seq<Event>, conns: map<ConnId, ConnectionData>, c: ConnId)
    requires Balanced(log, conns)
    ensures Count(log, ClosedKey(c)) <= Count(log, CreatedKey(c)) <= Count(log, ClosedKey(c)) + 1
    ensures c in conns <==> Count(log, CreatedKey(c)) > Count(log, ClosedKey(c))
  {
    assert Count(log, CreatedKey(c)) == Count(log, ClosedKey(c)) + (if c in conns then 1 else 0);
  }
}
