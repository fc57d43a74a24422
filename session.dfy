/**
 * The lifecycle of one agent session, as a sequential state machine.
 *
 * The source runs a session with goroutines: a closing watcher, an idle ticker
 * (non-persistent sessions only) and one watcher per connection, talking over
 * channels and guarding the closed flag with a lock. Here every wake-up of one
 * of those goroutines (one arm of a select, one receive) is one atomic method
 * of the class, and the externally visible effects are recorded in fields: the
 * listener's event log, the GPU release counter, the streams handed to
 * connections and the steps of the teardown.
 */
module AgentSession {
  import opened SessionEvents

  /** Where the closing watcher is: blocked in its select, joining the task
      manager after marking the session closed, or returned. */
  datatype CloserState = Selecting | Joining | Finished

  /** How many teardown steps have been performed in each closing-watcher state. */
  function StepsDone(s: CloserState): (n: nat)
    ensures n <= |TeardownOrder|
  {
    match s
    case Selecting => 0
    case Joining => 1
    case Finished => |TeardownOrder|
  }

  /** The list holds, once each, exactly the connections of the map whose ids are in seen. */
  ghost predicate Listed(list: seq<ConnectionData>, seen: set<ConnId>, conns: map<ConnId, ConnectionData>) {
    && IdsOf(list) == seen
    && DistinctIds(list)
    && forall i :: 0 <= i < |list| ==> list[i].id in conns && list[i] == conns[list[i].id]
  }

  /** Listing one more connection of the map, not listed yet, keeps the list faithful. */
  lemma ListedStep(list: seq<ConnectionData>, seen: set<ConnId>, conns: map<ConnId, ConnectionData>, k: ConnId)
    requires Listed(list, seen, conns) && k in conns && conns[k].id == k && k !in seen
    ensures Listed(list + [conns[k]], seen + {k}, conns)
  {
    var d := conns[k];
    IdsOfAppend(list, d);
    forall i | 0 <= i < |list| ensures list[i].id != d.id {
      IdsOfContains(list, i);
    }
    DistinctIdsAppend(list, d);
    var xs := list + [d];
    forall i | 0 <= i < |xs| ensures xs[i].id in conns && xs[i] == conns[xs[i].id] {
      if i < |list| { assert xs[i] == list[i]; }
    }
  }

  /** A list of all the map's connections has one entry per connection. */
  lemma ListedAll(list: seq<ConnectionData>, conns: map<ConnId, ConnectionData>)
    requires Listed(list, conns.Keys, conns)
    ensures |list| == |conns|
  {
    DistinctIdsCount(list);
    assert |conns.Keys| == |conns|;
  }

  /** The connections of a map, each listed once, in the order the map's iteration
      yields them (which the model leaves unspecified). */
  method ListConnections(conns: map<ConnId, ConnectionData>) returns (list: seq<ConnectionData>)
    requires forall c :: c in conns ==> conns[c].id == c
    ensures IdsOf(list) == conns.Keys && DistinctIds(list)
    ensures |list| == |conns|
    ensures forall i :: 0 <= i < |list| ==> list[i].id in conns && list[i] == conns[list[i].id]
  {
    list := [];
    var remaining := conns.Keys;
    ghost var seen: set<ConnId> := {};
    while remaining != {}
      invariant seen + remaining == conns.Keys && seen !! remaining
      invariant Listed(list, seen, conns)
      decreases remaining
    {
      var k :| k in remaining;
      ListedStep(list, seen, conns, k);
      list, seen, remaining := list + [conns[k]], seen + {k}, remaining - {k};
    }
    ListedAll(list, conns);
  }

  class Session {
    const id: string
    const version: string
    const persistent: bool
    /** The GPUs of the reservation, as the reservation describes them. */
    const gpus: seq<GpuDescriptor>

    /** The guarded closed flag. */
    var closed: bool
    /** The connection map, keyed by connection id. */
    var connections: map<ConnId, ConnectionData>
    /** Connections whose watcher task is still running under the task manager. */
    var watchers: set<ConnId>
    /** Whether the task manager's scope has been cancelled. */
    var cancelled: bool
    /** Whether the parent scope the session runs in has been cancelled. */
    var parentDone: bool
    var closer: CloserState
    /** Whether the idle ticker's loop is still running. */
    var tickerRunning: bool
    /** Whether the idle timer is counting toward a tick. */
    var armed: bool
    /** How many times the GPU reservation has been released. */
    var gpusReleased: nat
    /** Notifications delivered to the event listener. */
    var events: seq<Event>
    /** The connection ids whose Connect was handed a stream, in order. */
    var attached: seq<ConnId>
    /** The teardown steps performed so far. */
    var teardown: seq<TeardownStep>

    /** Everything the session keeps true, except the timer rule, which holds
        again once the ticker has seen a connections-changed signal. */
    ghost predicate Consistent()
      reads this
    {
      // every live connection has exactly one watcher, and is stored under its own id
      && watchers == connections.Keys
      && (forall c :: c in connections ==> connections[c].id == c)
      // the closed flag is set by the closing watcher's first step and never cleared
      && (closed <==> closer != Selecting)
      && (closer != Selecting ==> cancelled)
      // teardown steps happen in order; the GPUs are released once, in the teardown
      && teardown == TeardownOrder[..StepsDone(closer)]
      && gpusReleased == (if closer == Finished then 1 else 0)
      && Count(events, SessionClosedKey) == gpusReleased
      && (closer == Finished ==> connections == map[] && events != [] && events[|events| - 1] == SessionClosed(id))
      // the listener has been told about every connection consistently
      && Balanced(events, connections)
      // the ticker exists only for non-persistent sessions and runs until the closing
      // signal; its timer can count only while it runs
      && (tickerRunning ==> !persistent)
      && (!persistent && closer != Finished ==> tickerRunning)
      && (armed ==> tickerRunning)
    }

    /** While the ticker runs, its timer counts exactly when no connection is live. */
    ghost predicate TimerRule()
      reads this
    {
      tickerRunning ==> (armed <==> connections == map[])
    }

    ghost predicate Valid()
      reads this
    {
      Consistent() && TimerRule()
    }

    /** newSession followed by Run: the session starts open, with no connections,
        and the idle ticker (spawned only for a non-persistent session) armed. */
    constructor (id: string, version: string, persistent: bool, gpus: seq<GpuDescriptor>)
      ensures Valid()
      ensures this.id == id && this.version == version && this.persistent == persistent && this.gpus == gpus
      ensures !closed && !cancelled && !parentDone && closer == Selecting
      ensures connections == map[] && watchers == {} && events == [] && attached == [] && teardown == []
      ensures gpusReleased == 0
      ensures tickerRunning == !persistent && armed == !persistent
    {
      this.id := id;
      this.version := version;
      this.persistent := persistent;
      this.gpus := gpus;
      closed := false;
      connections := map[];
      watchers := {};
      cancelled := false;
      parentDone := false;
      closer := Selecting;
      tickerRunning := !persistent;
      armed := !persistent;
      gpusReleased := 0;
      events := [];
      attached := [];
      teardown := [];
    }

    /** Requests the task manager to cancel, but only while the session is open. */
    method Cancel()
      requires Valid()
      modifies this`cancelled
      ensures Valid()
      ensures cancelled == (old(cancelled) || !closed)
    {
      if !closed {
        cancelled := true;
      }
    }

    /** The parent scope the session runs in is cancelled. The task manager's own
        scope is not cancelled by this: the closing watcher does that when it wakes. */
    method CancelParent()
      requires Valid()
      modifies this`parentDone
      ensures Valid()
      ensures parentDone
    {
      parentDone := true;
    }

    /** The closing watcher's select returns: either the parent scope is done, in which
        case the session cancels the task manager itself (the session is still open, so
        that Cancel takes effect), or the task manager's own scope is done. Either way
        the closed flag is set, and the watcher goes on to join. */
    method WakeClosingWatcher(viaParent: bool)
      requires Valid() && closer == Selecting
      requires if viaParent then parentDone else cancelled
      modifies this`cancelled, this`closed, this`closer, this`teardown
      ensures Valid()
      ensures closed && cancelled && closer == Joining
      ensures teardown == old(teardown) + [MarkClosed]
    {
      if viaParent {
        Cancel();
      }
      closed := true;
      closer := Joining;
      teardown := teardown + [MarkClosed];
    }

    /** The task manager's Wait returns, which it does only once every connection
        watcher has returned; then the broadcast signals are closed, the GPUs are
        released and SessionClosed is emitted, whatever error Wait reported. The
        closing watcher returns that error. */
    method FinishTeardown(joinFailed: bool) returns (failed: bool)
      requires Valid() && closer == Joining && watchers == {}
      modifies this`closer, this`gpusReleased, this`events, this`teardown
      ensures Valid()
      ensures closer == Finished && failed == joinFailed
      ensures gpusReleased == old(gpusReleased) + 1 == 1
      ensures events == old(events) + [SessionClosed(id)]
      ensures teardown == old(teardown) + [Joined, SignalsClosed, GpusReleased, SessionClosedEmitted]
      ensures teardown == TeardownOrder
    {
      BalancedAfterSessionClosed(events, connections, id);
      // Wait has returned; then, in this order: close the broadcast signals,
      // release the GPUs, notify the listener.
      closer, gpusReleased, events, teardown :=
        Finished, gpusReleased + 1, events + [SessionClosed(id)],
        teardown + [Joined, SignalsClosed, GpusReleased, SessionClosedEmitted];
      failed := joinFailed;
    }

    /** The ticker's timer fires: the session is cancelled (a no-op once closed). */
    method Tick()
      requires Valid() && tickerRunning && armed
      modifies this`cancelled
      ensures Valid()
      ensures cancelled == (old(cancelled) || !closed)
    {
      Cancel();
    }

    /** The ticker receives a connections-changed signal: it re-arms the timer for a
        fresh period if no connection is live, and stops it otherwise. */
    method OnConnectionsChanged()
      requires Consistent() && tickerRunning
      modifies this`armed
      ensures Valid()
      ensures armed <==> connections == map[]
    {
      if connections == map[] {
        armed := true;
      } else {
        armed := false;
      }
    }

    /** The ticker receives the closing signal: its loop ends and the timer is stopped. */
    method OnSessionClosing()
      requires Valid() && tickerRunning && closer == Finished
      modifies this`tickerRunning, this`armed
      ensures Valid()
      ensures !tickerRunning && !armed
    {
      tickerRunning := false;
      armed := false;
    }

    /** Signals connections-changed. Only a non-persistent session runs a ticker to
        receive the signal; the send is a rendezvous with the ticker's loop, so the
        ticker's handling of it happens in the same step. */
    method SignalConnectionsChanged()
      requires Consistent() && closer != Finished
      modifies this`armed
      ensures Valid()
      ensures !persistent ==> (armed <==> connections == map[])
      ensures persistent ==> armed == old(armed)
    {
      if !persistent {
        OnConnectionsChanged();
      }
    }

    /** A connection's watcher receives the connection's exit code: the connection
        is removed from the map, the ticker is signalled and ConnectionClosed is
        emitted with the connection's data and exit code. */
    method ConnectionExited(c: ConnId, exitCode: int)
      requires Valid() && c in watchers
      modifies this`connections, this`watchers, this`armed, this`events
      ensures Valid()
      ensures c in old(connections)
      ensures connections == old(connections) - {c}
      ensures watchers == old(watchers) - {c}
      ensures events == old(events) + [ConnectionClosed(id, old(connections)[c], exitCode)]
    {
      var data := connections[c];
      BalancedAfterClose(events, connections, id, c, exitCode);
      connections, watchers, events :=
        connections - {c}, watchers - {c}, events + [ConnectionClosed(id, data, exitCode)];
      SignalConnectionsChanged();
    }

    /** Creates and starts a connection for an id not in the map. On a start failure
        nothing is registered; otherwise its watcher is spawned, it is added to the
        map, the ticker is signalled and ConnectionCreated is emitted. */
    method AddConnection(data: ConnectionData, startOk: bool) returns (ok: bool)
      requires Valid() && !closed && data.id !in connections
      modifies this`connections, this`watchers, this`armed, this`events
      ensures Valid()
      ensures ok == startOk
      ensures !ok ==> connections == old(connections) && watchers == old(watchers)
                      && events == old(events) && armed == old(armed)
      ensures ok ==> connections == old(connections)[data.id := data]
                     && watchers == old(watchers) + {data.id}
                     && events == old(events) + [ConnectionCreated(id, data)]
    {
      ok := startOk;
      if ok {
        BalancedAfterCreate(events, connections, id, data);
        watchers, connections, events :=
          watchers + {data.id}, connections[data.id := data], events + [ConnectionCreated(id, data)];
        SignalConnectionsChanged();
      }
    }

    /** Connect: rejected with ErrClosed once the session is closed; otherwise finds
        the connection with this id or creates it, then hands it the stream.
        startOk and attachOk are the outcomes of starting a new connection and of
        handing it the stream, which the connection itself decides. */
    method Connect(data: ConnectionData, startOk: bool, attachOk: bool) returns (r: ConnectResult)
      requires Valid()
      modifies this`connections, this`watchers, this`armed, this`events, this`attached
      ensures Valid()
      // closed: rejected, nothing changes
      ensures old(closed) ==>
                && r == Failed(ErrClosed)
                && connections == old(connections) && watchers == old(watchers)
                && events == old(events) && attached == old(attached) && armed == old(armed)
      // open and the id is known: only the stream is re-attached
      ensures !old(closed) && data.id in old(connections) ==>
                && connections == old(connections) && watchers == old(watchers)
                && events == old(events) && armed == old(armed)
                && attached == old(attached) + [data.id]
                && r == (if attachOk then Connected else Failed(ErrAttachFailed(data.id)))
      // open, new id, start fails: a wrapped error and nothing registered
      ensures !old(closed) && data.id !in old(connections) && !startOk ==>
                && r == Failed(ErrStartFailed(id, data.id))
                && connections == old(connections) && watchers == old(watchers)
                && events == old(events) && attached == old(attached) && armed == old(armed)
      // open, new id, start succeeds: exactly this id is added and announced once
      ensures !old(closed) && data.id !in old(connections) && startOk ==>
                && connections == old(connections)[data.id := data]
                && watchers == old(watchers) + {data.id}
                && events == old(events) + [ConnectionCreated(id, data)]
                && attached == old(attached) + [data.id]
                && r == (if attachOk then Connected else Failed(ErrAttachFailed(data.id)))
    {
      if closed {
        return Failed(ErrClosed);
      }
      if data.id !in connections {
        var ok := AddConnection(data, startOk);
        if !ok {
          return Failed(ErrStartFailed(id, data.id));
        }
      }
      attached := attached + [data.id];
      r := if attachOk then Connected else Failed(ErrAttachFailed(data.id));
    }

    /** Session(): when closed, a Closed report with no connections and no GPUs; when
        open, an Active report listing each live connection exactly once and the
        reservation's GPUs. Id, version and persistence are always copied. */
    method Snapshot() returns (s: SessionReport)
      requires Valid()
      ensures s.id == id && s.version == version && s.persistent == persistent
      ensures closed ==> s.state == StateClosed && s.gpus == [] && s.connections == []
      ensures !closed ==> s.state == StateActive && s.gpus == gpus
      ensures !closed ==> IdsOf(s.connections) == connections.Keys && DistinctIds(s.connections)
      ensures !closed ==> |s.connections| == |connections|
      ensures forall i :: 0 <= i < |s.connections| ==>
                s.connections[i].id in connections && s.connections[i] == connections[s.connections[i].id]
    {
      var list: seq<ConnectionData> := [];
      var gpuList: seq<GpuDescriptor> := [];
      var state := StateClosed;
      if !closed {
        list := ListConnections(connections);
        gpuList := gpus;
        state := StateActive;
      }
      s := SessionReport(id, state, version, gpuList, list, persistent);
    }
  }
}
