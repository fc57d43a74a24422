/**
 * Clients of the session model: what the session's contracts let a caller
 * conclude about whole runs, and the invariants restated as facts about any
 * session reachable through its events.
 */
module SessionScenarios {
  import opened SessionEvents
  import opened AgentSession

  /** A persistent session never runs an idle ticker, so its timer never counts
      and no tick can cancel it, whatever its connections. */
  lemma PersistentNeverTimesOut(s: Session)
    requires s.Valid() && s.persistent
    ensures !s.tickerRunning && !s.armed
  {
  }

  /** While any connection is live, the idle timer is stopped. */
  lemma LiveConnectionsStopTimer(s: Session)
    requires s.Valid() && s.connections != map[]
    ensures !s.armed
  {
  }

  /** Once the closing watcher has returned, the teardown has run completely and in
      order, the GPUs have been released exactly once, SessionClosed has been
      emitted exactly once and last, and no connection is left. */
  lemma TornDownSessionIsFinal(s: Session)
    requires s.Valid() && s.closer == Finished
    ensures s.closed && s.teardown == TeardownOrder
    ensures s.gpusReleased == 1 && Count(s.events, SessionClosedKey) == 1
    ensures s.events[|s.events| - 1] == SessionClosed(s.id)
    ensures s.connections == map[] && s.watchers == {}
  {
  }

  /** Before the teardown the GPUs have not been released and SessionClosed has not
      been emitted. */
  lemma OpenSessionHoldsGpus(s: Session)
    requires s.Valid() && s.closer != Finished
    ensures s.gpusReleased == 0 && Count(s.events, SessionClosedKey) == 0
    ensures forall i :: 0 <= i < |s.events| ==> !s.events[i].SessionClosed?
  {
    forall i | 0 <= i < |s.events| ensures !s.events[i].SessionClosed? {
      if s.events[i].SessionClosed? {
        CountPositive(s.events, i, SessionClosedKey);
      }
    }
  }

  /** A log holding an event with key k counts k at least once. */
  lemma {:induction false} CountPositive(log: seq<Event>, i: nat, k: EventKey)
    requires i < |log| && KeyOf(log[i]) == k
    ensures Count(log, k) > 0
  {
    if i > 0 {
      CountPositive(log[1..], i - 1, k);
    }
  }

  /** A non-persistent session nobody connects to: the idle timer fires, the session
      cancels itself, the closing watcher tears it down; the GPUs are released once,
      SessionClosed is emitted once and Session() then reports it closed. */
  method IdleSessionCloses(sid: string, version: string, gpus: seq<GpuDescriptor>)
    returns (released: nat, sessionClosedEvents: nat, report: SessionReport)
    ensures released == 1 && sessionClosedEvents == 1
    ensures report.state == StateClosed && report.connections == [] && report.gpus == []
    ensures report.id == sid && report.version == version && !report.persistent
  {
    var s := new Session(sid, version, false, gpus);
    s.Tick();
    s.WakeClosingWatcher(false);
    var _ := s.FinishTeardown(false);
    report := s.Snapshot();
    released := s.gpusReleased;
    CountAppend([], SessionClosed(sid), SessionClosedKey);
    sessionClosedEvents := Count(s.events, SessionClosedKey);
  }

  /** A connection is created, reported once, and later exits with status 0: it is
      reported closed once with that status and the map is empty again, which re-arms
      the idle timer of a non-persistent session. */
  method ConnectThenExit(sid: string, persistent: bool, data: ConnectionData)
    returns (r: ConnectResult, log: seq<Event>, liveWhileOpen: nat, liveAfterExit: nat,
             armedWhileOpen: bool, armedAfterExit: bool)
    ensures r == Connected
    ensures log == [ConnectionCreated(sid, data), ConnectionClosed(sid, data, 0)]
    ensures liveWhileOpen == 1 && liveAfterExit == 0
    ensures !armedWhileOpen && armedAfterExit == !persistent
  {
    var s := new Session(sid, "", persistent, []);
    r := s.Connect(data, true, true);
    liveWhileOpen := |s.connections|;
    armedWhileOpen := s.armed;
    s.ConnectionExited(data.id, 0);
    liveAfterExit := |s.connections|;
    armedAfterExit := s.armed;
    log := s.events;
  }

  /** Connecting again with a known id re-attaches the stream to the existing
      connection: nothing new is created or reported. */
  method ReconnectReattaches(sid: string, data: ConnectionData)
    returns (log: seq<Event>, live: nat, streams: seq<ConnId>)
    ensures log == [ConnectionCreated(sid, data)]
    ensures live == 1 && streams == [data.id, data.id]
  {
    var s := new Session(sid, "", false, []);
    var _ := s.Connect(data, true, true);
    var _ := s.Connect(data, true, true);
    log, live, streams := s.events, |s.connections|, s.attached;
  }

  /** Cancelling the parent scope alone leaves the task manager running; the closing
      watcher's parent arm cancels it. After that arm has marked the session closed, a
      Connect is rejected and changes nothing, even before the teardown has finished. */
  method ConnectAfterParentCancel(sid: string, data: ConnectionData)
    returns (r: ConnectResult, log: seq<Event>, live: nat, cancelledBeforeWake: bool, cancelled: bool)
    ensures !cancelledBeforeWake && cancelled
    ensures r == Failed(ErrClosed) && log == [] && live == 0
  {
    var s := new Session(sid, "", true, []);
    s.CancelParent();
    cancelledBeforeWake := s.cancelled;
    s.WakeClosingWatcher(true);
    r := s.Connect(data, true, true);
    log, live, cancelled := s.events, |s.connections|, s.cancelled;
  }
}
