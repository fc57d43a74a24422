# Agent session lifecycle, modelled in Dafny

This project models the session lifecycle of the GPU agent (`cmd/agent/app/session.go`).
A session owns a GPU reservation, a map from connection id to connection, a task manager
whose cancellation means "this session should stop", and a guarded `closed` flag. Clients
attach duplex streams with `Connect`. `Connect` finds or creates the connection and hands it
the stream. Each connection has a watcher that removes it from the map when it exits. An
idle ticker cancels a non-persistent session after a period without connections. A closing
watcher performs the single teardown: set `closed`, join the task manager, close the
broadcast signals, release the GPUs, then emit `SessionClosed`.

The source runs all of this on goroutines that talk over channels. The model is a sequential
state machine: one class `AgentSession.Session` whose methods are the events. Each method
is one atomic wake-up of one goroutine or one arm of a `select`:

- `Connect` and its helper `AddConnection`;
- `Cancel`, and `CancelParent` for the parent scope;
- `WakeClosingWatcher` (the closing watcher's `select`) and `FinishTeardown` (its `Wait`
  returning);
- the ticker's three arms: `Tick`, `OnConnectionsChanged` and `OnSessionClosing`;
- `ConnectionExited`, the connection watcher's receive.

The fields record what the outside world can observe:

- the listener's event log;
- how many times the GPUs have been released;
- which connection was handed each stream;
- the teardown steps, in order.

The class invariant `Valid()` ties these together. It is an invariant of this atomic
model. The source splits `addConnection` into steps that another goroutine can interleave
with, and one such interleaving breaks the first and the sixth item (see "## Findings"):

- every live connection has exactly one watcher and is stored under its own id;
- `closed` is set exactly when the closing watcher has left its `select`, and never cleared;
- the teardown has not begun while the closing watcher is in its `select`, and has
  finished once the watcher has returned;
- the GPUs are released once, and only after every connection watcher has returned;
- `SessionClosed` is emitted as often as the GPUs have been released, and it is the last event;
- for every id, the `ConnectionCreated` events outnumber the `ConnectionClosed` events by
  one exactly when the id is live;
- a non-persistent session's ticker runs until the closing signal;
- while the ticker runs, the timer counts exactly when the map is empty.

Files:

- `session_events.dfy` (module `SessionEvents`): connection data, events, errors, the
  report type and the event-count lemmas.
- `session.dfy` (module `AgentSession`): the `Session` class and the snapshot loop.
- `session_scenarios.dfy` (module `SessionScenarios`): facts that follow from the invariant,
  and end-to-end client runs built from the methods' contracts.
- `connection_race.dfy` (module `ConnectionRace`): `addConnection` and the watcher it
  spawns, split into their separate steps, to compare the written order of those steps
  with the order the atomic model assumes.

Outcomes decided by code outside this model are parameters of the event methods:

- whether starting a connection succeeds (`startOk`);
- whether handing it the stream succeeds (`attachOk`);
- whether the task manager's `Wait` reported an error (`joinFailed`);
- a connection's exit code.

## Model

| member | source | states |
|---|---|---|
| `AgentSession.Session.constructor` | cmd/agent/app/session.go:42-56 | A new, started session is open and not cancelled. It has no connections, watchers or events and has released nothing. It runs an armed idle ticker exactly when it is not persistent (Run, lines 112-114). |
| `AgentSession.Session.Cancel` | cmd/agent/app/session.go:142-148 | The cancelled bit becomes set while the session is open. Once closed, Cancel leaves the bit as it was. Nothing else changes, so calling Cancel twice is the same as calling it once. |
| `AgentSession.Session.CancelParent` | cmd/agent/app/session.go:87-90 | The parent scope passed to Run becomes done. The task manager's scope is left as it was; on this path, only the closing watcher's Cancel at line 91 cancels it. |
| `AgentSession.Session.WakeClosingWatcher` | cmd/agent/app/session.go:88-98 | This step fires on either select arm: parent done, or the session's own scope cancelled. On the parent arm the session cancels itself first. The session is still open then, so that Cancel is what cancels the task manager. Both arms end cancelled and closed, with MarkClosed as the first teardown step. The invariant is preserved. |
| `AgentSession.Session.FinishTeardown` | cmd/agent/app/session.go:100-109 | This step is enabled only after the closing watcher has marked the session closed and every connection watcher has returned (its requires). Then the GPUs are released exactly once in total, and exactly one SessionClosed is appended as the last event. It returns the join error unchanged, and the error does not prevent the release. |
| `AgentSession.Session.Tick` | cmd/agent/app/session.go:123-124 | A tick is possible only while the ticker runs and its timer is armed. It has the effect of Cancel. |
| `AgentSession.Session.OnConnectionsChanged` | cmd/agent/app/session.go:126-131 | After a connections-changed signal the timer is armed if and only if the connection map is empty. The whole invariant then holds. |
| `AgentSession.Session.OnSessionClosing` | cmd/agent/app/session.go:117-121 | The closing signal is received only after teardown. The ticker's loop ends and its timer is stopped. |
| `AgentSession.Session.SignalConnectionsChanged` | cmd/agent/app/session.go:198 | The connections-changed send meets the ticker of a non-persistent session, which applies the arm/disarm rule. A persistent session has no ticker, and its timer stays as it was. |
| `AgentSession.Session.ConnectionExited` | cmd/agent/app/session.go:182-195 | The watcher of live connection c removes only c from the map and from the watcher set. It appends exactly ConnectionClosed(session id, c's data, exit code) and keeps the invariant. |
| `AgentSession.Session.AddConnection` | cmd/agent/app/session.go:171-203 | If start fails, the map, the watcher set, the log and the timer are unchanged. Otherwise the new id gets a watcher and is mapped to its data, every other entry is unchanged, and exactly one ConnectionCreated is appended. |
| `AgentSession.Session.Connect` | cmd/agent/app/session.go:150-169 | Closed session: ErrClosed, and the map, watchers, log, stream list and timer are unchanged. Known id: only the stream is re-attached, with no new connection and no event, and the result is the attach outcome. New id with a failed start: a wrapped error naming the session and the connection, and nothing is registered. New id that starts: exactly that id is added and announced once, and the stream is attached. |
| `AgentSession.Session.Snapshot` | cmd/agent/app/session.go:58-85 | Id, version and the persistent flag are always copied through. When closed, the state is Closed with empty connection and GPU lists. When open, the state is Active with the reservation's GPUs and a list that holds each live connection exactly once: its ids are the map's keys, distinct, and as many as the map's entries. |
| `AgentSession.ListConnections` | cmd/agent/app/session.go:65-70 | The loop over the map yields each entry once, in unspecified order: the ids are exactly the map's keys, no id is repeated, the length equals the map's size, and each entry is the map's value for its id. |
| `AgentSession.ListedStep` | cmd/agent/app/session.go:66-68 | Appending the entry of one more unvisited key keeps the list a duplicate-free listing of the visited keys' entries. |
| `SessionEvents.DistinctIdsCount` | cmd/agent/app/session.go:60-70 | A list of connections with distinct ids has as many ids as entries. |
| `SessionEvents.CountAppend` | cmd/agent/app/session.go:200 | Emitting one event adds one to the count of its own kind and connection, and nothing to any other count. |
| `SessionEvents.BalancedAfterCreate` | cmd/agent/app/session.go:197-200 | Storing a new connection and announcing it keeps, for every id, created = closed + (1 if live else 0). No SessionClosed is added. |
| `SessionEvents.BalancedAfterClose` | cmd/agent/app/session.go:189-192 | Removing a live connection and announcing its exit keeps that balance. No SessionClosed is added. |
| `SessionEvents.BalancedAfterSessionClosed` | cmd/agent/app/session.go:107 | Emitting SessionClosed keeps the connection balance and adds exactly one SessionClosed. |
| `SessionEvents.ClosedNeverExceedsCreated` | cmd/agent/app/session.go:182-200 | In a balanced log no connection is reported closed more often than created, nor created more than once beyond its closes. It is live if and only if it was created more often than closed. |
| `SessionScenarios.PersistentNeverTimesOut` | cmd/agent/app/session.go:112 | A persistent session never runs a ticker, so its timer never counts and no tick can cancel it. |
| `SessionScenarios.LiveConnectionsStopTimer` | cmd/agent/app/session.go:126-131 | While any connection is live, the idle timer is stopped. |
| `SessionScenarios.TornDownSessionIsFinal` | cmd/agent/app/session.go:98-107 | After teardown: closed, the full teardown order, GPUs released once, one SessionClosed and it is the last event, no connections and no watchers. |
| `SessionScenarios.OpenSessionHoldsGpus` | cmd/agent/app/session.go:105-107 | Before teardown the GPUs have not been released, and the log holds no SessionClosed. |
| `SessionScenarios.IdleSessionCloses` | cmd/agent/app/session.go:112-128 | A non-persistent session nobody connects to: a tick, the closing watcher and the teardown release the GPUs once and emit SessionClosed once. Session() then reports it closed, with no connections and no GPUs. |
| `SessionScenarios.ConnectThenExit` | cmd/agent/app/session.go:150-203 | Connecting a new id and exiting with status 0 logs exactly [ConnectionCreated, ConnectionClosed(..., 0)]. The map goes 1 to 0. The timer is stopped while the connection is live and afterwards re-armed exactly when the session is not persistent. |
| `SessionScenarios.ReconnectReattaches` | cmd/agent/app/session.go:155-164 | A second Connect with the same id re-attaches the stream. There is one ConnectionCreated, one live connection, and two streams handed to that id. |
| `SessionScenarios.ConnectAfterParentCancel` | cmd/agent/app/session.go:88-98 | Cancelling the parent leaves the task manager running until the closing watcher's parent arm cancels it. Once that arm has marked the session closed, Connect fails with ErrClosed and changes neither the log nor the map (lines 153, 167). |
| `ConnectionRace.SpawnBeforeStoreLeaksConnection` | cmd/agent/app/session.go:182-200 | In the written order, the watcher is spawned before the Set. If the exit code arrives first, the id ends in the map with no watcher. The log then shows ConnectionClosed before ConnectionCreated and is no longer balanced. |
| `ConnectionRace.StoreBeforeSpawnKeepsInvariant` | cmd/agent/app/session.go:182-200 | Storing and announcing the connection before its watcher is spawned keeps one watcher per live id and a balanced log. This holds after addConnection returns, and again after the watcher returns with the map as it was. |

## Left out

- `cmd/agent/app/endpoints.go` is not part of this model. It is HTTP routing, JSON
  request and response handling, connection hijacking and logging.
- Real concurrency: goroutines, channels, `select`, the lock of the guarded flag and the
  thread-safe map. Every wake-up is one atomic method, and interleavings inside a wake-up
  are not verified.
- The unbuffered connections-changed channel (line 51) is sent on at lines 190 and 198.
  Only the ticker of a non-persistent session receives from it, so for a persistent session
  those sends would block forever. The model treats the send as having no effect for a
  persistent session (`SignalConnectionsChanged`) instead of blocking.
- `Connect` holds the flag's lock while sending on that channel (lines 153, 198). The
  ticker's `Cancel` needs the same lock (lines 124, 143), so the two can block each other.
  That hazard is outside a sequential model.
- `AddConnection` and `ConnectionExited`: the connections-changed send and the listener
  notification happen in the same atomic step. The model does not order them; the source
  sends first.
- The wall-clock ticker and its 30-second period are left out. The timer is an `armed` flag
  and `Tick` an event enabled only while it is armed. Because time is not modelled, neither
  is the full 30-second window after a re-arm.
- External code is abstracted:
  - the task manager is a cancelled bit plus the set of running connection watchers; the
    connection's own tasks, started by `Connection.Start`, are not modelled;
  - `Connection.Start` and `Connection.Connect` are success flags;
  - the reservation's `GetGpus` is a fixed list, `Release` a counter, and
    `GetPciBusString` and the juice path are not modelled;
  - the aggregated error of `Wait` is a parameter.
- `AgentSession.Session.AddConnection`: the source spawns the connection's watcher
  (line 182) before storing the connection (line 197). A watcher that gets the exit code
  first removes and announces the connection before it is stored. The connection then
  stays in the map with no watcher, and a non-persistent session's timer stays stopped.
  The class performs `addConnection` atomically, in the store-first order, so its
  invariant does not hold for that interleaving. `ConnectionRace` models the split steps
  (see "## Findings").
- `AgentSession.Session.CancelParent`: the model treats the parent scope passed to `Run`
  as independent of the context the task manager is built from (line 53). Which context
  the caller passes is decided outside `session.go`. A task manager cancelled together
  with the parent corresponds to `CancelParent` followed by `Cancel`, which the model
  also allows.
- `ConnectionExited`: the panic on a closed exit-code channel (lines 184-186) is not
  modelled. The watcher receives exactly one exit code per connection.
- `Tick`: a tick already buffered in the ticker's channel when it is stopped is not
  modelled. Ticks arrive only while the timer is armed.
- `OnConnectionsChanged` may also fire after the channel is closed at line 102. The model
  allows that while the ticker runs; it only re-evaluates the map, which is then empty.
- The constructor stands for `newSession` followed by `Run`. The agent starts a session
  before any client can connect to it.
- Logging, and error messages beyond which error kind is returned.

## Findings

| source | as written | input that shows it | evidently intended | confidence | as-written member | corrected member |
|---|---|---|---|---|---|---|
| cmd/agent/app/session.go:182-200 | `addConnection` spawns the connection's watcher before it stores and announces the connection | a connection whose exit code reaches the watcher before line 197 runs: Delete (189) and ConnectionClosed (192) run before Set (197) and ConnectionCreated (200) | store and announce the connection, then spawn its watcher, so that the watcher can only remove a stored connection | not executed; follows from the order of the statements | `ConnectionRace.SpawnBeforeStoreLeaksConnection` | `ConnectionRace.StoreBeforeSpawnKeepsInvariant` |
