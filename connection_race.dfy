/**
 * The order of addConnection's steps against the steps of the watcher it spawns.
 *
 * The session class performs addConnection as one atomic step. In the source it is
 * several: the watcher task is spawned (session.go:182) before the connection is
 * stored in the map (:197) and announced (:200), and the watcher runs on its own as
 * soon as it is spawned. This module splits both into their steps, shows the
 * interleaving in which the written order loses the invariant, and shows that
 * storing and announcing before spawning keeps it, which is the order the atomic
 * step of the class stands for.
 */
module ConnectionRace {
  import opened SessionEvents

  /** What addConnection and the connection's watcher touch: the connection map, the
      running watchers and the listener's log. */
  datatype Registry = Registry(conns: map<ConnId, ConnectionData>, watchers: set<ConnId>, log: seq<Event>)

  /** One step of addConnection (Spawn, Store, AnnounceCreated) or of the watcher it
      spawns (Remove, then AnnounceClosed, after which the watcher returns). */
  datatype Step = Spawn | Store | AnnounceCreated | Remove | AnnounceClosed(exitCode: int)

  /** The session's invariant over these parts: one watcher per live connection, and
      a log that has announced every connection consistently. */
  ghost predicate Coherent(r: Registry) {
    r.watchers == r.conns.Keys && Balanced(r.log, r.conns)
  }

  /** The effect of one step concerning the connection d of session sid. */
  function Perform(r: Registry, sid: string, d: ConnectionData, step: Step): (r': Registry) {
    match step
    case Spawn => r.(watchers := r.watchers + {d.id})
    case Store => r.(conns := r.conns[d.id := d])
    case AnnounceCreated => r.(log := r.log + [ConnectionCreated(sid, d)])
    case Remove => r.(conns := r.conns - {d.id})
    case AnnounceClosed(code) => r.(log := r.log + [ConnectionClosed(sid, d, code)], watchers := r.watchers - {d.id})
  }

  /** The effect of a sequence of steps, performed in order. */
  function Run(r: Registry, sid: string, d: ConnectionData, steps: seq<Step>): (r': Registry)
    decreases |steps|
  {
    if steps == [] then r else Run(Perform(r, sid, d, steps[0]), sid, d, steps[1..])
  }

  /** The registry the written order leaves behind when the watcher runs between the
      spawn and the store. */
  lemma SpawnFirstSteps(r: Registry, sid: string, d: ConnectionData, code: int)
    ensures Run(r, sid, d, [Spawn, Remove, AnnounceClosed(code), Store, AnnounceCreated])
         == Registry((r.conns - {d.id})[d.id := d], r.watchers + {d.id} - {d.id},
                     r.log + [ConnectionClosed(sid, d, code)] + [ConnectionCreated(sid, d)])
  {
    var steps := [Spawn, Remove, AnnounceClosed(code), Store, AnnounceCreated];
    var r1 := Perform(r, sid, d, Spawn);
    var r2 := Perform(r1, sid, d, Remove);
    var r3 := Perform(r2, sid, d, AnnounceClosed(code));
    var r4 := Perform(r3, sid, d, Store);
    assert steps[1..] == [Remove, AnnounceClosed(code), Store, AnnounceCreated];
    assert steps[1..][1..] == [AnnounceClosed(code), Store, AnnounceCreated];
    assert steps[1..][1..][1..] == [Store, AnnounceCreated];
    assert steps[1..][1..][1..][1..] == [AnnounceCreated];
    assert Run(r, sid, d, steps) == Run(r1, sid, d, steps[1..]) == Run(r2, sid, d, steps[1..][1..]);
    assert Run(r2, sid, d, steps[1..][1..]) == Run(r3, sid, d, steps[1..][1..][1..]);
    assert Run(r3, sid, d, steps[1..][1..][1..]) == Run(r4, sid, d, steps[1..][1..][1..][1..]);
    assert [AnnounceCreated][1..] == [];
  }

  /**
   * As written, the watcher is spawned before the connection is stored. If the
   * connection's exit code arrives at once, the watcher removes the id (not yet
   * there), announces the close and returns; only then is the connection stored and
   * announced. The id stays in the map with no watcher to remove it, the log reports
   * the close before the creation, and the invariant is lost.
   */
  lemma SpawnBeforeStoreLeaksConnection(r: Registry, sid: string, d: ConnectionData, code: int)
    requires Coherent(r) && d.id !in r.conns
    ensures var r' := Run(r, sid, d, [Spawn, Remove, AnnounceClosed(code), Store, AnnounceCreated]);
      && r'.conns == r.conns[d.id := d]
      && d.id !in r'.watchers
      && r'.log == r.log + [ConnectionClosed(sid, d, code), ConnectionCreated(sid, d)]
      && !Balanced(r'.log, r'.conns)
      && !Coherent(r')
  {
    SpawnFirstSteps(r, sid, d, code);
    assert r.conns - {d.id} == r.conns;
    var closedLog := r.log + [ConnectionClosed(sid, d, code)];
    var log := closedLog + [ConnectionCreated(sid, d)];
    assert log == r.log + [ConnectionClosed(sid, d, code), ConnectionCreated(sid, d)];
    CountAppend(r.log, ConnectionClosed(sid, d, code), CreatedKey(d.id));
    CountAppend(r.log, ConnectionClosed(sid, d, code), ClosedKey(d.id));
    CountAppend(closedLog, ConnectionCreated(sid, d), CreatedKey(d.id));
    CountAppend(closedLog, ConnectionCreated(sid, d), ClosedKey(d.id));
    assert Count(r.log, CreatedKey(d.id)) == Count(r.log, ClosedKey(d.id));
    assert Count(log, CreatedKey(d.id)) == Count(log, ClosedKey(d.id));
  }

  /**
   * Storing and announcing the connection before spawning its watcher: the watcher's
   * steps can only follow addConnection's, so there is one interleaving. The
   * invariant holds once addConnection has returned, with the connection stored and
   * announced once, and again once the watcher has returned, with the map as before
   * and the creation announced before the close.
   */
  lemma StoreBeforeSpawnKeepsInvariant(r: Registry, sid: string, d: ConnectionData, code: int)
    requires Coherent(r) && d.id !in r.conns
    ensures var added := Run(r, sid, d, [Store, AnnounceCreated, Spawn]);
      && Coherent(added)
      && added.conns == r.conns[d.id := d]
      && added.log == r.log + [ConnectionCreated(sid, d)]
    ensures var exited := Run(Run(r, sid, d, [Store, AnnounceCreated, Spawn]), sid, d, [Remove, AnnounceClosed(code)]);
      && Coherent(exited)
      && exited.conns == r.conns
      && exited.log == r.log + [ConnectionCreated(sid, d), ConnectionClosed(sid, d, code)]
  {
    var conns := r.conns[d.id := d];
    var log := r.log + [ConnectionCreated(sid, d)];
    BalancedAfterCreate(r.log, r.conns, sid, d);
    var adding := [Store, AnnounceCreated, Spawn];
    assert adding[1..] == [AnnounceCreated, Spawn] && adding[1..][1..] == [Spawn];
    var added := Registry(conns, r.watchers + {d.id}, log);
    assert Run(r, sid, d, adding) == added;
    BalancedAfterClose(log, conns, sid, d.id, code);
    assert conns - {d.id} == r.conns;
    var exiting := [Remove, AnnounceClosed(code)];
    assert exiting[1..] == [AnnounceClosed(code)];
    assert r.watchers + {d.id} - {d.id} == r.watchers;
    var removed := Perform(added, sid, d, Remove);
    assert removed == Registry(r.conns, r.watchers + {d.id}, log);
    assert Run(added, sid, d, exiting) == Run(removed, sid, d, [AnnounceClosed(code)]);
    assert [AnnounceClosed(code)][1..] == [];
    assert Run(removed, sid, d, [AnnounceClosed(code)]) == Perform(removed, sid, d, AnnounceClosed(code));
    assert Run(added, sid, d, exiting) == Registry(r.conns, r.watchers, log + [ConnectionClosed(sid, d, code)]);
  }
}
