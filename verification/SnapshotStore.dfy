/** Saved table snapshots: the projection that Save writes and the rebuild that Load performs.
    The key-value store itself is a map. */
module SnapshotStore {
  import opened Basics
  import opened Seating

  // What is written: the derived fields of a snapshot are dropped.
  datatype Persisted = Persisted(tableId: string, version: nat, players: seq<Player>)

  type Saved = map<string, Persisted>

  function Project(snapshot: Snapshot, version: nat): Persisted {
    Persisted(snapshot.tableId, version, snapshot.players)
  }

  function Save(saved: Saved, snapshot: Snapshot, version: nat): Saved {
    saved[snapshot.tableId := Project(snapshot, version)]
  }

  function Load(saved: Saved, tableId: string): Option<(Snapshot, nat)> {
    if tableId !in saved then None
    else
      var p := saved[tableId];
      Some((Snapshot(p.tableId, MAX_PLAYERS, MIN_PLAYERS_TO_START, |p.players|, |p.players| >= MIN_PLAYERS_TO_START,
          p.players),
            p.version))
  }

  // What a restart makes of a table: loaded if there is something to load, and fresh if that fails.
  function Recover(saved: Saved, tableId: string): TableState {
    match Load(saved, tableId)
    case None => NewTable(tableId)
    case Some((snapshot, version)) => Restore(NewTable(tableId), snapshot, version).table
  }

  /** Dropping and recomputing the derived fields loses nothing, and the restored table is the saved one. */
  lemma SaveThenRecover(saved: Saved, t: TableState)
    requires Seating.Valid(t) && NamedPlayers(t)
    ensures Load(Save(saved, SnapshotOf(t), t.version), t.id) == Some((SnapshotOf(t), t.version))
    ensures Recover(Save(saved, SnapshotOf(t), t.version), t.id) == t
  {
    RestoreRoundTrip(t);
  }
}
