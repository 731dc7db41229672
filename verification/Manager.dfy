/** The table registry of manager.go: tables are created on first mention, and an operation on
    one of them leaves every other one alone. */
module TableManager {
  import opened Basics
  import opened Seating
  import Tables

  type TableMap = map<string, TableState>

  function TableAt(m: TableMap, id: string): TableState {
    if id in m then m[id] else NewTable(id)
  }

  // Every registered table is in order and stored under its own id.
  ghost predicate MapValid(m: TableMap) {
    forall id | id in m :: Seating.Valid(m[id]) && m[id].id == id
  }

  function Touch(m: TableMap, id: string): TableMap {
    m[id := TableAt(m, id)]
  }

  lemma TouchThenSet(m: TableMap, id: string, t: TableState)
    ensures Touch(m, id)[id := t] == m[id := t]
  {
  }

  lemma TableAtValid(m: TableMap, id: string)
    requires MapValid(m)
    ensures Seating.Valid(TableAt(m, id)) && TableAt(m, id).id == id
  {
  }

  class Manager {
    var tables: map<string, Tables.Table>
    ghost var View: TableMap
    ghost var Repr: set<object>

    // The registered tables are distinct objects with distinct seat arrays.
    ghost predicate Separate()
      reads this
    {
      && this in Repr
      && (forall id | id in tables :: {tables[id], tables[id].seats} <= Repr)
      && (forall a, b | a in tables && b in tables && a != b ::
           tables[a] != tables[b] && tables[a].seats != tables[b].seats)
    }

    ghost predicate Valid()
      reads this, Repr
    {
      Separate() && View.Keys == tables.Keys && forall id | id in tables :: Holds(tables[id], id, View[id])
    }

    static ghost predicate Holds(table: Tables.Table, id: string, value: TableState)
      reads table, table.seats
    {
      table.Valid() && table.Value == value && table.id == id
    }

    // After one table was changed in place, the view is brought up to date; the others still hold.
    ghost method Record(id: string)
      requires Separate() && View.Keys == tables.Keys && id in tables
      requires forall k | k in tables && k != id :: Holds(tables[k], k, View[k])
      requires tables[id].Valid() && tables[id].id == id
      modifies this`View
      ensures Valid() && View == old(View)[id := tables[id].Value]
    {
      View := View[id := tables[id].Value];
    }

    constructor (defaultTableId: string)
      ensures Valid() && fresh(Repr)
      ensures View == map[defaultTableId := NewTable(defaultTableId)]
    {
      var table := new Tables.Table(defaultTableId);
      tables := map[defaultTableId := table];
      View := map[defaultTableId := NewTable(defaultTableId)];
      Repr := {this, table, table.seats};
    }

    lemma ViewValid()
      requires Valid()
      ensures MapValid(View)
    {
      forall id | id in View
        ensures Seating.Valid(View[id]) && View[id].id == id
      {
        assert id in tables;
      }
    }

    method Register(id: string, table: Tables.Table)
      requires Valid() && id !in tables
      requires table !in Repr && table.seats !in Repr && Holds(table, id, NewTable(id))
      modifies this
      ensures Valid() && Repr == old(Repr) + {table, table.seats}
      ensures tables == old(tables)[id := table] && View == old(View)[id := NewTable(id)]
    {
      tables := tables[id := table];
      View := View[id := NewTable(id)];
      Repr := Repr + {table, table.seats};
    }

    method GetOrCreateTable(id: string) returns (table: Tables.Table)
      requires Valid()
      modifies this
      ensures Valid() && fresh(Repr - old(Repr)) && old(Repr) <= Repr
      ensures View == Touch(old(View), id)
      ensures id in tables && tables[id] == table
    {
      if id in tables {
        table := tables[id];
        assert View[id := View[id]] == View;
        return;
      }
      table := new Tables.Table(id);
      Register(id, table);
    }

    method Join(id: string, playerId: string, nickname: string, stack: int, preferred: Option<int>)
      returns (snapshot: Option<Snapshot>, stamp: nat, error: Option<TableError>)
      requires Valid()
      modifies Repr
      ensures Valid() && fresh(Repr - old(Repr)) && old(Repr) <= Repr
      ensures var t := TableAt(old(View), id);
              && error == Seating.Join(t, playerId, nickname, stack, preferred).error
              && View == old(View)[id := Seating.Join(t, playerId, nickname, stack, preferred).table]
      ensures stamp == View[id].version
      ensures snapshot == if error.None? then Some(SnapshotOf(View[id])) else None
    {
      ViewValid();
      var table := GetOrCreateTable(id);
      snapshot, stamp, error := table.Join(playerId, nickname, stack, preferred);
      Record(id);
      TouchThenSet(old(View), id, table.Value);
    }

    method Leave(id: string, playerId: string)
      returns (snapshot: Option<Snapshot>, stamp: nat, error: Option<TableError>)
      requires Valid()
      modifies Repr
      ensures Valid() && fresh(Repr - old(Repr)) && old(Repr) <= Repr
      ensures error == Seating.Leave(TableAt(old(View), id), playerId).error
      ensures View == old(View)[id := Seating.Leave(TableAt(old(View), id), playerId).table]
      ensures stamp == View[id].version
      ensures snapshot == if error.None? then Some(SnapshotOf(View[id])) else None
    {
      var table := GetOrCreateTable(id);
      snapshot, stamp, error := table.Leave(playerId);
      Record(id);
      TouchThenSet(old(View), id, table.Value);
    }

    method Snapshot(id: string) returns (snapshot: Snapshot, stamp: nat)
      requires Valid()
      modifies this
      ensures Valid() && fresh(Repr - old(Repr)) && old(Repr) <= Repr
      ensures View == Touch(old(View), id)
      ensures snapshot == SnapshotOf(View[id]) && stamp == View[id].version
    {
      var table := GetOrCreateTable(id);
      snapshot := table.TakeSnapshot();
      stamp := table.version;
    }

    method Restore(id: string, snapshot: Snapshot, stored: nat) returns (error: Option<TableError>)
      requires Valid()
      modifies Repr
      ensures Valid() && fresh(Repr - old(Repr)) && old(Repr) <= Repr
      ensures error == Seating.Restore(TableAt(old(View), id), snapshot, stored).error
      ensures View == old(View)[id := Seating.Restore(TableAt(old(View), id), snapshot, stored).table]
    {
      var table := GetOrCreateTable(id);
      error := table.Restore(snapshot, stored);
      Record(id);
      TouchThenSet(old(View), id, table.Value);
    }
  }
}
