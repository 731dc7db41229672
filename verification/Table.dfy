/** The mutable table of table.go: a seat array, the player index and the version counter,
    each method tied to the value-level transition it performs. */
module Tables {
  import opened Basics
  import opened Seating

  class Table {
    const id: string
    const seats: array<Option<Player>>
    var playerSeat: map<string, int>
    var version: nat

    ghost var Value: TableState

    ghost predicate Valid()
      reads this, seats
    {
      && seats.Length == MAX_PLAYERS
      && Value == TableState(id, seats[..], playerSeat, version)
      && Seating.Valid(Value)
    }

    constructor (tableId: string)
      ensures Valid() && fresh(seats)
      ensures Value == NewTable(tableId)
    {
      id := tableId;
      seats := new Option<Player>[MAX_PLAYERS](_ => None);
      playerSeat := map[];
      version := 0;
      Value := NewTable(tableId);
      new;
      assert seats[..] == NO_SEATS;
    }

    method Join(playerId: string, nickname: string, stack: int, preferred: Option<int>)
      returns (snapshot: Option<Snapshot>, stamp: nat, error: Option<TableError>)
      requires Valid()
      modifies this, seats
      ensures Valid()
      ensures Moved(Value, error) == Seating.Join(old(Value), playerId, nickname, stack, preferred)
      ensures stamp == version && snapshot == if error.None? then Some(SnapshotOf(Value)) else None
    {
      JoinEffect(Value, playerId, nickname, stack, preferred);
      if playerId in playerSeat {
        var current := TakeSnapshot();
        return Some(current), version, None;
      }
      var choice := ChooseSeat(preferred);
      if choice.Rejected? {
        return None, version, Some(choice.error);
      }
      seats[choice.index] := Some(Player(playerId, nickname, choice.index, stack));
      playerSeat := playerSeat[playerId := choice.index];
      version := version + 1;
      Value := Seating.Join(Value, playerId, nickname, stack, preferred).table;
      var joined := TakeSnapshot();
      return Some(joined), version, None;
    }

    method Leave(playerId: string) returns (snapshot: Option<Snapshot>, stamp: nat, error: Option<TableError>)
      requires Valid()
      modifies this, seats
      ensures Valid()
      ensures Moved(Value, error) == Seating.Leave(old(Value), playerId)
      ensures stamp == version && snapshot == if error.None? then Some(SnapshotOf(Value)) else None
    {
      LeaveEffect(Value, playerId);
      if playerId !in playerSeat {
        return None, version, Some(PlayerNotFound);
      }
      seats[playerSeat[playerId]] := None;
      playerSeat := playerSeat - {playerId};
      version := version + 1;
      Value := Seating.Leave(Value, playerId).table;
      var left := TakeSnapshot();
      return Some(left), version, None;
    }

    // The scan of the seats for a free one, or the check of the seat that was asked for.
    method ChooseSeat(preferred: Option<int>) returns (choice: SeatChoice)
      requires Valid()
      ensures choice == AllocateSeat(seats[..], preferred)
    {
      if preferred.Some? {
        if preferred.value < 0 || preferred.value >= MAX_PLAYERS {
          return Rejected(SeatInvalid);
        }
        if seats[preferred.value].Some? {
          return Rejected(SeatTaken);
        }
        return Chosen(preferred.value);
      }
      for i := 0 to MAX_PLAYERS
        invariant FirstFree(seats[..], 0) == FirstFree(seats[..], i)
      {
        if seats[i].None? {
          return Chosen(i);
        }
      }
      return Rejected(TableFull);
    }

    /** Collects the occupied seats and sorts them by seat number. */
    method TakeSnapshot() returns (snapshot: Snapshot)
      requires Valid()
      ensures snapshot == SnapshotOf(Value)
    {
      var players: seq<Player> := [];
      for i := 0 to MAX_PLAYERS
        invariant players == Occupants(seats[..i])
      {
        assert seats[..i + 1][..i] == seats[..i];
        if seats[i].Some? {
          players := players + [seats[i].value];
        }
      }
      assert seats[..MAX_PLAYERS] == seats[..];
      OccupantsListed(seats[..]);
      var sorted := SortBySeat(players);
      forall x
        ensures x in sorted <==> x in players
      {
        assert x in sorted <==> x in multiset(sorted);
        assert x in players <==> x in multiset(players);
      }
      StrictlySorted(sorted, players);
      SortedListUnique(sorted, players);
      return Snapshot(id, MAX_PLAYERS, MIN_PLAYERS_TO_START, |sorted|, |sorted| >= MIN_PLAYERS_TO_START, sorted);
    }

    /** Replaces the whole table by a stored snapshot, or refuses and changes nothing. */
    method Restore(snapshot: Snapshot, stamp: nat) returns (error: Option<TableError>)
      requires Valid()
      modifies this, seats
      ensures Valid()
      ensures Moved(Value, error) == Seating.Restore(old(Value), snapshot, stamp)
    {
      RestoreCharacterised(Value, snapshot, stamp);
      if snapshot.tableId != "" && snapshot.tableId != id {
        return Some(SnapshotInvalid);
      }
      var rebuilt := new Option<Player>[MAX_PLAYERS](_ => None);
      assert rebuilt[..] == NO_SEATS;
      var index := FillSeats(snapshot.players, rebuilt);
      if index.None? {
        return Some(SnapshotInvalid);
      }
      forall i | 0 <= i < MAX_PLAYERS {
        seats[i] := rebuilt[i];
      }
      assert seats[..] == rebuilt[..];
      playerSeat := index.value;
      version := stamp;
      Value := Seating.Restore(Value, snapshot, stamp).table;
      return None;
    }
  }

  // Seats the stored players one by one, giving up on the first unacceptable one.
  method FillSeats(players: seq<Player>, seats: array<Option<Player>>) returns (index: Option<map<string, int>>)
    requires seats[..] == NO_SEATS
    modifies seats
    ensures index.Some? <==> Rebuild(players).Some?
    ensures index.Some? ==> Rebuild(players) == Some(Rebuilt(seats[..], index.value))
  {
    var playerSeat: map<string, int> := map[];
    for i := 0 to |players|
      invariant Rebuild(players[..i]) == Some(Rebuilt(seats[..], playerSeat))
    {
      var player := players[i];
      assert players[..i + 1][..i] == players[..i];
      if player.playerId == "" || player.seatIndex < 0 || player.seatIndex >= MAX_PLAYERS
         || player.playerId in playerSeat || seats[player.seatIndex].Some? {
        RebuildPrefixFails(players, i + 1);
        return None;
      }
      seats[player.seatIndex] := Some(player);
      playerSeat := playerSeat[player.playerId := player.seatIndex];
    }
    assert players[..|players|] == players;
    return Some(playerSeat);
  }

  ghost predicate Ordered(players: seq<Player>) {
    forall i, j | 0 <= i < j < |players| :: players[i].seatIndex <= players[j].seatIndex
  }

  // The library sort, by seat number.
  method SortBySeat(players: seq<Player>) returns (sorted: seq<Player>)
    ensures multiset(sorted) == multiset(players)
    ensures Ordered(sorted)
  {
    sorted := [];
    for n := 0 to |players|
      invariant multiset(sorted) == multiset(players[..n])
      invariant Ordered(sorted)
    {
      assert players[..n + 1] == players[..n] + [players[n]];
      sorted := InsertBySeat(sorted, players[n]);
    }
    assert players[..|players|] == players;
  }

  method InsertBySeat(sorted: seq<Player>, x: Player) returns (longer: seq<Player>)
    requires Ordered(sorted)
    ensures Ordered(longer)
    ensures multiset(longer) == multiset(sorted) + multiset{x}
  {
    var at := |sorted|;
    while at > 0 && x.seatIndex < sorted[at - 1].seatIndex
      invariant 0 <= at <= |sorted|
      invariant forall k | at <= k < |sorted| :: x.seatIndex < sorted[k].seatIndex
    {
      at := at - 1;
    }
    InsertionOrdered(sorted, at, x);
    assert sorted == sorted[..at] + sorted[at..];
    longer := sorted[..at] + [x] + sorted[at..];
  }

  lemma InsertionOrdered(sorted: seq<Player>, at: nat, x: Player)
    requires Ordered(sorted) && at <= |sorted|
    requires at > 0 ==> sorted[at - 1].seatIndex <= x.seatIndex
    requires forall k | at <= k < |sorted| :: x.seatIndex < sorted[k].seatIndex
    ensures Ordered(sorted[..at] + [x] + sorted[at..])
  {
    var longer := sorted[..at] + [x] + sorted[at..];
    forall i, j | 0 <= i < j < |longer|
      ensures longer[i].seatIndex <= longer[j].seatIndex
    {
      var a, b := if i <= at then i else i - 1, if j <= at then j else j - 1;
      assert i != at ==> longer[i] == sorted[a];
      assert j != at ==> longer[j] == sorted[b];
      if j == at {
        assert sorted[i].seatIndex <= sorted[at - 1].seatIndex;
      }
    }
  }

  /** Sorting a list with distinct seats leaves no two equal neighbours. */
  lemma StrictlySorted(sorted: seq<Player>, players: seq<Player>)
    requires multiset(sorted) == multiset(players) && SeatSorted(players)
    requires Ordered(sorted)
    ensures SeatSorted(sorted)
  {
    DistinctBag(players);
    forall i, j | 0 <= i < j < |sorted|
      ensures sorted[i].seatIndex < sorted[j].seatIndex
    {
      assert sorted[i] in multiset(sorted) && sorted[j] in multiset(sorted);
      assert sorted[i] in players && sorted[j] in players;
      assert sorted == sorted[..i] + [sorted[i]] + sorted[i + 1..j] + [sorted[j]] + sorted[j + 1..];
      assert sorted[i] == sorted[j] ==> multiset(sorted)[sorted[i]] >= 2;
    }
  }

  lemma {:induction false} RebuildPrefixFails(players: seq<Player>, n: nat)
    requires n <= |players| && Rebuild(players[..n]).None?
    ensures Rebuild(players).None?
    decreases |players| - n
  {
    if n == |players| {
      assert players[..n] == players;
    } else {
      assert players[..n + 1][..n] == players[..n];
      RebuildPrefixFails(players, n + 1);
    }
  }
}
