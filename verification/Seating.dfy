/** The value of one table: nine seats, the player index and the version counter,
    with the transitions of table.go as functions of that value. */
module Seating {
  import opened Basics

  const MAX_PLAYERS := 9
  const MIN_PLAYERS_TO_START := 2

  datatype Player = Player(playerId: string, nickname: string, seatIndex: int, stack: int)

  datatype Snapshot = Snapshot(tableId: string, maxPlayers: int, minPlayersToStart: int,
                               activePlayers: int, canStart: bool, players: seq<Player>)

  datatype TableError = TableFull | SeatInvalid | SeatTaken | PlayerNotFound | SnapshotInvalid

  type SeatRow = seq<Option<Player>>

  // The fixed row of nine seats.
  type Seats = s: SeatRow | |s| == MAX_PLAYERS witness NO_SEATS

  // `version` is the counter the source calls seq.
  datatype TableState = TableState(id: string, seats: Seats, playerSeat: map<string, int>, version: nat)

  const NO_SEATS: SeatRow := [None, None, None, None, None, None, None, None, None]

  function NewTable(id: string): TableState {
    TableState(id, NO_SEATS, map[], 0)
  }

  /** The two halves of the index agree: a seat's occupant is indexed at that seat, and every
      indexed player sits where the index says. */
  ghost predicate IndexAgrees(seats: Seats, playerSeat: map<string, int>) {
    && (forall i | 0 <= i < MAX_PLAYERS && seats[i].Some? ::
          && seats[i].value.seatIndex == i
          && seats[i].value.playerId in playerSeat
          && playerSeat[seats[i].value.playerId] == i)
    && (forall p | p in playerSeat ::
          && 0 <= playerSeat[p] < MAX_PLAYERS
          && seats[playerSeat[p]].Some?
          && seats[playerSeat[p]].value.playerId == p)
  }

  ghost predicate Valid(t: TableState) {
    IndexAgrees(t.seats, t.playerSeat)
  }

  predicate Seated(t: TableState, p: string) {
    p in t.playerSeat
  }

  function StackAt(t: TableState, p: string): int {
    if p in t.playerSeat && 0 <= t.playerSeat[p] < MAX_PLAYERS && t.seats[t.playerSeat[p]].Some?
    then t.seats[t.playerSeat[p]].value.stack
    else 0
  }

  // ---------- Snapshots ----------

  function Occupants(seats: SeatRow): seq<Player> {
    if seats == [] then [] else
      var last := seats[|seats| - 1];
      Occupants(seats[..|seats| - 1]) + (if last.Some? then [last.value] else [])
  }

  function SnapshotOfPlayers(id: string, players: seq<Player>): Snapshot {
    Snapshot(id, MAX_PLAYERS, MIN_PLAYERS_TO_START, |players|, |players| >= MIN_PLAYERS_TO_START, players)
  }

  function SnapshotOf(t: TableState): Snapshot {
    SnapshotOfPlayers(t.id, Occupants(t.seats))
  }

  ghost predicate SeatSorted(players: seq<Player>) {
    forall i, j | 0 <= i < j < |players| :: players[i].seatIndex < players[j].seatIndex
  }

  // The seats agree with their own numbers, which is all that listing them needs.
  ghost predicate Numbered(seats: SeatRow) {
    forall i | 0 <= i < |seats| && seats[i].Some? :: seats[i].value.seatIndex == i
  }

  lemma {:induction false} OccupantsMembers(seats: SeatRow)
    requires Numbered(seats)
    ensures forall x :: x in Occupants(seats) <==>
              0 <= x.seatIndex < |seats| && seats[x.seatIndex] == Some(x)
  {
    if seats != [] {
      var n := |seats| - 1;
      OccupantsMembers(seats[..n]);
      var rest := Occupants(seats[..n]);
      forall x
        ensures x in Occupants(seats) <==> 0 <= x.seatIndex < |seats| && seats[x.seatIndex] == Some(x)
      {
        assert x in Occupants(seats) <==> x in rest || seats[n] == Some(x);
      }
    }
  }

  lemma {:induction false} OccupantsSorted(seats: SeatRow)
    requires Numbered(seats)
    ensures SeatSorted(Occupants(seats))
  {
    if seats != [] {
      var n := |seats| - 1;
      OccupantsSorted(seats[..n]);
      OccupantsMembers(seats[..n]);
      var rest := Occupants(seats[..n]);
      assert forall i | 0 <= i < |rest| :: rest[i] in rest;
    }
  }

  lemma {:induction false} OccupantsCount(seats: SeatRow)
    ensures |Occupants(seats)| <= |seats|
    ensures |Occupants(seats)| == |seats| <==> forall i :: 0 <= i < |seats| ==> seats[i].Some?
  {
    if seats != [] {
      var n := |seats| - 1;
      OccupantsCount(seats[..n]);
      assert forall i | 0 <= i < n :: seats[..n][i] == seats[i];
    }
  }

  /** Listing the seats yields exactly their occupants, in strictly increasing seat order. */
  lemma {:induction false} OccupantsListed(seats: SeatRow)
    requires Numbered(seats)
    ensures SeatSorted(Occupants(seats))
    ensures forall x :: x in Occupants(seats) <==>
              0 <= x.seatIndex < |seats| && seats[x.seatIndex] == Some(x)
    ensures |Occupants(seats)| <= |seats|
  {
    OccupantsSorted(seats);
    OccupantsMembers(seats);
    OccupantsCount(seats);
  }

  // Two strictly sorted lists with the same members end in the same player.
  lemma SameLast(a: seq<Player>, b: seq<Player>)
    requires SeatSorted(a) && SeatSorted(b) && a != [] && b != []
    requires forall x :: x in a <==> x in b
    ensures a[|a| - 1] == b[|b| - 1]
  {
    var x, y := a[|a| - 1], b[|b| - 1];
    assert x in b && y in a;
    assert x.seatIndex == y.seatIndex;
  }

  // Without its last player, a strictly sorted list has all other members.
  lemma AllButLast(a: seq<Player>)
    requires SeatSorted(a) && a != []
    ensures forall z :: z in a[..|a| - 1] <==> z in a && z != a[|a| - 1]
  {
    assert a == a[..|a| - 1] + [a[|a| - 1]];
  }

  /** A strictly seat-sorted list is determined by the set of its members. */
  lemma {:induction false} SortedListUnique(a: seq<Player>, b: seq<Player>)
    requires SeatSorted(a) && SeatSorted(b)
    requires forall x :: x in a <==> x in b
    ensures a == b
    decreases |a|
  {
    assert a != [] ==> a[0] in b;
    assert b != [] ==> b[0] in a;
    if a != [] {
      SameLast(a, b);
      AllButLast(a);
      AllButLast(b);
      var before, other := a[..|a| - 1], b[..|b| - 1];
      forall z
        ensures z in before <==> z in other
      {
        assert z in a <==> z in b;
      }
      SortedListUnique(before, other);
      assert a == before + [a[|a| - 1]] && b == other + [b[|b| - 1]];
    }
  }

  function Ids(players: seq<Player>): set<string> {
    set x | x in players :: x.playerId
  }

  lemma {:induction false} DistinctIdsCount(players: seq<Player>)
    requires forall i, j | 0 <= i < j < |players| :: players[i].playerId != players[j].playerId
    ensures |Ids(players)| == |players|
  {
    if players != [] {
      var n := |players| - 1;
      DistinctIdsCount(players[..n]);
      assert players == players[..n] + [players[n]];
      assert Ids(players) == Ids(players[..n]) + {players[n].playerId};
    }
  }

  lemma SnapshotMembers(t: TableState)
    requires Valid(t)
    ensures SeatSorted(SnapshotOf(t).players)
    ensures forall x :: x in SnapshotOf(t).players <==>
              Seated(t, x.playerId) && t.seats[t.playerSeat[x.playerId]] == Some(x)
  {
    OccupantsListed(t.seats);
    var ps := Occupants(t.seats);
    forall x
      ensures x in ps <==> Seated(t, x.playerId) && t.seats[t.playerSeat[x.playerId]] == Some(x)
    {
    }
  }

  /** A snapshot lists the seated players in strict seat order and counts the index exactly. */
  lemma SnapshotFaithful(t: TableState)
    requires Valid(t)
    ensures SeatSorted(SnapshotOf(t).players)
    ensures forall x :: x in SnapshotOf(t).players <==>
              Seated(t, x.playerId) && t.seats[t.playerSeat[x.playerId]] == Some(x)
    ensures SnapshotOf(t).activePlayers == |t.playerSeat| <= SnapshotOf(t).maxPlayers == 9
    ensures SnapshotOf(t).minPlayersToStart == 2 && (SnapshotOf(t).canStart <==> |t.playerSeat| >= 2)
    ensures SnapshotOf(t).tableId == t.id
  {
    SnapshotMembers(t);
    OccupantsCount(t.seats);
    var ps := Occupants(t.seats);
    forall i, j | 0 <= i < j < |ps|
      ensures ps[i].playerId != ps[j].playerId
    {
      assert ps[i] in ps && ps[j] in ps;
    }
    DistinctIdsCount(ps);
    forall p
      ensures p in Ids(ps) <==> p in t.playerSeat.Keys
    {
      if p in t.playerSeat {
        assert t.seats[t.playerSeat[p]].value in ps;
      }
    }
    assert Ids(ps) == t.playerSeat.Keys;
    assert |t.playerSeat| == |t.playerSeat.Keys|;
  }

  // ---------- Join and Leave ----------

  // The first free seat at or after `from`, or |seats| if there is none.
  function FirstFree(seats: SeatRow, from: nat): (i: nat)
    requires from <= |seats|
    ensures from <= i <= |seats|
    ensures i < |seats| ==> seats[i].None?
    ensures forall k | from <= k < i :: seats[k].Some?
    decreases |seats| - from
  {
    if from == |seats| || seats[from].None? then from else FirstFree(seats, from + 1)
  }

  datatype SeatChoice = Chosen(index: nat) | Rejected(error: TableError)

  function AllocateSeat(seats: Seats, preferred: Option<int>): SeatChoice {
    match preferred
    case Some(s) =>
      if s < 0 || s >= MAX_PLAYERS then Rejected(SeatInvalid)
      else if seats[s].Some? then Rejected(SeatTaken)
      else Chosen(s)
    case None =>
      var free := FirstFree(seats, 0);
      if free < MAX_PLAYERS then Chosen(free) else Rejected(TableFull)
  }

  datatype Moved = Moved(table: TableState, error: Option<TableError>)

  function Join(t: TableState, p: string, nickname: string, stack: int, preferred: Option<int>): Moved {
    if p in t.playerSeat then Moved(t, None)
    else match AllocateSeat(t.seats, preferred)
      case Rejected(e) => Moved(t, Some(e))
      case Chosen(s) =>
        Moved(TableState(t.id, t.seats[s := Some(Player(p, nickname, s, stack))], t.playerSeat[p := s],
            t.version + 1), None)
  }

  function Leave(t: TableState, p: string): Moved {
    if p !in t.playerSeat then Moved(t, Some(PlayerNotFound))
    else
      var s := t.playerSeat[p];
      var seats := if 0 <= s < MAX_PLAYERS then t.seats[s := None] else t.seats;
      Moved(TableState(t.id, seats, t.playerSeat - {p}, t.version + 1), None)
  }

  /** Joining keeps the index, seats a newcomer with the given stack, and touches nobody else. */
  lemma JoinEffect(t: TableState, p: string, nickname: string, stack: int, preferred: Option<int>)
    requires Valid(t)
    ensures var m := Join(t, p, nickname, stack, preferred);
            && Valid(m.table)
            && m.table.id == t.id
            && (m.error.Some? ==> m.table == t)
            && (m.error.None? ==> Seated(m.table, p))
            && (m.table == t <==> m.error.Some? || Seated(t, p))
            && (m.table != t ==> m.table.version == t.version + 1 && StackAt(m.table, p) == stack)
            && (forall q | q != p :: Seated(m.table, q) == Seated(t, q) && StackAt(m.table, q) == StackAt(t, q))
  {
    var m := Join(t, p, nickname, stack, preferred);
    if m.error.None? && p !in t.playerSeat {
      var s := AllocateSeat(t.seats, preferred).index;
      assert forall q | q in t.playerSeat :: t.playerSeat[q] != s;
    }
  }

  lemma LeaveEffect(t: TableState, p: string)
    requires Valid(t)
    ensures var m := Leave(t, p);
            && Valid(m.table)
            && m.table.id == t.id
            && !Seated(m.table, p)
            && (m.error.Some? <==> !Seated(t, p))
            && (m.error.Some? ==> m.error == Some(PlayerNotFound) && m.table == t)
            && (m.error.None? ==> m.table.version == t.version + 1)
            && (forall q | q != p :: Seated(m.table, q) == Seated(t, q) && StackAt(m.table, q) == StackAt(t, q))
  {
    if p in t.playerSeat {
      assert forall q | q in t.playerSeat && q != p :: t.playerSeat[q] != t.playerSeat[p];
    }
  }

  /** A newcomer who is let in is listed with their own nickname and stack, at the seat they asked
      for or else the lowest free one, and everyone else is listed as before. */
  lemma JoinListed(t: TableState, p: string, nickname: string, stack: int, preferred: Option<int>)
    returns (seat: int)
    requires Valid(t) && !Seated(t, p) && Join(t, p, nickname, stack, preferred).error.None?
    ensures 0 <= seat < 9 && t.seats[seat].None?
    ensures preferred.Some? ==> seat == preferred.value
    ensures preferred.None? ==> forall k | 0 <= k < seat :: t.seats[k].Some?
    ensures var after := Join(t, p, nickname, stack, preferred).table;
            forall x :: x in SnapshotOf(after).players
              <==> x in SnapshotOf(t).players || x == Player(p, nickname, seat, stack)
  {
    var after := Join(t, p, nickname, stack, preferred).table;
    seat := after.playerSeat[p];
    SeatFilled(t.seats, seat, Player(p, nickname, seat, stack));
    assert after.seats == t.seats[seat := Some(Player(p, nickname, seat, stack))];
  }

  lemma SeatFilled(seats: Seats, i: nat, y: Player)
    requires Numbered(seats) && i < MAX_PLAYERS && seats[i].None? && y.seatIndex == i
    ensures forall x :: x in Occupants(seats[i := Some(y)]) <==> x in Occupants(seats) || x == y
  {
    OccupantsMembers(seats);
    OccupantsMembers(seats[i := Some(y)]);
  }

  /** Which refusal a newcomer gets, if any; who is seated already gets none. */
  lemma JoinRefusedExactly(t: TableState, p: string, nickname: string, stack: int, preferred: Option<int>)
    requires Valid(t)
    ensures var e := Join(t, p, nickname, stack, preferred).error;
            e == if Seated(t, p) then None
                 else if preferred.Some? && !(0 <= preferred.value < 9) then Some(SeatInvalid)
                 else if preferred.Some? && t.seats[preferred.value].Some? then Some(SeatTaken)
                 else if preferred.None? && |t.playerSeat| == 9 then Some(TableFull)
                 else None
  {
    TableFullExactly(t, p, nickname, stack, preferred);
  }

  /** Whoever leaves is no longer listed, and everyone else is listed as before. */
  lemma LeaveListed(t: TableState, p: string)
    requires Valid(t)
    ensures forall x :: x in SnapshotOf(Leave(t, p).table).players <==> x in SnapshotOf(t).players && x.playerId != p
  {
    LeaveEffect(t, p);
    SnapshotMembers(t);
    SnapshotMembers(Leave(t, p).table);
  }

  /** Leaving right after joining as a newcomer restores seats and index; only the version moves on. */
  lemma LeaveUndoesJoin(t: TableState, p: string, nickname: string, stack: int, preferred: Option<int>)
    requires Valid(t) && !Seated(t, p)
    requires Join(t, p, nickname, stack, preferred).error.None?
    ensures Leave(Join(t, p, nickname, stack, preferred).table, p).table == t.(version := t.version + 2)
  {
    var s := AllocateSeat(t.seats, preferred).index;
    var j := Join(t, p, nickname, stack, preferred).table;
    assert j.seats[s := None] == t.seats;
    assert j.playerSeat - {p} == t.playerSeat;
  }

  /** An unpreferred newcomer gets the lowest free seat; TableFull means exactly that a newcomer
      without a preference meets nine seated players. */
  lemma TableFullExactly(t: TableState, p: string, nickname: string, stack: int, preferred: Option<int>)
    requires Valid(t)
    ensures Join(t, p, nickname, stack, preferred).error == Some(TableFull)
            <==> !Seated(t, p) && preferred.None? && |t.playerSeat| == MAX_PLAYERS
    ensures !Seated(t, p) && preferred.None? && |t.playerSeat| < MAX_PLAYERS ==>
              var seat := Join(t, p, nickname, stack, preferred).table.playerSeat[p];
              t.seats[seat].None? && forall k | 0 <= k < seat :: t.seats[k].Some?
  {
    SnapshotFaithful(t);
    OccupantsCount(t.seats);
    var free := FirstFree(t.seats, 0);
    assert free == MAX_PLAYERS <==> forall i :: 0 <= i < |t.seats| ==> t.seats[i].Some?;
  }

  // ---------- Restore ----------

  datatype Rebuilt = Rebuilt(seats: Seats, playerSeat: map<string, int>)

  // One pass over the stored players; None as soon as one of them is unacceptable.
  function Rebuild(players: seq<Player>): Option<Rebuilt>
  {
    if players == [] then Some(Rebuilt(NO_SEATS, map[])) else
      var n := |players| - 1;
      var x := players[n];
      match Rebuild(players[..n])
      case None => None
      case Some(b) =>
        if x.playerId == "" || x.seatIndex < 0 || x.seatIndex >= MAX_PLAYERS then None
        else if x.playerId in b.playerSeat then None
        else if b.seats[x.seatIndex].Some? then None
        else Some(Rebuilt(b.seats[x.seatIndex := Some(x)], b.playerSeat[x.playerId := x.seatIndex]))
  }

  function Restore(t: TableState, snapshot: Snapshot, version: nat): Moved {
    if snapshot.tableId != "" && snapshot.tableId != t.id then Moved(t, Some(SnapshotInvalid))
    else match Rebuild(snapshot.players)
      case None => Moved(t, Some(SnapshotInvalid))
      case Some(b) => Moved(TableState(t.id, b.seats, b.playerSeat, version), None)
  }

  // What a stored player list must satisfy, said without reference to the pass that checks it.
  ghost predicate Acceptable(players: seq<Player>) {
    && (forall i | 0 <= i < |players| :: players[i].playerId != "" && 0 <= players[i].seatIndex < MAX_PLAYERS)
    && (forall i, j | 0 <= i < j < |players| ::
          players[i].playerId != players[j].playerId && players[i].seatIndex != players[j].seatIndex)
  }

  // The rebuilt seats and index hold exactly the given players.
  ghost predicate BuiltFrom(b: Rebuilt, players: seq<Player>) {
    && IndexAgrees(b.seats, b.playerSeat)
    && (forall i, x | 0 <= i < MAX_PLAYERS :: b.seats[i] == Some(x) <==> x in players && x.seatIndex == i)
    && (forall p | p in b.playerSeat :: exists x :: x in players && x.playerId == p)
    && (forall x | x in players :: 0 <= x.seatIndex < MAX_PLAYERS && x.playerId in b.playerSeat)
  }

  lemma AcceptableSnoc(players: seq<Player>, x: Player)
    ensures Acceptable(players + [x]) <==>
              && Acceptable(players)
              && x.playerId != "" && 0 <= x.seatIndex < MAX_PLAYERS
              && forall y | y in players :: y.playerId != x.playerId && y.seatIndex != x.seatIndex
  {
    var all := players + [x];
    assert all[|players|] == x;
    assert forall i | 0 <= i < |players| :: all[i] == players[i];
    if Acceptable(all) {
      forall y | y in players
        ensures y.playerId != x.playerId && y.seatIndex != x.seatIndex
      {
        var k :| 0 <= k < |players| && players[k] == y;
        assert all[k] == y;
      }
    }
  }

  lemma IndexSnoc(b: Rebuilt, x: Player)
    requires IndexAgrees(b.seats, b.playerSeat)
    requires 0 <= x.seatIndex < MAX_PLAYERS && x.playerId !in b.playerSeat && b.seats[x.seatIndex].None?
    ensures IndexAgrees(b.seats[x.seatIndex := Some(x)], b.playerSeat[x.playerId := x.seatIndex])
  {
  }

  lemma BuiltSnoc(b: Rebuilt, players: seq<Player>, x: Player)
    requires BuiltFrom(b, players)
    requires 0 <= x.seatIndex < MAX_PLAYERS && x.playerId !in b.playerSeat && b.seats[x.seatIndex].None?
    ensures BuiltFrom(Rebuilt(b.seats[x.seatIndex := Some(x)], b.playerSeat[x.playerId := x.seatIndex]), players + [x])
  {
    var c := Rebuilt(b.seats[x.seatIndex := Some(x)], b.playerSeat[x.playerId := x.seatIndex]);
    IndexSnoc(b, x);
    assert forall y :: y in players + [x] <==> y in players || y == x;
    forall i, y | 0 <= i < MAX_PLAYERS
      ensures c.seats[i] == Some(y) <==> y in players + [x] && y.seatIndex == i
    {
      assert y in players && y.seatIndex == i ==> b.seats[i] == Some(y);
    }
    forall p | p in c.playerSeat
      ensures exists y :: y in players + [x] && y.playerId == p
    {
      if p != x.playerId {
        var y :| y in players && y.playerId == p;
        assert y in players + [x];
      } else {
        assert x in players + [x];
      }
    }
  }

  /** The pass succeeds exactly on acceptable lists, and then holds exactly the listed players. */
  lemma {:induction false} RebuildExact(players: seq<Player>)
    ensures Rebuild(players).Some? <==> Acceptable(players)
    ensures Rebuild(players).Some? ==> BuiltFrom(Rebuild(players).value, players)
  {
    if players != [] {
      var n := |players| - 1;
      var before, x := players[..n], players[n];
      RebuildExact(before);
      assert players == before + [x];
      AcceptableSnoc(before, x);
      if Acceptable(before) {
        var b := Rebuild(before).value;
        RejectedSeat(b, before, x);
        if Rebuild(players).Some? {
          BuiltSnoc(b, before, x);
        }
      }
    }
  }

  lemma RejectedSeat(b: Rebuilt, players: seq<Player>, x: Player)
    requires BuiltFrom(b, players)
    ensures (0 <= x.seatIndex < MAX_PLAYERS && x.playerId !in b.playerSeat && b.seats[x.seatIndex].None?) <==>
            (0 <= x.seatIndex < MAX_PLAYERS
                && forall y | y in players :: y.playerId != x.playerId && y.seatIndex != x.seatIndex)
  {
    if 0 <= x.seatIndex < MAX_PLAYERS {
      if b.seats[x.seatIndex].Some? {
        assert b.seats[x.seatIndex] == Some(b.seats[x.seatIndex].value);
      }
      forall y | y in players && y.seatIndex == x.seatIndex
        ensures b.seats[x.seatIndex] == Some(y)
      {
      }
    }
  }

  /** Restore accepts exactly the matching, well-formed snapshots, so never more than nine players;
      a refusal changes nothing; afterwards a snapshot is the seat-sorted form of what was stored. */
  lemma RestoreCharacterised(t: TableState, snapshot: Snapshot, version: nat)
    ensures var m := Restore(t, snapshot, version);
            && (m.error.None? <==> (snapshot.tableId == "" || snapshot.tableId == t.id) && Acceptable(snapshot.players))
            && (m.error.Some? ==> m.table == t && m.error == Some(SnapshotInvalid))
            && (m.error.None? ==>
                  && Valid(m.table) && m.table.id == t.id && m.table.version == version
                  && |snapshot.players| <= MAX_PLAYERS
                  && SeatSorted(SnapshotOf(m.table).players)
                  && multiset(SnapshotOf(m.table).players) == multiset(snapshot.players))
  {
    RebuildExact(snapshot.players);
    var m := Restore(t, snapshot, version);
    if m.error.None? {
      var stored, listed := snapshot.players, Occupants(m.table.seats);
      OccupantsListed(m.table.seats);
      forall x
        ensures x in stored <==> x in listed
      {
        assert x in stored ==> 0 <= x.seatIndex < MAX_PLAYERS;
      }
      assert forall i, j | 0 <= i < j < |listed| :: listed[i] != listed[j];
      assert forall i, j | 0 <= i < j < |stored| :: stored[i] != stored[j];
      SameMembersSameBag(stored, listed);
      assert |stored| == |multiset(stored)| == |multiset(listed)| == |listed|;
    }
  }

  lemma {:induction false} DistinctBag(s: seq<Player>)
    requires forall i, j | 0 <= i < j < |s| :: s[i] != s[j]
    ensures forall x :: multiset(s)[x] == if x in s then 1 else 0
  {
    if s != [] {
      var n := |s| - 1;
      DistinctBag(s[..n]);
      assert s == s[..n] + [s[n]];
      assert forall i | 0 <= i < n :: s[..n][i] == s[i];
      assert s[n] !in s[..n];
    }
  }

  lemma SameMembersSameBag(a: seq<Player>, b: seq<Player>)
    requires forall i, j | 0 <= i < j < |a| :: a[i] != a[j]
    requires forall i, j | 0 <= i < j < |b| :: b[i] != b[j]
    requires forall x :: x in a <==> x in b
    ensures multiset(a) == multiset(b)
  {
    DistinctBag(a);
    DistinctBag(b);
    forall x
      ensures multiset(a)[x] == multiset(b)[x]
    {
    }
  }

  lemma BuiltUnique(x: Rebuilt, y: Rebuilt, a: seq<Player>, b: seq<Player>)
    requires BuiltFrom(x, a) && BuiltFrom(y, b)
    requires forall z :: z in a <==> z in b
    ensures x == y
  {
    forall i | 0 <= i < MAX_PLAYERS
      ensures x.seats[i] == y.seats[i]
    {
      if x.seats[i].Some? {
        assert x.seats[i] == Some(x.seats[i].value);
        assert y.seats[i] == Some(x.seats[i].value);
      } else if y.seats[i].Some? {
        assert y.seats[i] == Some(y.seats[i].value);
        assert x.seats[i] == Some(y.seats[i].value);
      }
    }
    assert x.seats == y.seats;
    IndexDetermined(x.seats, x.playerSeat, y.playerSeat);
  }

  /** The order in which a snapshot stores its players is irrelevant. */
  lemma RestoreIgnoresOrder(t: TableState, a: Snapshot, b: Snapshot, version: nat)
    requires a.tableId == b.tableId && multiset(a.players) == multiset(b.players)
    ensures Restore(t, a, version) == Restore(t, b, version)
  {
    RebuildExact(a.players);
    RebuildExact(b.players);
    if Acceptable(a.players) {
      AcceptableByBag(a.players, b.players);
      forall z
        ensures z in a.players <==> z in b.players
      {
        assert z in a.players <==> z in multiset(a.players);
        assert z in b.players <==> z in multiset(b.players);
      }
      BuiltUnique(Rebuild(a.players).value, Rebuild(b.players).value, a.players, b.players);
    } else if Acceptable(b.players) {
      AcceptableByBag(b.players, a.players);
      assert false;
    }
  }

  lemma AcceptableByBag(a: seq<Player>, b: seq<Player>)
    requires multiset(a) == multiset(b) && Acceptable(a)
    ensures Acceptable(b)
  {
    DistinctBag(a);
    forall i | 0 <= i < |b|
      ensures b[i].playerId != "" && 0 <= b[i].seatIndex < MAX_PLAYERS
    {
      assert b[i] in multiset(b) && b[i] in a;
    }
    forall i, j | 0 <= i < j < |b|
      ensures b[i].playerId != b[j].playerId && b[i].seatIndex != b[j].seatIndex
    {
      assert b[i] in multiset(b) && b[j] in multiset(b);
      assert b[i] in a && b[j] in a;
      assert b == b[..i] + [b[i]] + b[i + 1..j] + [b[j]] + b[j + 1..];
    }
  }

  /** The index is a function of the seats. */
  lemma IndexDetermined(seats: Seats, a: map<string, int>, b: map<string, int>)
    requires IndexAgrees(seats, a) && IndexAgrees(seats, b)
    ensures a == b
  {
    forall p
      ensures p in a <==> p in b
      ensures p in a ==> a[p] == b[p]
    {
      if p in a {
        assert seats[a[p]].Some?;
      }
      if p in b {
        assert seats[b[p]].Some?;
      }
    }
  }

  ghost predicate NamedPlayers(t: TableState) {
    "" !in t.playerSeat
  }

  lemma OccupantsAcceptable(t: TableState)
    requires Valid(t) && NamedPlayers(t)
    ensures Acceptable(Occupants(t.seats))
  {
    var ps := Occupants(t.seats);
    OccupantsListed(t.seats);
    assert forall i | 0 <= i < |ps| :: ps[i] in ps;
    forall i, j | 0 <= i < j < |ps|
      ensures ps[i].playerId != ps[j].playerId
    {
      assert ps[i] in ps && ps[j] in ps;
    }
  }

  /** Restoring a table's own snapshot into a fresh table rebuilds seats, index and version. */
  lemma RestoreRoundTrip(t: TableState)
    requires Valid(t) && NamedPlayers(t)
    ensures Restore(NewTable(t.id), SnapshotOf(t), t.version) == Moved(t, None)
  {
    var ps := Occupants(t.seats);
    OccupantsAcceptable(t);
    RebuildExact(ps);
    SeatsBuiltFromOccupants(t);
    BuiltUnique(Rebuild(ps).value, Rebuilt(t.seats, t.playerSeat), ps, ps);
  }

  lemma SeatsBuiltFromOccupants(t: TableState)
    requires Valid(t)
    ensures BuiltFrom(Rebuilt(t.seats, t.playerSeat), Occupants(t.seats))
  {
    OccupantsListed(t.seats);
    forall p | p in t.playerSeat
      ensures exists x :: x in Occupants(t.seats) && x.playerId == p
    {
      assert t.seats[t.playerSeat[p]].value in Occupants(t.seats);
    }
  }

  // ---------- Runs of one table ----------

  datatype TableOp =
    | OpJoin(playerId: string, nickname: string, stack: int, preferred: Option<int>)
    | OpLeave(playerId: string)
    | OpRestore(snapshot: Snapshot, version: nat)

  function ApplyOp(t: TableState, op: TableOp): TableState {
    match op
    case OpJoin(p, nickname, stack, preferred) => Join(t, p, nickname, stack, preferred).table
    case OpLeave(p) => Leave(t, p).table
    case OpRestore(s, v) => Restore(t, s, v).table
  }

  lemma ApplyValid(t: TableState, op: TableOp)
    requires Valid(t)
    ensures Valid(ApplyOp(t, op)) && ApplyOp(t, op).id == t.id
    ensures !op.OpRestore? ==> ApplyOp(t, op) == t || ApplyOp(t, op).version == t.version + 1
  {
    match op
    case OpJoin(p, nickname, stack, preferred) => JoinEffect(t, p, nickname, stack, preferred);
    case OpLeave(p) => LeaveEffect(t, p);
    case OpRestore(s, v) => RestoreCharacterised(t, s, v);
  }

  ghost function RunOps(t: TableState, ops: seq<TableOp>): TableState {
    if ops == [] then t else ApplyOp(RunOps(t, ops[..|ops| - 1]), ops[|ops| - 1])
  }

  /** Every run of Join, Leave and Restore keeps the two halves of the index inverse. */
  lemma {:induction false} RunOpsKeepIndex(t: TableState, ops: seq<TableOp>)
    requires Valid(t)
    ensures Valid(RunOps(t, ops)) && RunOps(t, ops).id == t.id
  {
    if ops != [] {
      RunOpsKeepIndex(t, ops[..|ops| - 1]);
      ApplyValid(RunOps(t, ops[..|ops| - 1]), ops[|ops| - 1]);
    }
  }

  /** Without a Restore in between, the version identifies the state: two points of one run with
      the same version are the same table, index and all. */
  lemma {:induction false} VersionIdentifiesState(t: TableState, ops: seq<TableOp>, i: nat)
    requires Valid(t) && i <= |ops|
    requires forall k | i <= k < |ops| :: !ops[k].OpRestore?
    ensures RunOps(t, ops[..i]).version <= RunOps(t, ops).version
    ensures RunOps(t, ops[..i]).version == RunOps(t, ops).version ==> RunOps(t, ops[..i]) == RunOps(t, ops)
    decreases |ops|
  {
    if i < |ops| {
      var n := |ops| - 1;
      VersionIdentifiesState(t, ops[..n], i);
      assert ops[..n][..i] == ops[..i];
      RunOpsKeepIndex(t, ops[..n]);
      var before := RunOps(t, ops[..n]);
      assert RunOps(t, ops) == ApplyOp(before, ops[n]);
      ApplyValid(before, ops[n]);
    } else {
      assert ops[..i] == ops;
    }
  }
}
