/** The transactions of postgres_event_store.go statement by statement; returning before the final
    writes is the deferred rollback. */
module PostgresStores {
  import opened Basics
  import opened Ledgers
  import P = PostgresRows

  class PostgresStore {
    const rooms: map<string, P.Room>
    var wallets: map<string, int>
    var buyIns: seq<P.BuyInRow>

    function State(): P.Db
      reads this
    {
      P.Db(rooms, wallets, buyIns)
    }

    constructor (rooms: map<string, P.Room>)
      ensures State() == P.Db(rooms, map[], [])
    {
      this.rooms := rooms;
      wallets, buyIns := map[], [];
    }

    method EnsureWallet(playerId: string, initialBalance: int) returns (r: Result<(), P.PgError>)
      modifies this
      ensures (State(), r) == P.EnsureWallet(old(State()), playerId, initialBalance)
    {
      if playerId !in wallets {
        if initialBalance < 0 {
          return Err(P.Refused);
        }
        wallets := wallets[playerId := initialBalance];
      }
      return Ok(());
    }

    method CreditWallet(playerId: string, amount: int) returns (r: Result<int, P.PgError>)
      modifies this
      ensures (State(), r) == P.CreditWallet(old(State()), playerId, amount)
    {
      if amount < 0 {
        return Err(P.Known(InvalidWalletCreditAmount));
      }
      if playerId !in wallets {
        wallets := wallets[playerId := 0];
      }
      if wallets[playerId] + amount > MAX_INT64 {
        return Err(P.Refused);
      }
      wallets := wallets[playerId := wallets[playerId] + amount];
      return Ok(wallets[playerId]);
    }

    // The newest pending row of a player at a table, scanning from the highest id down.
    method SelectPending(playerId: string, tableId: string) returns (r: Option<nat>)
      ensures r == P.LatestPending(buyIns, playerId, tableId)
    {
      var n := |buyIns|;
      assert buyIns[..n] == buyIns;
      while n > 0
        invariant 0 <= n <= |buyIns|
        invariant P.LatestPending(buyIns, playerId, tableId) == P.LatestPending(buyIns[..n], playerId, tableId)
      {
        assert buyIns[..n][..n - 1] == buyIns[..n - 1];
        if P.IsPending(buyIns[n - 1], playerId, tableId) {
          return Some(n - 1);
        }
        n := n - 1;
      }
      return None;
    }

    method CreateBuyIn(playerId: string, tableId: string, amount: int) returns (r: Result<Receipt, P.PgError>)
      modifies this
      ensures (State(), r) == P.CreateBuyIn(old(State()), playerId, tableId, amount)
    {
      if tableId !in rooms {
        return Err(P.Known(TableNotFound));
      }
      var room := rooms[tableId];
      if amount < room.minBuyIn || amount > room.maxBuyIn {
        return Err(P.Known(InvalidBuyInAmount));
      }
      var pending := SelectPending(playerId, tableId);
      if pending.Some? {
        var currentBalance := if playerId in wallets then wallets[playerId] else 0;
        return Ok(P.ReceiptOf(buyIns[pending.value], pending.value, currentBalance));
      }
      var inTx := if playerId in wallets then wallets else wallets[playerId := 0];
      if inTx[playerId] < amount {
        return Err(P.Known(InsufficientBalance));
      }
      var updatedBalance := inTx[playerId] - amount;
      var row := P.BuyInRow(playerId, tableId, room.roomId, amount, Pending);
      r := Ok(P.ReceiptOf(row, |buyIns|, updatedBalance));
      wallets := inTx[playerId := updatedBalance];
      buyIns := buyIns + [row];
    }

    method ConsumePendingBuyIn(playerId: string, tableId: string) returns (r: Result<Receipt, P.PgError>)
      modifies this
      ensures (State(), r) == P.ConsumePendingBuyIn(old(State()), playerId, tableId)
    {
      var pending := SelectPending(playerId, tableId);
      if pending.None? {
        return Err(P.Known(PendingBuyInNotFound));
      }
      if playerId !in wallets {
        return Err(P.Refused);
      }
      var used := buyIns[pending.value].(status := Consumed);
      buyIns := buyIns[pending.value := used];
      return Ok(P.ReceiptOf(used, pending.value, wallets[playerId]));
    }
  }
}
