/** The mutable in-memory store of event_store.go, each method against its ledger transition. */
module EventStores {
  import opened Basics
  import opened Ledgers

  class EventStore {
    var balances: map<string, int>
    var pending: map<string, Receipt>
    var nextBuyInId: int

    function State(): StringLedger
      reads this
    {
      Ledger(balances, pending, nextBuyInId)
    }

    constructor ()
      ensures State() == EMPTY_LEDGER
    {
      balances, pending, nextBuyInId := map[], map[], 0;
    }

    method EnsureWallet(playerId: string, initialBalance: int)
      modifies this
      ensures State() == Ledgers.EnsureWallet(old(State()), playerId, initialBalance)
    {
      if playerId !in balances {
        balances := balances[playerId := initialBalance];
      }
    }

    method CreditWallet(playerId: string, amount: int) returns (r: Result<int, StoreError>)
      modifies this
      ensures (State(), r) == Ledgers.CreditWallet(old(State()), playerId, amount)
    {
      if amount < 0 {
        return Err(InvalidWalletCreditAmount);
      }
      var current := if playerId in balances then balances[playerId] else 0;
      var updated := Wrap64(current + amount);
      balances := balances[playerId := updated];
      return Ok(updated);
    }

    method CreateBuyIn(playerId: string, tableId: string, amount: int) returns (r: Result<Receipt, StoreError>)
      modifies this
      ensures (State(), r) == Ledgers.CreateBuyIn(old(State()), playerId, tableId, amount)
    {
      var table := TrimSpace(tableId);
      if table == "" {
        return Err(TableNotFound);
      }
      if amount <= 0 {
        return Err(InvalidBuyInAmount);
      }
      var key := BuyInKey(playerId, table);
      if key in pending {
        var existing := pending[key];
        return Ok(existing.(balanceAfter := if playerId in balances then balances[playerId] else 0));
      }
      var balance := 0;
      if playerId in balances {
        balance := balances[playerId];
        assert balances[playerId := balance] == balances;
      } else {
        balances := balances[playerId := balance];
      }
      if balance < amount {
        return Err(InsufficientBalance);
      }
      nextBuyInId := nextBuyInId + 1;
      var updated := Wrap64(balance - amount);
      balances := balances[playerId := updated];
      var receipt := Receipt(nextBuyInId, playerId, table, LOCAL_ROOM, amount, updated, Pending);
      pending := pending[key := receipt];
      assert balances == old(balances)[playerId := updated];
      return Ok(receipt);
    }

    method ConsumePendingBuyIn(playerId: string, tableId: string) returns (r: Result<Receipt, StoreError>)
      modifies this
      ensures (State(), r) == Ledgers.ConsumePendingBuyIn(old(State()), playerId, tableId)
    {
      var table := TrimSpace(tableId);
      if table == "" {
        return Err(PendingBuyInNotFound);
      }
      var key := BuyInKey(playerId, table);
      if key !in pending {
        return Err(PendingBuyInNotFound);
      }
      var receipt := pending[key];
      pending := pending - {key};
      return Ok(receipt.(status := Consumed, balanceAfter := if playerId in balances then balances[playerId] else 0));
    }
  }
}
