/** Where the chips are: wallets and pending buy-ins in the ledger, stacks on the tables. Every
    elementary movement is paired with its exact effect on each player's worth. */
module Banks {
  import opened Basics
  import opened Sums
  import opened Seating
  import opened Ledgers
  import opened TableManager

  datatype Bank = Bank(ledger: StringLedger, tables: TableMap)

  function PendingOf(l: StringLedger, p: string): map<string, int> {
    map k | k in l.pending && l.pending[k].playerId == p :: l.pending[k].amount
  }

  function StacksOf(m: TableMap, p: string): map<string, int> {
    map id | id in m :: StackAt(m[id], p)
  }

  ghost function PendingTotal(b: Bank, p: string): int {
    Sum(PendingOf(b.ledger, p))
  }

  ghost function StackTotal(b: Bank, p: string): int {
    Sum(StacksOf(b.tables, p))
  }

  /** Everything a player owns. */
  ghost function Worth(b: Bank, p: string): int {
    Balance(b.ledger, p) + PendingTotal(b, p) + StackTotal(b, p)
  }

  ghost predicate LedgerOk(l: StringLedger) {
    && (forall p | p in l.balances :: l.balances[p] >= 0)
    && (forall k | k in l.pending ::
          && k == BuyInKey(l.pending[k].playerId, l.pending[k].tableId)
          && ColonFree(l.pending[k].playerId)
          && l.pending[k].amount > 0
          && l.pending[k].playerId in l.balances)
  }

  ghost predicate Solvent(t: TableState, l: StringLedger) {
    forall p | Seated(t, p) :: StackAt(t, p) > 0 && p in l.balances
  }

  ghost predicate StacksOk(l: StringLedger, m: TableMap) {
    forall id | id in m :: Solvent(m[id], l)
  }

  /** Tables in order, no amount negative, pending buy-ins filed under their own key, and nobody
      holding chips without a wallet. */
  ghost predicate BankOk(b: Bank) {
    LedgerOk(b.ledger) && MapValid(b.tables) && StacksOk(b.ledger, b.tables)
  }

  function At(b: Bank, id: string): TableState {
    TableAt(b.tables, id)
  }

  // ---------- Movements ----------

  function Credit(b: Bank, p: string, amount: int): Bank {
    b.(ledger := CreditWallet(b.ledger, p, amount).0)
  }

  // refundStackToWallet: nothing happens for an amount that is not positive.
  function Refund(b: Bank, p: string, amount: int): Bank {
    if amount <= 0 then b else Credit(b, p, amount)
  }

  function Consume(b: Bank, p: string, id: string): (Bank, Result<Receipt, StoreError>) {
    var (l, r) := ConsumePendingBuyIn(b.ledger, p, id);
    (b.(ledger := l), r)
  }

  function Buy(b: Bank, p: string, id: string, amount: int): Bank {
    b.(ledger := CreateBuyIn(b.ledger, p, id, amount).0)
  }

  function Grant(b: Bank, p: string, initial: int): Bank {
    b.(ledger := EnsureWallet(b.ledger, p, initial))
  }

  function Look(b: Bank, id: string): Bank {
    b.(tables := Touch(b.tables, id))
  }

  function Rise(b: Bank, id: string, p: string): (Bank, Option<TableError>) {
    var m := Leave(At(b, id), p);
    (b.(tables := b.tables[id := m.table]), m.error)
  }

  function Sit(b: Bank, id: string, p: string, nickname: string, stack: int, seat: Option<int>)
    : (Bank, Option<TableError>)
  {
    var m := Join(At(b, id), p, nickname, stack, seat);
    (b.(tables := b.tables[id := m.table]), m.error)
  }

  // ---------- Bounds ----------

  /** No part of a player's worth is negative, so each part is at most the whole. */
  lemma WorthParts(b: Bank, p: string)
    requires BankOk(b)
    ensures Balance(b.ledger, p) >= 0 && PendingTotal(b, p) >= 0 && StackTotal(b, p) >= 0
    ensures forall id :: id in b.tables && Seated(b.tables[id], p) ==> 0 < StackAt(b.tables[id], p) <= StackTotal(b, p)
    ensures forall k :: k in b.ledger.pending && b.ledger.pending[k].playerId == p ==>
                          b.ledger.pending[k].amount <= PendingTotal(b, p)
  {
    var pend, stacks := PendingOf(b.ledger, p), StacksOf(b.tables, p);
    forall id | id in stacks
      ensures stacks[id] >= 0
    {
      assert Solvent(b.tables[id], b.ledger);
      assert Seated(b.tables[id], p) ==> StackAt(b.tables[id], p) > 0;
    }
    SumBounds(pend);
    SumBounds(stacks);
    forall id | id in b.tables && Seated(b.tables[id], p)
      ensures 0 < StackAt(b.tables[id], p) <= StackTotal(b, p)
    {
      assert id in stacks;
    }
    forall k | k in b.ledger.pending && b.ledger.pending[k].playerId == p
      ensures b.ledger.pending[k].amount <= PendingTotal(b, p)
    {
      assert k in pend;
    }
  }

  lemma PoorWithoutWallet(b: Bank, p: string)
    requires BankOk(b) && p !in b.ledger.balances
    ensures Worth(b, p) == 0
  {
    assert PendingOf(b.ledger, p) == map[];
    forall id | id in b.tables
      ensures StackAt(b.tables[id], p) == 0
    {
      assert Solvent(b.tables[id], b.ledger) && !Seated(b.tables[id], p);
    }
    SumZero(StacksOf(b.tables, p));
  }

  // ---------- Effects on worth ----------

  // Two ledgers that differ in the pending entry of one key only.
  lemma PendingWritten(before: StringLedger, after: StringLedger, key: string, r: Receipt)
    requires key !in before.pending && after.pending == before.pending[key := r]
    ensures forall q ::
              Sum(PendingOf(after, q)) == Sum(PendingOf(before, q)) + (if q == r.playerId then r.amount else 0)
  {
    forall q
      ensures Sum(PendingOf(after, q)) == Sum(PendingOf(before, q)) + (if q == r.playerId then r.amount else 0)
    {
      if q == r.playerId {
        assert PendingOf(after, q) == PendingOf(before, q)[key := r.amount];
        SumUpdate(PendingOf(before, q), key, r.amount);
      } else {
        assert PendingOf(after, q) == PendingOf(before, q);
      }
    }
  }

  lemma PendingErased(before: StringLedger, after: StringLedger, key: string)
    requires key in before.pending && after.pending == before.pending - {key}
    ensures var r := before.pending[key];
            forall q ::
              Sum(PendingOf(after, q)) == Sum(PendingOf(before, q)) - (if q == r.playerId then r.amount else 0)
  {
    var r := before.pending[key];
    assert before.pending == after.pending[key := r];
    PendingWritten(after, before, key, r);
  }

  lemma PendingSame(before: StringLedger, after: StringLedger)
    requires after.pending == before.pending
    ensures forall q :: PendingOf(after, q) == PendingOf(before, q)
  {
  }

  lemma CreditEffect(b: Bank, p: string, amount: int)
    requires BankOk(b) && amount >= 0 && Balance(b.ledger, p) + amount <= MAX_INT64
    ensures BankOk(Credit(b, p, amount))
    ensures Balance(Credit(b, p, amount).ledger, p) == Balance(b.ledger, p) + amount
    ensures forall q :: Worth(Credit(b, p, amount), q) == Worth(b, q) + (if q == p then amount else 0)
  {
    assert Balance(b.ledger, p) >= 0;
    Wrap64InRange(Balance(b.ledger, p) + amount);
    PendingSame(b.ledger, Credit(b, p, amount).ledger);
  }

  /** What consuming pays out is exactly what stops being pending. */
  lemma ConsumeEffect(b: Bank, p: string, id: string)
    requires BankOk(b) && ColonFree(p)
    ensures var (c, r) := Consume(b, p, id);
            && BankOk(c) && c.tables == b.tables && c.ledger.balances == b.ledger.balances
            && (r.Err? ==> c == b && r == Err(PendingBuyInNotFound))
            && (r.Ok? ==> 0 < r.value.amount <= PendingTotal(b, p) && p in b.ledger.balances)
            && (forall q :: Worth(c, q) == Worth(b, q) - (if q == p && r.Ok? then r.value.amount else 0))
  {
    var (c, r) := Consume(b, p, id);
    if r.Ok? {
      var key := BuyInKey(p, TrimSpace(id));
      OwnPending(b.ledger, p, TrimSpace(id));
      WorthParts(b, p);
      PendingErased(b.ledger, c.ledger, key);
    }
  }

  // A pending entry filed under a player's key is that player's.
  lemma OwnPending(l: StringLedger, p: string, t: string)
    requires LedgerOk(l) && ColonFree(p) && BuyInKey(p, t) in l.pending
    ensures l.pending[BuyInKey(p, t)].playerId == p && l.pending[BuyInKey(p, t)].tableId == t
  {
    var r := l.pending[BuyInKey(p, t)];
    ColonFreeKeysInjective(r.playerId, r.tableId, p, t);
  }

  /** A buy-in moves chips from the wallet to the pending entry, or moves nothing. */
  lemma BuyEffect(b: Bank, p: string, id: string, amount: int)
    requires BankOk(b) && ColonFree(p) && Balance(b.ledger, p) <= MAX_INT64
    ensures BankOk(Buy(b, p, id, amount)) && Buy(b, p, id, amount).tables == b.tables
    ensures forall q :: Worth(Buy(b, p, id, amount), q) == Worth(b, q)
  {
    var t := TrimSpace(id);
    BuyLedger(b.ledger, p, t, amount);
    var after := CreateBuyIn(b.ledger, p, id, amount).0;
    forall k | k in b.tables
      ensures Solvent(b.tables[k], after)
    {
      assert Solvent(b.tables[k], b.ledger);
    }
  }

  lemma BuyLedger(l: StringLedger, p: string, t: string, amount: int)
    requires LedgerOk(l) && ColonFree(p) && Balance(l, p) <= MAX_INT64
    ensures var after := CreateBuyInAt(l, BuyInKey(p, t), p, t, amount).0;
            && LedgerOk(after)
            && (forall q :: q in l.balances ==> q in after.balances)
            && (forall q :: Balance(after, q) + Sum(PendingOf(after, q)) == Balance(l, q) + Sum(PendingOf(l, q)))
  {
    var key := BuyInKey(p, t);
    var (after, r) := CreateBuyInAt(l, key, p, t, amount);
    if 0 < amount <= Balance(l, p) {
      Wrap64InRange(Balance(l, p) - amount);
    }
    if key in after.pending && key !in l.pending {
      PendingWritten(l, after, key, r.value);
    } else {
      PendingSame(l, after);
    }
  }

  /** Only the first grant adds chips. */
  lemma GrantEffect(b: Bank, p: string, initial: int)
    requires BankOk(b) && initial >= 0
    ensures BankOk(Grant(b, p, initial)) && Grant(b, p, initial).tables == b.tables
    ensures forall q :: Worth(Grant(b, p, initial), q)
                        == Worth(b, q) + (if q == p && p !in b.ledger.balances then initial else 0)
  {
    var after := EnsureWallet(b.ledger, p, initial);
    PendingSame(b.ledger, after);
    forall k | k in b.tables
      ensures Solvent(b.tables[k], after)
    {
      assert Solvent(b.tables[k], b.ledger);
    }
  }

  lemma StackReplaced(m: TableMap, id: string, t: TableState)
    ensures forall q :: Sum(StacksOf(m[id := t], q)) == Sum(StacksOf(m, q)) - StackAt(TableAt(m, id), q) + StackAt(t, q)
  {
    forall q
      ensures Sum(StacksOf(m[id := t], q)) == Sum(StacksOf(m, q)) - StackAt(TableAt(m, id), q) + StackAt(t, q)
    {
      assert StacksOf(m[id := t], q) == StacksOf(m, q)[id := StackAt(t, q)];
      SumUpdate(StacksOf(m, q), id, StackAt(t, q));
    }
  }

  lemma AtSolvent(b: Bank, id: string)
    requires BankOk(b)
    ensures Solvent(At(b, id), b.ledger) && Seating.Valid(At(b, id)) && At(b, id).id == id
  {
  }

  lemma TableReplaced(b: Bank, id: string, t: TableState)
    requires BankOk(b) && Seating.Valid(t) && t.id == id && Solvent(t, b.ledger)
    ensures BankOk(b.(tables := b.tables[id := t]))
    ensures forall q :: Worth(b.(tables := b.tables[id := t]), q)
                        == Worth(b, q) - StackAt(At(b, id), q) + StackAt(t, q)
  {
    StackReplaced(b.tables, id, t);
  }

  lemma LookEffect(b: Bank, id: string)
    requires BankOk(b)
    ensures BankOk(Look(b, id))
    ensures forall q :: Worth(Look(b, id), q) == Worth(b, q)
    ensures forall other :: At(Look(b, id), other) == At(b, other)
  {
    AtSolvent(b, id);
    TableReplaced(b, id, At(b, id));
  }

  /** Rising takes exactly one's own stack off the table. */
  lemma RiseEffect(b: Bank, id: string, p: string)
    requires BankOk(b)
    ensures var (c, e) := Rise(b, id, p);
            && BankOk(c) && c.ledger == b.ledger
            && (e.None? <==> Seated(At(b, id), p))
            && (e.Some? ==> e == Some(PlayerNotFound) && At(c, id) == At(b, id))
            && (e.None? ==> 0 < StackAt(At(b, id), p) <= StackTotal(b, p))
            && (forall q :: Worth(c, q) == Worth(b, q) - (if q == p then StackAt(At(b, id), p) else 0))
  {
    var t := At(b, id);
    AtSolvent(b, id);
    LeaveEffect(t, p);
    var u := Leave(t, p).table;
    TableReplaced(b, id, u);
    WorthParts(b, p);
  }

  /** Sitting down adds the stack for a newcomer, and nothing for anyone already seated there. */
  lemma SitEffect(b: Bank, id: string, p: string, nickname: string, stack: int, seat: Option<int>)
    requires BankOk(b) && stack > 0 && p in b.ledger.balances
    ensures var (c, e) := Sit(b, id, p, nickname, stack, seat);
            && BankOk(c) && c.ledger == b.ledger
            && (e.Some? ==> At(c, id) == At(b, id) && !Seated(At(b, id), p))
            && (forall q :: Worth(c, q) == Worth(b, q)
                  + (if q == p && e.None? && !Seated(At(b, id), p) then stack else 0))
  {
    var t := At(b, id);
    AtSolvent(b, id);
    JoinEffect(t, p, nickname, stack, seat);
    var u := Join(t, p, nickname, stack, seat).table;
    TableReplaced(b, id, u);
  }

  // Looking at a table first makes no difference to leaving or joining it.
  lemma LookFirst(b: Bank, id: string, p: string)
    ensures Rise(Look(b, id), id, p) == Rise(b, id, p)
    ensures At(Look(b, id), id) == At(b, id)
  {
    assert Look(b, id).tables[id := Leave(At(b, id), p).table] == b.tables[id := Leave(At(b, id), p).table];
  }
}
