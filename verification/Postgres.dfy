/** The row model of postgres_event_store.go under serial transactions, and its comparison with
    the in-memory ledger. Row i of buy_ins carries the serial id i + 1. */
module PostgresRows {
  import opened Basics
  import opened Ledgers

  datatype Room = Room(roomId: string, minBuyIn: int, maxBuyIn: int)

  datatype BuyInRow = BuyInRow(playerId: string, tableId: string, roomId: string, amount: int, status: BuyInStatus)

  // `rooms` maps the id of each active table to its room.
  datatype Db = Db(rooms: map<string, Room>, wallets: map<string, int>, buyIns: seq<BuyInRow>)

  // The store's own errors, or a statement the database refuses.
  datatype PgError = Known(error: StoreError) | Refused

  function WalletBalance(d: Db, p: string): int {
    if p in d.wallets then d.wallets[p] else 0
  }

  // INSERT ... ON CONFLICT DO NOTHING
  function InsertWallet(wallets: map<string, int>, p: string, balance: int): map<string, int> {
    if p in wallets then wallets else wallets[p := balance]
  }

  predicate IsPending(row: BuyInRow, p: string, t: string) {
    row.playerId == p && row.tableId == t && row.status == Pending
  }

  // SELECT ... ORDER BY id DESC LIMIT 1
  function LatestPending(rows: seq<BuyInRow>, p: string, t: string): (r: Option<nat>)
    ensures r.Some? ==> r.value < |rows| && IsPending(rows[r.value], p, t)
    ensures r.Some? ==> forall j | r.value < j < |rows| :: !IsPending(rows[j], p, t)
    ensures r.None? ==> forall j | 0 <= j < |rows| :: !IsPending(rows[j], p, t)
  {
    if rows == [] then None
    else if IsPending(rows[|rows| - 1], p, t) then Some(|rows| - 1)
    else LatestPending(rows[..|rows| - 1], p, t)
  }

  function ReceiptOf(row: BuyInRow, i: nat, balance: int): Receipt {
    Receipt(i + 1, row.playerId, row.tableId, row.roomId, row.amount, balance, row.status)
  }

  function EnsureWallet(d: Db, p: string, initial: int): (Db, Result<(), PgError>) {
    if p !in d.wallets && initial < 0 then (d, Err(Refused))
    else (d.(wallets := InsertWallet(d.wallets, p, initial)), Ok(()))
  }

  function CreditWallet(d: Db, p: string, amount: int): (Db, Result<int, PgError>) {
    if amount < 0 then (d, Err(Known(InvalidWalletCreditAmount)))
    else
      var w := InsertWallet(d.wallets, p, 0);
      if w[p] + amount > MAX_INT64 then (d.(wallets := w), Err(Refused))
      else (d.(wallets := w[p := w[p] + amount]), Ok(w[p] + amount))
  }

  function CreateBuyIn(d: Db, p: string, t: string, amount: int): (Db, Result<Receipt, PgError>) {
    if t !in d.rooms then (d, Err(Known(TableNotFound)))
    else if amount < d.rooms[t].minBuyIn || amount > d.rooms[t].maxBuyIn then (d, Err(Known(InvalidBuyInAmount)))
    else
      match LatestPending(d.buyIns, p, t)
      case Some(i) => (d, Ok(ReceiptOf(d.buyIns[i], i, WalletBalance(d, p))))
      case None =>
        var w := InsertWallet(d.wallets, p, 0);
        if w[p] < amount then (d, Err(Known(InsufficientBalance)))   // the transaction is rolled back
        else
          var row := BuyInRow(p, t, d.rooms[t].roomId, amount, Pending);
          (d.(wallets := w[p := w[p] - amount], buyIns := d.buyIns + [row]),
           Ok(ReceiptOf(row, |d.buyIns|, w[p] - amount)))
  }

  function ConsumePendingBuyIn(d: Db, p: string, t: string): (Db, Result<Receipt, PgError>) {
    match LatestPending(d.buyIns, p, t)
    case None => (d, Err(Known(PendingBuyInNotFound)))
    case Some(i) =>
      if p !in d.wallets then (d, Err(Refused))   // the balance query finds no row; rolled back
      else
        var used := d.buyIns[i].(status := Consumed);
        (d.(buyIns := d.buyIns[i := used]), Ok(ReceiptOf(used, i, d.wallets[p])))
  }

  datatype PgReply = PgDone(ensured: Result<(), PgError>) | PgBalance(credit: Result<int, PgError>)
      | PgBought(receipt: Result<Receipt, PgError>)

  function Apply(d: Db, op: LedgerOp): (Db, PgReply) {
    match op
    case OpEnsure(p, initial) => var (e, r) := EnsureWallet(d, p, initial); (e, PgDone(r))
    case OpCredit(p, amount) => var (e, r) := CreditWallet(d, p, amount); (e, PgBalance(r))
    case OpBuyIn(p, t, amount) => var (e, r) := CreateBuyIn(d, p, t, amount); (e, PgBought(r))
    case OpConsume(p, t) => var (e, r) := ConsumePendingBuyIn(d, p, t); (e, PgBought(r))
  }

  ghost function Run(d: Db, ops: seq<LedgerOp>): (Db, seq<PgReply>) {
    if ops == [] then (d, []) else
      var (e, replies) := Run(d, ops[..|ops| - 1]);
      var (f, reply) := Apply(e, ops[|ops| - 1]);
      (f, replies + [reply])
  }

  // ---------- Rows by themselves ----------

  ghost predicate OnePending(rows: seq<BuyInRow>) {
    forall i, j | 0 <= i < j < |rows| && rows[i].status == Pending && rows[j].status == Pending ::
      rows[i].playerId != rows[j].playerId || rows[i].tableId != rows[j].tableId
  }

  // Rows are only ever appended, or marked consumed.
  ghost predicate Advances(before: seq<BuyInRow>, after: seq<BuyInRow>) {
    && |before| <= |after|
    && forall i | 0 <= i < |before| ::
         after[i] == before[i] || (before[i].status == Pending && after[i] == before[i].(status := Consumed))
  }

  /** Whatever is asked of it, the store keeps at most one pending row per player and table, and
      never un-consumes or edits a row. */
  lemma {:induction false} RowsAdvance(d: Db, ops: seq<LedgerOp>)
    requires OnePending(d.buyIns)
    ensures OnePending(Run(d, ops).0.buyIns)
    ensures Advances(d.buyIns, Run(d, ops).0.buyIns)
  {
    if ops != [] {
      var n := |ops| - 1;
      RowsAdvance(d, ops[..n]);
      var e := Run(d, ops[..n]).0;
      var f := Apply(e, ops[n]).0;
      assert Advances(e.buyIns, f.buyIns) && OnePending(f.buyIns);
      assert forall i | 0 <= i < |d.buyIns| :: f.buyIns[i] == e.buyIns[i]
              || (e.buyIns[i].status == Pending && f.buyIns[i] == e.buyIns[i].(status := Consumed));
    }
  }

  // ---------- What is refused, and what a buy-in does ----------

  ghost predicate HasPending(d: Db, p: string, t: string) {
    exists i :: 0 <= i < |d.buyIns| && IsPending(d.buyIns[i], p, t)
  }

  // The table has a room, and the amount is within its bounds.
  ghost predicate Admissible(d: Db, t: string, amount: int) {
    t in d.rooms && d.rooms[t].minBuyIn <= amount <= d.rooms[t].maxBuyIn
  }

  /** Which buy-in gets which refusal; a refused one changes nothing, not even the wallet row that was
      inserted on the way. */
  lemma BuyInRefusedExactly(d: Db, p: string, t: string, amount: int)
    ensures var (e, r) := CreateBuyIn(d, p, t, amount);
            && (r == Err(Known(TableNotFound)) <==> t !in d.rooms)
            && (r == Err(Known(InvalidBuyInAmount)) <==> t in d.rooms && !Admissible(d, t, amount))
            && (r == Err(Known(InsufficientBalance)) <==>
                  Admissible(d, t, amount) && !HasPending(d, p, t) && WalletBalance(d, p) < amount)
            && (r.Ok? <==> Admissible(d, t, amount) && (HasPending(d, p, t) || amount <= WalletBalance(d, p)))
            && (r.Err? ==> e == d)
  {
    var found := LatestPending(d.buyIns, p, t);
    assert found.Some? ==> IsPending(d.buyIns[found.value], p, t);
  }

  /** A first buy-in takes its amount from the wallet and appends one pending row for it; a repeated one
      is answered with the pending row there is, and takes nothing. */
  lemma BuyInBooked(d: Db, p: string, t: string, amount: int)
    requires CreateBuyIn(d, p, t, amount).1.Ok?
    ensures var (e, r) := CreateBuyIn(d, p, t, amount);
            && 0 < r.value.buyInId <= |e.buyIns| && IsPending(e.buyIns[r.value.buyInId - 1], p, t)
            && r.value.playerId == p && r.value.tableId == t && r.value.status == Pending
            && r.value.amount == e.buyIns[r.value.buyInId - 1].amount
            && r.value.balanceAfter == WalletBalance(e, p)
            && (if HasPending(d, p, t) then e == d
                else && e.buyIns == d.buyIns + [BuyInRow(p, t, d.rooms[t].roomId, amount, Pending)]
                     && WalletBalance(e, p) == WalletBalance(d, p) - amount && p in e.wallets
                     && forall q | q != p :: (q in e.wallets <==> q in d.wallets)
                                             && WalletBalance(e, q) == WalletBalance(d, q))
  {
    BuyInRefusedExactly(d, p, t, amount);
    var found := LatestPending(d.buyIns, p, t);
    assert found.Some? ==> IsPending(d.buyIns[found.value], p, t);
  }

  /** Consuming marks the pending row, and nothing else, consumed; without one, or without a wallet, it
      changes nothing. */
  lemma ConsumedExactly(d: Db, p: string, t: string)
    requires OnePending(d.buyIns)
    ensures var (e, r) := ConsumePendingBuyIn(d, p, t);
            && (r == Err(Known(PendingBuyInNotFound)) <==> !HasPending(d, p, t))
            && (r.Ok? <==> HasPending(d, p, t) && p in d.wallets)
            && (r.Err? ==> e == d)
            && (r.Ok? ==>
                  && e.wallets == d.wallets && !HasPending(e, p, t) && |e.buyIns| == |d.buyIns|
                  && forall i | 0 <= i < |d.buyIns| ::
                       if IsPending(d.buyIns[i], p, t)
                       then e.buyIns[i] == d.buyIns[i].(status := Consumed) && r.value.amount == d.buyIns[i].amount
                       else e.buyIns[i] == d.buyIns[i])
  {
    var found := LatestPending(d.buyIns, p, t);
    assert found.Some? ==> IsPending(d.buyIns[found.value], p, t);
    if found.Some? {
      assert forall i | 0 <= i < |d.buyIns| && IsPending(d.buyIns[i], p, t) :: i == found.value;
    }
  }

  /** Grants and credits: what is refused, and the balance otherwise. */
  lemma WalletsExactly(d: Db, p: string, amount: int)
    ensures var (e, r) := EnsureWallet(d, p, amount);
            && (r.Err? <==> p !in d.wallets && amount < 0) && (r.Err? ==> e == d)
            && (r.Ok? ==> p in e.wallets && WalletBalance(e, p) == if p in d.wallets then d.wallets[p] else amount)
    ensures var (e, r) := CreditWallet(d, p, amount);
            && (r == Err(Known(InvalidWalletCreditAmount)) <==> amount < 0)
            && (r == Err(Refused) <==> amount >= 0 && WalletBalance(d, p) + amount > MAX_INT64)
            && WalletBalance(e, p) == WalletBalance(d, p) + (if r.Ok? then amount else 0)
            && (r.Ok? ==> r.value == WalletBalance(e, p))
  {
  }

  // Every row's amount is within the bounds of its table's room, and it carries that room's id.
  ghost predicate RowsInRange(d: Db) {
    forall row | row in d.buyIns ::
      Admissible(d, row.tableId, row.amount) && row.roomId == d.rooms[row.tableId].roomId
  }

  lemma OpKeepsRange(d: Db, op: LedgerOp)
    requires RowsInRange(d)
    ensures RowsInRange(Apply(d, op).0) && Apply(d, op).0.rooms == d.rooms
    ensures RoomsInOrder(d) && op.OpBuyIn? ==>
              forall q :: WalletBalance(Apply(d, op).0, q) <= WalletBalance(d, q)
  {
    match op
    case OpEnsure(_, _) =>
    case OpCredit(_, _) =>
    case OpBuyIn(p, t, amount) => BuyInRefusedExactly(d, p, t, amount);
    case OpConsume(p, t) =>
      var found := LatestPending(d.buyIns, p, t);
      assert found.Some? ==> d.buyIns[found.value] in d.buyIns;
  }

  /** Over every run from rows in range, whatever is asked: the rows stay in range, and no buy-in raises
      anyone's wallet. */
  lemma {:induction false} RunKeepsRange(d: Db, ops: seq<LedgerOp>)
    requires RowsInRange(d) && RoomsInOrder(d)
    ensures RowsInRange(Run(d, ops).0) && Run(d, ops).0.rooms == d.rooms
    ensures ops != [] && ops[|ops| - 1].OpBuyIn? ==>
              forall q :: WalletBalance(Run(d, ops).0, q) <= WalletBalance(Run(d, ops[..|ops| - 1]).0, q)
  {
    if ops != [] {
      RunKeepsRange(d, ops[..|ops| - 1]);
      OpKeepsRange(Run(d, ops[..|ops| - 1]).0, ops[|ops| - 1]);
    }
  }

  // ---------- Comparison with the in-memory ledger ----------

  ghost predicate RoomsInOrder(d: Db) {
    forall t | t in d.rooms :: t != "" && TrimSpace(t) == t && 0 < d.rooms[t].minBuyIn
  }

  ghost predicate RowHolds(rows: seq<BuyInRow>, k: (string, string), r: Receipt) {
    && 0 < r.buyInId <= |rows|
    && var row := rows[r.buyInId - 1];
       IsPending(row, k.0, k.1) && r.playerId == k.0 && r.tableId == k.1 && r.amount == row.amount
           && r.status == Pending
  }

  ghost predicate SamePendingRows(rows: seq<BuyInRow>, pending: map<(string, string), Receipt>) {
    && (forall k | k in pending :: RowHolds(rows, k, pending[k]))
    && (forall i | 0 <= i < |rows| && rows[i].status == Pending ::
          var k := (rows[i].playerId, rows[i].tableId);
          k in pending && pending[k].buyInId == i + 1)
  }

  ghost predicate Related(d: Db, g: PairLedger) {
    && d.wallets == g.balances
    && (forall p | p in d.wallets :: d.wallets[p] <= MAX_INT64)
    && |d.buyIns| == g.nextBuyInId
    && SamePendingRows(d.buyIns, g.pending)
    && (forall k | k in g.pending :: k.0 in g.balances)
  }

  // Equal up to the room label, which the in-memory ledger does not know.
  ghost predicate SameReply(a: PgReply, b: LedgerReply) {
    match (a, b)
    case (PgDone(Ok(_)), Done) => true
    case (PgBalance(Ok(x)), NewBalance(Ok(y))) => x == y
    case (PgBalance(Err(Known(x))), NewBalance(Err(y))) => x == y
    case (PgBought(Ok(x)), Bought(Ok(y))) => x == y.(roomId := x.roomId)
    case (PgBought(Err(Known(x))), Bought(Err(y))) => x == y
    case _ => false
  }

  // The requests on which the two stores are comparable: real tables, amounts the room and the
  // wallet column accept.
  ghost predicate Comparable(d: Db, op: LedgerOp) {
    match op
    case OpEnsure(_, initial) => 0 <= initial <= MAX_INT64
    case OpCredit(p, amount) => -MAX_INT64 <= WalletBalance(d, p) + amount <= MAX_INT64
    case OpBuyIn(p, t, amount) => t in d.rooms && d.rooms[t].minBuyIn <= amount <= d.rooms[t].maxBuyIn
    case OpConsume(_, t) => t in d.rooms
  }

  lemma {:induction false} PendingFound(d: Db, g: PairLedger, p: string, t: string)
    requires Related(d, g)
    ensures LatestPending(d.buyIns, p, t).Some? <==> (p, t) in g.pending
    ensures (p, t) in g.pending ==> LatestPending(d.buyIns, p, t) == Some(g.pending[(p, t)].buyInId - 1)
  {
    var found := LatestPending(d.buyIns, p, t);
    if (p, t) in g.pending {
      assert RowHolds(d.buyIns, (p, t), g.pending[(p, t)]);
    }
  }

  lemma RowAppended(rows: seq<BuyInRow>, pending: map<(string, string), Receipt>, row: BuyInRow, r: Receipt)
    requires SamePendingRows(rows, pending)
    requires row.status == Pending && (row.playerId, row.tableId) !in pending
    requires r.buyInId == |rows| + 1 && r.playerId == row.playerId && r.tableId == row.tableId
    requires r.amount == row.amount && r.status == Pending
    ensures SamePendingRows(rows + [row], pending[(row.playerId, row.tableId) := r])
  {
    forall k | k in pending
      ensures RowHolds(rows + [row], k, pending[k])
    {
      assert RowHolds(rows, k, pending[k]);
    }
  }

  lemma RowConsumed(rows: seq<BuyInRow>, pending: map<(string, string), Receipt>, k: (string, string))
    requires SamePendingRows(rows, pending) && k in pending
    ensures var i := pending[k].buyInId - 1;
            0 <= i < |rows| && SamePendingRows(rows[i := rows[i].(status := Consumed)], pending - {k})
  {
    assert RowHolds(rows, k, pending[k]);
    var i := pending[k].buyInId - 1;
    var after := rows[i := rows[i].(status := Consumed)];
    forall q | q in pending - {k}
      ensures RowHolds(after, q, pending[q])
    {
      assert RowHolds(rows, q, pending[q]);
      assert rows[i].playerId == k.0 && rows[i].tableId == k.1;
    }
  }

  lemma SameBuyIn(d: Db, g: PairLedger, p: string, t: string, amount: int)
    requires Related(d, g) && RoomsInOrder(d) && Comparable(d, OpBuyIn(p, t, amount))
    ensures var (e, x), (h, y) := CreateBuyIn(d, p, t, amount), CreateBuyInAt(g, (p, t), p, t, amount);
            && SameReply(PgBought(x), Bought(y))
            && e.rooms == d.rooms
            && (Related(e, h) <==> p in d.wallets)
  {
    PendingFound(d, g, p, t);
    if (p, t) in g.pending {
      assert RowHolds(d.buyIns, (p, t), g.pending[(p, t)]);
    } else if p in d.wallets {
      assert g.balances[p := g.balances[p]] == g.balances;
      if amount <= d.wallets[p] {
        Wrap64InRange(d.wallets[p] - amount);
        RowAppended(d.buyIns, g.pending, BuyInRow(p, t, d.rooms[t].roomId, amount, Pending),
                    Receipt(g.nextBuyInId + 1, p, t, LOCAL_ROOM, amount, d.wallets[p] - amount, Pending));
      }
    } else {
      assert p in CreateBuyInAt(g, (p, t), p, t, amount).0.balances;
    }
  }

  lemma SameConsume(d: Db, g: PairLedger, p: string, t: string)
    requires Related(d, g) && t != ""
    ensures var (e, x), (h, y) := ConsumePendingBuyIn(d, p, t), ConsumeAt(g, (p, t), p, t);
            SameReply(PgBought(x), Bought(y)) && e.rooms == d.rooms && Related(e, h)
  {
    PendingFound(d, g, p, t);
    if (p, t) in g.pending {
      assert RowHolds(d.buyIns, (p, t), g.pending[(p, t)]);
      RowConsumed(d.buyIns, g.pending, (p, t));
    }
  }

  lemma SameCredit(d: Db, g: PairLedger, p: string, amount: int)
    requires Related(d, g) && Comparable(d, OpCredit(p, amount))
    ensures var (e, x), (h, y) := CreditWallet(d, p, amount), Ledgers.CreditWallet(g, p, amount);
            SameReply(PgBalance(x), NewBalance(y)) && e.rooms == d.rooms && Related(e, h)
  {
    Wrap64InRange(Balance(g, p) + amount);
  }

  /** One comparable request gets the same answer from both stores. */
  lemma SameAnswer(d: Db, g: PairLedger, op: LedgerOp)
    requires Related(d, g) && RoomsInOrder(d) && Comparable(d, op)
    ensures SameReply(Apply(d, op).1, ApplyPair(g, op).1)
  {
    match op
    case OpEnsure(p, initial) =>
    case OpCredit(p, amount) => SameCredit(d, g, p, amount);
    case OpBuyIn(p, t, amount) => SameBuyIn(d, g, p, t, amount);
    case OpConsume(p, t) => SameConsume(d, g, p, t);
  }

  /** The stores stay related by exactly those requests that are not a buy-in by a player who has
      no wallet row. */
  lemma RelatedExactly(d: Db, g: PairLedger, op: LedgerOp)
    requires Related(d, g) && RoomsInOrder(d) && Comparable(d, op)
    ensures Related(Apply(d, op).0, ApplyPair(g, op).0) <==> !(op.OpBuyIn? && op.playerId !in d.wallets)
    ensures Apply(d, op).0.rooms == d.rooms
  {
    match op
    case OpEnsure(p, initial) =>
    case OpCredit(p, amount) => SameCredit(d, g, p, amount);
    case OpBuyIn(p, t, amount) => SameBuyIn(d, g, p, t, amount);
    case OpConsume(p, t) => SameConsume(d, g, p, t);
  }

  /** The divergence made visible: after a failed buy-in without a wallet, the first grant reaches
      the Postgres wallet but not the in-memory one. */
  lemma {:induction false} WalletlessBuyInDiverges(d: Db, g: PairLedger, p: string, t: string, amount: int,
      initial: int)
    requires Related(d, g) && RoomsInOrder(d) && p !in d.wallets && initial > 0
    requires Comparable(d, OpBuyIn(p, t, amount))
    ensures var ops := [OpBuyIn(p, t, amount), OpEnsure(p, initial)];
            WalletBalance(Run(d, ops).0, p) == initial && Balance(RunPair(g, ops).0, p) == 0
  {
    var ops := [OpBuyIn(p, t, amount), OpEnsure(p, initial)];
    PendingFound(d, g, p, t);
    assert ops[..1] == [ops[0]] && ops[..1][..0] == [];
    assert Run(d, ops[..1]).0 == Apply(d, ops[0]).0 == d;
    assert RunPair(g, ops[..1]).0 == ApplyPair(g, ops[0]).0;
    assert ApplyPair(g, ops[0]).0.balances == g.balances[p := 0];
  }

  // Every request of the run is comparable when it is made, and buy-ins come from wallet holders.
  ghost predicate RegularAt(d: Db, ops: seq<LedgerOp>, n: nat)
    requires n < |ops|
  {
    var e := Run(d, ops[..n]).0;
    Comparable(e, ops[n]) && (ops[n].OpBuyIn? ==> ops[n].playerId in e.wallets)
  }

  ghost predicate RegularRun(d: Db, ops: seq<LedgerOp>) {
    forall n | 0 <= n < |ops| :: RegularAt(d, ops, n)
  }

  ghost predicate SameReplies(a: seq<PgReply>, b: seq<LedgerReply>) {
    |a| == |b| && forall i | 0 <= i < |a| :: SameReply(a[i], b[i])
  }

  /** Over every regular run the two stores answer alike and stay related. */
  lemma {:induction false} StoresBisimilar(d: Db, g: PairLedger, ops: seq<LedgerOp>)
    requires Related(d, g) && RoomsInOrder(d) && RegularRun(d, ops)
    ensures SameReplies(Run(d, ops).1, RunPair(g, ops).1)
    ensures Related(Run(d, ops).0, RunPair(g, ops).0) && Run(d, ops).0.rooms == d.rooms
  {
    if ops != [] {
      var n := |ops| - 1;
      assert RegularAt(d, ops, n);
      forall k | 0 <= k < n
        ensures RegularAt(d, ops[..n], k)
      {
        assert RegularAt(d, ops, k) && ops[..n][..k] == ops[..k];
      }
      StoresBisimilar(d, g, ops[..n]);
      SameAnswer(Run(d, ops[..n]).0, RunPair(g, ops[..n]).0, ops[n]);
      RelatedExactly(Run(d, ops[..n]).0, RunPair(g, ops[..n]).0, ops[n]);
    }
  }

  /** The program's own string-keyed store and Postgres, both started empty, give the same answers
      over every regular run with colon-free player ids. */
  lemma {:induction false} StoresAnswerAlike(d: Db, ops: seq<LedgerOp>)
    requires d.wallets == map[] && d.buyIns == []
    requires RoomsInOrder(d) && RegularRun(d, ops)
    requires forall op | op in ops :: ColonFree(op.playerId)
    ensures SameReplies(Run(d, ops).1, RunString(EMPTY_LEDGER, ops).1)
  {
    var g: PairLedger := Ledger(map[], map[], 0);
    assert Related(d, g) && Refines(EMPTY_LEDGER, g);
    StoresBisimilar(d, g, ops);
    CompositeKeyRefinesPair(EMPTY_LEDGER, g, ops);
  }
}
