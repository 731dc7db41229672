/** The in-memory wallet and pending buy-in ledger of event_store.go. */
module Ledgers {
  import opened Basics

  datatype BuyInStatus = Pending | Consumed

  datatype Receipt = Receipt(buyInId: int, playerId: string, tableId: string, roomId: string,
                             amount: int, balanceAfter: int, status: BuyInStatus)

  datatype StoreError = TableNotFound | InvalidBuyInAmount | InsufficientBalance
                      | PendingBuyInNotFound | InvalidWalletCreditAmount

  // K is the type of pending keys: strings in the program, pairs in the reference ledger.
  datatype Ledger<K> = Ledger(balances: map<string, int>, pending: map<K, Receipt>, nextBuyInId: int)

  type StringLedger = Ledger<string>

  const LOCAL_ROOM := "local_room"

  function Balance<K>(l: Ledger<K>, p: string): int {
    if p in l.balances then l.balances[p] else 0
  }

  function EnsureWallet<K>(l: Ledger<K>, p: string, initial: int): Ledger<K> {
    if p in l.balances then l else l.(balances := l.balances[p := initial])
  }

  // The store computes balances in 64-bit integers; the mathematical ledger it stands for does not.
  datatype Arithmetic = Int64 | Unbounded

  function Fit(a: Arithmetic, x: int): int {
    if a.Int64? then Wrap64(x) else x
  }

  function CreditWalletIn<K>(a: Arithmetic, l: Ledger<K>, p: string, amount: int)
    : (Ledger<K>, Result<int, StoreError>)
  {
    if amount < 0 then (l, Err(InvalidWalletCreditAmount))
    else
      var updated := Fit(a, Balance(l, p) + amount);
      (l.(balances := l.balances[p := updated]), Ok(updated))
  }

  function CreditWallet<K>(l: Ledger<K>, p: string, amount: int): (Ledger<K>, Result<int, StoreError>) {
    CreditWalletIn(Int64, l, p, amount)
  }

  function CreateBuyInIn<K>(a: Arithmetic, l: Ledger<K>, key: K, p: string, table: string, amount: int)
    : (Ledger<K>, Result<Receipt, StoreError>)
  {
    if table == "" then (l, Err(TableNotFound))
    else if amount <= 0 then (l, Err(InvalidBuyInAmount))
    else if key in l.pending then (l, Ok(l.pending[key].(balanceAfter := Balance(l, p))))
    else
      var balance := Balance(l, p);
      var started := l.(balances := l.balances[p := balance]);
      if balance < amount then (started, Err(InsufficientBalance))
      else
        var updated := Fit(a, balance - amount);
        var receipt := Receipt(l.nextBuyInId + 1, p, table, LOCAL_ROOM, amount, updated, Pending);
        (Ledger(l.balances[p := updated], l.pending[key := receipt], l.nextBuyInId + 1), Ok(receipt))
  }

  function CreateBuyInAt<K>(l: Ledger<K>, key: K, p: string, table: string, amount: int)
    : (Ledger<K>, Result<Receipt, StoreError>)
  {
    CreateBuyInIn(Int64, l, key, p, table, amount)
  }

  function ConsumeAt<K>(l: Ledger<K>, key: K, p: string, table: string): (Ledger<K>, Result<Receipt, StoreError>) {
    if table == "" || key !in l.pending then (l, Err(PendingBuyInNotFound))
    else (l.(pending := l.pending - {key}),
          Ok(l.pending[key].(status := Consumed, balanceAfter := Balance(l, p))))
  }

  function BuyInKey(p: string, table: string): string {
    p + "::" + table
  }

  function CreateBuyIn(l: StringLedger, p: string, table: string, amount: int)
    : (StringLedger, Result<Receipt, StoreError>)
  {
    var t := TrimSpace(table);
    CreateBuyInAt(l, BuyInKey(p, t), p, t, amount)
  }

  function ConsumePendingBuyIn(l: StringLedger, p: string, table: string): (StringLedger, Result<Receipt, StoreError>) {
    var t := TrimSpace(table);
    ConsumeAt(l, BuyInKey(p, t), p, t)
  }

  const EMPTY_LEDGER: StringLedger := Ledger(map[], map[], 0)

  // ---------- The composite key ----------

  predicate ColonFree(p: string) {
    ':' !in p
  }

  // Two different player ids that some pair of table ids makes collide.
  predicate Entangled(p: string, q: string) {
    q == p + ":" || p + "::" <= q
  }

  /** Distinct player ids collide on some tables exactly when one extends the other by colons. */
  lemma KeyCollisionExactly(p: string, q: string)
    requires p != q
    ensures (exists t, u :: BuyInKey(p, t) == BuyInKey(q, u)) <==> Entangled(p, q) || Entangled(q, p)
  {
    if t, u :| BuyInKey(p, t) == BuyInKey(q, u) {
      if |p| <= |q| {
        CollisionEntangles(p, t, q, u);
      } else {
        CollisionEntangles(q, u, p, t);
      }
    }
    if Entangled(p, q) {
      EntangledCollide(p, q);
    }
    if Entangled(q, p) {
      EntangledCollide(q, p);
    }
  }

  lemma CollisionEntangles(p: string, t: string, q: string, u: string)
    requires p != q && |p| <= |q| && BuyInKey(p, t) == BuyInKey(q, u)
    ensures Entangled(p, q)
  {
    var k, l := BuyInKey(p, t), BuyInKey(q, u);
    assert k[..|p|] == p && l[..|q|] == q;
    assert q[..|p|] == l[..|q|][..|p|] == k[..|p|] == p;
    assert q[..|q|] == q;
    if |p| < |q| {
      assert q[|p|] == l[|p|] == k[|p|] == ':';
      if |q| == |p| + 1 {
        assert q == q[..|p|] + [q[|p|]];
      } else {
        assert q[|p| + 1] == l[|p| + 1] == k[|p| + 1] == ':';
        assert (p + "::") == q[..|p| + 2];
      }
    }
  }

  lemma EntangledCollide(p: string, q: string)
    requires Entangled(p, q)
    ensures exists t, u :: BuyInKey(p, t) == BuyInKey(q, u)
  {
    if q == p + ":" {
      assert BuyInKey(p, ":") == BuyInKey(q, "") by {
        assert p + "::" + ":" == p + ":" + "::" + "";
      }
    } else {
      var rest := q[|p| + 2..];
      assert q == p + "::" + rest;
      assert BuyInKey(p, rest + "::") == BuyInKey(q, "") by {
        assert p + "::" + (rest + "::") == p + "::" + rest + "::" + "";
      }
    }
  }

  lemma EntangledHasColon(p: string, q: string)
    ensures Entangled(p, q) ==> !ColonFree(q)
  {
    if Entangled(p, q) {
      assert q[|p|] == ':';
    }
  }

  lemma ColonFreeKeysInjective(p: string, t: string, q: string, u: string)
    requires ColonFree(p) && ColonFree(q) && BuyInKey(p, t) == BuyInKey(q, u)
    ensures p == q && t == u
  {
    EntangledHasColon(p, q);
    EntangledHasColon(q, p);
    if p != q {
      KeyCollisionExactly(p, q);
      assert false;
    }
    assert BuyInKey(p, t)[|p| + 2..] == t && BuyInKey(q, u)[|p| + 2..] == u;
  }

  // ---------- The pair-keyed reference ledger ----------

  type PairLedger = Ledger<(string, string)>

  ghost predicate SamePending(l: StringLedger, g: PairLedger) {
    && (forall k | k in l.pending :: exists p, t :: ColonFree(p) && k == BuyInKey(p, t))
    && (forall k | k in g.pending :: ColonFree(k.0))
    && (forall p, t | ColonFree(p) ::
          && (BuyInKey(p, t) in l.pending <==> (p, t) in g.pending)
          && ((p, t) in g.pending ==> l.pending[BuyInKey(p, t)] == g.pending[(p, t)]))
  }

  ghost predicate Refines(l: StringLedger, g: PairLedger) {
    l.balances == g.balances && l.nextBuyInId == g.nextBuyInId && SamePending(l, g)
  }

  datatype LedgerOp =
    | OpEnsure(playerId: string, initial: int)
    | OpCredit(playerId: string, amount: int)
    | OpBuyIn(playerId: string, table: string, amount: int)
    | OpConsume(playerId: string, table: string)

  datatype LedgerReply = Done | NewBalance(credit: Result<int, StoreError>)
      | Bought(receipt: Result<Receipt, StoreError>)

  // The same operation on either kind of ledger; only the key differs.
  function ApplyWith<K>(l: Ledger<K>, op: LedgerOp, key: (string, string) -> K): (Ledger<K>, LedgerReply) {
    match op
    case OpEnsure(p, initial) => (EnsureWallet(l, p, initial), Done)
    case OpCredit(p, amount) => var (m, r) := CreditWallet(l, p, amount); (m, NewBalance(r))
    case OpBuyIn(p, table, amount) =>
      var t := TrimSpace(table);
      var (m, r) := CreateBuyInAt(l, key(p, t), p, t, amount); (m, Bought(r))
    case OpConsume(p, table) =>
      var t := TrimSpace(table);
      var (m, r) := ConsumeAt(l, key(p, t), p, t); (m, Bought(r))
  }

  function ApplyString(l: StringLedger, op: LedgerOp): (StringLedger, LedgerReply) {
    ApplyWith(l, op, (p: string, t: string) => BuyInKey(p, t))
  }

  function ApplyPair(g: PairLedger, op: LedgerOp): (PairLedger, LedgerReply) {
    ApplyWith(g, op, (p: string, t: string) => (p, t))
  }

  lemma PendingAdded(l: StringLedger, g: PairLedger, p: string, t: string, r: Receipt)
    requires SamePending(l, g) && ColonFree(p)
    ensures SamePending(l.(pending := l.pending[BuyInKey(p, t) := r]), g.(pending := g.pending[(p, t) := r]))
  {
    forall q, u | ColonFree(q) && BuyInKey(q, u) == BuyInKey(p, t)
      ensures q == p && u == t
    {
      ColonFreeKeysInjective(q, u, p, t);
    }
  }

  lemma PendingRemoved(l: StringLedger, g: PairLedger, p: string, t: string)
    requires SamePending(l, g) && ColonFree(p)
    ensures SamePending(l.(pending := l.pending - {BuyInKey(p, t)}), g.(pending := g.pending - {(p, t)}))
  {
    forall q, u | ColonFree(q) && BuyInKey(q, u) == BuyInKey(p, t)
      ensures q == p && u == t
    {
      ColonFreeKeysInjective(q, u, p, t);
    }
  }

  lemma BuyInRefines(l: StringLedger, g: PairLedger, p: string, t: string, amount: int)
    requires Refines(l, g) && ColonFree(p)
    ensures CreateBuyInAt(l, BuyInKey(p, t), p, t, amount).1 == CreateBuyInAt(g, (p, t), p, t, amount).1
    ensures Refines(CreateBuyInAt(l, BuyInKey(p, t), p, t, amount).0, CreateBuyInAt(g, (p, t), p, t, amount).0)
  {
    assert BuyInKey(p, t) in l.pending <==> (p, t) in g.pending;
    PendingAdded(l, g, p, t, Receipt(l.nextBuyInId + 1, p, t, LOCAL_ROOM, amount, Wrap64(Balance(l, p) - amount),
        Pending));
  }

  lemma ConsumeRefines(l: StringLedger, g: PairLedger, p: string, t: string)
    requires Refines(l, g) && ColonFree(p)
    ensures ConsumeAt(l, BuyInKey(p, t), p, t).1 == ConsumeAt(g, (p, t), p, t).1
    ensures Refines(ConsumeAt(l, BuyInKey(p, t), p, t).0, ConsumeAt(g, (p, t), p, t).0)
  {
    assert BuyInKey(p, t) in l.pending <==> (p, t) in g.pending;
    PendingRemoved(l, g, p, t);
  }

  lemma ApplyRefines(l: StringLedger, g: PairLedger, op: LedgerOp)
    requires Refines(l, g) && ColonFree(op.playerId)
    ensures ApplyString(l, op).1 == ApplyPair(g, op).1
    ensures Refines(ApplyString(l, op).0, ApplyPair(g, op).0)
  {
    match op
    case OpEnsure(_, _) =>
    case OpCredit(_, _) =>
    case OpBuyIn(p, table, amount) => BuyInRefines(l, g, p, TrimSpace(table), amount);
    case OpConsume(p, table) => ConsumeRefines(l, g, p, TrimSpace(table));
  }

  ghost function RunString(l: StringLedger, ops: seq<LedgerOp>): (StringLedger, seq<LedgerReply>) {
    if ops == [] then (l, []) else
      var (m, replies) := RunString(l, ops[..|ops| - 1]);
      var (n, reply) := ApplyString(m, ops[|ops| - 1]);
      (n, replies + [reply])
  }

  ghost function RunPair(g: PairLedger, ops: seq<LedgerOp>): (PairLedger, seq<LedgerReply>) {
    if ops == [] then (g, []) else
      var (m, replies) := RunPair(g, ops[..|ops| - 1]);
      var (n, reply) := ApplyPair(m, ops[|ops| - 1]);
      (n, replies + [reply])
  }

  /** Over every run with colon-free player ids, and for arbitrary table ids, gluing the two ids
      into one string key is indistinguishable from keying by the pair. */
  lemma {:induction false} CompositeKeyRefinesPair(l: StringLedger, g: PairLedger, ops: seq<LedgerOp>)
    requires Refines(l, g)
    requires forall op | op in ops :: ColonFree(op.playerId)
    ensures RunString(l, ops).1 == RunPair(g, ops).1
    ensures Refines(RunString(l, ops).0, RunPair(g, ops).0)
  {
    if ops != [] {
      CompositeKeyRefinesPair(l, g, ops[..|ops| - 1]);
      ApplyRefines(RunString(l, ops[..|ops| - 1]).0, RunPair(g, ops[..|ops| - 1]).0, ops[|ops| - 1]);
    }
  }
}
