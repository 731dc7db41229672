/** Chips over whole runs: nothing is created but by the first grant, nothing is lost, nothing
    overflows, and nobody sits twice. */
module Conservation {
  import opened Basics
  import opened Seating
  import opened Ledgers
  import opened Banks
  import opened Worlds
  import Caches

  // ---------- What one handler does to everyone's worth ----------

  ghost predicate Bounded(b: Bank) {
    forall p :: Worth(b, p) <= MAX_INT64
  }

  ghost predicate SameWorth(a: Bank, b: Bank) {
    forall p :: Worth(a, p) == Worth(b, p)
  }

  // Returning `amount` chips taken out of a bank whose worth, with them, was in bounds.
  lemma RefundEffect(b: Bank, p: string, amount: int)
    requires BankOk(b) && 0 <= amount && Worth(b, p) + amount <= MAX_INT64
    ensures BankOk(Refund(b, p, amount))
    ensures forall q :: Worth(Refund(b, p, amount), q) == Worth(b, q) + (if q == p then amount else 0)
  {
    WorthParts(b, p);
    if amount > 0 {
      CreditEffect(b, p, amount);
    }
  }

  /** Leaving a table moves the stack to the wallet, whoever asks and whether or not anyone sits there. */
  lemma DepartConserves(w: World, c: ClientId, id: string, release: bool, eventType: string, lost: set<ClientId>)
    requires c in w.clients && BankOk(w.bank) && Bounded(w.bank)
    ensures var (after, _, error) := Depart(w, c, id, release, eventType, lost);
            && BankOk(after.bank) && SameWorth(after.bank, w.bank)
            && (error.None? <==> Seated(At(w.bank, id), w.clients[c].player))
            && !Seated(At(after.bank, id), w.clients[c].player)
            && (forall other | other != id :: At(after.bank, other) == At(w.bank, other))
            && after.bank.ledger.pending == w.bank.ledger.pending
            && (forall p | p in w.bank.ledger.balances :: p in after.bank.ledger.balances)
  {
    var p := w.clients[c].player;
    RiseEffect(w.bank, id, p);
    AtSolvent(w.bank, id);
    LeaveEffect(At(w.bank, id), p);
    var (b, error) := Rise(w.bank, id, p);
    if error.None? {
      RefundEffect(b, p, StackAt(At(w.bank, id), p));
    }
  }

  /** Taking a seat with a consumed buy-in puts it on the table or back in the wallet, unless the
      player already sits there: then it is gone. */
  lemma TakeSeatEffect(w: World, c: ClientId, id: string, seat: Option<int>, stack: int, wx: Weather)
    requires c in w.clients && BankOk(w.bank) && 0 < stack && w.clients[c].player in w.bank.ledger.balances
    requires Worth(w.bank, w.clients[c].player) + stack <= MAX_INT64
    ensures var p, after := w.clients[c].player, TakeSeat(w, c, id, seat, stack, wx).world.bank;
            && BankOk(after)
            && (forall q :: Worth(after, q) == Worth(w.bank, q)
                  + (if q == p && !Seated(At(w.bank, id), p) then stack else 0))
  {
    var me := w.clients[c];
    SitEffect(w.bank, id, me.player, me.nickname, stack, seat);
    var (b, error) := Sit(w.bank, id, me.player, me.nickname, stack, seat);
    if error.Some? {
      RefundEffect(b, me.player, stack);
    }
  }

  lemma PrevalidateEffect(b: Bank, id: string, seat: Option<int>)
    requires BankOk(b)
    ensures var checked := Prevalidate(b, id, seat).0;
            BankOk(checked) && SameWorth(checked, b) && checked.ledger == b.ledger
            && (forall other :: At(checked, other) == At(b, other))
  {
    LookEffect(b, id);
  }

  /** The join that loses chips: it gets as far as taking a seat at a table where the player is
      already seated, although this connection does not think so. */
  predicate Forfeits(w: World, c: ClientId, req: JoinRequest)
    requires c in w.clients
  {
    var me, id := w.clients[c], Resolve(w.cfg, req.tableId);
    && !(me.seated && me.tableId == id)
    && Prevalidate(w.bank, id, req.seat).1.None?
    && Consume(w.bank, me.player, id).1.Ok?
    && Seated(At(w.bank, id), me.player)
  }

  lemma PrevalidateKeepsLedger(b: Bank, id: string, seat: Option<int>, p: string)
    ensures Consume(Prevalidate(b, id, seat).0, p, id).1 == Consume(b, p, id).1
  {
  }

  /** A join step keeps everyone's worth, except that a forfeiting one costs the player exactly the
      consumed buy-in. */
  lemma JoinEffectOnWorth(w: World, c: ClientId, req: JoinRequest, wx: Weather)
    requires c in w.clients && BankOk(w.bank) && Bounded(w.bank) && ColonFree(w.clients[c].player)
    ensures var p, after := w.clients[c].player, HandleJoin(w, c, req, wx).world.bank;
            && BankOk(after)
            && (forall q | q != p :: Worth(after, q) == Worth(w.bank, q))
            && (Forfeits(w, c, req) ==>
                  Worth(after, p) == Worth(w.bank, p) - Consume(w.bank, p, Resolve(w.cfg, req.tableId)).1.value.amount)
            && (!Forfeits(w, c, req) ==> Worth(after, p) == Worth(w.bank, p))
  {
    var me, id := w.clients[c], Resolve(w.cfg, req.tableId);
    if me.seated && me.tableId == id {
      LookEffect(w.bank, id);
    } else {
      PrevalidateEffect(w.bank, id, req.seat);
      var (checked, invalid) := Prevalidate(w.bank, id, req.seat);
      if invalid.None? {
        PrevalidateKeepsLedger(w.bank, id, req.seat, me.player);
        ConsumeEffect(checked, me.player, id);
        var (paid, receipt) := Consume(checked, me.player, id);
        if receipt.Ok? {
          EnterTableEffect(w.(bank := paid), c, id, req.seat, receipt.value.amount, wx);
        }
      }
    }
  }

  lemma EnterTableEffect(w: World, c: ClientId, id: string, seat: Option<int>, stack: int, wx: Weather)
    requires c in w.clients && BankOk(w.bank) && 0 < stack && w.clients[c].player in w.bank.ledger.balances
    requires !(w.clients[c].seated && w.clients[c].tableId == id)
    requires Worth(w.bank, w.clients[c].player) + stack <= MAX_INT64 && Bounded(w.bank)
    ensures var p, after := w.clients[c].player, EnterTable(w, c, id, seat, stack, wx).world.bank;
            && BankOk(after)
            && (forall q :: Worth(after, q) == Worth(w.bank, q)
                  + (if q == p && !Seated(At(w.bank, id), p) then stack else 0))
  {
    if w.clients[c].seated {
      var from := w.clients[c].tableId;
      DepartConserves(w, c, from, true, "switch_leave", wx.first);
      TakeSeatEffect(SwitchAway(w, c, wx.first).0, c, id, seat, stack, wx);
    } else {
      TakeSeatEffect(w, c, id, seat, stack, wx);
    }
  }

  /** A join conserves everyone's chips exactly when it does not forfeit. */
  lemma JoinConservesExactly(w: World, c: ClientId, req: JoinRequest, wx: Weather)
    requires c in w.clients && BankOk(w.bank) && Bounded(w.bank) && ColonFree(w.clients[c].player)
    ensures SameWorth(HandleJoin(w, c, req, wx).world.bank, w.bank) <==> !Forfeits(w, c, req)
  {
    JoinEffectOnWorth(w, c, req, wx);
    if Forfeits(w, c, req) {
      ConsumeEffect(w.bank, w.clients[c].player, Resolve(w.cfg, req.tableId));
      assert Worth(HandleJoin(w, c, req, wx).world.bank, w.clients[c].player) != Worth(w.bank, w.clients[c].player);
    }
  }

  // ---------- What one handler does to seats and marks ----------

  // The client's mark covers every seat its player holds. (The converse fails: see closeClient.)
  ghost predicate Marked(w: World, c: ClientId)
    requires c in w.clients
  {
    forall id :: Seated(At(w.bank, id), w.clients[c].player) ==> w.clients[c].seated && w.clients[c].tableId == id
  }

  // A step on behalf of client c: nobody's worth changes, nor any other client's mark, nor any
  // other player's seat.
  ghost predicate Kept(a: World, b: World, c: ClientId)
    requires c in a.clients
  {
    && b.cfg == a.cfg && BankOk(b.bank) && SameWorth(b.bank, a.bank)
    && b.clients.Keys == a.clients.Keys
    && b.clients[c].player == a.clients[c].player
    && (forall d | d in a.clients && d != c :: b.clients[d] == a.clients[d])
    && (forall q, id | q != a.clients[c].player :: Seated(At(b.bank, id), q) == Seated(At(a.bank, id), q))
  }

  lemma DepartSeats(w: World, c: ClientId, id: string, release: bool, eventType: string, lost: set<ClientId>)
    requires c in w.clients && BankOk(w.bank) && Bounded(w.bank)
    ensures var after := Depart(w, c, id, release, eventType, lost).0; Kept(w, after, c)
    ensures var after := Depart(w, c, id, release, eventType, lost).0;
            forall other, q :: Seated(At(after.bank, other), q) ==> Seated(At(w.bank, other), q)
  {
    DepartConserves(w, c, id, release, eventType, lost);
    AtSolvent(w.bank, id);
    LeaveEffect(At(w.bank, id), w.clients[c].player);
    var after := Depart(w, c, id, release, eventType, lost).0;
    forall other
      ensures At(after.bank, other) == if other == id then Leave(At(w.bank, id), w.clients[c].player).table
          else At(w.bank, other)
    {
    }
  }

  lemma LeaveKeeps(w: World, c: ClientId, requested: string, wx: Weather)
    requires c in w.clients && BankOk(w.bank) && Bounded(w.bank) && Marked(w, c)
    ensures Kept(w, HandleLeave(w, c, requested, wx).world, c) && Marked(HandleLeave(w, c, requested, wx).world, c)
  {
    var id := if TrimSpace(requested) != "" then Resolve(w.cfg, requested) else w.clients[c].tableId;
    DepartSeats(w, c, id, true, "leave_table", wx.second);
    DepartConserves(w, c, id, true, "leave_table", wx.second);
  }

  lemma CloseKeeps(w: World, c: ClientId, lost: set<ClientId>)
    requires c in w.clients && BankOk(w.bank) && Bounded(w.bank)
    ensures var after := CloseClient(w, c, lost).0;
            && Kept(w, after, c) && after.clients == w.clients
            && (forall other, q :: Seated(At(after.bank, other), q) ==> Seated(At(w.bank, other), q))
            && (Marked(w, c) ==> forall other :: !Seated(At(after.bank, other), w.clients[c].player))
  {
    if w.clients[c].seated {
      DepartSeats(w, c, w.clients[c].tableId, false, "disconnect_leave", lost);
      DepartConserves(w, c, w.clients[c].tableId, false, "disconnect_leave", lost);
    }
  }

  lemma SwitchSeats(w: World, c: ClientId, lost: set<ClientId>)
    requires c in w.clients && BankOk(w.bank) && Bounded(w.bank) && Marked(w, c)
    ensures var after := SwitchAway(w, c, lost).0;
            && Kept(w, after, c) && !after.clients[c].seated
            && (forall other :: !Seated(At(after.bank, other), w.clients[c].player))
            && (forall p | p in w.bank.ledger.balances :: p in after.bank.ledger.balances)
  {
    DepartSeats(w, c, w.clients[c].tableId, true, "switch_leave", lost);
    DepartConserves(w, c, w.clients[c].tableId, true, "switch_leave", lost);
  }

  // After taking a seat, the player sits there or nowhere, and the mark says so.
  lemma TakeSeatSeats(w: World, c: ClientId, id: string, seat: Option<int>, stack: int, wx: Weather)
    requires c in w.clients && BankOk(w.bank) && 0 < stack && w.clients[c].player in w.bank.ledger.balances
    requires Worth(w.bank, w.clients[c].player) + stack <= MAX_INT64
    requires forall other :: !Seated(At(w.bank, other), w.clients[c].player)
    ensures var after := TakeSeat(w, c, id, seat, stack, wx).world;
            && Marked(after, c)
            && after.cfg == w.cfg && after.clients.Keys == w.clients.Keys
                 && after.clients[c].player == w.clients[c].player
            && (forall d | d in w.clients && d != c :: after.clients[d] == w.clients[d])
            && (forall q, other | q != w.clients[c].player ::
                 Seated(At(after.bank, other), q) == Seated(At(w.bank, other), q))
  {
    var me := w.clients[c];
    AtSolvent(w.bank, id);
    JoinEffect(At(w.bank, id), me.player, me.nickname, stack, seat);
    TakeSeatTables(w, c, id, seat, stack, wx);
  }

  lemma TakeSeatTables(w: World, c: ClientId, id: string, seat: Option<int>, stack: int, wx: Weather)
    requires c in w.clients
    ensures var me, after := w.clients[c], TakeSeat(w, c, id, seat, stack, wx).world;
            var joined := Join(At(w.bank, id), me.player, me.nickname, stack, seat);
            && after.cfg == w.cfg
            && after.clients == (if joined.error.None? then SetState(w, c, id, true).clients else w.clients)
            && forall other :: At(after.bank, other) == if other == id then joined.table else At(w.bank, other)
  {
  }

  lemma EnterTableSeats(w: World, c: ClientId, id: string, seat: Option<int>, stack: int, wx: Weather)
    requires c in w.clients && BankOk(w.bank) && 0 < stack && w.clients[c].player in w.bank.ledger.balances
    requires !(w.clients[c].seated && w.clients[c].tableId == id) && Marked(w, c)
    requires Worth(w.bank, w.clients[c].player) + stack <= MAX_INT64 && Bounded(w.bank)
    ensures var after := EnterTable(w, c, id, seat, stack, wx).world;
            && Marked(after, c)
            && after.cfg == w.cfg && after.clients.Keys == w.clients.Keys
                 && after.clients[c].player == w.clients[c].player
            && (forall d | d in w.clients && d != c :: after.clients[d] == w.clients[d])
            && (forall q, other | q != w.clients[c].player ::
                 Seated(At(after.bank, other), q) == Seated(At(w.bank, other), q))
  {
    if w.clients[c].seated {
      SwitchSeats(w, c, wx.first);
      TakeSeatSeats(SwitchAway(w, c, wx.first).0, c, id, seat, stack, wx);
    } else {
      TakeSeatSeats(w, c, id, seat, stack, wx);
    }
  }

  lemma JoinSplits(w: World, c: ClientId, req: JoinRequest, wx: Weather)
    requires c in w.clients
    ensures var me, id := w.clients[c], Resolve(w.cfg, req.tableId);
            var (checked, invalid) := Prevalidate(w.bank, id, req.seat);
            var (paid, receipt) := Consume(checked, me.player, id);
            HandleJoin(w, c, req, wx).world ==
              if me.seated && me.tableId == id then w.(bank := Look(w.bank, id))
              else if invalid.Some? then w.(bank := checked)
              else if receipt.Err? then w.(bank := paid)
              else EnterTable(w.(bank := paid), c, id, req.seat, receipt.value.amount, wx).world
  {
  }

  // A correctly marked connection does not forfeit.
  lemma MarkedKeepsWorth(w: World, c: ClientId, req: JoinRequest, wx: Weather)
    requires c in w.clients && BankOk(w.bank) && Bounded(w.bank) && ColonFree(w.clients[c].player) && Marked(w, c)
    ensures BankOk(HandleJoin(w, c, req, wx).world.bank) && SameWorth(HandleJoin(w, c, req, wx).world.bank, w.bank)
  {
    JoinEffectOnWorth(w, c, req, wx);
    assert !Forfeits(w, c, req);
  }

  // With the buy-in consumed, the tables are as before and the amount still fits in the wallet.
  lemma JoinPays(w: World, c: ClientId, req: JoinRequest)
    requires c in w.clients && BankOk(w.bank) && Bounded(w.bank) && ColonFree(w.clients[c].player)
    ensures var me, id := w.clients[c], Resolve(w.cfg, req.tableId);
            var checked := Prevalidate(w.bank, id, req.seat).0;
            var (paid, receipt) := Consume(checked, me.player, id);
            && BankOk(checked) && (forall other :: At(checked, other) == At(w.bank, other))
            && BankOk(paid) && Bounded(paid) && (forall other :: At(paid, other) == At(w.bank, other))
            && (receipt.Ok? ==> 0 < receipt.value.amount && me.player in paid.ledger.balances
                                && Worth(paid, me.player) + receipt.value.amount <= MAX_INT64)
  {
    var me, id := w.clients[c], Resolve(w.cfg, req.tableId);
    PrevalidateEffect(w.bank, id, req.seat);
    ConsumeEffect(Prevalidate(w.bank, id, req.seat).0, me.player, id);
  }

  lemma JoinKeeps(w: World, c: ClientId, req: JoinRequest, wx: Weather)
    requires c in w.clients && BankOk(w.bank) && Bounded(w.bank) && ColonFree(w.clients[c].player) && Marked(w, c)
    ensures Kept(w, HandleJoin(w, c, req, wx).world, c) && Marked(HandleJoin(w, c, req, wx).world, c)
  {
    MarkedKeepsWorth(w, c, req, wx);
    JoinSplits(w, c, req, wx);
    JoinPays(w, c, req);
    var me, id := w.clients[c], Resolve(w.cfg, req.tableId);
    LookEffect(w.bank, id);
    var (checked, invalid) := Prevalidate(w.bank, id, req.seat);
    var (paid, receipt) := Consume(checked, me.player, id);
    if !(me.seated && me.tableId == id) && invalid.None? && receipt.Ok? {
      EnterTableSeats(w.(bank := paid), c, id, req.seat, receipt.value.amount, wx);
    }
  }

  lemma DispatchKeeps(w: World, c: ClientId, e: ClientEnvelope, wx: Weather)
    requires c in w.clients && BankOk(w.bank) && Bounded(w.bank) && ColonFree(w.clients[c].player) && Marked(w, c)
    ensures Kept(w, Dispatch(w, c, e, wx).world, c) && Marked(Dispatch(w, c, e, wx).world, c)
  {
    if e.eventType == "join_table" && e.payload.join.Some? {
      JoinKeeps(w, c, e.payload.join.value, wx);
    } else if e.eventType == "leave_table" && e.payload.leave.Some? {
      LeaveKeeps(w, c, e.payload.leave.value, wx);
    }
  }

  // ---------- Runs ----------

  ghost predicate ChipsInOrder(s: System) {
    && BankOk(s.world.bank) && Bounded(s.world.bank)
    && forall c | c in s.world.clients :: ColonFree(s.world.clients[c].player)
  }

  ghost predicate HasLive(s: System, p: string) {
    exists c :: c in s.live && c in s.world.clients && s.world.clients[c].player == p
  }

  /** One live connection per player; it is marked with every seat of its player; and players
      without one sit nowhere. */
  ghost predicate SeatsInOrder(s: System) {
    && s.live <= s.world.clients.Keys
    && (forall c, d | c in s.live && d in s.live && s.world.clients[c].player == s.world.clients[d].player :: c == d)
    && (forall c | c in s.live :: Marked(s.world, c))
    && (forall p, id :: Seated(At(s.world.bank, id), p) ==> HasLive(s, p))
  }

  // The hypotheses on a run: int64 grants, colon-free ids, fresh connections, and one live
  // connection per player.
  ghost predicate Legal(s: System, e: Event) {
    match e
    case GrantEvent(_, initial) => 0 <= initial <= MAX_INT64
    case BuyInEvent(p, _, _) => ColonFree(p)
    case ConnectEvent(c, p, _, _) => c !in s.world.clients && ColonFree(p) && !HasLive(s, p)
    case MessageEvent(c, _, _, _, _, _) =>
      c in s.world.clients ==>
        forall d | d in s.live && d in s.world.clients && s.world.clients[d].player == s.world.clients[c].player ::
            d == c
    case CloseEvent(_, _) => true
  }

  function GrantOf(s: System, e: Event, p: string): int {
    if e.GrantEvent? && e.player == p && p !in s.world.bank.ledger.balances then e.initial else 0
  }

  ghost predicate InOrder(s: System) {
    ChipsInOrder(s) && SeatsInOrder(s)
  }

  lemma ShutKeeps(s: System, c: ClientId, lost: set<ClientId>)
    requires InOrder(s) && c in s.world.clients
    ensures InOrder(Shut(s, c, lost)) && SameWorth(Shut(s, c, lost).world.bank, s.world.bank)
  {
    CloseKeeps(s.world, c, lost);
    var t := Shut(s, c, lost);
    forall p, id | Seated(At(t.world.bank, id), p)
      ensures HasLive(t, p)
    {
      assert Seated(At(s.world.bank, id), p) && HasLive(s, p);
      var d :| d in s.live && d in s.world.clients && s.world.clients[d].player == p;
      assert d != c;
    }
    forall d | d in t.live
      ensures Marked(t.world, d)
    {
      assert Marked(s.world, d);
    }
  }

  // A message makes its client live; being the only one of its player, it is marked correctly.
  lemma WakeKeeps(s: System, c: ClientId)
    requires InOrder(s) && c in s.world.clients
    requires forall d | d in s.live && s.world.clients[d].player == s.world.clients[c].player :: d == c
    ensures InOrder(s.(live := s.live + {c}))
  {
    var t := s.(live := s.live + {c});
    if c !in s.live {
      assert !HasLive(s, s.world.clients[c].player);
      assert forall id ::
          Seated(At(s.world.bank, id), s.world.clients[c].player) ==> HasLive(s, s.world.clients[c].player);
    }
    forall p, id | Seated(At(s.world.bank, id), p)
      ensures HasLive(t, p)
    {
      assert HasLive(s, p);
      var d :| d in s.live && d in s.world.clients && s.world.clients[d].player == p;
      assert d in t.live;
    }
  }

  // A live client's handler keeps the order.
  lemma WorldKeeps(s: System, t: System, c: ClientId)
    requires InOrder(s) && c in s.live && t.live == s.live
    requires Kept(s.world, t.world, c) && Marked(t.world, c)
    ensures InOrder(t)
  {
    forall p
      ensures Worth(t.world.bank, p) <= MAX_INT64
    {
      assert Worth(t.world.bank, p) == Worth(s.world.bank, p);
    }
    forall d | d in t.live
      ensures Marked(t.world, d)
    {
      assert Marked(s.world, d);
      assert d != c ==> s.world.clients[d].player != s.world.clients[c].player;
    }
    forall p, id | Seated(At(t.world.bank, id), p)
      ensures HasLive(t, p)
    {
      if p == s.world.clients[c].player {
        assert t.world.clients[c].player == p;
      } else {
        assert HasLive(s, p);
        var d :| d in s.live && d in s.world.clients && s.world.clients[d].player == p;
        assert t.world.clients[d].player == p;
      }
    }
  }

  lemma HandleKeeps(s: System, e: Event)
    requires InOrder(s) && e.MessageEvent? && e.client in s.live && e.client in s.world.clients
    ensures InOrder(Handle(s, e)) && SameWorth(Handle(s, e).world.bank, s.world.bank)
  {
    var c := e.client;
    DispatchKeeps(s.world, c, e.envelope, e.wx);
    var o := Dispatch(s.world, c, e.envelope, e.wx);
    var done := s.(world := o.world, mail := DeliverAll(s.mail, o.posts));
    WorldKeeps(s, done, c);
    if o.failed {
      ShutKeeps(done, c, e.wx.third);
    } else {
      WorldKeeps(s, Handle(s, e), c);
    }
  }

  lemma ServeKeeps(s: System, e: Event)
    requires InOrder(s) && Legal(s, e) && e.MessageEvent? && e.client in s.world.clients
    ensures InOrder(Serve(s, e)) && SameWorth(Serve(s, e).world.bank, s.world.bank)
  {
    var c := e.client;
    WakeKeeps(s, c);
    var (cache, hit) := Caches.Lookup(CacheOf(s, c), e.envelope.requestId, e.envelope.eventType, e.readAt);
    var looked := s.(caches := s.caches[c := cache], live := s.live + {c});
    assert InOrder(looked) by {
      assert InOrder(s.(live := s.live + {c}));
      Relabel(s.(live := s.live + {c}), looked);
    }
    if hit.Some? {
      if c in e.wx.second && hit.value != [] {
        ShutKeeps(looked, c, e.wx.third);
      } else {
        Relabel(looked, Replay(looked, c, hit.value, e.wx));
      }
    } else {
      HandleKeeps(looked, e);
    }
  }

  // Caches, logs and mail do not matter here.
  lemma Relabel(s: System, t: System)
    requires InOrder(s) && t.world == s.world && t.live == s.live
    ensures InOrder(t)
  {
    forall p, id | Seated(At(t.world.bank, id), p)
      ensures HasLive(t, p)
    {
      assert HasLive(s, p);
    }
  }

  lemma ConnectKeeps(s: System, e: Event)
    requires InOrder(s) && Legal(s, e) && e.ConnectEvent?
    ensures InOrder(Step(s, e)) && SameWorth(Step(s, e).world.bank, s.world.bank)
  {
    ConnectShape(s.world, e.client, e.player, e.nickname, e.wx);
    assert s.live - {e.client} == s.live;
    ArrivalKeeps(s, Step(s, e), e.client, e.player, e.nickname);
  }

  // A connection is added and the default table looked at.
  lemma ArrivalKeeps(s: System, t: System, c: ClientId, p: string, nickname: string)
    requires InOrder(s) && c !in s.world.clients && !HasLive(s, p) && ColonFree(p)
    requires t.world.bank == Look(s.world.bank, s.world.cfg.defaultTable)
    requires t.world.clients == s.world.clients[c := Client(p, nickname, s.world.cfg.defaultTable, false)]
    requires t.live == s.live || t.live == s.live + {c}
    ensures InOrder(t) && SameWorth(t.world.bank, s.world.bank)
  {
    LookEffect(s.world.bank, s.world.cfg.defaultTable);
    assert forall id :: Seated(At(s.world.bank, id), p) ==> HasLive(s, p);
    NewcomerKeeps(s, t, c, p);
  }

  // A newcomer is added for a player who sits nowhere.
  lemma NewcomerKeeps(s: System, t: System, c: ClientId, p: string)
    requires InOrder(s) && c !in s.world.clients && !HasLive(s, p) && ColonFree(p)
    requires forall id :: !Seated(At(s.world.bank, id), p)
    requires forall id :: At(t.world.bank, id) == At(s.world.bank, id)
    requires BankOk(t.world.bank) && SameWorth(t.world.bank, s.world.bank)
    requires t.world.clients.Keys == s.world.clients.Keys + {c} && t.world.clients[c].player == p
    requires forall d | d in s.world.clients :: t.world.clients[d] == s.world.clients[d]
    requires t.live == s.live || t.live == s.live + {c}
    ensures InOrder(t)
  {
    forall q
      ensures Worth(t.world.bank, q) <= MAX_INT64
    {
      assert Worth(t.world.bank, q) == Worth(s.world.bank, q);
    }
    forall d | d in t.live
      ensures Marked(t.world, d)
    {
      if d != c {
        assert Marked(s.world, d);
      }
    }
    forall q, id | Seated(At(t.world.bank, id), q)
      ensures HasLive(t, q)
    {
      assert HasLive(s, q);
      var d :| d in s.live && d in s.world.clients && s.world.clients[d].player == q;
      assert t.world.clients[d] == s.world.clients[d];
    }
  }

  lemma LedgerKeeps(s: System, b: Bank)
    requires InOrder(s) && BankOk(b) && b.tables == s.world.bank.tables && Bounded(b)
    ensures InOrder(s.(world := s.world.(bank := b)))
  {
    var t := s.(world := s.world.(bank := b));
    assert forall id :: At(b, id) == At(s.world.bank, id);
    forall d | d in t.live
      ensures Marked(t.world, d)
    {
      assert Marked(s.world, d);
    }
    forall p, id | Seated(At(t.world.bank, id), p)
      ensures HasLive(t, p)
    {
      assert HasLive(s, p);
    }
  }

  /** Every step keeps the order and everyone's worth, plus whatever the first grant adds. */
  lemma StepKeeps(s: System, e: Event)
    requires InOrder(s) && Legal(s, e)
    ensures InOrder(Step(s, e))
    ensures forall p :: Worth(Step(s, e).world.bank, p) == Worth(s.world.bank, p) + GrantOf(s, e, p)
  {
    if Known(s, e) {
      match e
      case GrantEvent(p, initial) =>
        GrantEffect(s.world.bank, p, initial);
        if p !in s.world.bank.ledger.balances {
          PoorWithoutWallet(s.world.bank, p);
        }
        LedgerKeeps(s, Grant(s.world.bank, p, initial));
      case BuyInEvent(p, id, amount) =>
        if amount > 0 {
          var b := Buy(s.world.bank, p, Resolve(s.world.cfg, id), amount);
          WorthParts(s.world.bank, p);
          assert Worth(s.world.bank, p) <= MAX_INT64;
          BuyEffect(s.world.bank, p, Resolve(s.world.cfg, id), amount);
          LedgerKeeps(s, b);
        }
      case ConnectEvent(c, player, nickname, wx) => ConnectKeeps(s, e);
      case MessageEvent(_, _, _, _, _, _) => ServeKeeps(s, e);
      case CloseEvent(c, wx) => ShutKeeps(s, c, wx.third);
    }
  }

  ghost predicate LegalAt(s: System, events: seq<Event>, n: nat)
    requires n < |events|
  {
    Legal(Run(s, events[..n]), events[n])
  }

  ghost predicate LegalRun(s: System, events: seq<Event>) {
    forall n | 0 <= n < |events| :: LegalAt(s, events, n)
  }

  ghost function Granted(s: System, events: seq<Event>, p: string): int {
    if events == [] then 0
    else
      var n := |events| - 1;
      Granted(s, events[..n], p) + GrantOf(Run(s, events[..n]), events[n], p)
  }

  /** Over every legal run, each player's balance, pending buy-ins and stacks together change by
      exactly the first grants, and the order is kept. */
  lemma {:induction false} RunConserves(s: System, events: seq<Event>)
    requires InOrder(s) && LegalRun(s, events)
    ensures InOrder(Run(s, events))
    ensures forall p :: Worth(Run(s, events).world.bank, p) == Worth(s.world.bank, p) + Granted(s, events, p)
  {
    if events != [] {
      var n := |events| - 1;
      LegalPrefix(s, events);
      RunConserves(s, events[..n]);
      var before, e := Run(s, events[..n]), events[n];
      StepKeeps(before, e);
      forall p
        ensures Worth(Run(s, events).world.bank, p) == Worth(s.world.bank, p) + Granted(s, events, p)
      {
        assert Worth(Step(before, e).world.bank, p) == Worth(before.world.bank, p) + GrantOf(before, e, p);
      }
    }
  }

  lemma {:induction false} LegalPrefix(s: System, events: seq<Event>)
    requires LegalRun(s, events) && events != []
    ensures LegalRun(s, events[..|events| - 1])
    ensures Legal(Run(s, events[..|events| - 1]), events[|events| - 1])
  {
    var n := |events| - 1;
    assert LegalAt(s, events, n);
    forall k | 0 <= k < n
      ensures LegalAt(s, events[..n], k)
    {
      assert LegalAt(s, events, k) && events[..n][..k] == events[..k];
    }
  }

  lemma BootInOrder(cfg: Config)
    ensures InOrder(Boot(cfg)) && forall p :: Worth(Boot(cfg).world.bank, p) == 0
  {
    var s := Boot(cfg);
    forall p
      ensures Worth(s.world.bank, p) == 0
    {
      PoorWithoutWallet(s.world.bank, p);
    }
  }

  /** From a fresh server: a player's worth is the grants received. */
  lemma {:induction false} ChipsConserved(cfg: Config, events: seq<Event>, p: string)
    requires LegalRun(Boot(cfg), events)
    ensures Worth(Run(Boot(cfg), events).world.bank, p) == Granted(Boot(cfg), events, p)
  {
    BootInOrder(cfg);
    RunConserves(Boot(cfg), events);
  }

  /** No part of it is ever negative. */
  lemma {:induction false} NoDebts(cfg: Config, events: seq<Event>, b: Bank, p: string)
    requires LegalRun(Boot(cfg), events) && b == Run(Boot(cfg), events).world.bank
    ensures Balance(b.ledger, p) >= 0 && PendingTotal(b, p) >= 0 && StackTotal(b, p) >= 0
  {
    BootInOrder(cfg);
    RunConserves(Boot(cfg), events);
    WorthParts(b, p);
  }

  /** Between handlers there is room in every wallet for what its player has pending and on tables:
      putting back any part of it, the 64-bit sum is the mathematical one. */
  lemma {:induction false} CreditsNeverWrap(cfg: Config, events: seq<Event>, b: Bank, p: string, amount: int)
    requires LegalRun(Boot(cfg), events) && b == Run(Boot(cfg), events).world.bank
    requires 0 <= amount <= PendingTotal(b, p) + StackTotal(b, p)
    ensures CreditWallet(b.ledger, p, amount).1 == Ok(Balance(b.ledger, p) + amount)
  {
    BootInOrder(cfg);
    RunConserves(Boot(cfg), events);
    CreditExact(b, p, amount);
  }

  lemma CreditExact(b: Bank, p: string, amount: int)
    requires BankOk(b) && Bounded(b) && 0 <= amount <= PendingTotal(b, p) + StackTotal(b, p)
    ensures CreditWallet(b.ledger, p, amount).1 == Ok(Balance(b.ledger, p) + amount)
  {
    WorthParts(b, p);
    assert Worth(b, p) <= MAX_INT64;
    Wrap64InRange(Balance(b.ledger, p) + amount);
  }

  /** In every reachable state only players with a live connection are seated. */
  lemma {:induction false} SeatedAreLive(cfg: Config, events: seq<Event>, s: System, p: string, id: string)
    requires LegalRun(Boot(cfg), events) && s == Run(Boot(cfg), events) && Seated(At(s.world.bank, id), p)
    ensures HasLive(s, p)
  {
    BootInOrder(cfg);
    RunConserves(Boot(cfg), events);
  }

  /** In every reachable state a player sits at one table at most. */
  lemma {:induction false} SingleSeat(cfg: Config, events: seq<Event>, s: System, p: string, a: string, b: string)
    requires LegalRun(Boot(cfg), events) && s == Run(Boot(cfg), events)
    requires Seated(At(s.world.bank, a), p) && Seated(At(s.world.bank, b), p)
    ensures a == b
  {
    BootInOrder(cfg);
    RunConserves(Boot(cfg), events);
    assert HasLive(s, p);
    var c :| c in s.live && c in s.world.clients && s.world.clients[c].player == p;
    assert Marked(s.world, c);
  }
}
