/** What each request comes to, told without reference to the handlers: which table it is about, what is
    answered, who sits where under which name, what is in the wallet, and what is logged. */
module Requests {
  import opened Basics
  import opened Seating
  import opened Ledgers
  import opened TableManager
  import opened Banks
  import opened Caches
  import opened Worlds
  import opened SnapshotStore
  import opened Conservation
  import opened Admission

  // ---------- Tables, buy-ins and answers ----------

  // The table a request is about: the one it names, or the given one if it names none.
  ghost predicate Names(requested: string, otherwise: string, t: string) {
    t == if TrimSpace(requested) == "" then otherwise else TrimSpace(requested)
  }

  // A buy-in of the player for the table is pending.
  ghost predicate Booked(l: StringLedger, p: string, t: string) {
    exists k :: k in l.pending && l.pending[k].playerId == p && l.pending[k].tableId == t
  }

  lemma BookedByKey(l: StringLedger, p: string, t: string)
    requires LedgerOk(l) && ColonFree(p)
    ensures Booked(l, p, t) <==> BuyInKey(p, t) in l.pending
    ensures Booked(l, p, t) ==> l.pending[BuyInKey(p, t)].playerId == p && l.pending[BuyInKey(p, t)].tableId == t
  {
    if BuyInKey(p, t) in l.pending {
      OwnPending(l, p, t);
    }
  }

  // Somebody is listed at the seat.
  ghost predicate Occupied(t: TableState, seat: int) {
    exists x :: x in SnapshotOf(t).players && x.seatIndex == seat
  }

  lemma OccupiedExactly(t: TableState)
    requires Seating.Valid(t)
    ensures forall k | 0 <= k < 9 :: Occupied(t, k) <==> t.seats[k].Some?
  {
    OccupantsListed(t.seats);
    forall k | 0 <= k < 9
      ensures Occupied(t, k) <==> t.seats[k].Some?
    {
      if t.seats[k].Some? {
        assert t.seats[k].value in SnapshotOf(t).players;
      }
    }
  }

  // One answer, this error; or none at all, if it could not be written.
  ghost predicate Refused(o: Outcome, c: ClientId, notice: Envelope, written: bool) {
    if written then Answered(o, c) && o.replies[0] == notice
    else o.failed && o.replies == []
  }

  // One answer, which is the last thing posted, and posted to the client.
  ghost predicate Answered(o: Outcome, c: ClientId) {
    !o.failed && |o.replies| == 1 && o.posts != [] && o.posts[|o.posts| - 1] == Post({c}, o.replies[0])
  }

  // One answer, how the table stands.
  ghost predicate Shown(o: Outcome, t: string) {
    && !o.failed && |o.replies| == 1 && o.replies[0].TableSnapshot? && o.replies[0].tableId == t
    && o.replies[0].version == At(o.world.bank, t).version && o.replies[0].snapshot == SnapshotOf(At(o.world.bank, t))
  }

  // No chip, no seat and no mark has changed.
  ghost predicate Untouched(a: World, b: World) {
    && b.bank.ledger == a.bank.ledger && b.clients == a.clients && b.hub == a.hub && b.cfg == a.cfg
    && b.saved == a.saved && b.events == a.events && forall id :: At(b.bank, id) == At(a.bank, id)
  }

  // ---------- Buy-ins ----------

  /** Which buy-in gets which refusal, and what an accepted one does: it is booked for the trimmed table
      id, once, and its amount leaves the wallet; the same again is answered with what is booked. */
  lemma BuyInExactly(l: StringLedger, p: string, table: string, amount: int)
    requires LedgerOk(l) && ColonFree(p) && Balance(l, p) <= MAX_INT64
    ensures var t, (after, r) := TrimSpace(table), CreateBuyIn(l, p, table, amount);
            && (r == Err(TableNotFound) <==> t == "")
            && (r == Err(InvalidBuyInAmount) <==> t != "" && amount <= 0)
            && (r == Err(InsufficientBalance) <==> t != "" && amount > 0 && !Booked(l, p, t) && Balance(l, p) < amount)
            && (r.Ok? <==> t != "" && amount > 0 && (Booked(l, p, t) || amount <= Balance(l, p)))
            && (r.Err? ==> after.pending == l.pending && forall q :: Balance(after, q) == Balance(l, q))
            && (r.Ok? ==>
                  && r.value.playerId == p && r.value.tableId == t && r.value.balanceAfter == Balance(after, p)
                  && Booked(after, p, t) && (Booked(l, p, t) ==> after == l)
                  && (!Booked(l, p, t) ==> r.value.amount == amount && r.value.status == Pending
                                           && r.value.buyInId == l.nextBuyInId + 1
                                           && Balance(after, p) == Balance(l, p) - amount))
  {
    var t := TrimSpace(table);
    BookedByKey(l, p, t);
    BuyLedger(l, p, t, amount);
    if 0 < amount <= Balance(l, p) {
      Wrap64InRange(Balance(l, p) - amount);
    }
    BookedByKey(CreateBuyIn(l, p, table, amount).0, p, t);
  }

  /** A buy-in request books for the table it names, or for the default table. */
  lemma BuyInRequest(s: System, p: string, requested: string, amount: int, t: string)
    requires BankOk(s.world.bank) && ColonFree(p) && 0 <= Balance(s.world.bank.ledger, p) <= MAX_INT64
    requires Names(requested, s.world.cfg.defaultTable, t) && TrimSpace(t) != ""
    ensures var l, after := s.world.bank.ledger, Step(s, BuyInEvent(p, requested, amount)).world.bank.ledger;
            && (Booked(after, p, TrimSpace(t)) <==>
                  Booked(l, p, TrimSpace(t)) || (0 < amount <= Balance(l, p)))
            && Balance(after, p) == Balance(l, p)
                 - (if !Booked(l, p, TrimSpace(t)) && 0 < amount <= Balance(l, p) then amount else 0)
  {
    BuyInExactly(s.world.bank.ledger, p, t, amount);
    BuyInStep(s, p, requested, amount, t);
  }

  lemma BuyInStep(s: System, p: string, requested: string, amount: int, t: string)
    requires Names(requested, s.world.cfg.defaultTable, t)
    ensures var l := s.world.bank.ledger;
            Step(s, BuyInEvent(p, requested, amount)).world.bank.ledger
            == if amount <= 0 then l else CreateBuyIn(l, p, t, amount).0
  {
  }

  /** The receipt of an accepted buy-in request is for the table it names, or for the default table. */
  lemma BuyInReceipt(cfg: Config, l: StringLedger, p: string, requested: string, amount: int, t: string)
    requires LedgerOk(l) && ColonFree(p) && Balance(l, p) <= MAX_INT64 && Names(requested, cfg.defaultTable, t)
    ensures var (after, r) := CreateBuyIn(l, p, Resolve(cfg, requested), amount);
            r.Ok? ==> r.value.playerId == p && r.value.tableId == TrimSpace(t) && Booked(after, p, TrimSpace(t))
  {
    BuyInExactly(l, p, t, amount);
  }

  // ---------- leave_table ----------

  const NOT_THERE := ErrorNotice("PLAYER_NOT_FOUND", "player is not in table")

  lemma DepartTables(w: World, c: ClientId, id: string, release: bool, kind: string, lost: set<ClientId>)
    requires c in w.clients && BankOk(w.bank) && Bounded(w.bank)
    ensures var (after, posts, error) := Depart(w, c, id, release, kind, lost);
            var p := w.clients[c].player;
            && (forall other | other != id :: At(after.bank, other) == At(w.bank, other))
            && Balance(after.bank.ledger, p) == Balance(w.bank.ledger, p) + StackAt(At(w.bank, id), p)
            && after.bank.ledger.pending == w.bank.ledger.pending
            && (forall x :: x in SnapshotOf(At(after.bank, id)).players
                  <==> x in SnapshotOf(At(w.bank, id)).players && x.playerId != p)
            && (error.Some? <==> !Seated(At(w.bank, id), p))
            && (error.Some? ==> Untouched(w, after) && error == Some(PlayerNotFound))
  {
    DepartConserves(w, c, id, release, kind, lost);
    DepartOutcome(w, c, id, release, kind, lost);
    AtSolvent(w.bank, id);
    LeaveListed(At(w.bank, id), w.clients[c].player);
    LeaveEffect(At(w.bank, id), w.clients[c].player);
    DepartTable(w, c, id, release, kind, lost);
  }

  lemma DepartTable(w: World, c: ClientId, id: string, release: bool, kind: string, lost: set<ClientId>)
    requires c in w.clients
    ensures var (after, _, error) := Depart(w, c, id, release, kind, lost);
            && At(after.bank, id) == Leave(At(w.bank, id), w.clients[c].player).table
            && error == Leave(At(w.bank, id), w.clients[c].player).error
  {
  }

  // What announcing a table as it stands does to the hub, the saved snapshots and the log, and whom it
  // reaches.
  ghost predicate Announced(v: World, u: World, post: Post, id: string, kind: string, p: string, lost: set<ClientId>) {
    var t := At(v.bank, id);
    && u.bank == v.bank && u.clients == v.clients && u.cfg == v.cfg
    && (forall c :: c in post.to <==> c in v.hub && c in v.clients && v.clients[c].tableId == id && c !in lost)
    && (forall c :: c in u.hub <==> c in v.hub && !(c in v.clients && v.clients[c].tableId == id && c in lost))
    && post.envelope == TableSnapshot(id, t.version, SnapshotOf(t))
    && (if v.cfg.snapshotsOn
        then Load(u.saved, id) == Some((SnapshotOf(t), t.version))
             && forall other | other != id :: Load(u.saved, other) == Load(v.saved, other)
        else u.saved == v.saved)
    && (if v.cfg.eventsOn then u.events == v.events + [Entry(t, kind, p)] else u.events == v.events)
  }

  // The entry of the log for a table as it stands.
  function Entry(t: TableState, kind: string, p: string): (e: TableEvent)
    ensures e.tableId == t.id && e.version == t.version && e.eventType == kind && e.playerId == p
    ensures e.payload == SnapshotOf(t)
  {
    TableEvent(tableId := t.id, version := t.version, eventType := kind, playerId := p, payload := SnapshotOf(t))
  }

  lemma AnnounceExactly(v: World, id: string, kind: string, p: string, lost: set<ClientId>)
    requires MapValid(v.bank.tables)
    ensures var (u, post) := Announce(v, id, kind, p, lost); Announced(v, u, post, id, kind, p, lost)
  {
    TableAtValid(v.bank.tables, id);
  }

  // A departure that works is announced, and releases the client if it is asked to.
  lemma DepartAnnounces(w: World, c: ClientId, id: string, release: bool, kind: string, lost: set<ClientId>)
    requires c in w.clients && BankOk(w.bank) && Bounded(w.bank) && Seated(At(w.bank, id), w.clients[c].player)
    ensures var (after, posts, _) := Depart(w, c, id, release, kind, lost);
            var me := w.clients[c];
            && after.clients == w.clients[c := if release then me.(tableId := id, seated := false) else me]
            && |posts| == 1
            && Announced(w.(bank := after.bank, clients := after.clients), after, posts[0], id, kind, me.player, lost)
  {
    var me := w.clients[c];
    DepartConserves(w, c, id, release, kind, lost);
    var (b, _) := Rise(w.bank, id, me.player);
    var refunded := w.(bank := Refund(b, me.player, StackAt(At(w.bank, id), me.player)));
    var released := if release then SetState(refunded, c, id, false) else refunded;
    assert w.clients[c := me] == w.clients;
    AnnounceExactly(released, id, kind, me.player, lost);
  }

  /** A leave_table message takes its player off the table it names, or off their own, and off no other:
      the stack there goes to the wallet, the client is marked as standing there, and everyone watching is
      told. Who does not sit at that table is answered PLAYER_NOT_FOUND, and nothing changes. */
  lemma LeaveExactly(w: World, c: ClientId, e: ClientEnvelope, t: string, wx: Weather)
    requires c in w.clients && BankOk(w.bank) && Bounded(w.bank)
    requires e.eventType == "leave_table" && e.payload.leave.Some?
    requires Names(e.payload.leave.value, w.clients[c].tableId, t)
    ensures var o, me := Dispatch(w, c, e, wx), w.clients[c];
            var p, after := me.player, o.world;
            && (forall other | other != t :: At(after.bank, other) == At(w.bank, other))
            && (forall x ::
                  x in SnapshotOf(At(after.bank, t)).players
                  <==> x in SnapshotOf(At(w.bank, t)).players && x.playerId != p)
            && Balance(after.bank.ledger, p) == Balance(w.bank.ledger, p) + StackAt(At(w.bank, t), p)
            && after.bank.ledger.pending == w.bank.ledger.pending
            && (!Seated(At(w.bank, t), p) ==> Refused(o, c, NOT_THERE, c !in wx.second) && Untouched(w, after))
            && (Seated(At(w.bank, t), p) ==>
                  && Shown(o, t) && |o.posts| == 1
                  && after.clients == w.clients[c := me.(tableId := t, seated := false)]
                  && Announced(w.(bank := after.bank, clients := after.clients), after, o.posts[0], t, "leave_table", p,
                               wx.second))
  {
    var p := w.clients[c].player;
    DepartTables(w, c, t, true, "leave_table", wx.second);
    AtSolvent(w.bank, t);
    if Seated(At(w.bank, t), p) {
      DepartAnnounces(w, c, t, true, "leave_table", wx.second);
    }
  }

  /** Closing a connection takes its player off the table it is marked with, and off no other, and takes
      it out of the hub; its mark stays. */
  lemma CloseExactly(w: World, c: ClientId, lost: set<ClientId>)
    requires c in w.clients && BankOk(w.bank) && Bounded(w.bank)
    ensures var (after, posts), me := CloseClient(w, c, lost), w.clients[c];
            var p, t := me.player, me.tableId;
            && after.clients == w.clients && c !in after.hub
            && (forall other | other != t || !me.seated :: At(after.bank, other) == At(w.bank, other))
            && (me.seated ==> forall x ::
                  x in SnapshotOf(At(after.bank, t)).players
                  <==> x in SnapshotOf(At(w.bank, t)).players && x.playerId != p)
            && Balance(after.bank.ledger, p)
               == Balance(w.bank.ledger, p) + (if me.seated then StackAt(At(w.bank, t), p) else 0)
            && (!(me.seated && Seated(At(w.bank, t), p)) ==>
                  posts == [] && after.hub == w.hub - {c} && Untouched(w.(hub := after.hub), after))
            && (me.seated && Seated(At(w.bank, t), p) ==>
                  |posts| == 1 && exists u ::
                    && Announced(w.(bank := after.bank), u, posts[0], t, "disconnect_leave", p, lost)
                    && after == u.(hub := u.hub - {c}))
  {
    var me := w.clients[c];
    if me.seated {
      DepartTables(w, c, me.tableId, false, "disconnect_leave", lost);
      if Seated(At(w.bank, me.tableId), me.player) {
        DepartAnnounces(w, c, me.tableId, false, "disconnect_leave", lost);
        assert w.clients[c := me] == w.clients;
      }
    }
  }

  /** A new connection is nobody's seat: it watches the default table and is shown it, or is gone again. */
  lemma ConnectExactly(w: World, c: ClientId, player: string, nickname: string, wx: Weather)
    requires MapValid(w.bank.tables)
    ensures var (after, posts), t := Connect(w, c, player, nickname, wx), At(w.bank, w.cfg.defaultTable);
            && after.clients == w.clients[c := Client(player, nickname, w.cfg.defaultTable, false)]
            && (forall d :: d in after.hub <==> if d == c then c !in wx.second else d in w.hub)
            && Untouched(w.(clients := after.clients, hub := after.hub), after)
            && posts == (if c in wx.second then []
                         else [Post({c}, TableSnapshot(w.cfg.defaultTable, t.version, SnapshotOf(t)))])
  {
    ConnectShape(w, c, player, nickname, wx);
    TableAtValid(w.bank.tables, w.cfg.defaultTable);
  }

  /** A message of another kind, or without a proper body, is answered so and changes nothing. */
  lemma OtherMessages(w: World, c: ClientId, e: ClientEnvelope, wx: Weather)
    requires c in w.clients
    requires e.eventType == "join_table" ==> e.payload.join.None?
    requires e.eventType == "leave_table" ==> e.payload.leave.None?
    ensures var o := Dispatch(w, c, e, wx);
            && Untouched(w, o.world)
            && Refused(o, c,
                       if e.eventType == "join_table" then
                         ErrorNotice("INVALID_PAYLOAD", "join_table payload is invalid")
                       else if e.eventType == "leave_table" then
                         ErrorNotice("INVALID_PAYLOAD", "leave_table payload is invalid")
                       else ErrorNotice("UNSUPPORTED_EVENT", "unsupported event type"),
                       c !in wx.second)
  {
  }

  // ---------- join_table ----------

  datatype Verdict = Already | Refusal(notice: Envelope) | Full | Welcome

  // What becomes of a request for a seat at table t.
  ghost function Judge(w: World, c: ClientId, seat: Option<int>, t: string): Verdict
    requires c in w.clients
  {
    var me, table := w.clients[c], At(w.bank, t);
    if me.seated && me.tableId == t then Already
    else if seat.Some? && !(0 <= seat.value < 9) then Refusal(ErrorNotice("INVALID_SEAT", "seat index is invalid"))
    else if seat.Some? && Occupied(table, seat.value) then Refusal(ErrorNotice("SEAT_TAKEN", "seat is already taken"))
    else if TrimSpace(t) == "" || !Booked(w.bank.ledger, me.player, TrimSpace(t)) then
      Refusal(ErrorNotice("BUY_IN_REQUIRED", "buy-in is required before joining table"))
    else if seat.None? && |table.playerSeat| == 9 && !Seated(table, me.player) then Full
    else Welcome
  }

  lemma Judged(w: World, c: ClientId, req: JoinRequest, t: string)
    requires c in w.clients && BankOk(w.bank) && ColonFree(w.clients[c].player)
    requires Names(req.tableId, w.cfg.defaultTable, t)
    ensures var v, me := Judge(w, c, req.seat, t), w.clients[c];
            && Resolve(w.cfg, req.tableId) == t
            && (Declined(w, c, req) <==> v.Already? || v.Refusal?)
            && (v.Full? ==> TurnedAway(At(w.bank, t), me.player, req.seat))
            && (v.Welcome? ==> !TurnedAway(At(w.bank, t), me.player, req.seat))
  {
    AtSolvent(w.bank, t);
    OccupiedExactly(At(w.bank, t));
    BookedByKey(w.bank.ledger, w.clients[c].player, TrimSpace(t));
  }

  // The request of a client that sits there already, and knows it.
  lemma JoinAlready(w: World, c: ClientId, req: JoinRequest, t: string, wx: Weather)
    requires c in w.clients && BankOk(w.bank) && Names(req.tableId, w.cfg.defaultTable, t)
    requires w.clients[c].seated && w.clients[c].tableId == t
    ensures var o := HandleJoin(w, c, req, wx);
            && Untouched(w, o.world)
            && if c in wx.second then o.failed && o.replies == [] else Shown(o, t) && Answered(o, c)
  {
    AtSolvent(w.bank, t);
    LookEffect(w.bank, t);
  }

  // The check of the seat, and its two refusals.
  lemma SeatChecked(b: Bank, t: string, seat: Option<int>)
    requires BankOk(b)
    ensures var (checked, invalid) := Prevalidate(b, t, seat);
            && checked.ledger == b.ledger && (forall id :: At(checked, id) == At(b, id))
            && invalid == if seat.Some? && !(0 <= seat.value < 9) then Some(SeatInvalid)
                          else if seat.Some? && Occupied(At(b, t), seat.value) then Some(SeatTaken)
                          else None
  {
    LookEffect(b, t);
  }

  lemma Refuses(w: World, c: ClientId, e: Envelope, lost: set<ClientId>)
    requires e.ErrorNotice?
    ensures Refused(Reply(w, c, e, lost), c, e, c !in lost) && Reply(w, c, e, lost).world == w
  {
  }

  // The request that is turned down before anything has moved.
  lemma JoinRefused(w: World, c: ClientId, req: JoinRequest, t: string, wx: Weather)
    requires c in w.clients && BankOk(w.bank) && ColonFree(w.clients[c].player)
    requires Names(req.tableId, w.cfg.defaultTable, t) && Judge(w, c, req.seat, t).Refusal?
    ensures var o := HandleJoin(w, c, req, wx);
            Untouched(w, o.world) && Refused(o, c, Judge(w, c, req.seat, t).notice, c !in wx.second)
  {
    var p := w.clients[c].player;
    SeatChecked(w.bank, t, req.seat);
    var (checked, invalid) := Prevalidate(w.bank, t, req.seat);
    if invalid.Some? {
      Refuses(w.(bank := checked), c, TableNotice(invalid.value), wx.second);
    } else {
      BookedByKey(w.bank.ledger, p, TrimSpace(t));
      assert Consume(checked, p, t) == (checked, Err(PendingBuyInNotFound));
      Refuses(w.(bank := checked), c, BuyInNotice(PendingBuyInNotFound), wx.second);
    }
  }

  // A request with a buy-in and a seat that is not taken: from here on it is `EnterTable`.
  lemma JoinEntersWith(w: World, c: ClientId, req: JoinRequest, t: string, wx: Weather) returns (paid: Bank)
    requires c in w.clients && BankOk(w.bank) && Bounded(w.bank) && ColonFree(w.clients[c].player)
    requires Names(req.tableId, w.cfg.defaultTable, t)
    requires Judge(w, c, req.seat, t).Full? || Judge(w, c, req.seat, t).Welcome?
    ensures var p, key := w.clients[c].player, BuyInKey(w.clients[c].player, TrimSpace(t));
            && key in w.bank.ledger.pending && w.bank.ledger.pending[key].amount > 0
            && paid.ledger.balances == w.bank.ledger.balances && paid.ledger.pending == w.bank.ledger.pending - {key}
            && BankOk(paid) && Bounded(paid) && p in paid.ledger.balances
            && Worth(paid, p) + w.bank.ledger.pending[key].amount <= MAX_INT64
            && (forall id :: At(paid, id) == At(w.bank, id))
            && HandleJoin(w, c, req, wx)
               == EnterTable(w.(bank := paid), c, t, req.seat, w.bank.ledger.pending[key].amount, wx)
  {
    Judged(w, c, req, t);
    JoinEnters(w, c, req, wx);
    JoinPays(w, c, req);
    paid := Consume(Prevalidate(w.bank, t, req.seat).0, w.clients[c].player, t).0;
    BookedByKey(w.bank.ledger, w.clients[c].player, TrimSpace(t));
    SeatChecked(w.bank, t, req.seat);
  }

  // Where a client stands once it has left the table it sits at, if any.
  ghost predicate Left(w: World, u: World, c: ClientId)
    requires c in w.clients
  {
    var me := w.clients[c];
    var p := me.player;
    && u.cfg == w.cfg && u.clients == w.clients[c := me.(seated := false)]
    && u.bank.ledger.pending == w.bank.ledger.pending
    && Balance(u.bank.ledger, p)
       == Balance(w.bank.ledger, p) + (if me.seated then StackAt(At(w.bank, me.tableId), p) else 0)
    && (forall id :: id != me.tableId || !me.seated ==> At(u.bank, id) == At(w.bank, id))
    && (me.seated ==> !Seated(At(u.bank, me.tableId), p))
    && u.events == w.events + (if w.cfg.eventsOn && me.seated && Seated(At(w.bank, me.tableId), p)
                               then [Entry(At(u.bank, me.tableId), "switch_leave", p)] else [])
  }

  lemma SwitchExactly(w: World, c: ClientId, lost: set<ClientId>)
    requires c in w.clients && w.clients[c].seated && BankOk(w.bank) && Bounded(w.bank)
    ensures Left(w, SwitchAway(w, c, lost).0, c)
    ensures BankOk(SwitchAway(w, c, lost).0.bank) && SameWorth(SwitchAway(w, c, lost).0.bank, w.bank)
    ensures forall q | q in w.bank.ledger.balances :: q in SwitchAway(w, c, lost).0.bank.ledger.balances
  {
    var me := w.clients[c];
    DepartTables(w, c, me.tableId, true, "switch_leave", lost);
    DepartConserves(w, c, me.tableId, true, "switch_leave", lost);
    if Seated(At(w.bank, me.tableId), me.player) {
      DepartAnnounces(w, c, me.tableId, true, "switch_leave", lost);
    }
    var left := Depart(w, c, me.tableId, true, "switch_leave", lost).0;
    assert left.clients[c := me.(seated := false)] == w.clients[c := me.(seated := false)];
  }

  // Sitting down with a stack, once the client stands.
  ghost predicate Sat(u: World, o: Outcome, c: ClientId, t: string, seat: Option<int>, stack: int, lost: set<ClientId>)
    requires c in u.clients
  {
    var me, after := u.clients[c], o.world;
    && Shown(o, t) && o.posts != []
    && after.bank.ledger == u.bank.ledger && (forall id | id != t :: At(after.bank, id) == At(u.bank, id))
    && after.clients == u.clients[c := me.(tableId := t, seated := true)]
    && Announced(u.(bank := after.bank, clients := after.clients), after, o.posts[|o.posts| - 1], t, "join_table",
                 me.player, lost)
    && (if Seated(At(u.bank, t), me.player) then At(after.bank, t) == At(u.bank, t)
        else exists s :: NewlySeated(At(u.bank, t), At(after.bank, t), Player(me.player, me.nickname, s, stack), seat))
  }

  // The newcomer is listed at a free seat, the one asked for or else the lowest, and nobody else moved.
  ghost predicate NewlySeated(before: TableState, after: TableState, x: Player, asked: Option<int>) {
    && 0 <= x.seatIndex < 9 && !Occupied(before, x.seatIndex)
    && (asked.Some? ==> x.seatIndex == asked.value)
    && (asked.None? ==> forall k | 0 <= k < x.seatIndex :: Occupied(before, k))
    && forall y :: y in SnapshotOf(after).players <==> y in SnapshotOf(before).players || y == x
  }

  lemma JoinNewlySeats(t: TableState, p: string, nickname: string, stack: int, asked: Option<int>) returns (s: int)
    requires Seating.Valid(t) && !Seated(t, p) && Join(t, p, nickname, stack, asked).error.None?
    ensures NewlySeated(t, Join(t, p, nickname, stack, asked).table, Player(p, nickname, s, stack), asked)
  {
    s := JoinListed(t, p, nickname, stack, asked);
    OccupiedExactly(t);
  }

  // What sitting down does, by what joining the table comes to.
  lemma TakeSeatShape(w: World, c: ClientId, t: string, seat: Option<int>, stack: int, wx: Weather)
    requires c in w.clients && BankOk(w.bank)
    ensures var me := w.clients[c];
            var m := Join(At(w.bank, t), me.player, me.nickname, stack, seat);
            var b, o := Sit(w.bank, t, me.player, me.nickname, stack, seat).0, TakeSeat(w, c, t, seat, stack, wx);
            if m.error.Some?
            then o == Reply(w.(bank := Refund(b, me.player, stack)), c, TableNotice(m.error.value), wx.second)
            else
              var (u, post) := Announce(SetState(w.(bank := b), c, t, true), t, "join_table", me.player, wx.second);
              o == Outcome(u, [post], [EnvelopeOf(At(b, t))], false)
  {
  }

  lemma TakeSeatExactly(u: World, c: ClientId, t: string, seat: Option<int>, stack: int, wx: Weather)
    requires c in u.clients && BankOk(u.bank)
    requires Join(At(u.bank, t), u.clients[c].player, u.clients[c].nickname, stack, seat).error.None?
    requires u.clients[c].player in u.bank.ledger.balances && stack > 0
    ensures Sat(u, TakeSeat(u, c, t, seat, stack, wx), c, t, seat, stack, wx.second)
  {
    var me := u.clients[c];
    TakeSeatShape(u, c, t, seat, stack, wx);
    SitEffect(u.bank, t, me.player, me.nickname, stack, seat);
    var b := Sit(u.bank, t, me.player, me.nickname, stack, seat).0;
    AtSolvent(b, t);
    AnnounceExactly(SetState(u.(bank := b), c, t, true), t, "join_table", me.player, wx.second);
    SitListed(u.bank, t, me, stack, seat);
  }

  lemma SitListed(b: Bank, t: string, me: Client, stack: int, seat: Option<int>)
    requires BankOk(b) && Join(At(b, t), me.player, me.nickname, stack, seat).error.None?
    ensures var c := Sit(b, t, me.player, me.nickname, stack, seat).0;
            && (forall id | id != t :: At(c, id) == At(b, id))
            && if Seated(At(b, t), me.player) then At(c, t) == At(b, t)
               else exists s :: NewlySeated(At(b, t), At(c, t), Player(me.player, me.nickname, s, stack), seat)
  {
    AtSolvent(b, t);
    if !Seated(At(b, t), me.player) {
      var s := JoinNewlySeats(At(b, t), me.player, me.nickname, stack, seat);
      assert NewlySeated(At(b, t), Join(At(b, t), me.player, me.nickname, stack, seat).table,
                         Player(me.player, me.nickname, s, stack), seat);
    }
  }

  // The buy-in is out of the ledger, and nothing else has happened.
  ghost predicate Spent(w: World, v: World, key: string) {
    && v == w.(bank := v.bank) && key in w.bank.ledger.pending
    && v.bank.ledger.balances == w.bank.ledger.balances && v.bank.ledger.pending == w.bank.ledger.pending - {key}
    && forall id :: At(v.bank, id) == At(w.bank, id)
  }

  // The last newcomer's buy-in is back in the wallet.
  ghost predicate SentAway(u: World, o: Outcome, c: ClientId, p: string, stack: int, written: bool) {
    && Refused(o, c, ErrorNotice("TABLE_FULL", "table is full"), written)
    && o.world.clients == u.clients && o.world.events == u.events && o.world.hub == u.hub
    && o.world.bank.ledger.pending == u.bank.ledger.pending
    && Balance(o.world.bank.ledger, p) == Balance(u.bank.ledger, p) + stack
    && forall id :: At(o.world.bank, id) == At(u.bank, id)
  }

  lemma TakeSeatFull(u: World, c: ClientId, t: string, seat: Option<int>, stack: int, wx: Weather)
    requires c in u.clients && BankOk(u.bank) && stack > 0 && Worth(u.bank, u.clients[c].player) + stack <= MAX_INT64
    requires u.clients[c].player in u.bank.ledger.balances
    requires Join(At(u.bank, t), u.clients[c].player, u.clients[c].nickname, stack, seat).error == Some(TableFull)
    ensures SentAway(u, TakeSeat(u, c, t, seat, stack, wx), c, u.clients[c].player, stack, c !in wx.second)
  {
    var me := u.clients[c];
    TakeSeatShape(u, c, t, seat, stack, wx);
    SitEffect(u.bank, t, me.player, me.nickname, stack, seat);
    var b := Sit(u.bank, t, me.player, me.nickname, stack, seat).0;
    NobodySits(u.bank, t, me, stack, seat);
    ReturnsStack(b, me.player, stack);
    Refuses(u.(bank := Refund(b, me.player, stack)), c, TableNotice(TableFull), wx.second);
  }

  lemma ReturnsStack(b: Bank, p: string, stack: int)
    requires BankOk(b) && stack > 0 && Worth(b, p) + stack <= MAX_INT64
    ensures var c := Refund(b, p, stack);
            && Balance(c.ledger, p) == Balance(b.ledger, p) + stack && c.ledger.pending == b.ledger.pending
            && forall id :: At(c, id) == At(b, id)
  {
    WorthParts(b, p);
    CreditEffect(b, p, stack);
  }

  lemma NobodySits(b: Bank, t: string, me: Client, stack: int, seat: Option<int>)
    requires BankOk(b) && Join(At(b, t), me.player, me.nickname, stack, seat).error.Some?
    ensures forall id :: At(Sit(b, t, me.player, me.nickname, stack, seat).0, id) == At(b, id)
  {
    AtSolvent(b, t);
    JoinEffect(At(b, t), me.player, me.nickname, stack, seat);
  }

  // The outcome of sitting down depends on the table alone, which leaving another has not touched.
  lemma JoinOutcome(w: World, c: ClientId, req: JoinRequest, t: string, stack: int)
    requires c in w.clients && BankOk(w.bank) && ColonFree(w.clients[c].player)
    requires Names(req.tableId, w.cfg.defaultTable, t)
    requires Judge(w, c, req.seat, t).Full? || Judge(w, c, req.seat, t).Welcome?
    ensures var me := w.clients[c];
            Join(At(w.bank, t), me.player, me.nickname, stack, req.seat).error
            == if Judge(w, c, req.seat, t).Full? then Some(TableFull) else None
  {
    AtSolvent(w.bank, t);
    OccupiedExactly(At(w.bank, t));
    JoinRefusedExactly(At(w.bank, t), w.clients[c].player, w.clients[c].nickname, stack, req.seat);
  }

  lemma EnterExactly(v: World, c: ClientId, t: string, seat: Option<int>, stack: int, full: bool, wx: Weather)
    returns (u: World)
    requires c in v.clients && BankOk(v.bank) && Bounded(v.bank) && stack > 0
    requires v.clients[c].player in v.bank.ledger.balances && Worth(v.bank, v.clients[c].player) + stack <= MAX_INT64
    requires !(v.clients[c].seated && v.clients[c].tableId == t)
    requires Join(At(v.bank, t), v.clients[c].player, v.clients[c].nickname, stack, seat).error
             == if full then Some(TableFull) else None
    ensures Left(v, u, c)
    ensures var o := EnterTable(v, c, t, seat, stack, wx);
            if full then SentAway(u, o, c, v.clients[c].player, stack, c !in wx.second)
            else Sat(u, o, c, t, seat, stack, wx.second)
  {
    if v.clients[c].seated {
      SwitchExactly(v, c, wx.first);
      u := SwitchAway(v, c, wx.first).0;
    } else {
      u := v;
      assert v.clients[c := v.clients[c].(seated := false)] == v.clients;
    }
    EnterSplits(v, c, t, seat, stack, wx);
    if full {
      TakeSeatFull(u, c, t, seat, stack, wx);
    } else {
      TakeSeatExactly(u, c, t, seat, stack, wx);
    }
  }

  // Coming from another table changes only what is posted first.
  lemma EnterSplits(v: World, c: ClientId, t: string, seat: Option<int>, stack: int, wx: Weather)
    requires c in v.clients
    ensures var u := if v.clients[c].seated then SwitchAway(v, c, wx.first).0 else v;
            var o, sat := EnterTable(v, c, t, seat, stack, wx), TakeSeat(u, c, t, seat, stack, wx);
            && o == sat.(posts := o.posts)
            && (sat.posts != [] ==> o.posts != [] && o.posts[|o.posts| - 1] == sat.posts[|sat.posts| - 1])
  {
  }

  /** A join_table message, in every case. It is about the table it names, or the default one. If the
      client sits there already, it is shown the table. If the seat is no seat or taken, or no buy-in is
      booked, it is refused with that code. In these cases nothing changes. Otherwise the buy-in is taken
      out of the ledger and the client leaves the table it sits at, as a switch_leave. Then a newcomer
      without a preference who meets nine others gets the buy-in back, and anyone else sits down: listed
      under their own nickname, with the buy-in, at the seat asked for or the lowest that is free. */
  lemma JoinExactly(w: World, c: ClientId, e: ClientEnvelope, t: string, wx: Weather) returns (v: World, u: World)
    requires c in w.clients && BankOk(w.bank) && Bounded(w.bank) && ColonFree(w.clients[c].player)
    requires e.eventType == "join_table" && e.payload.join.Some?
    requires Names(e.payload.join.value.tableId, w.cfg.defaultTable, t)
    ensures var o, me, seat := Dispatch(w, c, e, wx), w.clients[c], e.payload.join.value.seat;
            var key := BuyInKey(me.player, TrimSpace(t));
            match Judge(w, c, seat, t)
            case Already =>
              && Untouched(w, o.world)
              && if c in wx.second then o.failed && o.replies == [] else Shown(o, t) && Answered(o, c)
            case Refusal(notice) => Untouched(w, o.world) && Refused(o, c, notice, c !in wx.second)
            case Full =>
              && Spent(w, v, key) && Left(v, u, c)
              && SentAway(u, o, c, me.player, w.bank.ledger.pending[key].amount, c !in wx.second)
            case Welcome =>
              && Spent(w, v, key) && Left(v, u, c)
              && Sat(u, o, c, t, seat, w.bank.ledger.pending[key].amount, wx.second)
  {
    var req := e.payload.join.value;
    v, u := w, w;
    match Judge(w, c, req.seat, t)
    case Already => JoinAlready(w, c, req, t, wx);
    case Refusal(_) => JoinRefused(w, c, req, t, wx);
    case _ =>
      var key := BuyInKey(w.clients[c].player, TrimSpace(t));
      var paid := JoinEntersWith(w, c, req, t, wx);
      v := w.(bank := paid);
      JoinOutcome(w, c, req, t, w.bank.ledger.pending[key].amount);
      u := EnterExactly(v, c, t, req.seat, w.bank.ledger.pending[key].amount, Judge(w, c, req.seat, t).Full?, wx);
  }
}
