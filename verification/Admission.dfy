/** What a join_table request comes to, in every case: whether it is admitted, where the chips end
    up, and what a refusal leaves untouched. */
module Admission {
  import opened Basics
  import opened Seating
  import opened Ledgers
  import opened Banks
  import opened Worlds
  import opened Conservation

  lemma SeatOccupiedExactly(t: TableState, seat: int)
    requires Seating.Valid(t) && 0 <= seat < MAX_PLAYERS
    ensures SeatOccupied(t, seat) <==> t.seats[seat].Some?
  {
    OccupantsListed(t.seats);
    if t.seats[seat].Some? {
      assert t.seats[seat].value in SnapshotOf(t).players;
    }
  }

  // The seat asked for, if any, exists and is free.
  predicate Free(t: TableState, seat: Option<int>) {
    seat.Some? ==> 0 <= seat.value < MAX_PLAYERS && t.seats[seat.value].None?
  }

  /** The check before the buy-in is consumed passes exactly for a seat that exists and is free. */
  lemma PrevalidateExact(b: Bank, id: string, seat: Option<int>)
    requires BankOk(b)
    ensures Prevalidate(b, id, seat).1.None? <==> Free(At(b, id), seat)
  {
    AtSolvent(b, id);
    if seat.Some? && 0 <= seat.value < MAX_PLAYERS {
      SeatOccupiedExactly(At(b, id), seat.value);
    }
  }

  // A newcomer without a preference meets nine seated players.
  predicate TurnedAway(t: TableState, p: string, seat: Option<int>) {
    seat.None? && |t.playerSeat| == MAX_PLAYERS && !Seated(t, p)
  }

  lemma SitOutcome(b: Bank, id: string, p: string, nickname: string, stack: int, seat: Option<int>)
    requires BankOk(b) && Free(At(b, id), seat)
    ensures var t, (c, error) := At(b, id), Sit(b, id, p, nickname, stack, seat);
            && error == (if TurnedAway(t, p, seat) then Some(TableFull) else None)
            && (error.Some? ==> At(c, id) == t)
            && (error.None? ==> Seated(At(c, id), p))
            && (error.None? && !Seated(t, p) ==>
                  StackAt(At(c, id), p) == stack && (seat.Some? ==> At(c, id).playerSeat[p] == seat.value))
  {
    var t := At(b, id);
    AtSolvent(b, id);
    JoinEffect(t, p, nickname, stack, seat);
    TableFullExactly(t, p, nickname, stack, seat);
  }

  // What is in the wallet and at the table once the buy-in of `stack` has been put to use.
  ghost predicate Admitted(before: Bank, after: Bank, id: string, p: string, seat: Option<int>, stack: int,
      returned: int)
  {
    if TurnedAway(At(before, id), p, seat) then
      && Balance(after.ledger, p) == Balance(before.ledger, p) + returned + stack
      && At(after, id) == At(before, id)
    else
      && Balance(after.ledger, p) == Balance(before.ledger, p) + returned
      && Seated(At(after, id), p)
      && (!Seated(At(before, id), p) ==>
            && StackAt(At(after, id), p) == stack
            && (seat.Some? ==> At(after, id).playerSeat[p] == seat.value))
  }

  // A refused buy-in goes back to the wallet, and the table stays as it is.
  lemma RefusedRefunds(before: Bank, b: Bank, id: string, p: string, seat: Option<int>, stack: int)
    requires BankOk(b) && 0 < stack && b.ledger == before.ledger && Worth(b, p) + stack <= MAX_INT64
    requires TurnedAway(At(before, id), p, seat) && At(b, id) == At(before, id)
    ensures Admitted(before, Refund(b, p, stack), id, p, seat, stack, 0)
    ensures Refund(b, p, stack).ledger.pending == before.ledger.pending
  {
    WorthParts(b, p);
    CreditEffect(b, p, stack);
  }

  lemma TakeSeatOutcome(w: World, c: ClientId, id: string, seat: Option<int>, stack: int, wx: Weather)
    requires c in w.clients && BankOk(w.bank) && 0 < stack && w.clients[c].player in w.bank.ledger.balances
    requires Worth(w.bank, w.clients[c].player) + stack <= MAX_INT64 && Free(At(w.bank, id), seat)
    ensures var p, o := w.clients[c].player, TakeSeat(w, c, id, seat, stack, wx);
            && Admitted(w.bank, o.world.bank, id, p, seat, stack, 0)
            && o.world.bank.ledger.pending == w.bank.ledger.pending
            && (TurnedAway(At(w.bank, id), p, seat) && c !in wx.second ==> o.replies == [TableNotice(TableFull)])
  {
    var me := w.clients[c];
    SitOutcome(w.bank, id, me.player, me.nickname, stack, seat);
    SitEffect(w.bank, id, me.player, me.nickname, stack, seat);
    var (b, error) := Sit(w.bank, id, me.player, me.nickname, stack, seat);
    if error.Some? {
      RefusedRefunds(w.bank, b, id, me.player, seat, stack);
    }
  }

  // Leaving puts one's whole stack into the wallet.
  lemma DepartOutcome(w: World, c: ClientId, id: string, release: bool, eventType: string, lost: set<ClientId>)
    requires c in w.clients && BankOk(w.bank) && Bounded(w.bank)
    ensures var p, after := w.clients[c].player, Depart(w, c, id, release, eventType, lost).0;
            Balance(after.bank.ledger, p) == Balance(w.bank.ledger, p) + StackAt(At(w.bank, id), p)
  {
    var p := w.clients[c].player;
    RiseEffect(w.bank, id, p);
    var (b, error) := Rise(w.bank, id, p);
    WorthParts(b, p);
    assert Worth(w.bank, p) <= MAX_INT64;
    if error.None? {
      CreditEffect(b, p, StackAt(At(w.bank, id), p));
    }
  }

  lemma EnterTableOutcome(w: World, c: ClientId, id: string, seat: Option<int>, stack: int, wx: Weather)
    requires c in w.clients && BankOk(w.bank) && 0 < stack && w.clients[c].player in w.bank.ledger.balances
    requires !(w.clients[c].seated && w.clients[c].tableId == id) && Free(At(w.bank, id), seat)
    requires Worth(w.bank, w.clients[c].player) + stack <= MAX_INT64 && Bounded(w.bank)
    ensures var me, o := w.clients[c], EnterTable(w, c, id, seat, stack, wx);
            && Admitted(w.bank, o.world.bank, id, me.player, seat, stack,
                 if me.seated then StackAt(At(w.bank, me.tableId), me.player) else 0)
            && o.world.bank.ledger.pending == w.bank.ledger.pending
            && (TurnedAway(At(w.bank, id), me.player, seat) && c !in wx.second ==>
                  o.replies == [TableNotice(TableFull)])
  {
    if w.clients[c].seated {
      var from := w.clients[c].tableId;
      DepartConserves(w, c, from, true, "switch_leave", wx.first);
      DepartOutcome(w, c, from, true, "switch_leave", wx.first);
      TakeSeatOutcome(SwitchAway(w, c, wx.first).0, c, id, seat, stack, wx);
    } else {
      TakeSeatOutcome(w, c, id, seat, stack, wx);
    }
  }

  // The request gets no further than a look: already seated there, no such free seat, or no buy-in.
  predicate Declined(w: World, c: ClientId, req: JoinRequest)
    requires c in w.clients
  {
    var me, id := w.clients[c], Resolve(w.cfg, req.tableId);
    || (me.seated && me.tableId == id)
    || !Free(At(w.bank, id), req.seat)
    || Consume(w.bank, me.player, id).1.Err?
  }

  /** A declined request moves no chips, leaves the pending buy-in where it is and changes no table. */
  lemma DeclinedTouchesNothing(w: World, c: ClientId, req: JoinRequest, wx: Weather)
    requires c in w.clients && BankOk(w.bank) && Declined(w, c, req)
    ensures var after := HandleJoin(w, c, req, wx).world;
            && after.bank.ledger == w.bank.ledger && after.clients == w.clients
            && forall id :: At(after.bank, id) == At(w.bank, id)
  {
    JoinSplits(w, c, req, wx);
    var me, id := w.clients[c], Resolve(w.cfg, req.tableId);
    PrevalidateExact(w.bank, id, req.seat);
    PrevalidateKeepsLedger(w.bank, id, req.seat, me.player);
    LookEffect(w.bank, id);
  }

  lemma JoinEnters(w: World, c: ClientId, req: JoinRequest, wx: Weather)
    requires c in w.clients && BankOk(w.bank) && !Declined(w, c, req)
    ensures var me, id := w.clients[c], Resolve(w.cfg, req.tableId);
            var (paid, receipt) := Consume(Prevalidate(w.bank, id, req.seat).0, me.player, id);
            receipt.Ok? && receipt == Consume(w.bank, me.player, id).1
            && HandleJoin(w, c, req, wx) == EnterTable(w.(bank := paid), c, id, req.seat, receipt.value.amount, wx)
  {
    var me, id := w.clients[c], Resolve(w.cfg, req.tableId);
    PrevalidateExact(w.bank, id, req.seat);
    PrevalidateKeepsLedger(w.bank, id, req.seat, me.player);
  }

  /** Any other request consumes its buy-in and then fails in one case only: no seat was asked for
      and nine others sit there. Then the buy-in is back in the wallet and the table unchanged;
      otherwise the player sits there, a newcomer at the seat asked for with the buy-in as stack.
      Either way the stack of the table left behind is in the wallet too. */
  lemma AcceptedExactly(w: World, c: ClientId, req: JoinRequest, wx: Weather)
    requires c in w.clients && BankOk(w.bank) && Bounded(w.bank) && ColonFree(w.clients[c].player)
        && !Declined(w, c, req)
    ensures var me, id, o := w.clients[c], Resolve(w.cfg, req.tableId), HandleJoin(w, c, req, wx);
            && Admitted(w.bank, o.world.bank, id, me.player, req.seat, Consume(w.bank, me.player, id).1.value.amount,
                        if me.seated then StackAt(At(w.bank, me.tableId), me.player) else 0)
            && o.world.bank.ledger.pending == w.bank.ledger.pending - {BuyInKey(me.player, TrimSpace(id))}
            && (TurnedAway(At(w.bank, id), me.player, req.seat) && c !in wx.second ==>
                  o.replies == [TableNotice(TableFull)])
  {
    var me, id := w.clients[c], Resolve(w.cfg, req.tableId);
    JoinEnters(w, c, req, wx);
    PrevalidateEffect(w.bank, id, req.seat);
    PrevalidateExact(w.bank, id, req.seat);
    var checked := Prevalidate(w.bank, id, req.seat).0;
    ConsumeEffect(checked, me.player, id);
    var (paid, receipt) := Consume(checked, me.player, id);
    assert forall other :: At(paid, other) == At(w.bank, other);
    EnterTableOutcome(w.(bank := paid), c, id, req.seat, receipt.value.amount, wx);
  }
}
