/** A job that runs undisturbed from start to end does to chips, tables and its client's mark what
    the handler does in one step. */
module Atomicity {
  import opened Basics
  import opened Seating
  import opened Ledgers
  import opened Banks
  import opened Worlds
  import opened Interleaving
  import opened Schedules

  // The job's remaining steps, one after the other.
  function Finish(cfg: Config, b: Bank, me: Client, task: Task): (Bank, Client)
    decreases Rank(task)
  {
    var m := MoveOf(cfg, b, me, task);
    if m.next.None? then (m.bank, m.me)
    else
      assert Rank(m.next.value) < Rank(task) by {
        MoveRank(cfg, b, me, task);
      }
      Finish(cfg, m.bank, m.me, m.next.value)
  }

  // The part of a world that jobs work on.
  function PartOf(w: World, c: ClientId): (Bank, Client)
    requires c in w.clients
  {
    (w.bank, w.clients[c])
  }

  lemma {:induction false} FinishStep(cfg: Config, b: Bank, me: Client, task: Task, next: Task, c: Bank, you: Client)
    requires MoveOf(cfg, b, me, task) == Move(c, you, Some(next))
    ensures Finish(cfg, b, me, task) == Finish(cfg, c, you, next)
  {
  }

  lemma {:induction false} FinishSit(w: World, c: ClientId, id: string, seat: Option<int>, stack: int, wx: Weather)
    requires c in w.clients && stack > 0
    ensures Finish(w.cfg, w.bank, w.clients[c], JoinSit(id, seat, stack))
        == PartOf(TakeSeat(w, c, id, seat, stack, wx).world, c)
  {
    var me := w.clients[c];
    var (sat, error) := Sit(w.bank, id, me.player, me.nickname, stack, seat);
    var next := if error.None? then JoinMark(id) else JoinRefund(stack);
    FinishStep(w.cfg, w.bank, me, JoinSit(id, seat, stack), next, sat, me);
  }

  lemma {:induction false} FinishSwitch(w: World, c: ClientId, id: string, seat: Option<int>, stack: int,
      lost: set<ClientId>)
    requires c in w.clients && BankOk(w.bank)
    ensures var v := SwitchAway(w, c, lost).0;
            Finish(w.cfg, w.bank, w.clients[c], JoinRead(id, seat, w.clients[c].tableId, stack))
            == Finish(v.cfg, v.bank, v.clients[c], JoinSit(id, seat, stack))
  {
    var me := w.clients[c];
    var from, p := me.tableId, me.player;
    var previous, had := StackAt(At(w.bank, from), p), Seated(At(w.bank, from), p);
    LookFirst(w.bank, from, p);
    StackSign(w.bank, from, p);
    var looked := Look(w.bank, from);
    var (left, error) := Rise(w.bank, from, p);
    var owed := if error.None? && had then previous else 0;
    var you := me.(seated := false);
    FinishStep(w.cfg, w.bank, me, JoinRead(id, seat, from, stack), JoinLeave(id, seat, from, stack, previous, had),
        looked, me);
    FinishStep(w.cfg, looked, me, JoinLeave(id, seat, from, stack, previous, had),
        JoinUnmark(id, seat, from, stack, owed), left, me);
    if owed > 0 {
      FinishStep(w.cfg, left, me, JoinUnmark(id, seat, from, stack, owed), JoinCredit(id, seat, from, stack, owed),
          left, you);
      FinishStep(w.cfg, left, you, JoinCredit(id, seat, from, stack, owed), JoinSit(id, seat, stack),
          Credit(left, p, owed), you);
    } else {
      FinishStep(w.cfg, left, me, JoinUnmark(id, seat, from, stack, owed), JoinSit(id, seat, stack), left, you);
    }
  }

  lemma StackSign(b: Bank, id: string, p: string)
    requires BankOk(b)
    ensures if Seated(At(b, id), p) then StackAt(At(b, id), p) > 0 else StackAt(At(b, id), p) == 0
  {
    AtSolvent(b, id);
  }

  lemma {:induction false} FinishEnter(w: World, c: ClientId, id: string, seat: Option<int>, stack: int, wx: Weather)
    requires c in w.clients && BankOk(w.bank) && stack > 0
    ensures var me := w.clients[c];
            Finish(w.cfg, w.bank, me, if me.seated then JoinRead(id, seat, me.tableId, stack)
                else JoinSit(id, seat, stack))
            == PartOf(EnterTable(w, c, id, seat, stack, wx).world, c)
  {
    if w.clients[c].seated {
      FinishSwitch(w, c, id, seat, stack, wx.first);
      FinishSit(SwitchAway(w, c, wx.first).0, c, id, seat, stack, wx);
    } else {
      FinishSit(w, c, id, seat, stack, wx);
    }
  }

  lemma {:induction false} FinishConsume(w: World, c: ClientId, req: JoinRequest, checked: Bank, wx: Weather)
    requires c in w.clients && BankOk(checked) && ColonFree(w.clients[c].player)
    requires var me, id := w.clients[c], Resolve(w.cfg, req.tableId);
             !(me.seated && me.tableId == id) && Prevalidate(w.bank, id, req.seat) == (checked, None)
    ensures var me := w.clients[c];
            Finish(w.cfg, checked, me, JoinConsume(Resolve(w.cfg, req.tableId), req.seat, me.tableId, me.seated))
            == PartOf(HandleJoin(w, c, req, wx).world, c)
  {
    var me, id := w.clients[c], Resolve(w.cfg, req.tableId);
    ConsumeEffect(checked, me.player, id);
    var (paid, receipt) := Consume(checked, me.player, id);
    if receipt.Ok? {
      var stack := receipt.value.amount;
      var next := if me.seated then JoinRead(id, req.seat, me.tableId, stack) else JoinSit(id, req.seat, stack);
      FinishStep(w.cfg, checked, me, JoinConsume(id, req.seat, me.tableId, me.seated), next, paid, me);
      FinishEnter(w.(bank := paid), c, id, req.seat, stack, wx);
    }
  }

  /** join_table. */
  lemma JoinAlone(w: World, c: ClientId, req: JoinRequest, wx: Weather)
    requires c in w.clients && BankOk(w.bank) && ColonFree(w.clients[c].player)
    ensures Finish(w.cfg, w.bank, w.clients[c], JoinBegin(Resolve(w.cfg, req.tableId), req.seat))
            == PartOf(HandleJoin(w, c, req, wx).world, c)
  {
    var me, id := w.clients[c], Resolve(w.cfg, req.tableId);
    LookEffect(w.bank, id);
    FinishStep(w.cfg, w.bank, me, JoinBegin(id, req.seat), JoinCheck(id, req.seat, me.tableId, me.seated), w.bank, me);
    if !(me.seated && me.tableId == id) {
      var (checked, invalid) := Prevalidate(w.bank, id, req.seat);
      if invalid.None? {
        FinishStep(w.cfg, w.bank, me, JoinCheck(id, req.seat, me.tableId, me.seated),
                   JoinConsume(id, req.seat, me.tableId, me.seated), checked, me);
        FinishConsume(w, c, req, checked, wx);
      }
    }
  }

  lemma {:induction false} FinishCredit(cfg: Config, left: Bank, me: Client, id: string, closing: bool, owed: int)
    ensures Finish(cfg, left, me, ExitCredit(id, closing, owed))
            == (Credit(left, me.player, owed), if closing then me else me.(tableId := id, seated := false))
  {
    if !closing {
      FinishStep(cfg, left, me, ExitCredit(id, closing, owed), ExitUnmark(id), Credit(left, me.player, owed), me);
    }
  }

  lemma RiseFails(b: Bank, id: string, p: string)
    ensures Rise(b, id, p).1.None? <==> Seated(At(b, id), p)
  {
  }

  lemma DepartShape(w: World, c: ClientId, id: string, release: bool, eventType: string, lost: set<ClientId>)
    requires c in w.clients
    ensures var me := w.clients[c];
            var (left, error) := Rise(w.bank, id, me.player);
            PartOf(Depart(w, c, id, release, eventType, lost).0, c)
            == if error.Some? then (left, me)
               else (Refund(left, me.player, StackAt(At(w.bank, id), me.player)),
                   if release then me.(tableId := id, seated := false) else me)
  {
  }

  lemma FinishExit(w: World, c: ClientId, id: string, closing: bool, eventType: string, lost: set<ClientId>)
    requires c in w.clients && BankOk(w.bank)
    ensures Finish(w.cfg, w.bank, w.clients[c], ExitRead(id, closing))
        == PartOf(Depart(w, c, id, !closing, eventType, lost).0, c)
  {
    var me := w.clients[c];
    var p := me.player;
    var stack, had := StackAt(At(w.bank, id), p), Seated(At(w.bank, id), p);
    LookFirst(w.bank, id, p);
    StackSign(w.bank, id, p);
    RiseFails(w.bank, id, p);
    DepartShape(w, c, id, !closing, eventType, lost);
    var looked := Look(w.bank, id);
    var (left, error) := Rise(w.bank, id, p);
    FinishStep(w.cfg, w.bank, me, ExitRead(id, closing), ExitLeave(id, closing, stack, had), looked, me);
    if error.None? {
      FinishStep(w.cfg, looked, me, ExitLeave(id, closing, stack, had), ExitCredit(id, closing, stack), left, me);
      FinishCredit(w.cfg, left, me, id, closing, stack);
    }
  }

  /** leave_table. */
  lemma LeaveAlone(w: World, c: ClientId, requested: string, wx: Weather)
    requires c in w.clients && BankOk(w.bank)
    ensures Finish(w.cfg, w.bank, w.clients[c], LeaveBegin(requested))
        == PartOf(HandleLeave(w, c, requested, wx).world, c)
  {
    var me := w.clients[c];
    var id := if TrimSpace(requested) != "" then Resolve(w.cfg, requested) else me.tableId;
    FinishStep(w.cfg, w.bank, me, LeaveBegin(requested), ExitRead(id, false), w.bank, me);
    FinishExit(w, c, id, false, "leave_table", wx.second);
  }

  /** The closing of a connection. */
  lemma CloseAlone(w: World, c: ClientId, lost: set<ClientId>)
    requires c in w.clients && BankOk(w.bank)
    ensures Finish(w.cfg, w.bank, w.clients[c], CloseBegin) == PartOf(CloseClient(w, c, lost).0, c)
  {
    var me := w.clients[c];
    if me.seated {
      FinishStep(w.cfg, w.bank, me, CloseBegin, CloseTable, w.bank, me);
      FinishStep(w.cfg, w.bank, me, CloseTable, ExitRead(me.tableId, true), w.bank, me);
      FinishExit(w, c, me.tableId, true, "disconnect_leave", lost);
    }
  }
}
