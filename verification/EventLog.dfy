/** The table event log: for every table, versions without gaps or repeats, ending in its present. */
module EventLog {
  import opened Basics
  import opened Seating
  import opened Ledgers
  import opened TableManager
  import opened Banks
  import opened Worlds
  import opened Conservation

  function EventsOf(events: seq<TableEvent>, id: string): seq<TableEvent> {
    if events == [] then []
    else
      var last := events[|events| - 1];
      EventsOf(events[..|events| - 1], id) + (if last.tableId == id then [last] else [])
  }

  lemma {:induction false} EventsOfConcat(a: seq<TableEvent>, b: seq<TableEvent>, id: string)
    ensures EventsOf(a + b, id) == EventsOf(a, id) + EventsOf(b, id)
  {
    if b == [] {
      assert a + b == a;
    } else {
      var n := |b| - 1;
      assert (a + b)[..|a| + n] == a + b[..n];
      EventsOfConcat(a, b[..n], id);
    }
  }

  /** The events lead from one state of a table to another: consecutive versions, the last one
      carrying the final snapshot, and none at all only if nothing changed. */
  ghost predicate Chronicle(before: TableState, after: TableState, events: seq<TableEvent>) {
    && |events| == after.version - before.version
    && (forall k | 0 <= k < |events| :: events[k].version == before.version + 1 + k)
    && (if events == [] then after == before else events[|events| - 1].payload == SnapshotOf(after))
  }

  lemma ChronicleTwice(a: TableState, b: TableState, c: TableState, first: seq<TableEvent>, second: seq<TableEvent>)
    requires Chronicle(a, b, first) && Chronicle(b, c, second)
    ensures Chronicle(a, c, first + second)
  {
  }

  // What was appended to the log between two worlds is a chronicle of every table.
  ghost predicate Logged(a: World, b: World) {
    && b.cfg == a.cfg
    && (a.cfg.eventsOn ==>
          && a.events <= b.events
          && forall id :: Chronicle(At(a.bank, id), At(b.bank, id), EventsOf(b.events[|a.events|..], id)))
  }

  lemma LoggedTwice(a: World, b: World, c: World)
    requires Logged(a, b) && Logged(b, c)
    ensures Logged(a, c)
  {
    if a.cfg.eventsOn {
      var first, second := b.events[|a.events|..], c.events[|b.events|..];
      assert c.events[|a.events|..] == first + second;
      forall id
        ensures Chronicle(At(a.bank, id), At(c.bank, id), EventsOf(c.events[|a.events|..], id))
      {
        EventsOfConcat(first, second, id);
        ChronicleTwice(At(a.bank, id), At(b.bank, id), At(c.bank, id), EventsOf(first, id), EventsOf(second, id));
      }
    }
  }

  lemma QuietLogged(a: World, b: World)
    requires b.cfg == a.cfg && b.events == a.events
    requires forall id :: At(b.bank, id) == At(a.bank, id)
    ensures Logged(a, b)
  {
    assert b.events[|a.events|..] == [];
  }

  lemma AnnounceLogged(a: World, w: World, id: string, eventType: string, p: string, lost: set<ClientId>)
    requires w.cfg == a.cfg && w.events == a.events
    requires At(w.bank, id).id == id && At(w.bank, id).version == At(a.bank, id).version + 1
    requires forall other | other != id :: At(w.bank, other) == At(a.bank, other)
    ensures Logged(a, Announce(w, id, eventType, p, lost).0)
  {
    var b := Announce(w, id, eventType, p, lost).0;
    if a.cfg.eventsOn {
      var t := At(w.bank, id);
      var e := TableEvent(t.id, t.version, eventType, p, SnapshotOf(t));
      assert b.events[|a.events|..] == [e];
      assert EventsOf([e], id) == [e] by { assert [e][..0] == []; }
      forall other
        ensures Chronicle(At(a.bank, other), At(b.bank, other), EventsOf([e], other))
      {
        assert [e][..0] == [];
      }
    }
  }

  lemma DepartLogged(w: World, c: ClientId, id: string, release: bool, eventType: string, lost: set<ClientId>)
    requires c in w.clients && MapValid(w.bank.tables)
    ensures Logged(w, Depart(w, c, id, release, eventType, lost).0)
  {
    var p := w.clients[c].player;
    TableAtValid(w.bank.tables, id);
    LeaveEffect(At(w.bank, id), p);
    var (bank, error) := Rise(w.bank, id, p);
    if error.Some? {
      QuietLogged(w, w.(bank := bank));
    } else {
      var refunded := w.(bank := Refund(bank, p, StackAt(At(w.bank, id), p)));
      assert refunded.bank.tables == bank.tables;
      AnnounceLogged(w, if release then SetState(refunded, c, id, false) else refunded, id, eventType, p, lost);
    }
  }

  lemma SwitchLogged(w: World, c: ClientId, lost: set<ClientId>)
    requires c in w.clients && MapValid(w.bank.tables)
    ensures Logged(w, SwitchAway(w, c, lost).0)
  {
    var id := w.clients[c].tableId;
    DepartLogged(w, c, id, true, "switch_leave", lost);
    var left := Depart(w, c, id, true, "switch_leave", lost).0;
    QuietLogged(left, SwitchAway(w, c, lost).0);
    LoggedTwice(w, left, SwitchAway(w, c, lost).0);
  }

  lemma TakeSeatLogged(w: World, c: ClientId, id: string, seat: Option<int>, stack: int, wx: Weather)
    requires c in w.clients && MapValid(w.bank.tables) && !Seated(At(w.bank, id), w.clients[c].player)
    ensures Logged(w, TakeSeat(w, c, id, seat, stack, wx).world)
  {
    var me := w.clients[c];
    TableAtValid(w.bank.tables, id);
    JoinEffect(At(w.bank, id), me.player, me.nickname, stack, seat);
    var (b, error) := Sit(w.bank, id, me.player, me.nickname, stack, seat);
    if error.Some? {
      assert Refund(b, me.player, stack).tables == b.tables;
      QuietLogged(w, w.(bank := Refund(b, me.player, stack)));
    } else {
      AnnounceLogged(w, SetState(w.(bank := b), c, id, true), id, "join_table", me.player, wx.second);
    }
  }

  lemma EnterTableLogged(w: World, c: ClientId, id: string, seat: Option<int>, stack: int, wx: Weather)
    requires c in w.clients && BankOk(w.bank) && Bounded(w.bank) && Marked(w, c)
    requires !(w.clients[c].seated && w.clients[c].tableId == id)
    ensures Logged(w, EnterTable(w, c, id, seat, stack, wx).world)
  {
    if w.clients[c].seated {
      SwitchLogged(w, c, wx.first);
      SwitchSeats(w, c, wx.first);
      var away := SwitchAway(w, c, wx.first).0;
      TakeSeatLogged(away, c, id, seat, stack, wx);
      LoggedTwice(w, away, TakeSeat(away, c, id, seat, stack, wx).world);
    } else {
      TakeSeatLogged(w, c, id, seat, stack, wx);
    }
  }

  lemma JoinLogged(w: World, c: ClientId, req: JoinRequest, wx: Weather)
    requires c in w.clients && BankOk(w.bank) && Bounded(w.bank) && ColonFree(w.clients[c].player) && Marked(w, c)
    ensures Logged(w, HandleJoin(w, c, req, wx).world)
  {
    JoinSplits(w, c, req, wx);
    var me, id := w.clients[c], Resolve(w.cfg, req.tableId);
    LookEffect(w.bank, id);
    JoinPays(w, c, req);
    var (checked, invalid) := Prevalidate(w.bank, id, req.seat);
    var (paid, receipt) := Consume(checked, me.player, id);
    if !(me.seated && me.tableId == id) && invalid.None? && receipt.Ok? {
      QuietLogged(w, w.(bank := paid));
      EnterTableLogged(w.(bank := paid), c, id, req.seat, receipt.value.amount, wx);
      LoggedTwice(w, w.(bank := paid), HandleJoin(w, c, req, wx).world);
    } else {
      QuietLogged(w, HandleJoin(w, c, req, wx).world);
    }
  }

  lemma DispatchLogged(w: World, c: ClientId, e: ClientEnvelope, wx: Weather)
    requires c in w.clients && BankOk(w.bank) && Bounded(w.bank) && ColonFree(w.clients[c].player) && Marked(w, c)
    ensures Logged(w, Dispatch(w, c, e, wx).world)
  {
    if e.eventType == "join_table" && e.payload.join.Some? {
      JoinLogged(w, c, e.payload.join.value, wx);
    } else if e.eventType == "leave_table" && e.payload.leave.Some? {
      var requested := e.payload.leave.value;
      var id := if TrimSpace(requested) != "" then Resolve(w.cfg, requested) else w.clients[c].tableId;
      DepartLogged(w, c, id, true, "leave_table", wx.second);
    } else {
      QuietLogged(w, Dispatch(w, c, e, wx).world);
    }
  }

  lemma CloseLogged(w: World, c: ClientId, lost: set<ClientId>)
    requires c in w.clients && MapValid(w.bank.tables)
    ensures Logged(w, CloseClient(w, c, lost).0)
  {
    QuietLogged(w, w);
    if w.clients[c].seated {
      DepartLogged(w, c, w.clients[c].tableId, false, "disconnect_leave", lost);
    }
    var left := if w.clients[c].seated then Depart(w, c, w.clients[c].tableId, false, "disconnect_leave", lost).0
        else w;
    QuietLogged(left, left.(hub := left.hub - {c}));
    LoggedTwice(w, left, left.(hub := left.hub - {c}));
  }

  lemma ServeLogged(s: System, e: Event)
    requires InOrder(s) && Legal(s, e) && e.MessageEvent? && e.client in s.world.clients
    ensures Logged(s.world, Serve(s, e).world)
  {
    var c, w := e.client, s.world;
    WakeKeeps(s, c);
    assert Marked(w, c) by { assert c in s.(live := s.live + {c}).live; }
    DispatchLogged(w, c, e.envelope, e.wx);
    DispatchKeeps(w, c, e.envelope, e.wx);
    var v := Dispatch(w, c, e.envelope, e.wx).world;
    CloseLogged(v, c, e.wx.third);
    LoggedTwice(w, v, CloseClient(v, c, e.wx.third).0);
    CloseLogged(w, c, e.wx.third);
    QuietLogged(w, w);
  }

  lemma StepLogged(s: System, e: Event)
    requires InOrder(s) && Legal(s, e)
    ensures Logged(s.world, Step(s, e).world)
  {
    if Known(s, e) && e.MessageEvent? {
      ServeLogged(s, e);
    } else if Known(s, e) && e.CloseEvent? {
      CloseLogged(s.world, e.client, e.wx.third);
    } else {
      QuietStep(s, e);
      QuietLogged(s.world, Step(s, e).world);
    }
  }

  lemma QuietStep(s: System, e: Event)
    requires Known(s, e) ==> !e.MessageEvent? && !e.CloseEvent?
    ensures var w := Step(s, e).world;
            w.cfg == s.world.cfg && w.events == s.world.events && forall id :: At(w.bank, id) == At(s.world.bank, id)
  {
    if e.ConnectEvent? {
      ConnectShape(s.world, e.client, e.player, e.nickname, e.wx);
    }
  }

  lemma {:induction false} RunLogged(s: System, events: seq<Event>)
    requires InOrder(s) && LegalRun(s, events)
    ensures Logged(s.world, Run(s, events).world)
  {
    if events == [] {
      QuietLogged(s.world, s.world);
    } else {
      var n := |events| - 1;
      LegalPrefix(s, events);
      RunLogged(s, events[..n]);
      RunConserves(s, events[..n]);
      StepLogged(Run(s, events[..n]), events[n]);
      LoggedTwice(s.world, Run(s, events[..n]).world, Run(s, events).world);
    }
  }

  /** Over every legal run the log of each table has versions 1, 2, 3, ... up to the table's own,
      and its last payload is the table's present snapshot. */
  lemma {:induction false} EventLogGapless(cfg: Config, events: seq<Event>, w: World, id: string)
    requires cfg.eventsOn && LegalRun(Boot(cfg), events) && w == Run(Boot(cfg), events).world
    ensures Chronicle(NewTable(id), At(w.bank, id), EventsOf(w.events, id))
  {
    BootInOrder(cfg);
    RunLogged(Boot(cfg), events);
    assert w.events[0..] == w.events;
  }
}
