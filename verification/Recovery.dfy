/** What survives a restart: at every handler boundary the saved snapshots rebuild every table. */
module Recovery {
  import opened Basics
  import opened Seating
  import opened TableManager
  import opened Banks
  import opened SnapshotStore
  import opened Worlds
  import opened Conservation
  import opened Watching

  // Saving kept pace with the tables, and nobody nameless came in.
  ghost predicate SavedForward(a: World, b: World) {
    && b.cfg == a.cfg && MapValid(b.bank.tables) && HubKnown(b)
    && (Named(a) ==> Named(b))
    && (a.cfg.snapshotsOn ==> forall id :: SavedStep(a, b, id))
  }

  lemma ForwardTwice(a: World, b: World, c: World)
    requires SavedForward(a, b) && SavedForward(b, c)
    ensures SavedForward(a, c)
  {
    forall id | a.cfg.snapshotsOn
      ensures SavedStep(a, c, id)
    {
      assert SavedStep(a, b, id) && SavedStep(b, c, id);
    }
  }

  lemma CloseForward(w: World, c: ClientId, lost: set<ClientId>)
    requires MapValid(w.bank.tables) && HubKnown(w) && c in w.clients
    ensures SavedForward(w, CloseClient(w, c, lost).0)
  {
    ClosePublished(w, c, lost);
  }

  lemma DispatchForward(w: World, c: ClientId, e: ClientEnvelope, wx: Weather)
    requires MapValid(w.bank.tables) && HubKnown(w) && c in w.clients
    ensures SavedForward(w, Dispatch(w, c, e, wx).world)
  {
    DispatchPublished(w, c, e, wx);
  }

  // A turn of the read loop dispatches, closes, does both, or neither.
  lemma ServeWorld(s: System, e: Event)
    requires e.MessageEvent? && e.client in s.world.clients
    ensures var c, w, after := e.client, s.world, Serve(s, e).world;
            var v := Dispatch(w, c, e.envelope, e.wx).world;
            || after == w || after == CloseClient(w, c, e.wx.third).0
            || after == v || after == CloseClient(v, c, e.wx.third).0
  {
  }

  lemma ServeForward(s: System, e: Event)
    requires MapValid(s.world.bank.tables) && HubKnown(s.world) && e.MessageEvent? && e.client in s.world.clients
    ensures SavedForward(s.world, Serve(s, e).world)
  {
    var c, w := e.client, s.world;
    ServeWorld(s, e);
    LedgerForward(w, w.bank);
    CloseForward(w, c, e.wx.third);
    DispatchForward(w, c, e.envelope, e.wx);
    var v := Dispatch(w, c, e.envelope, e.wx).world;
    CloseForward(v, c, e.wx.third);
    ForwardTwice(w, v, CloseClient(v, c, e.wx.third).0);
  }

  lemma ConnectForward(w: World, e: Event)
    requires MapValid(w.bank.tables) && HubKnown(w) && e.ConnectEvent? && e.player != ""
    ensures SavedForward(w, Connect(w, e.client, e.player, e.nickname, e.wx).0)
  {
    TableAtValid(w.bank.tables, w.cfg.defaultTable);
    ConnectShape(w, e.client, e.player, e.nickname, e.wx);
    var after := Connect(w, e.client, e.player, e.nickname, e.wx).0;
    assert forall id :: At(after.bank, id) == At(w.bank, id);
  }

  lemma LedgerForward(w: World, b: Bank)
    requires MapValid(w.bank.tables) && HubKnown(w) && b.tables == w.bank.tables
    ensures SavedForward(w, w.(bank := b))
  {
    assert forall id :: At(b, id) == At(w.bank, id);
  }

  lemma StepForward(s: System, e: Event)
    requires MapValid(s.world.bank.tables) && HubKnown(s.world) && (e.ConnectEvent? ==> e.player != "")
    ensures SavedForward(s.world, Step(s, e).world)
  {
    LedgerForward(s.world, s.world.bank);
    if Known(s, e) {
      match e
      case GrantEvent(p, initial) => LedgerForward(s.world, Grant(s.world.bank, p, initial));
      case BuyInEvent(p, id, amount) => LedgerForward(s.world, Buy(s.world.bank, p, Resolve(s.world.cfg, id), amount));
      case ConnectEvent(_, _, _, _) => ConnectForward(s.world, e);
      case MessageEvent(_, _, _, _, _, _) => ServeForward(s, e);
      case CloseEvent(c, wx) => CloseForward(s.world, c, wx.third);
    }
  }

  lemma {:induction false} RunForward(s: System, events: seq<Event>)
    requires MapValid(s.world.bank.tables) && HubKnown(s.world)
    requires forall e | e in events :: e.ConnectEvent? ==> e.player != ""
    ensures SavedForward(s.world, Run(s, events).world)
  {
    if events == [] {
      LedgerForward(s.world, s.world.bank);
    } else {
      var before, e := events[..|events| - 1], events[|events| - 1];
      RunForward(s, before);
      StepForward(Run(s, before), e);
      ForwardTwice(s.world, Run(s, before).world, Step(Run(s, before), e).world);
    }
  }

  lemma RecoverCurrent(saved: Saved, t: TableState)
    requires t.id in saved && saved[t.id] == PersistedOf(t) && Seating.Valid(t) && NamedPlayers(t)
    ensures Recover(saved, t.id) == t
  {
    SaveThenRecover(saved, t);
    assert Save(saved, SnapshotOf(t), t.version) == saved;
  }

  lemma SavedRecovers(a: World, b: World, id: string)
    requires a.saved == map[] && At(a.bank, id) == NewTable(id)
    requires MapValid(b.bank.tables) && Named(b) && SavedStep(a, b, id)
    ensures Recover(b.saved, id) == At(b.bank, id)
  {
    TableAtValid(b.bank.tables, id);
    if id in b.saved {
      RecoverCurrent(b.saved, At(b.bank, id));
    }
  }

  /** With snapshots on, every save succeeding and no empty player id, at every handler boundary of
      every run loading and restoring gives back every table: seats, player index and version. */
  lemma {:induction false} CrashRecovery(cfg: Config, events: seq<Event>, w: World, id: string)
    requires cfg.snapshotsOn && w == Run(Boot(cfg), events).world
    requires forall e | e in events :: e.ConnectEvent? ==> e.player != ""
    ensures Recover(w.saved, id) == At(w.bank, id)
  {
    var s := Boot(cfg);
    RunForward(s, events);
    assert Named(s.world);
    assert SavedStep(s.world, w, id);
    SavedRecovers(s.world, w, id);
  }

  /** Restoring what is stored under an id: if its players can be seated, they are, with the version
      stored, at the table the snapshot names, or the one asked for if it names none; otherwise nothing
      changes. No other table is touched. */
  lemma RestoredExactly(b: Bank, saved: Saved, id: string)
    requires MapValid(b.tables) && id in saved
    ensures var r, c := saved[id], Restored(b, saved, id);
            var name := if TrimSpace(r.tableId) == "" then id else r.tableId;
            && c.ledger == b.ledger && (forall other | other != name :: At(c, other) == At(b, other))
            && (if Acceptable(r.players) && (r.tableId == "" || r.tableId == name)
                then && At(c, name).version == r.version && At(c, name).id == name
                     && multiset(SnapshotOf(At(c, name)).players) == multiset(r.players)
                else At(c, name) == At(b, name))
  {
    var r := saved[id];
    var name := if TrimSpace(r.tableId) == "" then id else r.tableId;
    TableAtValid(b.tables, name);
    RestoreCharacterised(At(b, name), Load(saved, id).value.0, r.version);
  }

  // A stored snapshot carries the id it is stored under.
  lemma RestoredIsRecovered(a: World, b: World, id: string, empty: Bank)
    requires a.saved == map[] && At(a.bank, id) == NewTable(id) && At(empty, id) == NewTable(id)
    requires MapValid(b.bank.tables) && Named(b) && SavedStep(a, b, id)
    ensures At(Restored(empty, b.saved, id), id) == At(b.bank, id)
    ensures forall other | other != id :: At(Restored(empty, b.saved, id), other) == At(empty, other)
  {
    TableAtValid(b.bank.tables, id);
    SavedRecovers(a, b, id);
    if id in b.saved {
      assert b.saved[id].tableId == id;
    }
  }

  /** A server restarted over the snapshots of any run has the default table as it was, with its
      players in their seats; but none of them is connected, so that an occupied seat there is
      covered by no connection's mark. */
  lemma {:induction false} RestartRecovers(cfg: Config, events: seq<Event>, w: World, t: System)
    requires cfg.snapshotsOn && w == Run(Boot(cfg), events).world && t == Restart(cfg, w.saved)
    requires forall e | e in events :: e.ConnectEvent? ==> e.player != ""
    ensures At(t.world.bank, cfg.defaultTable) == At(w.bank, cfg.defaultTable)
    ensures SeatsInOrder(t) <==> At(w.bank, cfg.defaultTable).playerSeat == map[]
  {
    var s, id := Boot(cfg), cfg.defaultTable;
    RunForward(s, events);
    assert Named(s.world);
    assert SavedStep(s.world, w, id);
    RestoredIsRecovered(s.world, w, id, s.world.bank);
    NobodyLive(t, id);
  }

  /** With snapshots disabled a restart is a fresh start, whatever is stored. */
  lemma RestartForgets(cfg: Config, stored: Saved)
    ensures !cfg.snapshotsOn ==> Restart(cfg, stored) == Boot(cfg)
    ensures cfg.snapshotsOn ==> Restart(cfg, stored).world.saved == stored
  {
    var s := Boot(cfg);
    assert s == s.(world := s.world.(saved := map[], bank := s.world.bank));
  }

  lemma NobodyLive(t: System, id: string)
    requires t.live == {} && forall other | other != id :: At(t.world.bank, other).playerSeat == map[]
    ensures SeatsInOrder(t) <==> At(t.world.bank, id).playerSeat == map[]
  {
    var seats := At(t.world.bank, id).playerSeat;
    if seats != map[] {
      var p :| p in seats;
      assert Seated(At(t.world.bank, id), p) && !HasLive(t, p);
    }
  }
}
