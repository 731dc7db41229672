/** Saving a snapshot is a step of its own, which any number of other steps may precede once the lock
    of the table is released. What is stored when everything has been saved, and when it is current. */
module SaveOrders {
  import opened Basics
  import opened Seating
  import opened Ledgers
  import opened TableManager
  import opened Banks
  import opened SnapshotStore
  import opened Worlds
  import opened Interleaving
  import opened Schedules
  import opened Watching
  import opened Recovery
  import opened StaleCloses

  // The tables whose snapshots are still to be saved, by ticket, and those saved, in order.
  datatype Desk = Desk(shop: Shop, due: map<nat, TableState>, writes: seq<TableState>)

  // A step of the interleaved handlers, with a ticket for what it may have to save, or a save.
  datatype Deed = Work(action: Action, ticket: nat) | Write(ticket: nat)

  // The table whose snapshot a job takes with this step, to announce and save it later.
  function Announced(b: Bank, me: Client, task: Task): Option<string> {
    match task
    case JoinLeave(_, _, from, _, _, _) => if Rise(b, from, me.player).1.None? then Some(from) else None
    case JoinSit(id, seat, stack) => if Sit(b, id, me.player, me.nickname, stack, seat).1.None? then Some(id) else None
    case ExitLeave(id, _, _, _) => if Rise(b, id, me.player).1.None? then Some(id) else None
    case _ => None
  }

  function AnnouncedBy(s: Shop, a: Action): Option<string> {
    if a.Resume? && a.job in s.jobs && s.jobs[a.job].client in s.clients
    then Announced(s.bank, s.clients[s.jobs[a.job].client], s.jobs[a.job].task)
    else None
  }

  ghost function Do(d: Desk, deed: Deed): Desk {
    match deed
    case Work(a, k) =>
      var s := Act(d.shop, a);
      Desk(s, if AnnouncedBy(d.shop, a).Some? then d.due[k := At(s.bank, AnnouncedBy(d.shop, a).value)] else d.due,
           d.writes)
    case Write(k) => if k in d.due then Desk(d.shop, d.due - {k}, d.writes + [d.due[k]]) else d
  }

  ghost function DoAll(d: Desk, deeds: seq<Deed>): Desk {
    if deeds == [] then d else Do(DoAll(d, deeds[..|deeds| - 1]), deeds[|deeds| - 1])
  }

  // Tickets are fresh, and no player is nameless.
  predicate Proper(d: Desk, deed: Deed) {
    match deed
    case Work(a, k) => k !in d.due && (a.Arrive? ==> a.player != "")
    case Write(_) => true
  }

  ghost predicate ProperAt(d: Desk, deeds: seq<Deed>, n: nat)
    requires n < |deeds|
  {
    Proper(DoAll(d, deeds[..n]), deeds[n])
  }

  ghost predicate ProperRun(d: Desk, deeds: seq<Deed>) {
    forall n | 0 <= n < |deeds| :: ProperAt(d, deeds, n)
  }

  // The store after these saves; no version is compared.
  function Stored(writes: seq<TableState>): Saved {
    if writes == [] then map[]
    else
      var t := writes[|writes| - 1];
      Save(Stored(writes[..|writes| - 1]), SnapshotOf(t), t.version)
  }

  function OpeningDesk(cfg: Config): Desk {
    Desk(Opening(cfg), map[], [])
  }

  // ---------- Tables move one version at a time, and announce it ----------

  ghost predicate TablesNamed(b: Bank) {
    MapValid(b.tables) && forall id :: NamedPlayers(At(b, id))
  }

  // The table is as it was, or one version on and announced.
  ghost predicate TableStep(a: Bank, b: Bank, announced: Option<string>, id: string) {
    || At(b, id) == At(a, id)
    || (announced == Some(id) && At(b, id).version == At(a, id).version + 1)
  }

  ghost predicate TablesStep(a: Bank, b: Bank, announced: Option<string>) {
    TablesNamed(b) && forall id :: TableStep(a, b, announced, id)
  }

  lemma SameTables(a: Bank, b: Bank)
    requires TablesNamed(a) && (b.tables == a.tables || exists id :: b.tables == Touch(a.tables, id))
    ensures TablesStep(a, b, None)
  {
    forall id
      ensures At(b, id) == At(a, id)
    {
      if b.tables != a.tables {
        var k :| b.tables == Touch(a.tables, k);
      }
    }
    forall id | id in b.tables
      ensures Seating.Valid(b.tables[id]) && b.tables[id].id == id
    {
      TableAtValid(a.tables, id);
      assert At(b, id) == At(a, id);
    }
  }

  lemma OneTable(a: Bank, b: Bank, id: string, t: TableState, error: Option<TableError>)
    requires TablesNamed(a) && b.tables == a.tables[id := t] && Seating.Valid(t) && t.id == id && NamedPlayers(t)
    requires t == At(a, id) || (error.None? && t.version == At(a, id).version + 1)
    ensures TablesStep(a, b, if error.None? then Some(id) else None)
  {
    assert forall other :: At(b, other) == if other == id then t else At(a, other);
  }

  lemma RiseTables(b: Bank, id: string, p: string)
    requires TablesNamed(b)
    ensures TablesStep(b, Rise(b, id, p).0, if Rise(b, id, p).1.None? then Some(id) else None)
  {
    TableAtValid(b.tables, id);
    LeaveEffect(At(b, id), p);
    var m := Leave(At(b, id), p);
    assert NamedPlayers(m.table) by {
      assert forall q | q in m.table.playerSeat :: q in At(b, id).playerSeat;
    }
    OneTable(b, Rise(b, id, p).0, id, m.table, m.error);
  }

  lemma SitTables(b: Bank, id: string, p: string, nickname: string, stack: int, seat: Option<int>)
    requires TablesNamed(b) && p != ""
    ensures var (c, e) := Sit(b, id, p, nickname, stack, seat);
            TablesStep(b, c, if e.None? then Some(id) else None)
  {
    TableAtValid(b.tables, id);
    JoinEffect(At(b, id), p, nickname, stack, seat);
    var m := Join(At(b, id), p, nickname, stack, seat);
    OneTable(b, Sit(b, id, p, nickname, stack, seat).0, id, m.table, m.error);
  }

  // Every other step at most looks at a table.
  lemma QuietTables(cfg: Config, b: Bank, me: Client, task: Task)
    requires TablesNamed(b) && !task.JoinLeave? && !task.JoinSit? && !task.ExitLeave?
    ensures TablesStep(b, MoveOf(cfg, b, me, task).bank, None)
  {
    var c := MoveOf(cfg, b, me, task).bank;
    assert c.tables == b.tables
           || (task.JoinCheck? && c.tables == Touch(b.tables, task.id))
           || (task.JoinRead? && c.tables == Touch(b.tables, task.from))
           || (task.ExitRead? && c.tables == Touch(b.tables, task.id));
    SameTables(b, c);
  }

  lemma MoveTables(cfg: Config, b: Bank, me: Client, task: Task)
    requires TablesNamed(b) && me.player != ""
    ensures TablesStep(b, MoveOf(cfg, b, me, task).bank, Announced(b, me, task))
  {
    match task
    case JoinLeave(_, _, from, _, _, _) => RiseTables(b, from, me.player);
    case JoinSit(id, seat, stack) => SitTables(b, id, me.player, me.nickname, stack, seat);
    case ExitLeave(id, _, _, _) => RiseTables(b, id, me.player);
    case _ => QuietTables(cfg, b, me, task);
  }

  ghost predicate ShopNamed(s: Shop) {
    TablesNamed(s.bank) && forall c | c in s.clients :: s.clients[c].player != ""
  }

  lemma ActTables(s: Shop, a: Action)
    requires ShopNamed(s) && (a.Arrive? ==> a.player != "")
    ensures ShopNamed(Act(s, a)) && TablesStep(s.bank, Act(s, a).bank, AnnouncedBy(s, a))
  {
    SameTables(s.bank, s.bank);
    match a
    case Resume(j) =>
      if j in s.jobs && s.jobs[j].client in s.clients {
        MoveTables(s.cfg, s.bank, s.clients[s.jobs[j].client], s.jobs[j].task);
        assert NextMove(s, j).me.player == s.clients[s.jobs[j].client].player;
      }
    case Start(_, _, _) =>
    case Arrive(_, _, _) => SameTables(s.bank, Act(s, a).bank);
    case Endow(_, _) => SameTables(s.bank, Act(s, a).bank);
    case Order(_, _, _) => SameTables(s.bank, Act(s, a).bank);
  }

  // ---------- What is due and what was written ----------

  // A snapshot taken of the table is older than the table, or the table.
  ghost predicate Taken(b: Bank, t: TableState) {
    && Seating.Valid(t) && NamedPlayers(t)
    && (t.version < At(b, t.id).version || t == At(b, t.id))
  }

  // The present table is new, or its snapshot is due or written.
  ghost predicate Noted(d: Desk, id: string) {
    At(d.shop.bank, id) == NewTable(id) || At(d.shop.bank, id) in d.due.Values || At(d.shop.bank, id) in d.writes
  }

  ghost predicate DeskInOrder(d: Desk) {
    && ShopNamed(d.shop)
    && (forall k | k in d.due :: Taken(d.shop.bank, d.due[k]))
    && (forall t | t in d.writes :: Taken(d.shop.bank, t))
    && (forall id :: Noted(d, id))
  }

  lemma TakenStays(a: Bank, b: Bank, announced: Option<string>, t: TableState)
    requires Taken(a, t) && TablesStep(a, b, announced)
    ensures Taken(b, t)
  {
    assert TableStep(a, b, announced, t.id);
  }

  lemma WorkKeeps(d: Desk, a: Action, k: nat)
    requires DeskInOrder(d) && Proper(d, Work(a, k))
    ensures DeskInOrder(Do(d, Work(a, k)))
  {
    var e, announced := Do(d, Work(a, k)), AnnouncedBy(d.shop, a);
    ActTables(d.shop, a);
    if announced.Some? {
      TableAtValid(e.shop.bank.tables, announced.value);
      assert NamedPlayers(At(e.shop.bank, announced.value));
    }
    forall i | i in e.due
      ensures Taken(e.shop.bank, e.due[i])
    {
      if i in d.due && i != k {
        TakenStays(d.shop.bank, e.shop.bank, announced, d.due[i]);
      }
    }
    forall t | t in e.writes
      ensures Taken(e.shop.bank, t)
    {
      TakenStays(d.shop.bank, e.shop.bank, announced, t);
    }
    forall id
      ensures Noted(e, id)
    {
      NotedStays(d, a, k, id);
    }
  }

  lemma NotedStays(d: Desk, a: Action, k: nat, id: string)
    requires DeskInOrder(d) && Proper(d, Work(a, k))
    requires TablesStep(d.shop.bank, Act(d.shop, a).bank, AnnouncedBy(d.shop, a))
    ensures Noted(Do(d, Work(a, k)), id)
  {
    var e := Do(d, Work(a, k));
    assert TableStep(d.shop.bank, e.shop.bank, AnnouncedBy(d.shop, a), id) && Noted(d, id);
    if AnnouncedBy(d.shop, a) == Some(id) {
      assert k in e.due && e.due[k] == At(e.shop.bank, id);
    } else if At(d.shop.bank, id) in d.due.Values {
      var i :| i in d.due && d.due[i] == At(d.shop.bank, id);
      assert i in e.due && e.due[i] == d.due[i];
    }
  }

  lemma WriteKeeps(d: Desk, k: nat)
    requires DeskInOrder(d) && k in d.due
    ensures DeskInOrder(Do(d, Write(k)))
  {
    var e := Do(d, Write(k));
    forall id
      ensures Noted(e, id)
    {
      assert Noted(d, id);
      if At(d.shop.bank, id) in d.due.Values {
        var i :| i in d.due && d.due[i] == At(d.shop.bank, id);
        if i == k {
          assert e.writes[|d.writes|] == d.due[k];
        } else {
          assert i in e.due && e.due[i] == d.due[i];
        }
      }
    }
  }

  lemma OpeningInOrder(cfg: Config)
    ensures DeskInOrder(OpeningDesk(cfg))
  {
  }

  lemma {:induction false} ProperPrefix(d: Desk, deeds: seq<Deed>)
    requires ProperRun(d, deeds) && deeds != []
    ensures ProperRun(d, deeds[..|deeds| - 1])
    ensures Proper(DoAll(d, deeds[..|deeds| - 1]), deeds[|deeds| - 1])
  {
    var n := |deeds| - 1;
    assert ProperAt(d, deeds, n);
    forall k | 0 <= k < n
      ensures ProperAt(d, deeds[..n], k)
    {
      assert ProperAt(d, deeds, k) && deeds[..n][..k] == deeds[..k];
    }
  }

  lemma {:induction false} RunInOrder(d: Desk, deeds: seq<Deed>)
    requires DeskInOrder(d) && ProperRun(d, deeds)
    ensures DeskInOrder(DoAll(d, deeds))
  {
    if deeds != [] {
      var before, deed := deeds[..|deeds| - 1], deeds[|deeds| - 1];
      ProperPrefix(d, deeds);
      RunInOrder(d, before);
      match deed
      case Work(a, k) => WorkKeeps(DoAll(d, before), a, k);
      case Write(k) =>
        if k in DoAll(d, before).due {
          WriteKeeps(DoAll(d, before), k);
        }
    }
  }

  // ---------- When the store is current ----------

  function LastOf(writes: seq<TableState>, id: string): Option<TableState> {
    if writes == [] then None
    else if writes[|writes| - 1].id == id then Some(writes[|writes| - 1])
    else LastOf(writes[..|writes| - 1], id)
  }

  // The last save of the table carried the highest version of all saves of it.
  ghost predicate LastIsNewest(writes: seq<TableState>, id: string) {
    LastOf(writes, id).Some? ==> forall t | t in writes && t.id == id :: t.version <= LastOf(writes, id).value.version
  }

  lemma {:induction false} StoredIsLast(writes: seq<TableState>, id: string)
    ensures LastOf(writes, id).Some? ==> LastOf(writes, id).value in writes && LastOf(writes, id).value.id == id
    ensures LastOf(writes, id).None? ==> forall t | t in writes :: t.id != id
    ensures id in Stored(writes) <==> LastOf(writes, id).Some?
    ensures id in Stored(writes) ==> Stored(writes)[id] == PersistedOf(LastOf(writes, id).value)
  {
    if writes != [] {
      var n := |writes| - 1;
      StoredIsLast(writes[..n], id);
      assert writes == writes[..n] + [writes[n]];
    }
  }

  // Loading and restoring gives the table saved last.
  lemma {:induction false} RecoversLast(writes: seq<TableState>, id: string)
    requires forall t | t in writes :: Seating.Valid(t) && NamedPlayers(t)
    ensures Recover(Stored(writes), id)
            == if LastOf(writes, id).Some? then LastOf(writes, id).value else NewTable(id)
  {
    StoredIsLast(writes, id);
    if LastOf(writes, id).Some? {
      RecoverCurrent(Stored(writes), LastOf(writes, id).value);
    }
  }

  /** Over any schedule of handler steps and saves from a fresh server, when nothing is left to be
      saved: loading and restoring gives back a table as it is if and only if the last save of it
      carried the highest version of all its saves. */
  lemma {:induction false} RecoversExactly(cfg: Config, deeds: seq<Deed>, d: Desk, id: string)
    requires ProperRun(OpeningDesk(cfg), deeds) && d == DoAll(OpeningDesk(cfg), deeds) && d.due == map[]
    ensures Recover(Stored(d.writes), id) == At(d.shop.bank, id) <==> LastIsNewest(d.writes, id)
  {
    OpeningInOrder(cfg);
    RunInOrder(OpeningDesk(cfg), deeds);
    RecoversLast(d.writes, id);
    StoredIsLast(d.writes, id);
    NewestIsPresent(d, id);
  }

  lemma {:induction false} NewestIsPresent(d: Desk, id: string)
    requires DeskInOrder(d) && d.due == map[]
    ensures LastOf(d.writes, id).None? ==> At(d.shop.bank, id) == NewTable(id)
    ensures LastOf(d.writes, id).Some? ==>
              (LastIsNewest(d.writes, id) <==> LastOf(d.writes, id).value == At(d.shop.bank, id))
  {
    var now := At(d.shop.bank, id);
    TableAtValid(d.shop.bank.tables, id);
    StoredIsLast(d.writes, id);
    assert Noted(d, id);
    assert now in d.writes || now == NewTable(id);
    forall t | t in d.writes && t.id == id
      ensures t.version < now.version || t == now
    {
      assert Taken(d.shop.bank, t);
    }
  }

  /** At any moment at all, even with saves outstanding, what a crash would bring back is the new table
      or one that was there: never a newer version, and the present one only as it is. */
  lemma {:induction false} RecoversTaken(cfg: Config, deeds: seq<Deed>, d: Desk, id: string)
    requires ProperRun(OpeningDesk(cfg), deeds) && d == DoAll(OpeningDesk(cfg), deeds)
    ensures Recover(Stored(d.writes), id) == NewTable(id) || Taken(d.shop.bank, Recover(Stored(d.writes), id))
  {
    OpeningInOrder(cfg);
    RunInOrder(OpeningDesk(cfg), deeds);
    RecoversLast(d.writes, id);
    StoredIsLast(d.writes, id);
  }

  // ---------- Saved in the wrong order ----------

  ghost predicate Runs(cfg: Config, deeds: seq<Deed>, d: Desk) {
    d == DoAll(OpeningDesk(cfg), deeds) && ProperRun(OpeningDesk(cfg), deeds)
  }

  lemma {:induction false} RunsOn(cfg: Config, deeds: seq<Deed>, d: Desk, deed: Deed)
    requires Runs(cfg, deeds, d) && Proper(d, deed)
    ensures Runs(cfg, deeds + [deed], Do(d, deed))
  {
    var longer, n := deeds + [deed], |deeds|;
    assert longer[..n] == deeds;
    forall k | 0 <= k < |longer|
      ensures ProperAt(OpeningDesk(cfg), longer, k)
    {
      if k < n {
        assert ProperAt(OpeningDesk(cfg), deeds, k) && longer[..k] == deeds[..k];
      }
    }
  }

  // The handlers run the actions, and nothing is saved yet.
  ghost predicate Unsaved(cfg: Config, actions: seq<Action>, d: Desk) {
    d.shop == Play(Opening(cfg), actions) && d.writes == [] && forall k | k in d.due :: k < |actions|
  }

  // What was due is due still.
  ghost predicate StillDue(a: Desk, b: Desk) {
    forall k | k in a.due :: k in b.due && b.due[k] == a.due[k]
  }

  // One more action, with its number for a ticket.
  lemma {:induction false} LiftOne(cfg: Config, actions: seq<Action>, deeds: seq<Deed>, d: Desk)
    requires actions != [] && Runs(cfg, deeds, d) && Unsaved(cfg, actions[..|actions| - 1], d)
    requires actions[|actions| - 1].Arrive? ==> actions[|actions| - 1].player != ""
    ensures var deed := Work(actions[|actions| - 1], |actions| - 1);
            Runs(cfg, deeds + [deed], Do(d, deed)) && Unsaved(cfg, actions, Do(d, deed)) && StillDue(d, Do(d, deed))
  {
    RunsOn(cfg, deeds, d, Work(actions[|actions| - 1], |actions| - 1));
  }

  lemma {:induction false} Lift(cfg: Config, actions: seq<Action>) returns (deeds: seq<Deed>, d: Desk)
    requires forall a | a in actions && a.Arrive? :: a.player != ""
    ensures Runs(cfg, deeds, d) && Unsaved(cfg, actions, d)
  {
    if actions == [] {
      deeds, d := [], OpeningDesk(cfg);
    } else {
      var n := |actions| - 1;
      deeds, d := Lift(cfg, actions[..n]);
      LiftOne(cfg, actions, deeds, d);
      deeds, d := deeds + [Work(actions[n], n)], Do(d, Work(actions[n], n));
    }
  }

  // More actions later.
  lemma {:induction false} LiftOn(cfg: Config, before: seq<Action>, actions: seq<Action>, deeds: seq<Deed>, d: Desk)
    returns (longer: seq<Deed>, e: Desk)
    requires before <= actions && Runs(cfg, deeds, d) && Unsaved(cfg, before, d)
    requires forall a | a in actions && a.Arrive? :: a.player != ""
    ensures Runs(cfg, longer, e) && Unsaved(cfg, actions, e) && StillDue(d, e)
    decreases |actions|
  {
    if |actions| == |before| {
      assert actions == before;
      longer, e := deeds, d;
    } else {
      var n := |actions| - 1;
      assert before <= actions[..n];
      var next: Desk;
      longer, next := LiftOn(cfg, before, actions[..n], deeds, d);
      LiftOne(cfg, actions, longer, next);
      longer, e := longer + [Work(actions[n], n)], Do(next, Work(actions[n], n));
    }
  }

  // Everything else that is due is saved, and ticket i last.
  lemma {:induction false} SaveLast(cfg: Config, deeds: seq<Deed>, d: Desk, i: nat)
    returns (longer: seq<Deed>, e: Desk)
    requires Runs(cfg, deeds, d) && i in d.due
    ensures Runs(cfg, longer, e) && e.shop == d.shop && e.due == map[]
    ensures e.writes != [] && e.writes[|e.writes| - 1] == d.due[i]
    decreases |d.due.Keys|
  {
    var others := d.due.Keys - {i};
    if others == {} {
      RunsOn(cfg, deeds, d, Write(i));
      assert (d.due - {i}).Keys == others;
      longer, e := deeds + [Write(i)], Do(d, Write(i));
    } else {
      var k :| k in others;
      RunsOn(cfg, deeds, d, Write(k));
      assert (d.due - {k}).Keys == d.due.Keys - {k};
      longer, e := SaveLast(cfg, deeds + [Write(k)], Do(d, Write(k)), i);
    }
  }

  /** It can fail: a close that overtakes the saving of a join leaves the player seated in the store.
      For every player, amount and default table, a schedule from a fresh server, its handler steps
      lawful, after which everything is saved and nobody sits at the table, but loading and restoring
      it would seat the player. */
  lemma LateSaveOutlives(cfg: Config, p: string, nickname: string, amount: int, initial: int)
    returns (actions: seq<Action>, deeds: seq<Deed>, d: Desk)
    requires p != "" && ColonFree(p) && TrimSpace(cfg.defaultTable) != "" && 0 < amount <= initial <= MAX_INT64
    ensures LawfulRun(Opening(cfg), actions) && d.shop == Play(Opening(cfg), actions)
    ensures ProperRun(OpeningDesk(cfg), deeds) && d == DoAll(OpeningDesk(cfg), deeds) && d.due == map[]
    ensures At(d.shop.bank, cfg.defaultTable).playerSeat == map[]
    ensures Seated(Recover(Stored(d.writes), cfg.defaultTable), p)
  {
    var before, sat, all, left := ClosedOnce(cfg, p, nickname, amount, initial);
    actions := all;
    var id := cfg.defaultTable;
    var marked := Client(p, nickname, id, true);
    Claims(cfg, before, Shop(cfg, sat, map[1 := marked], {1}, map[], {}), p, initial);
    Claims(cfg, actions, Shop(cfg, left, map[1 := marked], {}, map[], {}), p, initial);
    deeds, d := Lift(cfg, before);
    var i := TicketOf(cfg, deeds, d, id, p);
    deeds, d := LiftOn(cfg, before, actions, deeds, d);
    var t := d.due[i];
    deeds, d := SaveLast(cfg, deeds, d, i);
    OpeningInOrder(cfg);
    RunInOrder(OpeningDesk(cfg), deeds);
    RecoversLast(d.writes, id);
    assert LastOf(d.writes, id) == Some(t);
  }

  lemma TicketOf(cfg: Config, deeds: seq<Deed>, d: Desk, id: string, p: string) returns (i: nat)
    requires Runs(cfg, deeds, d) && d.writes == [] && Seated(At(d.shop.bank, id), p)
    ensures i in d.due && d.due[i] == At(d.shop.bank, id) && d.due[i].id == id
  {
    OpeningInOrder(cfg);
    RunInOrder(OpeningDesk(cfg), deeds);
    TableAtValid(d.shop.bank.tables, id);
    assert Noted(d, id);
    i :| i in d.due && d.due[i] == At(d.shop.bank, id);
  }
}
