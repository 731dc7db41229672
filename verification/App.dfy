/** The mutable application of ws_handlers.go and state_helpers.go: tables, store, connections and
    hub, changed step by step. Every method is tied to the handler it performs on the world value. */
module Apps {
  import opened Basics
  import opened Seating
  import opened Ledgers
  import opened TableManager
  import opened Banks
  import opened SnapshotStore
  import opened Worlds
  import EventStores
  import opened Caches

  // One connection: who it belongs to, and where that player currently is.
  class WsClient {
    const player: string
    const nickname: string
    var tableId: string
    var seated: bool

    constructor (player: string, nickname: string, initialTableId: string)
      ensures State() == Client(player, nickname, initialTableId, false)
    {
      this.player, this.nickname, tableId, seated := player, nickname, initialTableId, false;
    }

    function State(): Client
      reads this
    {
      Client(player, nickname, tableId, seated)
    }

    method SetTableState(id: string, isSeated: bool)
      modifies this
      ensures State() == old(State()).(tableId := id, seated := isSeated)
    {
      tableId, seated := id, isSeated;
    }
  }

  lemma SetAlready(w: World, c: ClientId, id: string, seated: bool)
    requires c in w.clients && w.clients[c].tableId == id && w.clients[c].seated == seated
    ensures SetState(w, c, id, seated) == w
  {
    assert w.clients[c := w.clients[c]] == w.clients;
  }

  // Searching the snapshot finds exactly those who sit at the table.
  lemma FoundIfSeated(t: TableState, p: string)
    requires Seating.Valid(t)
    ensures Seated(t, p) <==> exists k :: 0 <= k < |SnapshotOf(t).players| && SnapshotOf(t).players[k].playerId == p
  {
    SnapshotMembers(t);
    var players := SnapshotOf(t).players;
    assert forall k | 0 <= k < |players| :: players[k] in players;
    if Seated(t, p) {
      assert t.seats[t.playerSeat[p]].value in players;
    }
  }

  // The next of a list without repetitions is new.
  lemma OnceEach(found: seq<ClientId>, i: nat, all: set<ClientId>, seen: set<ClientId>)
    requires multiset(found) == multiset(all) && i < |found| && multiset(seen) == multiset(found[..i])
    ensures found[i] !in seen && multiset(seen + {found[i]}) == multiset(found[..i + 1])
  {
    var c := found[i];
    assert found == found[..i] + [c] + found[i + 1..];
    assert multiset(found)[c] == multiset(found[..i])[c] + 1 + multiset(found[i + 1..])[c];
    assert multiset(all)[c] <= 1;
    assert found[..i + 1] == found[..i] + [c];
    assert c !in multiset(seen);
  }

  lemma SameSet(a: set<ClientId>, b: set<ClientId>)
    requires multiset(a) == multiset(b)
    ensures a == b
  {
    forall c
      ensures c in a <==> c in b
    {
      assert c in a <==> c in multiset(a);
      assert c in b <==> c in multiset(b);
    }
  }

  // What is left of a join once the seat has been checked.
  function PayAndEnter(w: World, c: ClientId, id: string, seat: Option<int>, wx: Weather): Outcome
    requires c in w.clients
  {
    var (paid, receipt) := Consume(w.bank, w.clients[c].player, id);
    if receipt.Err? then Reply(w.(bank := paid), c, BuyInNotice(receipt.error), wx.second)
    else Worlds.EnterTable(w.(bank := paid), c, id, seat, receipt.value.amount, wx)
  }

  // What is left of a join once the client is known to sit elsewhere or nowhere.
  function CheckAndEnter(w: World, c: ClientId, id: string, seat: Option<int>, wx: Weather): Outcome
    requires c in w.clients
  {
    var (checked, invalid) := Prevalidate(w.bank, id, seat);
    if invalid.Some? then Reply(w.(bank := checked), c, TableNotice(invalid.value), wx.second)
    else PayAndEnter(w.(bank := checked), c, id, seat, wx)
  }

  datatype Part = Stores | Clients | Fields | Separation

  class App {
    const cfg: Config
    const tables: Manager
    const store: EventStores.EventStore
    var clients: map<ClientId, WsClient>
    var hub: set<ClientId>
    var saved: Saved
    var events: seq<TableEvent>
    ghost var Value: World
    ghost var Conns: set<object>

    ghost predicate ClientsHold()
      reads this, Conns
    {
      && Value.clients.Keys == clients.Keys
      && (forall c | c in clients :: clients[c] in Conns && clients[c].State() == Value.clients[c])
      && (forall c, d | c in clients && d in clients && c != d :: clients[c] != clients[d])
    }

    ghost predicate FieldsHold()
      reads this
    {
      hub <= clients.Keys && Value.cfg == cfg && Value.hub == hub && Value.saved == saved && Value.events == events
    }

    // The tables do not overlap with anything else.
    ghost predicate Apart()
      reads this, tables
    {
      this !in tables.Repr && store !in tables.Repr && Conns !! tables.Repr
    }

    ghost predicate StoresHold()
      reads this, store, tables, tables.Repr
    {
      tables.Valid() && Value.bank == Bank(store.State(), tables.View)
    }

    ghost predicate Holds(part: Part)
      reads this, store, tables, tables.Repr, Conns
    {
      match part
      case Stores => StoresHold()
      case Clients => ClientsHold()
      case Fields => FieldsHold()
      case Separation => Apart()
    }

    // The invariant is kept by parts, so that a handler need not look inside it.
    ghost predicate Valid()
      reads this, store, tables, tables.Repr, Conns
    {
      forall part :: Holds(part)
    }

    lemma Open()
      requires Valid()
      ensures StoresHold() && ClientsHold() && FieldsHold() && Apart()
    {
      assert Holds(Stores) && Holds(Clients) && Holds(Fields) && Holds(Separation);
    }

    lemma Seal()
      requires StoresHold() && ClientsHold() && FieldsHold() && Apart()
      ensures Valid()
    {
    }

    ghost function Footprint(): set<object>
      reads this, tables
    {
      {this, store} + tables.Repr + Conns
    }

    // The snapshot store of an earlier process is there again, unless snapshots are disabled.
    constructor (config: Config, stored: Saved)
      ensures Valid() && fresh(Footprint())
      ensures Value == Restart(config, stored).world
    {
      cfg := config;
      tables := new Manager(config.defaultTable);
      store := new EventStores.EventStore();
      clients, hub, saved, events := map[], {}, if config.snapshotsOn then stored else map[], [];
      Value := Boot(config).world.(saved := if config.snapshotsOn then stored else map[]);
      Conns := {};
      new;
      Seal();
      RestoreSnapshot(config.defaultTable);
    }

    // After the tables were changed in place, the value is brought up to date.
    ghost method TablesChanged()
      requires Apart() && ClientsHold() && FieldsHold() && tables.Valid() && Value.bank.ledger == store.State()
      modifies this`Value
      ensures Valid() && Value == old(Value).(bank := Bank(store.State(), tables.View))
    {
      Value := Value.(bank := Bank(store.State(), tables.View));
      Seal();
    }

    // ---------- The stores ----------

    method LookAtTable(id: string) returns (snapshot: Snapshot, stamp: nat)
      requires Valid()
      modifies Footprint()
      ensures Valid() && Conns == old(Conns) && fresh(tables.Repr - old(tables.Repr))
      ensures Value == old(Value).(bank := Look(old(Value).bank, id))
      ensures snapshot == SnapshotOf(At(old(Value).bank, id)) && stamp == At(old(Value).bank, id).version
      ensures Seating.Valid(At(old(Value).bank, id)) && At(old(Value).bank, id).id == id
    {
      Open();
      tables.ViewValid();
      snapshot, stamp := tables.Snapshot(id);
      TablesChanged();
    }

    method LeaveTable(id: string, p: string) returns (snapshot: Option<Snapshot>, stamp: nat, error: Option<TableError>)
      requires Valid()
      modifies Footprint()
      ensures Valid() && Conns == old(Conns) && fresh(tables.Repr - old(tables.Repr))
      ensures var (b, e) := Rise(old(Value).bank, id, p);
              Value == old(Value).(bank := b) && error == e && stamp == At(b, id).version
              && snapshot == if e.None? then Some(SnapshotOf(At(b, id))) else None
    {
      Open();
      snapshot, stamp, error := tables.Leave(id, p);
      TablesChanged();
    }

    method JoinTable(id: string, p: string, nickname: string, stack: int, seat: Option<int>)
      returns (snapshot: Option<Snapshot>, stamp: nat, error: Option<TableError>)
      requires Valid()
      modifies Footprint()
      ensures Valid() && Conns == old(Conns) && fresh(tables.Repr - old(tables.Repr))
      ensures var (b, e) := Sit(old(Value).bank, id, p, nickname, stack, seat);
              Value == old(Value).(bank := b) && error == e && stamp == At(b, id).version
              && snapshot == if e.None? then Some(SnapshotOf(At(b, id))) else None
    {
      Open();
      snapshot, stamp, error := tables.Join(id, p, nickname, stack, seat);
      TablesChanged();
    }

    // refundStackToWallet
    method RefundStack(p: string, amount: int)
      requires Valid()
      modifies this`Value, store
      ensures Valid() && Value == old(Value).(bank := Refund(old(Value).bank, p, amount))
    {
      Open();
      if amount <= 0 {
        return;
      }
      var _ := store.CreditWallet(p, amount);
      Value := Value.(bank := Credit(Value.bank, p, amount));
    }

    method ConsumeBuyIn(p: string, id: string) returns (amount: Result<int, StoreError>)
      requires Valid()
      modifies this`Value, store
      ensures Valid()
      ensures var (b, r) := Consume(old(Value).bank, p, id);
              && Value == old(Value).(bank := b)
              && amount == (match r case Ok(receipt) => Ok(receipt.amount) case Err(e) => Err(e))
    {
      Open();
      var receipt := store.ConsumePendingBuyIn(p, id);
      Value := Value.(bank := Consume(Value.bank, p, id).0);
      match receipt
      case Ok(taken) => return Ok(taken.amount);
      case Err(e) => return Err(e);
    }

    // currentPlayerStack: searches the seated players.
    method CurrentStack(id: string, p: string) returns (stack: int, found: bool)
      requires Valid()
      modifies Footprint()
      ensures Valid() && Conns == old(Conns) && fresh(tables.Repr - old(tables.Repr))
      ensures Value == old(Value).(bank := Look(old(Value).bank, id))
      ensures found == Seated(At(old(Value).bank, id), p) && stack == StackAt(At(old(Value).bank, id), p)
    {
      ghost var t := At(Value.bank, id);
      var snapshot, _ := LookAtTable(id);
      SnapshotMembers(t);
      for i := 0 to |snapshot.players|
        invariant forall k | 0 <= k < i :: snapshot.players[k].playerId != p
      {
        if snapshot.players[i].playerId == p {
          assert snapshot.players[i] in snapshot.players;
          return snapshot.players[i].stack, true;
        }
      }
      FoundIfSeated(t, p);
      return 0, false;
    }

    // prevalidateJoinSeat: searches for an occupant of the seat asked for.
    method PrevalidateSeat(id: string, seat: Option<int>) returns (error: Option<TableError>)
      requires Valid()
      modifies Footprint()
      ensures Valid() && Conns == old(Conns) && fresh(tables.Repr - old(tables.Repr))
      ensures var (b, e) := Prevalidate(old(Value).bank, id, seat);
              Value == old(Value).(bank := b) && error == e
    {
      if seat.None? {
        return None;
      }
      if seat.value < 0 || seat.value >= MAX_PLAYERS {
        return Some(SeatInvalid);
      }
      var snapshot, _ := LookAtTable(id);
      for i := 0 to |snapshot.players|
        invariant forall k | 0 <= k < i :: snapshot.players[k].seatIndex != seat.value
      {
        if snapshot.players[i].seatIndex == seat.value {
          assert snapshot.players[i] in snapshot.players;
          return Some(SeatTaken);
        }
      }
      return None;
    }

    // ---------- Clients and the hub ----------

    method SetTableState(c: ClientId, id: string, seated: bool)
      requires Valid() && c in Value.clients
      modifies this`Value, Conns
      ensures Valid() && Conns == old(Conns) && tables.Repr == old(tables.Repr)
      ensures Value == SetState(old(Value), c, id, seated)
    {
      Open();
      clients[c].SetTableState(id, seated);
      Value := SetState(Value, c, id, seated);
      Seal();
    }

    method HubRemove(c: ClientId)
      requires Valid()
      modifies this`Value, this`hub
      ensures Valid() && Value == old(Value).(hub := old(Value).hub - {c})
    {
      Open();
      hub := hub - {c};
      Value := Value.(hub := hub);
    }

    // clientsForTable: the connections in the hub whose client is at the table, each once.
    method ClientsForTable(id: string) returns (found: seq<ClientId>)
      requires Valid()
      ensures multiset(found) == multiset(Watchers(Value, id))
    {
      Open();
      found := [];
      var rest := hub;
      ghost var seen: set<ClientId> := {};
      ghost var all := Watchers(Value, id);
      assert all <= hub && forall c | c in hub :: Watches(c, id) <==> c in all;
      while rest != {}
        invariant rest <= hub && seen == all - rest
        invariant multiset(found) == multiset(seen)
        decreases |rest|
      {
        var c :| c in rest;
        rest := rest - {c};
        if Watches(c, id) {
          found := found + [c];
          seen := seen + {c};
        }
      }
      assert seen == all;
    }

    predicate Watches(c: ClientId, id: string)
      reads this, if c in clients then {clients[c]} else {}
    {
      c in clients && clients[c].tableId == id
    }

    // broadcastEnvelope: a connection whose write fails is dropped.
    method Broadcast(id: string, envelope: Envelope, lost: set<ClientId>) returns (post: Post)
      requires Valid()
      modifies this`Value, this`hub
      ensures Valid() && post == Post(Watchers(old(Value), id) - lost, envelope)
      ensures Value == old(Value).(hub := old(Value).hub - (Watchers(old(Value), id) * lost))
    {
      var found := ClientsForTable(id);
      ghost var was, seen: set<ClientId> := Value, {};
      var reached: set<ClientId> := {};
      for i := 0 to |found|
        invariant Valid()
        invariant multiset(seen) == multiset(found[..i]) && reached == seen - lost
        invariant Value == was.(hub := was.hub - seen * lost)
      {
        OnceEach(found, i, Watchers(was, id), seen);
        seen := seen + {found[i]};
        if found[i] in lost {
          HubRemove(found[i]);
        } else {
          reached := reached + {found[i]};
        }
      }
      assert found[..|found|] == found;
      SameSet(seen, Watchers(was, id));
      return Post(reached, envelope);
    }

    method PersistSnapshot(snapshot: Snapshot, stamp: nat)
      requires Valid()
      modifies this`Value, this`saved
      ensures Valid()
      ensures Value == old(Value).(saved := if cfg.snapshotsOn then Save(old(Value).saved, snapshot, stamp)
          else old(Value).saved)
    {
      Open();
      if !cfg.snapshotsOn {
        return;
      }
      saved := Save(saved, snapshot, stamp);
      Value := Value.(saved := saved);
    }

    method PersistTableEvent(eventType: string, p: string, snapshot: Snapshot, stamp: nat)
      requires Valid()
      modifies this`Value, this`events
      ensures Valid()
      ensures Value == old(Value).(events := if cfg.eventsOn
          then old(Value).events + [TableEvent(snapshot.tableId, stamp, eventType, p, snapshot)]
                                             else old(Value).events)
    {
      Open();
      if !cfg.eventsOn {
        return;
      }
      events := events + [TableEvent(snapshot.tableId, stamp, eventType, p, snapshot)];
      Value := Value.(events := events);
    }

    // The last steps of every change of a table: broadcast it, save it, log it.
    method Publish(id: string, snapshot: Snapshot, stamp: nat, eventType: string, p: string, lost: set<ClientId>)
      returns (post: Post)
      requires Valid() && snapshot == SnapshotOf(At(Value.bank, id)) && stamp == At(Value.bank, id).version
      modifies this
      ensures Valid() && Conns == old(Conns)
      ensures (Value, post) == Announce(old(Value), id, eventType, p, lost)
    {
      assert Holds(Fields);
      post := Broadcast(id, TableSnapshot(snapshot.tableId, stamp, snapshot), lost);
      PersistSnapshot(snapshot, stamp);
      PersistTableEvent(eventType, p, snapshot, stamp);
    }

    method TableStateOf(c: ClientId) returns (me: Client)
      requires Valid() && c in Value.clients
      ensures me == Value.clients[c]
    {
      Open();
      return clients[c].State();
    }

    // ---------- The handlers ----------

    // sendErrorNotice and writeEnvelope: a response to the requesting client; a failed write fails the handler.
    method Answer(c: ClientId, envelope: Envelope, lost: set<ClientId>)
        returns (posts: seq<Post>, replies: seq<Envelope>, failed: bool)
      requires Valid()
      ensures Outcome(Value, posts, replies, failed) == Reply(Value, c, envelope, lost)
    {
      if c in lost {
        return [], [], true;
      }
      return [Post({c}, envelope)], [envelope], false;
    }

    // The statements that leave_table and the close have in common: read the stack, leave, refund.
    method LeaveAndRefund(id: string, p: string)
      returns (snapshot: Option<Snapshot>, stamp: nat, error: Option<TableError>)
      requires Valid()
      modifies Footprint()
      ensures Valid() && Conns == old(Conns) && fresh(tables.Repr - old(tables.Repr))
      ensures var (left, failure) := Rise(old(Value).bank, id, p);
              && error == failure
              && Value == old(Value).(bank := if error.Some? then left
                                              else Refund(left, p, StackAt(At(old(Value).bank, id), p)))
      ensures error.None? ==> snapshot == Some(SnapshotOf(At(Value.bank, id))) && stamp == At(Value.bank, id).version
    {
      LookFirst(Value.bank, id, p);
      var stack, hasStack := CurrentStack(id, p);
      snapshot, stamp, error := LeaveTable(id, p);
      if error.None? && hasStack {
        RefundStack(p, stack);
      }
    }

    method CloseClient(c: ClientId, lost: set<ClientId>) returns (posts: seq<Post>)
      requires Valid() && c in Value.clients
      modifies Footprint()
      ensures Valid() && Conns == old(Conns) && fresh(tables.Repr - old(tables.Repr))
      ensures (Value, posts) == Worlds.CloseClient(old(Value), c, lost)
    {
      posts := [];
      var me := TableStateOf(c);
      if me.seated {
        var snapshot, stamp, error := LeaveAndRefund(me.tableId, me.player);
        if error.None? {
          var post := Publish(me.tableId, snapshot.value, stamp, "disconnect_leave", me.player, lost);
          posts := [post];
        }
      }
      HubRemove(c);
    }

    method HandleLeaveTable(c: ClientId, requested: string, wx: Weather)
      returns (posts: seq<Post>, replies: seq<Envelope>, failed: bool)
      requires Valid() && c in Value.clients
      modifies Footprint()
      ensures Valid() && Conns == old(Conns) && fresh(tables.Repr - old(tables.Repr))
      ensures Outcome(Value, posts, replies, failed) == HandleLeave(old(Value), c, requested, wx)
    {
      assert Holds(Fields);
      var me := TableStateOf(c);
      var id := me.tableId;
      if TrimSpace(requested) != "" {
        id := Resolve(cfg, requested);
      }
      var snapshot, stamp, error := LeaveAndRefund(id, me.player);
      if error.Some? {
        posts, replies, failed := Answer(c, TableNotice(error.value), wx.second);
        return;
      }
      SetTableState(c, id, false);
      var post := Publish(id, snapshot.value, stamp, "leave_table", me.player, wx.second);
      return [post], [post.envelope], false;
    }

    // The part of handleJoinTableEvent that leaves the table the client sits at.
    method SwitchAway(c: ClientId, lost: set<ClientId>) returns (posts: seq<Post>)
      requires Valid() && c in Value.clients
      modifies Footprint()
      ensures Valid() && Conns == old(Conns) && fresh(tables.Repr - old(tables.Repr))
      ensures (Value, posts) == Worlds.SwitchAway(old(Value), c, lost)
    {
      posts := [];
      var me := TableStateOf(c);
      LookFirst(Value.bank, me.tableId, me.player);
      var stack, hadStack := CurrentStack(me.tableId, me.player);
      var snapshot, stamp, error := LeaveTable(me.tableId, me.player);
      SetTableState(c, me.tableId, false);
      if error.None? {
        if hadStack {
          RefundStack(me.player, stack);
        }
        var post := Publish(me.tableId, snapshot.value, stamp, "switch_leave", me.player, lost);
        posts := [post];
        SetAlready(Value, c, me.tableId, false);
      }
    }

    method TakeSeat(c: ClientId, id: string, seat: Option<int>, stack: int, wx: Weather)
      returns (posts: seq<Post>, replies: seq<Envelope>, failed: bool)
      requires Valid() && c in Value.clients
      modifies Footprint()
      ensures Valid() && Conns == old(Conns) && fresh(tables.Repr - old(tables.Repr))
      ensures Outcome(Value, posts, replies, failed) == Worlds.TakeSeat(old(Value), c, id, seat, stack, wx)
    {
      var me := TableStateOf(c);
      var snapshot, stamp, error := JoinTable(id, me.player, me.nickname, stack, seat);
      if error.Some? {
        RefundStack(me.player, stack);
        posts, replies, failed := Answer(c, TableNotice(error.value), wx.second);
        return;
      }
      SetTableState(c, id, true);
      var post := Publish(id, snapshot.value, stamp, "join_table", me.player, wx.second);
      return [post], [post.envelope], false;
    }

    method EnterTable(c: ClientId, id: string, seat: Option<int>, stack: int, wx: Weather)
      returns (posts: seq<Post>, replies: seq<Envelope>, failed: bool)
      requires Valid() && c in Value.clients
      modifies Footprint()
      ensures Valid() && Conns == old(Conns) && fresh(tables.Repr - old(tables.Repr))
      ensures Outcome(Value, posts, replies, failed) == Worlds.EnterTable(old(Value), c, id, seat, stack, wx)
    {
      var me := TableStateOf(c);
      var moved: seq<Post> := [];
      if me.seated {
        moved := SwitchAway(c, wx.first);
      }
      posts, replies, failed := TakeSeat(c, id, seat, stack, wx);
      posts := moved + posts;
    }

    method PayAndEnterTable(c: ClientId, id: string, seat: Option<int>, wx: Weather)
      returns (posts: seq<Post>, replies: seq<Envelope>, failed: bool)
      requires Valid() && c in Value.clients
      modifies Footprint()
      ensures Valid() && Conns == old(Conns) && fresh(tables.Repr - old(tables.Repr))
      ensures Outcome(Value, posts, replies, failed) == PayAndEnter(old(Value), c, id, seat, wx)
    {
      var me := TableStateOf(c);
      var stack := ConsumeBuyIn(me.player, id);
      if stack.Err? {
        posts, replies, failed := Answer(c, BuyInNotice(stack.error), wx.second);
        return;
      }
      posts, replies, failed := EnterTable(c, id, seat, stack.value, wx);
    }

    method CheckAndEnterTable(c: ClientId, id: string, seat: Option<int>, wx: Weather)
      returns (posts: seq<Post>, replies: seq<Envelope>, failed: bool)
      requires Valid() && c in Value.clients
      modifies Footprint()
      ensures Valid() && Conns == old(Conns) && fresh(tables.Repr - old(tables.Repr))
      ensures Outcome(Value, posts, replies, failed) == CheckAndEnter(old(Value), c, id, seat, wx)
    {
      var invalid := PrevalidateSeat(id, seat);
      if invalid.Some? {
        posts, replies, failed := Answer(c, TableNotice(invalid.value), wx.second);
      } else {
        posts, replies, failed := PayAndEnterTable(c, id, seat, wx);
      }
    }

    // handleJoinTable
    method HandleJoinTable(c: ClientId, req: JoinRequest, wx: Weather)
      returns (posts: seq<Post>, replies: seq<Envelope>, failed: bool)
      requires Valid() && c in Value.clients
      modifies Footprint()
      ensures Valid() && Conns == old(Conns) && fresh(tables.Repr - old(tables.Repr))
      ensures Outcome(Value, posts, replies, failed) == HandleJoin(old(Value), c, req, wx)
    {
      assert Holds(Fields);
      var id := Resolve(cfg, req.tableId);
      var me := TableStateOf(c);
      if me.seated && me.tableId == id {
        var snapshot, stamp := LookAtTable(id);
        posts, replies, failed := Answer(c, TableSnapshot(snapshot.tableId, stamp, snapshot), wx.second);
        return;
      }
      posts, replies, failed := CheckAndEnterTable(c, id, req.seat, wx);
    }

    // dispatchClientEvent
    method DispatchEvent(c: ClientId, e: ClientEnvelope, wx: Weather)
      returns (posts: seq<Post>, replies: seq<Envelope>, failed: bool)
      requires Valid() && c in Value.clients
      modifies Footprint()
      ensures Valid() && Conns == old(Conns) && fresh(tables.Repr - old(tables.Repr))
      ensures Outcome(Value, posts, replies, failed) == Dispatch(old(Value), c, e, wx)
    {
      if e.eventType == "join_table" {
        if e.payload.join.None? {
          posts, replies, failed := Answer(c, INVALID_JOIN, wx.second);
        } else {
          posts, replies, failed := HandleJoinTable(c, e.payload.join.value, wx);
        }
      } else if e.eventType == "leave_table" {
        if e.payload.leave.None? {
          posts, replies, failed := Answer(c, INVALID_LEAVE, wx.second);
        } else {
          posts, replies, failed := HandleLeaveTable(c, e.payload.leave.value, wx);
        }
      } else {
        posts, replies, failed := Answer(c, UNSUPPORTED, wx.second);
      }
    }

    // The closing of every connection of a player whose session is revoked, in no particular order.
    method RevokeConnections(p: string, lost: set<ClientId>) returns (posts: seq<Post>, order: seq<ClientId>)
      requires Valid()
      modifies Footprint()
      ensures Valid() && Conns == old(Conns) && fresh(tables.Repr - old(tables.Repr))
      ensures multiset(order) == multiset(ConnectionsOf(old(Value), p))
      ensures (forall c | c in order :: c in old(Value).clients)
              && (Value, posts) == CloseEach(old(Value), order, lost)
    {
      order := ClientsForPlayer(p);
      posts := [];
      ghost var was := Value;
      forall c | c in order
        ensures c in was.clients
      {
        assert c in multiset(order);
      }
      for i := 0 to |order|
        invariant Valid() && Conns == old(Conns) && fresh(tables.Repr - old(tables.Repr))
        invariant (Value, posts) == CloseEach(was, order[..i], lost)
      {
        assert order[i] in order && order[..i + 1][..i] == order[..i];
        var more := CloseClient(order[i], lost);
        posts := posts + more;
      }
      assert order[..|order|] == order;
    }

    // clientsForPlayer
    method ClientsForPlayer(p: string) returns (found: seq<ClientId>)
      requires Valid()
      ensures multiset(found) == multiset(ConnectionsOf(Value, p))
    {
      Open();
      found := [];
      var rest := hub;
      ghost var seen: set<ClientId> := {};
      ghost var all := ConnectionsOf(Value, p);
      assert all <= hub && forall c | c in hub :: clients[c].player == p <==> c in all;
      while rest != {}
        invariant rest <= hub && seen == all - rest
        invariant multiset(found) == multiset(seen)
        decreases |rest|
      {
        var c :| c in rest;
        rest := rest - {c};
        if clients[c].player == p {
          found := found + [c];
          seen := seen + {c};
        }
      }
      assert seen == all;
    }

    method GrantWallet(p: string, initial: int)
      requires Valid()
      modifies this`Value, store
      ensures Valid() && Value == old(Value).(bank := Grant(old(Value).bank, p, initial))
    {
      Open();
      store.EnsureWallet(p, initial);
      Value := Value.(bank := Grant(Value.bank, p, initial));
      Seal();
    }

    // handleTableBuyIn, past the decoding of the request.
    method TableBuyIn(p: string, requested: string, amount: int) returns (receipt: Option<Result<Receipt, StoreError>>)
      requires Valid()
      modifies this`Value, store
      ensures Valid()
      ensures var id := Resolve(cfg, requested);
              && Value == old(Value).(bank := if amount <= 0 then old(Value).bank
                   else Buy(old(Value).bank, p, id, amount))
              && receipt == if amount <= 0 then None else Some(CreateBuyIn(old(Value).bank.ledger, p, id, amount).1)
    {
      Open();
      var id := Resolve(cfg, requested);
      if amount <= 0 {
        return None;
      }
      var made := store.CreateBuyIn(p, id, amount);
      Value := Value.(bank := Buy(Value.bank, p, id, amount));
      Seal();
      return Some(made);
    }

    // restoreSnapshot: a stored table replaces the one registered under its id, if it is sound.
    method RestoreSnapshot(id: string)
      requires Valid()
      modifies Footprint()
      ensures Valid() && Conns == old(Conns) && fresh(tables.Repr - old(tables.Repr))
      ensures Value == old(Value).(bank := Restored(old(Value).bank, old(Value).saved, id))
    {
      Open();
      var loaded := Load(saved, id);
      if loaded.None? {
        return;
      }
      var (snapshot, stamp) := loaded.value;
      var name := id;
      if TrimSpace(snapshot.tableId) != "" {
        name := snapshot.tableId;
      }
      var _ := tables.Restore(name, snapshot, stamp);
      TablesChanged();
    }

    // The start of handleWebSocket: the connection enters the hub and is sent the default table,
    // or is closed again if that fails.
    method Connect(c: ClientId, player: string, nickname: string, wx: Weather) returns (posts: seq<Post>)
      requires Valid() && c !in Value.clients
      modifies Footprint()
      ensures Valid() && fresh(Conns - old(Conns)) && fresh(tables.Repr - old(tables.Repr))
      ensures (Value, posts) == Worlds.Connect(old(Value), c, player, nickname, wx)
    {
      assert Holds(Fields);
      var client := new WsClient(player, nickname, cfg.defaultTable);
      assert client !in tables.Repr && client !in Conns;
      Add(c, client);
      var snapshot, stamp := LookAtTable(cfg.defaultTable);
      if c in wx.second {
        posts := CloseClient(c, wx.third);
      } else {
        posts := [Post({c}, TableSnapshot(snapshot.tableId, stamp, snapshot))];
      }
    }

    // The connection is known from now on, and in the hub.
    method Add(c: ClientId, client: WsClient)
      requires Valid() && c !in Value.clients
      requires client !in Conns && client !in tables.Repr
      modifies this`clients, this`hub, this`Conns, this`Value
      ensures Valid() && Conns == old(Conns) + {client}
      ensures Value == old(Value).(clients := old(Value).clients[c := client.State()], hub := old(Value).hub + {c})
    {
      Open();
      assert forall d | d in clients :: clients[d] != client;
      clients, hub, Conns := clients[c := client], hub + {c}, Conns + {client};
      Value := Value.(clients := Value.clients[c := client.State()], hub := hub);
      assert ClientsHold();
      Seal();
    }
  }
}
