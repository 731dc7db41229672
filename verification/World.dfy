/** The server as a value, and each WebSocket handler of ws_handlers.go as one step of it.
    Which socket writes fail is part of the input. */
module Worlds {
  import opened Basics
  import opened Seating
  import opened Ledgers
  import opened Banks
  import opened SnapshotStore
  import opened Caches

  type ClientId = nat

  datatype Config = Config(defaultTable: string, snapshotsOn: bool, eventsOn: bool)

  datatype Client = Client(player: string, nickname: string, tableId: string, seated: bool)

  datatype TableEvent = TableEvent(tableId: string, version: nat, eventType: string, playerId: string,
      payload: Snapshot)

  datatype World = World(cfg: Config, bank: Bank, clients: map<ClientId, Client>, hub: set<ClientId>,
                         saved: Saved, events: seq<TableEvent>)

  // The clients whose write fails in the first and second broadcast of a handler, and in the
  // broadcast of the close that follows a failed handler.
  datatype Weather = Weather(first: set<ClientId>, second: set<ClientId>, third: set<ClientId>)

  // One envelope and the clients it reached.
  datatype Post = Post(to: set<ClientId>, envelope: Envelope)

  // What a handler leaves behind: the new state, what was delivered, the responses to remember,
  // and whether it gave up, which ends the connection.
  datatype Outcome = Outcome(world: World, posts: seq<Post>, replies: seq<Envelope>, failed: bool)

  // At most one response, the last thing posted; none if the handler failed.
  predicate Answers(o: Outcome) {
    if o.failed then o.replies == []
    else o.posts != [] && o.replies == [o.posts[|o.posts| - 1].envelope]
  }

  datatype JoinRequest = JoinRequest(tableId: string, seat: Option<int>)

  // A request body, as its decoding for either event turns out; None is malformed.
  datatype Payload = Payload(join: Option<JoinRequest>, leave: Option<string>)

  datatype ClientEnvelope = ClientEnvelope(eventType: string, requestId: RequestId, payload: Payload)

  // ---------- Notices ----------

  const INVALID_JOIN := ErrorNotice("INVALID_PAYLOAD", "join_table payload is invalid")
  const INVALID_LEAVE := ErrorNotice("INVALID_PAYLOAD", "leave_table payload is invalid")
  const UNSUPPORTED := ErrorNotice("UNSUPPORTED_EVENT", "unsupported event type")

  function TableNotice(e: TableError): Envelope {
    match e
    case SeatInvalid => ErrorNotice("INVALID_SEAT", "seat index is invalid")
    case SeatTaken => ErrorNotice("SEAT_TAKEN", "seat is already taken")
    case TableFull => ErrorNotice("TABLE_FULL", "table is full")
    case PlayerNotFound => ErrorNotice("PLAYER_NOT_FOUND", "player is not in table")
    case SnapshotInvalid => ErrorNotice("INTERNAL_ERROR", "internal error: snapshot is invalid")
  }

  function BuyInNotice(e: StoreError): Envelope {
    match e
    case PendingBuyInNotFound => ErrorNotice("BUY_IN_REQUIRED", "buy-in is required before joining table")
    case InvalidBuyInAmount => ErrorNotice("INVALID_BUY_IN", "buy-in amount is invalid")
    case InsufficientBalance => ErrorNotice("INSUFFICIENT_BALANCE", "wallet balance is insufficient")
    case TableNotFound => ErrorNotice("TABLE_NOT_FOUND", "table not found")
    case InvalidWalletCreditAmount => ErrorNotice("INTERNAL_ERROR", "internal error: invalid wallet credit amount")
  }

  function EnvelopeOf(t: TableState): Envelope {
    TableSnapshot(t.id, t.version, SnapshotOf(t))
  }

  // ---------- Pieces shared by the handlers ----------

  function Resolve(cfg: Config, requested: string): string {
    var trimmed := TrimSpace(requested);
    if trimmed == "" then cfg.defaultTable else trimmed
  }

  function Watchers(w: World, id: string): set<ClientId> {
    set c | c in w.hub && c in w.clients && w.clients[c].tableId == id
  }

  // Broadcasts the table as it stands, dropping clients whose write fails, saves it and logs the change.
  function Announce(w: World, id: string, eventType: string, p: string, lost: set<ClientId>): (World, Post) {
    var t := At(w.bank, id);
    var watchers := Watchers(w, id);
    (w.(hub := w.hub - (watchers * lost),
        saved := if w.cfg.snapshotsOn then Save(w.saved, SnapshotOf(t), t.version) else w.saved,
        events := if w.cfg.eventsOn then w.events + [TableEvent(t.id, t.version, eventType, p, SnapshotOf(t))]
            else w.events),
     Post(watchers - lost, EnvelopeOf(t)))
  }

  function SetState(w: World, c: ClientId, id: string, seated: bool): World
    requires c in w.clients
  {
    w.(clients := w.clients[c := w.clients[c].(tableId := id, seated := seated)])
  }

  // One envelope to the requesting client; a failed write fails the handler.
  function Reply(w: World, c: ClientId, e: Envelope, lost: set<ClientId>): (o: Outcome)
    ensures Answers(o) && o.world == w
  {
    if c in lost then Outcome(w, [], [], true) else Outcome(w, [Post({c}, e)], [e], false)
  }

  // Reads the stack, leaves the table and, if that worked, refunds the stack, releases the client
  // if asked to, and announces the change.
  function Depart(w: World, c: ClientId, id: string, release: bool, eventType: string, lost: set<ClientId>)
    : (r: (World, seq<Post>, Option<TableError>))
    requires c in w.clients
    ensures r.0.clients.Keys == w.clients.Keys && |r.1| == (if r.2.None? then 1 else 0)
    ensures r.2.None? ==> r.1[0].envelope == EnvelopeOf(At(r.0.bank, id))
  {
    var p := w.clients[c].player;
    var stack := StackAt(At(w.bank, id), p);
    var (b, error) := Rise(w.bank, id, p);
    if error.Some? then (w.(bank := b), [], error)
    else
      var refunded := w.(bank := Refund(b, p, stack));
      var released := if release then SetState(refunded, c, id, false) else refunded;
      var (announced, post) := Announce(released, id, eventType, p, lost);
      (announced, [post], None)
  }

  // ---------- join_table ----------

  predicate SeatOccupied(t: TableState, seat: int) {
    exists x :: x in SnapshotOf(t).players && x.seatIndex == seat
  }

  function Prevalidate(b: Bank, id: string, seat: Option<int>): (Bank, Option<TableError>) {
    if seat.None? then (b, None)
    else if seat.value < 0 || seat.value >= MAX_PLAYERS then (b, Some(SeatInvalid))
    else (Look(b, id), if SeatOccupied(At(b, id), seat.value) then Some(SeatTaken) else None)
  }

  // Leaves the table the client sits at, before it takes a seat elsewhere.
  function SwitchAway(w: World, c: ClientId, lost: set<ClientId>): (r: (World, seq<Post>))
    requires c in w.clients
    ensures r.0.clients.Keys == w.clients.Keys
  {
    var id := w.clients[c].tableId;
    var (left, posts, _) := Depart(w, c, id, true, "switch_leave", lost);
    (SetState(left, c, id, false), posts)
  }

  // Sits down with the consumed buy-in, or returns it to the wallet.
  function TakeSeat(w: World, c: ClientId, id: string, seat: Option<int>, stack: int, wx: Weather): (o: Outcome)
    requires c in w.clients
    ensures Answers(o) && o.world.clients.Keys == w.clients.Keys
  {
    var me := w.clients[c];
    var (b, error) := Sit(w.bank, id, me.player, me.nickname, stack, seat);
    if error.Some? then Reply(w.(bank := Refund(b, me.player, stack)), c, TableNotice(error.value), wx.second)
    else
      var (announced, post) := Announce(SetState(w.(bank := b), c, id, true), id, "join_table", me.player, wx.second);
      Outcome(announced, [post], [EnvelopeOf(At(b, id))], false)
  }

  // With the buy-in consumed: leave the present table, if any, and sit down at the new one.
  function EnterTable(w: World, c: ClientId, id: string, seat: Option<int>, stack: int, wx: Weather): (o: Outcome)
    requires c in w.clients
    ensures Answers(o) && o.world.clients.Keys == w.clients.Keys
  {
    if !w.clients[c].seated then TakeSeat(w, c, id, seat, stack, wx)
    else
      var (away, posts) := SwitchAway(w, c, wx.first);
      var seated := TakeSeat(away, c, id, seat, stack, wx);
      seated.(posts := posts + seated.posts)
  }

  function HandleJoin(w: World, c: ClientId, req: JoinRequest, wx: Weather): (o: Outcome)
    requires c in w.clients
    ensures Answers(o) && o.world.clients.Keys == w.clients.Keys
  {
    var me, id := w.clients[c], Resolve(w.cfg, req.tableId);
    if me.seated && me.tableId == id then Reply(w.(bank := Look(w.bank, id)), c, EnvelopeOf(At(w.bank, id)), wx.second)
    else
      var (checked, invalid) := Prevalidate(w.bank, id, req.seat);
      if invalid.Some? then Reply(w.(bank := checked), c, TableNotice(invalid.value), wx.second)
      else
        var (paid, receipt) := Consume(checked, me.player, id);
        if receipt.Err? then Reply(w.(bank := paid), c, BuyInNotice(receipt.error), wx.second)
        else EnterTable(w.(bank := paid), c, id, req.seat, receipt.value.amount, wx)
  }

  // ---------- leave_table, close, connect ----------

  function HandleLeave(w: World, c: ClientId, requested: string, wx: Weather): (o: Outcome)
    requires c in w.clients
    ensures Answers(o) && o.world.clients.Keys == w.clients.Keys
  {
    var id := if TrimSpace(requested) != "" then Resolve(w.cfg, requested) else w.clients[c].tableId;
    var (left, posts, error) := Depart(w, c, id, true, "leave_table", wx.second);
    if error.Some? then Reply(left, c, TableNotice(error.value), wx.second)
    else Outcome(left, posts, [EnvelopeOf(At(left.bank, id))], false)
  }

  // closeClient: note that the client keeps its `seated` mark.
  function CloseClient(w: World, c: ClientId, lost: set<ClientId>): (r: (World, seq<Post>))
    requires c in w.clients
    ensures r.0.clients.Keys == w.clients.Keys
  {
    var me := w.clients[c];
    var (left, posts, _) := if me.seated then Depart(w, c, me.tableId, false, "disconnect_leave", lost)
        else (w, [], None);
    (left.(hub := left.hub - {c}), posts)
  }

  function ConnectionsOf(w: World, p: string): set<ClientId> {
    set c | c in w.hub && c in w.clients && w.clients[c].player == p
  }

  // revokeSessionFromCookie: closes the given connections one after the other.
  function CloseEach(w: World, order: seq<ClientId>, lost: set<ClientId>): (r: (World, seq<Post>))
    requires forall c | c in order :: c in w.clients
    ensures r.0.clients.Keys == w.clients.Keys
  {
    if order == [] then (w, [])
    else
      var n := |order| - 1;
      var (v, posts) := CloseEach(w, order[..n], lost);
      var (u, more) := CloseClient(v, order[n], lost);
      (u, posts + more)
  }

  function Dispatch(w: World, c: ClientId, e: ClientEnvelope, wx: Weather): (o: Outcome)
    requires c in w.clients
    ensures Answers(o) && o.world.clients.Keys == w.clients.Keys
  {
    if e.eventType == "join_table" then
      if e.payload.join.None? then Reply(w, c, INVALID_JOIN, wx.second) else HandleJoin(w, c, e.payload.join.value, wx)
    else if e.eventType == "leave_table" then
      if e.payload.leave.None? then Reply(w, c, INVALID_LEAVE, wx.second)
          else HandleLeave(w, c, e.payload.leave.value, wx)
    else Reply(w, c, UNSUPPORTED, wx.second)
  }

  // A new connection watches the default table and is sent its snapshot, or is closed at once.
  function Connect(w: World, c: ClientId, player: string, nickname: string, wx: Weather): (World, seq<Post>) {
    var id := w.cfg.defaultTable;
    var added := w.(clients := w.clients[c := Client(player, nickname, id, false)], hub := w.hub + {c},
        bank := Look(w.bank, id));
    if c in wx.second then CloseClient(added, c, wx.third)
    else (added, [Post({c}, EnvelopeOf(At(w.bank, id)))])
  }

  /** A new connection is not seated, so that closing it at once only drops it from the hub. */
  lemma ConnectShape(w: World, c: ClientId, player: string, nickname: string, wx: Weather)
    ensures var after, id := Connect(w, c, player, nickname, wx).0, w.cfg.defaultTable;
            after == w.(bank := Look(w.bank, id), clients := w.clients[c := Client(player, nickname, id, false)],
                        hub := if c in wx.second then (w.hub + {c}) - {c} else w.hub + {c})
  {
  }

  // ---------- Many connections over time ----------

  // The world together with each connection's response cache, the untrimmed log of what it
  // stored, everything each client has received, and the connections that are live: connected,
  // or heard from, since they were last closed.
  datatype System = System(world: World, live: set<ClientId>, caches: map<ClientId, Cache>,
                           logs: map<ClientId, seq<Stored>>, mail: map<ClientId, seq<Envelope>>)

  datatype Event =
    | GrantEvent(player: string, initial: int)
    | BuyInEvent(player: string, tableId: string, amount: int)
    | ConnectEvent(client: ClientId, player: string, nickname: string, wx: Weather)
    | MessageEvent(client: ClientId, envelope: ClientEnvelope, readAt: int, evictAt: int, storeAt: int, wx: Weather)
    | CloseEvent(client: ClientId, wx: Weather)

  function Received(mail: map<ClientId, seq<Envelope>>, c: ClientId): seq<Envelope> {
    if c in mail then mail[c] else []
  }

  function Deliver(mail: map<ClientId, seq<Envelope>>, post: Post): map<ClientId, seq<Envelope>> {
    mail + map c | c in post.to :: Received(mail, c) + [post.envelope]
  }

  function DeliverAll(mail: map<ClientId, seq<Envelope>>, posts: seq<Post>): map<ClientId, seq<Envelope>> {
    if posts == [] then mail else Deliver(DeliverAll(mail, posts[..|posts| - 1]), posts[|posts| - 1])
  }

  lemma {:induction false} DeliverInTurn(mail: map<ClientId, seq<Envelope>>, a: seq<Post>, b: seq<Post>)
    ensures DeliverAll(mail, a + b) == DeliverAll(DeliverAll(mail, a), b)
  {
    if b == [] {
      assert a + b == a;
    } else {
      var n := |b| - 1;
      DeliverInTurn(mail, a, b[..n]);
      assert (a + b)[..|a + b| - 1] == a + b[..n];
    }
  }

  // The same envelopes once more to one client.
  function Repeated(c: ClientId, envelopes: seq<Envelope>): seq<Post> {
    seq(|envelopes|, i requires 0 <= i < |envelopes| => Post({c}, envelopes[i]))
  }

  function CacheOf(s: System, c: ClientId): Cache {
    if c in s.caches then s.caches[c] else EMPTY_CACHE
  }

  function LogOf(s: System, c: ClientId): seq<Stored> {
    if c in s.logs then s.logs[c] else []
  }

  function Shut(s: System, c: ClientId, lost: set<ClientId>): System
    requires c in s.world.clients
  {
    var (w, posts) := CloseClient(s.world, c, lost);
    s.(world := w, live := s.live - {c}, mail := DeliverAll(s.mail, posts))
  }

  function Replay(s: System, c: ClientId, envelopes: seq<Envelope>, wx: Weather): System
    requires c in s.world.clients
  {
    if c in wx.second && envelopes != [] then Shut(s, c, wx.third)
    else s.(mail := DeliverAll(s.mail, Repeated(c, envelopes)))
  }

  // What follows a dispatched message: its responses are remembered, or, if it failed, the
  // connection is closed.
  function Settle(s: System, e: Event, o: Outcome): System
    requires e.MessageEvent? && e.client in o.world.clients
  {
    var c, id, kind := e.client, e.envelope.requestId, e.envelope.eventType;
    var done := s.(world := o.world, mail := DeliverAll(s.mail, o.posts));
    if o.failed then Shut(done, c, e.wx.third)
    else done.(caches := s.caches[c := Store(CacheOf(s, c), id, kind, o.replies, e.evictAt, e.storeAt)],
               logs := s.logs[c := Log(LogOf(s, c), CacheOf(s, c), id, kind, o.replies, e.evictAt, e.storeAt)])
  }

  // A message that is not replayed.
  function Handle(s: System, e: Event): System
    requires e.MessageEvent? && e.client in s.world.clients
  {
    Settle(s, e, Dispatch(s.world, e.client, e.envelope, e.wx))
  }

  // One turn of the read loop.
  function Serve(s: System, e: Event): System
    requires e.MessageEvent? && e.client in s.world.clients
  {
    var c := e.client;
    var (cache, hit) := Lookup(CacheOf(s, c), e.envelope.requestId, e.envelope.eventType, e.readAt);
    var looked := s.(caches := s.caches[c := cache], live := s.live + {c});
    if hit.Some? then Replay(looked, c, hit.value, e.wx) else Handle(looked, e)
  }

  predicate Known(s: System, e: Event) {
    (e.MessageEvent? || e.CloseEvent?) ==> e.client in s.world.clients
  }

  // Events of clients that never connected do not happen; they are mapped to no change.
  function Step(s: System, e: Event): System {
    if !Known(s, e) then s
    else match e
      case GrantEvent(p, initial) => s.(world := s.world.(bank := Grant(s.world.bank, p, initial)))
      case BuyInEvent(p, id, amount) =>
        if amount <= 0 then s else s.(world := s.world.(bank := Buy(s.world.bank, p, Resolve(s.world.cfg, id), amount)))
      case ConnectEvent(c, player, nickname, wx) =>
        var (w, posts) := Connect(s.world, c, player, nickname, wx);
        s.(world := w, live := if c in wx.second then s.live - {c} else s.live + {c}, mail := DeliverAll(s.mail, posts))
      case MessageEvent(_, _, _, _, _, _) => Serve(s, e)
      case CloseEvent(c, wx) => Shut(s, c, wx.third)
  }

  ghost function Run(s: System, events: seq<Event>): System {
    if events == [] then s else Step(Run(s, events[..|events| - 1]), events[|events| - 1])
  }

  // A fresh server: nobody connected, nothing stored, nothing owned.
  function Boot(cfg: Config): System {
    System(World(cfg, Bank(EMPTY_LEDGER, map[cfg.defaultTable := NewTable(cfg.defaultTable)]), map[], {}, map[], []),
           {}, map[], map[], map[])
  }

  // A stored table replaces the one registered under its id, if it is sound.
  function Restored(b: Bank, saved: Saved, id: string): Bank {
    match Load(saved, id)
    case None => b
    case Some((snapshot, stamp)) =>
      var name := if TrimSpace(snapshot.tableId) != "" then snapshot.tableId else id;
      b.(tables := b.tables[name := Restore(At(b, name), snapshot, stamp).table])
  }

  // A server started over the snapshots of an earlier one, of which it restores the default table.
  function Restart(cfg: Config, stored: Saved): System {
    var empty, saved := Boot(cfg).world, if cfg.snapshotsOn then stored else map[];
    Boot(cfg).(world := empty.(saved := saved, bank := Restored(empty.bank, saved, cfg.defaultTable)))
  }
}
