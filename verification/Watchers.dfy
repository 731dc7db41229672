/** Everyone connected has been told how their table stands: what every handler, and so every run,
    guarantees about the snapshots sent and the snapshots saved, whichever writes fail. */
module Watching {
  import opened Basics
  import opened Seating
  import opened TableManager
  import opened Banks
  import opened SnapshotStore
  import opened Caches
  import opened Worlds

  // ---------- Tables move forward only ----------

  // Every table either stays as it is or gets a higher version.
  ghost predicate Evolves(a: Bank, b: Bank) {
    && MapValid(a.tables) && MapValid(b.tables)
    && forall id :: At(b, id) == At(a, id) || At(b, id).version > At(a, id).version
  }

  // A notice, or a snapshot of the table's present or an earlier version.
  ghost predicate UpToDate(b: Bank, e: Envelope) {
    e.TableSnapshot? ==> e.version < At(b, e.tableId).version || e == EnvelopeOf(At(b, e.tableId))
  }

  lemma TableMoved(b: Bank, id: string, t: TableState)
    requires MapValid(b.tables) && Seating.Valid(t) && t.id == id
    requires t == At(b, id) || t.version > At(b, id).version
    ensures Evolves(b, b.(tables := b.tables[id := t]))
    ensures forall other :: At(b.(tables := b.tables[id := t]), other) == if other == id then t else At(b, other)
  {
  }

  // ---------- What a handler owes the watchers and the snapshot store ----------

  // The client is in the hub as before, watching the same unchanged table.
  ghost predicate Undisturbed(a: World, b: World, c: ClientId) {
    && c in a.hub && c in a.clients && c in b.clients
    && b.clients[c].tableId == a.clients[c].tableId
    && At(b.bank, b.clients[c].tableId) == At(a.bank, a.clients[c].tableId)
  }

  // One of the posts told the client how its table stands now.
  ghost predicate Told(b: World, posts: seq<Post>, c: ClientId) {
    c in b.clients && exists i ::
        0 <= i < |posts| && c in posts[i].to && posts[i].envelope == EnvelopeOf(At(b.bank, b.clients[c].tableId))
  }

  function PersistedOf(t: TableState): Persisted {
    Project(SnapshotOf(t), t.version)
  }

  // The stored snapshot of a table is current, or neither it nor the table has changed.
  ghost predicate SavedStep(a: World, b: World, id: string) {
    || (id in b.saved && b.saved[id] == PersistedOf(At(b.bank, id)))
    || (At(b.bank, id) == At(a.bank, id) && (id in b.saved <==> id in a.saved)
        && (id in b.saved ==> b.saved[id] == a.saved[id]))
  }

  // No player goes by the empty id.
  ghost predicate Named(w: World) {
    && (forall c | c in w.clients :: w.clients[c].player != "")
    && (forall id :: NamedPlayers(At(w.bank, id)))
  }

  ghost predicate Published(a: World, b: World, posts: seq<Post>) {
    && b.cfg == a.cfg
    && (Named(a) ==> Named(b))
    && Evolves(a.bank, b.bank)
    && (forall i | 0 <= i < |posts| :: UpToDate(b.bank, posts[i].envelope))
    && (forall c | c in b.hub :: Undisturbed(a, b, c) || Told(b, posts, c))
    && (a.cfg.snapshotsOn ==> forall id :: SavedStep(a, b, id))
  }

  lemma UpToDateLater(a: Bank, b: Bank, e: Envelope)
    requires Evolves(a, b) && UpToDate(a, e)
    ensures UpToDate(b, e)
  {
    if e.TableSnapshot? {
      assert At(b, e.tableId) == At(a, e.tableId) || At(b, e.tableId).version > At(a, e.tableId).version;
    }
  }

  /** Handlers that keep their promises keep them one after the other. */
  lemma PublishedTwice(a: World, b: World, c: World, first: seq<Post>, second: seq<Post>)
    requires Published(a, b, first) && Published(b, c, second)
    ensures Published(a, c, first + second)
  {
    var posts := first + second;
    forall i | 0 <= i < |posts|
      ensures UpToDate(c.bank, posts[i].envelope)
    {
      if i < |first| {
        UpToDateLater(b.bank, c.bank, first[i].envelope);
      } else {
        assert posts[i] == second[i - |first|];
      }
    }
    forall d | d in c.hub
      ensures Undisturbed(a, c, d) || Told(c, posts, d)
    {
      ToldAcross(a, b, c, first, second, d);
    }
    forall id | a.cfg.snapshotsOn
      ensures SavedStep(a, c, id)
    {
      assert SavedStep(a, b, id) && SavedStep(b, c, id);
    }
    forall id
      ensures At(c.bank, id) == At(a.bank, id) || At(c.bank, id).version > At(a.bank, id).version
    {
      assert At(b.bank, id) == At(a.bank, id) || At(b.bank, id).version > At(a.bank, id).version;
    }
  }

  lemma ToldAcross(a: World, b: World, c: World, first: seq<Post>, second: seq<Post>, d: ClientId)
    requires Published(a, b, first) && Published(b, c, second) && d in c.hub
    ensures Undisturbed(a, c, d) || Told(c, first + second, d)
  {
    var posts := first + second;
    if Told(c, second, d) {
      var i :| 0 <= i < |second| && d in second[i].to
          && second[i].envelope == EnvelopeOf(At(c.bank, c.clients[d].tableId));
      assert posts[|first| + i] == second[i];
    } else {
      assert Undisturbed(b, c, d) && d in b.hub;
      if Told(b, first, d) {
        var i :| 0 <= i < |first| && d in first[i].to
            && first[i].envelope == EnvelopeOf(At(b.bank, b.clients[d].tableId));
        assert posts[i] == first[i];
      }
    }
  }

  // Steps in which no table changes, no one moves and nothing is saved.
  lemma QuietPublished(a: World, b: World, posts: seq<Post>)
    requires MapValid(a.bank.tables) && MapValid(b.bank.tables) && b.cfg == a.cfg && b.saved == a.saved
    requires forall id :: At(b.bank, id) == At(a.bank, id)
    requires b.hub <= a.hub && a.hub <= a.clients.Keys && a.clients.Keys == b.clients.Keys
    requires forall c | c in a.clients ::
        b.clients[c].tableId == a.clients[c].tableId && b.clients[c].player == a.clients[c].player
    requires forall i | 0 <= i < |posts| :: UpToDate(b.bank, posts[i].envelope)
    ensures Published(a, b, posts)
  {
  }

  // ---------- Each handler ----------

  ghost predicate HubKnown(w: World) {
    w.hub <= w.clients.Keys
  }

  /** One table changed, the clients' marks possibly with it, and then announced. */
  lemma AnnouncePublished(a: World, w: World, id: string, eventType: string, p: string, lost: set<ClientId>)
    requires MapValid(a.bank.tables) && MapValid(w.bank.tables) && HubKnown(a)
    requires w.cfg == a.cfg && w.hub == a.hub && w.saved == a.saved && w.clients.Keys == a.clients.Keys
    requires forall other | other != id :: At(w.bank, other) == At(a.bank, other)
    requires At(w.bank, id) == At(a.bank, id) || At(w.bank, id).version > At(a.bank, id).version
    requires forall c | c in a.clients :: w.clients[c].tableId == a.clients[c].tableId || w.clients[c].tableId == id
    requires Named(a) ==> Named(w)
    ensures Published(a, Announce(w, id, eventType, p, lost).0, [Announce(w, id, eventType, p, lost).1])
  {
    var (b, post) := Announce(w, id, eventType, p, lost);
    TableAtValid(w.bank.tables, id);
    forall c | c in b.hub
      ensures Undisturbed(a, b, c) || Told(b, [post], c)
    {
      if w.clients[c].tableId == id {
        assert [post][0] == post && c in post.to;
      }
    }
    forall other | a.cfg.snapshotsOn
      ensures SavedStep(a, b, other)
    {
    }
  }

  lemma DepartPublished(w: World, c: ClientId, id: string, release: bool, eventType: string, lost: set<ClientId>)
    requires c in w.clients && MapValid(w.bank.tables) && HubKnown(w)
    ensures var (b, posts, error) := Depart(w, c, id, release, eventType, lost);
            && Published(w, b, posts) && HubKnown(b) && b.clients.Keys == w.clients.Keys
            && (error.Some? ==> b.clients == w.clients)
            && (error.None? && release ==> b.clients[c].tableId == id)
            && (forall d | d in w.clients && d != c :: b.clients[d] == w.clients[d])
            && (!release ==> b.clients == w.clients)
  {
    var p := w.clients[c].player;
    TableAtValid(w.bank.tables, id);
    LeaveEffect(At(w.bank, id), p);
    TableMoved(w.bank, id, Leave(At(w.bank, id), p).table);
    var (bank, error) := Rise(w.bank, id, p);
    if error.Some? {
      QuietPublished(w, w.(bank := bank), []);
    } else {
      var refunded := w.(bank := Refund(bank, p, StackAt(At(w.bank, id), p)));
      assert refunded.bank.tables == bank.tables;
      var released := if release then SetState(refunded, c, id, false) else refunded;
      AnnouncePublished(w, released, id, eventType, p, lost);
    }
  }

  lemma ReplyPublished(w: World, c: ClientId, e: Envelope, lost: set<ClientId>)
    requires MapValid(w.bank.tables) && HubKnown(w) && UpToDate(w.bank, e)
    ensures Published(w, w, Reply(w, c, e, lost).posts)
  {
    QuietPublished(w, w, Reply(w, c, e, lost).posts);
  }

  lemma SwitchPublished(w: World, c: ClientId, lost: set<ClientId>)
    requires c in w.clients && MapValid(w.bank.tables) && HubKnown(w)
    ensures var (b, posts) := SwitchAway(w, c, lost);
            Published(w, b, posts) && HubKnown(b) && MapValid(b.bank.tables)
  {
    var id := w.clients[c].tableId;
    DepartPublished(w, c, id, true, "switch_leave", lost);
    var (left, posts, error) := Depart(w, c, id, true, "switch_leave", lost);
    ReleasedPublished(w, left, c, id, posts);
  }

  lemma ReleasedPublished(w: World, left: World, c: ClientId, id: string, posts: seq<Post>)
    requires c in left.clients && left.clients[c].tableId == id && MapValid(left.bank.tables) && HubKnown(left)
    requires Published(w, left, posts)
    ensures Published(w, SetState(left, c, id, false), posts) && HubKnown(SetState(left, c, id, false))
  {
    QuietPublished(left, SetState(left, c, id, false), []);
    PublishedTwice(w, left, SetState(left, c, id, false), posts, []);
    assert posts + [] == posts;
  }

  // Preparing a bank without changing any table, then answering.
  lemma PreparedReply(w: World, b: Bank, c: ClientId, e: Envelope, lost: set<ClientId>)
    requires MapValid(w.bank.tables) && MapValid(b.tables) && HubKnown(w)
    requires forall id :: At(b, id) == At(w.bank, id)
    requires UpToDate(w.bank, e)
    ensures var o := Reply(w.(bank := b), c, e, lost); Published(w, o.world, o.posts) && HubKnown(o.world)
  {
    QuietPublished(w, w.(bank := b), Reply(w.(bank := b), c, e, lost).posts);
  }

  lemma SitMoves(w: World, c: ClientId, id: string, seat: Option<int>, stack: int)
    requires c in w.clients && MapValid(w.bank.tables)
    ensures var me := w.clients[c];
            var (b, error) := Sit(w.bank, id, me.player, me.nickname, stack, seat);
            && Evolves(w.bank, b)
            && (forall other | other != id || error.Some? :: At(b, other) == At(w.bank, other))
            && (Named(w) ==> Named(w.(bank := b)))
  {
    var me := w.clients[c];
    TableAtValid(w.bank.tables, id);
    JoinEffect(At(w.bank, id), me.player, me.nickname, stack, seat);
    TableMoved(w.bank, id, Join(At(w.bank, id), me.player, me.nickname, stack, seat).table);
  }

  // A refusal changed no table, so that there is nothing to publish but the notice.
  lemma RefusalPublished(w: World, b: Bank, p: string, stack: int, c: ClientId, e: TableError, lost: set<ClientId>)
    requires MapValid(w.bank.tables) && HubKnown(w) && MapValid(b.tables)
    requires forall id :: At(b, id) == At(w.bank, id)
    ensures var o := Reply(w.(bank := Refund(b, p, stack)), c, TableNotice(e), lost);
        Published(w, o.world, o.posts) && HubKnown(o.world)
  {
    assert Refund(b, p, stack).tables == b.tables;
    PreparedReply(w, Refund(b, p, stack), c, TableNotice(e), lost);
  }

  lemma TakeSeatPublished(w: World, c: ClientId, id: string, seat: Option<int>, stack: int, wx: Weather)
    requires c in w.clients && MapValid(w.bank.tables) && HubKnown(w)
    ensures var o := TakeSeat(w, c, id, seat, stack, wx); Published(w, o.world, o.posts) && HubKnown(o.world)
  {
    var me := w.clients[c];
    SitMoves(w, c, id, seat, stack);
    var (b, error) := Sit(w.bank, id, me.player, me.nickname, stack, seat);
    if error.Some? {
      RefusalPublished(w, b, me.player, stack, c, error.value, wx.second);
    } else {
      AnnouncePublished(w, SetState(w.(bank := b), c, id, true), id, "join_table", me.player, wx.second);
    }
  }

  lemma EnterTablePublished(w: World, c: ClientId, id: string, seat: Option<int>, stack: int, wx: Weather)
    requires c in w.clients && MapValid(w.bank.tables) && HubKnown(w)
    ensures var o := EnterTable(w, c, id, seat, stack, wx); Published(w, o.world, o.posts) && HubKnown(o.world)
  {
    if w.clients[c].seated {
      SwitchPublished(w, c, wx.first);
      var (away, posts) := SwitchAway(w, c, wx.first);
      TakeSeatPublished(away, c, id, seat, stack, wx);
      var o := TakeSeat(away, c, id, seat, stack, wx);
      PublishedTwice(w, away, o.world, posts, o.posts);
    } else {
      TakeSeatPublished(w, c, id, seat, stack, wx);
    }
  }

  lemma PreparedEntry(w: World, b: Bank, c: ClientId, id: string, seat: Option<int>, stack: int, wx: Weather)
    requires c in w.clients && MapValid(w.bank.tables) && MapValid(b.tables) && HubKnown(w)
    requires forall other :: At(b, other) == At(w.bank, other)
    ensures var o := EnterTable(w.(bank := b), c, id, seat, stack, wx);
        Published(w, o.world, o.posts) && HubKnown(o.world)
  {
    var v := w.(bank := b);
    QuietPublished(w, v, []);
    EnterTablePublished(v, c, id, seat, stack, wx);
    var o := EnterTable(v, c, id, seat, stack, wx);
    PublishedTwice(w, v, o.world, [], o.posts);
    assert [] + o.posts == o.posts;
  }

  lemma HandleJoinPublished(w: World, c: ClientId, req: JoinRequest, wx: Weather)
    requires c in w.clients && MapValid(w.bank.tables) && HubKnown(w)
    ensures var o := HandleJoin(w, c, req, wx); Published(w, o.world, o.posts) && HubKnown(o.world)
  {
    var me, id := w.clients[c], Resolve(w.cfg, req.tableId);
    TableAtValid(w.bank.tables, id);
    if me.seated && me.tableId == id {
      PreparedReply(w, Look(w.bank, id), c, EnvelopeOf(At(w.bank, id)), wx.second);
    } else {
      NewTablePublished(w, c, req, wx);
    }
  }

  lemma NewTablePublished(w: World, c: ClientId, req: JoinRequest, wx: Weather)
    requires c in w.clients && MapValid(w.bank.tables) && HubKnown(w)
    requires !(w.clients[c].seated && w.clients[c].tableId == Resolve(w.cfg, req.tableId))
    ensures var o := HandleJoin(w, c, req, wx); Published(w, o.world, o.posts) && HubKnown(o.world)
  {
    var me, id := w.clients[c], Resolve(w.cfg, req.tableId);
    TableAtValid(w.bank.tables, id);
    var (checked, invalid) := Prevalidate(w.bank, id, req.seat);
    var (paid, receipt) := Consume(checked, me.player, id);
    if invalid.Some? {
      PreparedReply(w, checked, c, TableNotice(invalid.value), wx.second);
    } else if receipt.Err? {
      PreparedReply(w, paid, c, BuyInNotice(receipt.error), wx.second);
    } else {
      PreparedEntry(w, paid, c, id, req.seat, receipt.value.amount, wx);
    }
  }

  lemma HandleLeavePublished(w: World, c: ClientId, requested: string, wx: Weather)
    requires c in w.clients && MapValid(w.bank.tables) && HubKnown(w)
    ensures var o := HandleLeave(w, c, requested, wx); Published(w, o.world, o.posts) && HubKnown(o.world)
  {
    var id := if TrimSpace(requested) != "" then Resolve(w.cfg, requested) else w.clients[c].tableId;
    DepartPublished(w, c, id, true, "leave_table", wx.second);
    var (left, posts, error) := Depart(w, c, id, true, "leave_table", wx.second);
    if error.Some? {
      assert posts == [];
      var o := Reply(left, c, TableNotice(error.value), wx.second);
      ReplyPublished(left, c, TableNotice(error.value), wx.second);
      PublishedTwice(w, left, left, [], o.posts);
      assert [] + o.posts == o.posts;
    }
  }

  lemma ClosePublished(w: World, c: ClientId, lost: set<ClientId>)
    requires c in w.clients && MapValid(w.bank.tables) && HubKnown(w)
    ensures var (b, posts) := CloseClient(w, c, lost);
            Published(w, b, posts) && HubKnown(b) && c !in b.hub
  {
    if w.clients[c].seated {
      DepartPublished(w, c, w.clients[c].tableId, false, "disconnect_leave", lost);
    } else {
      QuietPublished(w, w, []);
    }
    var (left, posts, _) := if w.clients[c].seated
        then Depart(w, c, w.clients[c].tableId, false, "disconnect_leave", lost) else (w, [], None);
    QuietPublished(left, left.(hub := left.hub - {c}), []);
    PublishedTwice(w, left, left.(hub := left.hub - {c}), posts, []);
    assert posts + [] == posts;
  }

  lemma DispatchPublished(w: World, c: ClientId, e: ClientEnvelope, wx: Weather)
    requires c in w.clients && MapValid(w.bank.tables) && HubKnown(w)
    ensures var o := Dispatch(w, c, e, wx); Published(w, o.world, o.posts) && HubKnown(o.world)
  {
    if e.eventType == "join_table" && e.payload.join.Some? {
      HandleJoinPublished(w, c, e.payload.join.value, wx);
    } else if e.eventType == "leave_table" && e.payload.leave.Some? {
      HandleLeavePublished(w, c, e.payload.leave.value, wx);
    } else {
      var n := if e.eventType == "join_table" then INVALID_JOIN
          else if e.eventType == "leave_table" then INVALID_LEAVE else UNSUPPORTED;
      ReplyPublished(w, c, n, wx.second);
    }
  }

  // ---------- Runs ----------

  lemma {:induction false} Delivered(mail: map<ClientId, seq<Envelope>>, posts: seq<Post>, c: ClientId, e: Envelope)
    ensures e in Received(DeliverAll(mail, posts), c)
            <==> e in Received(mail, c) || exists i :: 0 <= i < |posts| && c in posts[i].to && posts[i].envelope == e
  {
    if posts != [] {
      var n := |posts| - 1;
      Delivered(mail, posts[..n], c, e);
      assert posts == posts[..n] + [posts[n]];
      assert forall i | 0 <= i < n :: posts[..n][i] == posts[i];
    }
  }

  // Every client in the hub has received its table's present snapshot.
  ghost predicate Informed(s: System) {
    forall c | c in s.world.hub ::
      c in s.world.clients && EnvelopeOf(At(s.world.bank, s.world.clients[c].tableId)) in Received(s.mail, c)
  }

  // Nothing received or remembered is ahead of, or at odds with, the tables.
  ghost predicate NothingAhead(s: System) {
    && (forall c, e | e in Received(s.mail, c) :: UpToDate(s.world.bank, e))
    && (forall c, id, e | c in s.caches && id in s.caches[c].entries && e in s.caches[c].entries[id].envelopes ::
          UpToDate(s.world.bank, e))
  }

  ghost predicate WatchersInOrder(s: System) {
    MapValid(s.world.bank.tables) && HubKnown(s.world) && Informed(s) && NothingAhead(s)
  }

  /** A handler that kept its promises leaves all watchers informed. */
  lemma {:induction false} PublishedInforms(s: System, w: World, posts: seq<Post>)
    requires WatchersInOrder(s) && Published(s.world, w, posts) && HubKnown(w)
    ensures WatchersInOrder(s.(world := w, mail := DeliverAll(s.mail, posts)))
  {
    var t := s.(world := w, mail := DeliverAll(s.mail, posts));
    forall c | c in w.hub
      ensures EnvelopeOf(At(w.bank, w.clients[c].tableId)) in Received(t.mail, c)
    {
      Delivered(s.mail, posts, c, EnvelopeOf(At(w.bank, w.clients[c].tableId)));
    }
    forall c, e | e in Received(t.mail, c)
      ensures UpToDate(w.bank, e)
    {
      Delivered(s.mail, posts, c, e);
      if e in Received(s.mail, c) {
        UpToDateLater(s.world.bank, w.bank, e);
      }
    }
    forall c, id, e | c in t.caches && id in t.caches[c].entries && e in t.caches[c].entries[id].envelopes
      ensures UpToDate(w.bank, e)
    {
      UpToDateLater(s.world.bank, w.bank, e);
    }
  }

  // What a cache holds after an operation, it held before, or was given.
  lemma StoreSources(c: Cache, id: RequestId, eventType: string, responses: seq<Envelope>, now: int, at: int)
    ensures forall k | k in Store(c, id, eventType, responses, now, at).entries ::
              var es := Store(c, id, eventType, responses, now, at).entries[k].envelopes;
              es == responses || (k in c.entries && es == c.entries[k].envelopes)
  {
    var d := Evict(c, now);
    if id.text != "" && responses != [] && id !in d.entries {
      CapSources(Cache(d.order + [id], d.entries[id := Entry(eventType, responses, at)]));
    }
  }

  lemma {:induction false} CapSources(c: Cache)
    ensures forall k | k in Cap(c).entries :: k in c.entries && Cap(c).entries[k] == c.entries[k]
    decreases |c.order|
  {
    if |c.order| > MAX_IDEMPOTENCY_ENTRIES {
      CapSources(Cache(c.order[1..], c.entries - {c.order[0]}));
    }
  }

  lemma CacheReplaced(s: System, c: ClientId, cache: Cache, logs: map<ClientId, seq<Stored>>, live: set<ClientId>)
    requires WatchersInOrder(s)
    requires forall id, e | id in cache.entries && e in cache.entries[id].envelopes :: UpToDate(s.world.bank, e)
    ensures WatchersInOrder(s.(caches := s.caches[c := cache], logs := logs, live := live))
  {
  }

  lemma ShutInforms(s: System, c: ClientId, lost: set<ClientId>)
    requires WatchersInOrder(s) && c in s.world.clients
    ensures WatchersInOrder(Shut(s, c, lost))
  {
    ClosePublished(s.world, c, lost);
    var (w, posts) := CloseClient(s.world, c, lost);
    PublishedInforms(s, w, posts);
  }

  lemma CacheUpToDate(s: System, c: ClientId)
    requires WatchersInOrder(s)
    ensures forall id, e | id in CacheOf(s, c).entries && e in CacheOf(s, c).entries[id].envelopes ::
        UpToDate(s.world.bank, e)
  {
  }

  lemma HandleInforms(s: System, e: Event)
    requires WatchersInOrder(s) && e.MessageEvent? && e.client in s.world.clients
    ensures WatchersInOrder(Handle(s, e))
  {
    var c := e.client;
    DispatchPublished(s.world, c, e.envelope, e.wx);
    var o := Dispatch(s.world, c, e.envelope, e.wx);
    var done := s.(world := o.world, mail := DeliverAll(s.mail, o.posts));
    PublishedInforms(s, o.world, o.posts);
    if o.failed {
      ShutInforms(done, c, e.wx.third);
    } else {
      var id, kind := e.envelope.requestId, e.envelope.eventType;
      StoreSources(CacheOf(s, c), id, kind, o.replies, e.evictAt, e.storeAt);
      CacheUpToDate(done, c);
      assert forall r | r in o.replies :: UpToDate(o.world.bank, r);
      CacheReplaced(done, c, Store(CacheOf(s, c), id, kind, o.replies, e.evictAt, e.storeAt), Handle(s, e).logs,
          done.live);
    }
  }

  lemma ReplayInforms(s: System, c: ClientId, envelopes: seq<Envelope>, wx: Weather)
    requires WatchersInOrder(s) && c in s.world.clients
    requires forall e | e in envelopes :: UpToDate(s.world.bank, e)
    ensures WatchersInOrder(Replay(s, c, envelopes, wx))
  {
    if c in wx.second && envelopes != [] {
      ShutInforms(s, c, wx.third);
    } else {
      var posts := seq(|envelopes|, i requires 0 <= i < |envelopes| => Post({c}, envelopes[i]));
      assert forall i | 0 <= i < |posts| :: posts[i].envelope in envelopes;
      QuietPublished(s.world, s.world, posts);
      PublishedInforms(s, s.world, posts);
    }
  }

  lemma ServeInforms(s: System, e: Event)
    requires WatchersInOrder(s) && e.MessageEvent? && e.client in s.world.clients
    ensures WatchersInOrder(Serve(s, e))
  {
    var c := e.client;
    CacheUpToDate(s, c);
    var (cache, hit) := Lookup(CacheOf(s, c), e.envelope.requestId, e.envelope.eventType, e.readAt);
    CacheReplaced(s, c, cache, s.logs, s.live + {c});
    var looked := s.(caches := s.caches[c := cache], live := s.live + {c});
    if hit.Some? {
      ReplayInforms(looked, c, hit.value, e.wx);
    } else {
      HandleInforms(looked, e);
    }
  }

  // Tables as they were, one client added or moved to the default table, and, unless it is left out
  // of the hub, told how that table stands.
  lemma {:induction false} NewcomerInforms(s: System, t: System, c: ClientId, posts: seq<Post>)
    requires WatchersInOrder(s) && MapValid(t.world.bank.tables)
    requires forall id :: At(t.world.bank, id) == At(s.world.bank, id)
    requires t.caches == s.caches && t.mail == DeliverAll(s.mail, posts)
    requires t.world.clients.Keys == s.world.clients.Keys + {c}
    requires forall d | d in s.world.clients && d != c :: t.world.clients[d] == s.world.clients[d]
    requires var e := EnvelopeOf(At(s.world.bank, t.world.clients[c].tableId));
             (posts == [] && t.world.hub == s.world.hub - {c})
                 || (posts == [Post({c}, e)] && t.world.hub == s.world.hub + {c})
    ensures WatchersInOrder(t)
  {
    TableAtValid(s.world.bank.tables, t.world.clients[c].tableId);
    SameTablesNothingAhead(s, t, c, posts);
    forall d | d in t.world.hub
      ensures EnvelopeOf(At(t.world.bank, t.world.clients[d].tableId)) in Received(t.mail, d)
    {
      Delivered(s.mail, posts, d, EnvelopeOf(At(s.world.bank, t.world.clients[d].tableId)));
      if d == c {
        assert d in posts[0].to;
      }
    }
  }

  lemma {:induction false} SameTablesNothingAhead(s: System, t: System, c: ClientId, posts: seq<Post>)
    requires NothingAhead(s) && t.caches == s.caches && t.mail == DeliverAll(s.mail, posts)
    requires forall id :: At(t.world.bank, id) == At(s.world.bank, id)
    requires forall i | 0 <= i < |posts| :: UpToDate(s.world.bank, posts[i].envelope)
    ensures NothingAhead(t)
  {
    forall d, e | e in Received(t.mail, d)
      ensures UpToDate(t.world.bank, e)
    {
      Delivered(s.mail, posts, d, e);
      assert UpToDate(s.world.bank, e);
    }
    forall d, id, e | d in t.caches && id in t.caches[d].entries && e in t.caches[d].entries[id].envelopes
      ensures UpToDate(t.world.bank, e)
    {
      assert UpToDate(s.world.bank, e);
    }
  }

  lemma ConnectInforms(s: System, e: Event)
    requires WatchersInOrder(s) && e.ConnectEvent?
    ensures WatchersInOrder(Step(s, e))
  {
    ConnectShape(s.world, e.client, e.player, e.nickname, e.wx);
    assert s.world.hub + {e.client} - {e.client} == s.world.hub - {e.client};
    ArrivalInforms(s, Step(s, e), e.client, e.player, e.nickname, e.client in e.wx.second);
  }

  lemma ArrivalInforms(s: System, t: System, c: ClientId, p: string, nickname: string, dropped: bool)
    requires WatchersInOrder(s) && t.caches == s.caches
    requires t.world.bank == Look(s.world.bank, s.world.cfg.defaultTable)
    requires t.world.clients == s.world.clients[c := Client(p, nickname, s.world.cfg.defaultTable, false)]
    requires t.world.hub == if dropped then s.world.hub - {c} else s.world.hub + {c}
    requires t.mail == DeliverAll(s.mail, if dropped then []
                                          else [Post({c}, EnvelopeOf(At(s.world.bank, s.world.cfg.defaultTable)))])
    ensures WatchersInOrder(t)
  {
    TableAtValid(s.world.bank.tables, s.world.cfg.defaultTable);
    var greeting := EnvelopeOf(At(s.world.bank, s.world.cfg.defaultTable));
    NewcomerInforms(s, t, c, if dropped then [] else [Post({c}, greeting)]);
  }

  lemma BankInforms(s: System, b: Bank)
    requires WatchersInOrder(s) && b.tables == s.world.bank.tables
    ensures WatchersInOrder(s.(world := s.world.(bank := b)))
  {
    var w := s.world.(bank := b);
    assert forall id :: At(b, id) == At(s.world.bank, id);
    QuietPublished(s.world, w, []);
    PublishedInforms(s, w, []);
  }

  lemma StepInforms(s: System, e: Event)
    requires WatchersInOrder(s)
    ensures WatchersInOrder(Step(s, e))
  {
    if Known(s, e) {
      match e
      case GrantEvent(p, initial) => BankInforms(s, Grant(s.world.bank, p, initial));
      case BuyInEvent(p, id, amount) => BankInforms(s, Buy(s.world.bank, p, Resolve(s.world.cfg, id), amount));
      case ConnectEvent(_, _, _, _) => ConnectInforms(s, e);
      case MessageEvent(_, _, _, _, _, _) => ServeInforms(s, e);
      case CloseEvent(c, wx) => ShutInforms(s, c, wx.third);
    }
  }

  lemma {:induction false} RunInforms(s: System, events: seq<Event>)
    requires WatchersInOrder(s)
    ensures WatchersInOrder(Run(s, events))
  {
    if events != [] {
      RunInforms(s, events[..|events| - 1]);
      StepInforms(Run(s, events[..|events| - 1]), events[|events| - 1]);
    }
  }

  // The client has received its table's present snapshot, which outranks every other snapshot of
  // that table it ever received.
  ghost predicate Agrees(s: System, c: ClientId) {
    && c in s.world.clients
    && var id := s.world.clients[c].tableId;
       var now := EnvelopeOf(At(s.world.bank, id));
       && now in Received(s.mail, c)
       && forall e | e in Received(s.mail, c) && e.TableSnapshot? && e.tableId == id ::
            e.version < now.version || e == now
  }

  lemma InformedAgrees(s: System, c: ClientId)
    requires WatchersInOrder(s) && c in s.world.hub
    ensures Agrees(s, c)
  {
    var id := s.world.clients[c].tableId;
    forall e | e in Received(s.mail, c) && e.TableSnapshot? && e.tableId == id
      ensures e.version < EnvelopeOf(At(s.world.bank, id)).version || e == EnvelopeOf(At(s.world.bank, id))
    {
      assert UpToDate(s.world.bank, e);
    }
  }

  lemma BootInforms(cfg: Config)
    ensures WatchersInOrder(Boot(cfg))
  {
  }

  /** After every handler of every run, whatever writes failed: each client still in the hub has
      received the present snapshot of its table, and of all snapshots of that table it ever
      received, that one has the highest version. */
  lemma {:induction false} WatchersAgree(cfg: Config, events: seq<Event>, s: System, c: ClientId)
    requires s == Run(Boot(cfg), events) && c in s.world.hub
    ensures Agrees(s, c)
  {
    BootInforms(cfg);
    RunInforms(Boot(cfg), events);
    InformedAgrees(s, c);
  }
}
