/** The read loop of one WebSocket connection: replay, dispatch, remember, until a write fails or
    the client is gone, and then the deferred close. */
module ReadLoops {
  import opened Basics
  import opened Caches
  import opened Worlds
  import opened Apps
  import opened RequestCaches

  // What one message does, as seen by its own connection.
  datatype Turn = Turn(world: World, cache: Cache, posts: seq<Post>, open: bool)

  function Settled(o: Outcome, cache: Cache, e: Event): Turn
    requires e.MessageEvent? && e.client in o.world.clients
  {
    if o.failed then
      var (w, posts) := CloseClient(o.world, e.client, e.wx.third);
      Turn(w, cache, o.posts + posts, false)
    else
      Turn(o.world, Store(cache, e.envelope.requestId, e.envelope.eventType, o.replies, e.evictAt, e.storeAt),
          o.posts, true)
  }

  function Replayed(w: World, cache: Cache, e: Event, envelopes: seq<Envelope>): Turn
    requires e.MessageEvent? && e.client in w.clients
  {
    if e.client in e.wx.second && envelopes != [] then
      var (v, posts) := CloseClient(w, e.client, e.wx.third);
      Turn(v, cache, posts, false)
    else
      Turn(w, cache, Repeated(e.client, envelopes), true)
  }

  function TakeTurn(w: World, cache: Cache, e: Event): (t: Turn)
    requires e.MessageEvent? && e.client in w.clients
    ensures t.world.clients.Keys == w.clients.Keys
  {
    var (looked, hit) := Lookup(cache, e.envelope.requestId, e.envelope.eventType, e.readAt);
    if hit.Some? then Replayed(w, looked, e, hit.value)
    else Settled(Dispatch(w, e.client, e.envelope, e.wx), looked, e)
  }

  lemma SettleIsSettled(s: System, e: Event, o: Outcome)
    requires e.MessageEvent? && e.client in o.world.clients && Answers(o)
    ensures var after, t := Settle(s, e, o), Settled(o, CacheOf(s, e.client), e);
            after.world == t.world && CacheOf(after, e.client) == t.cache && after.mail == DeliverAll(s.mail, t.posts)
  {
    if o.failed {
      DeliverInTurn(s.mail, o.posts, CloseClient(o.world, e.client, e.wx.third).1);
    }
  }

  /** A turn of one connection's loop is a message step of the whole system. */
  lemma ServeIsTurn(s: System, e: Event)
    requires e.MessageEvent? && e.client in s.world.clients
    ensures var after, t := Serve(s, e), TakeTurn(s.world, CacheOf(s, e.client), e);
            after.world == t.world && CacheOf(after, e.client) == t.cache && after.mail == DeliverAll(s.mail, t.posts)
  {
    var c := e.client;
    var (cache, hit) := Lookup(CacheOf(s, c), e.envelope.requestId, e.envelope.eventType, e.readAt);
    if hit.None? {
      var looked := s.(caches := s.caches[c := cache], live := s.live + {c});
      SettleIsSettled(looked, e, Dispatch(s.world, c, e.envelope, e.wx));
    }
  }

  // ---------- The whole conversation ----------

  // The messages of one client, and the loss of the connection after them.
  ghost predicate Conversation(c: ClientId, messages: seq<Event>) {
    forall e | e in messages :: e.MessageEvent? && e.client == c
  }

  ghost function Talk(w: World, cache: Cache, c: ClientId, messages: seq<Event>, lost: set<ClientId>)
    : (World, Cache, seq<Post>)
    requires Conversation(c, messages) && c in w.clients
    decreases |messages|
  {
    if messages == [] then
      var (v, posts) := CloseClient(w, c, lost);
      (v, cache, posts)
    else
      var t := TakeTurn(w, cache, messages[0]);
      if !t.open then (t.world, t.cache, t.posts)
      else
        var (v, last, posts) := Talk(t.world, t.cache, c, messages[1..], lost);
        (v, last, t.posts + posts)
  }

  // The events that take place: messages up to the first that fails, else all and the final close.
  ghost function Happened(w: World, cache: Cache, c: ClientId, messages: seq<Event>, wx: Weather): seq<Event>
    requires Conversation(c, messages) && c in w.clients
    decreases |messages|
  {
    if messages == [] then [CloseEvent(c, wx)]
    else
      var t := TakeTurn(w, cache, messages[0]);
      if !t.open then [messages[0]] else [messages[0]] + Happened(t.world, t.cache, c, messages[1..], wx)
  }

  lemma {:induction false} RunCons(s: System, e: Event, events: seq<Event>)
    ensures Run(s, [e] + events) == Run(Step(s, e), events)
  {
    if events == [] {
      assert [e] + events == [e];
      assert Run(s, [e][..0]) == s;
    } else {
      var n := |events| - 1;
      RunCons(s, e, events[..n]);
      assert ([e] + events)[..|events|] == [e] + events[..n];
    }
  }

  /** An undisturbed conversation is a run of the system. */
  lemma {:induction false} TalkIsRun(s: System, c: ClientId, messages: seq<Event>, wx: Weather)
    requires Conversation(c, messages) && c in s.world.clients
    ensures var (w, cache, posts) := Talk(s.world, CacheOf(s, c), c, messages, wx.third);
            var after := Run(s, Happened(s.world, CacheOf(s, c), c, messages, wx));
            after.world == w && CacheOf(after, c) == cache && after.mail == DeliverAll(s.mail, posts)
    decreases messages
  {
    if messages == [] {
      RunCons(s, CloseEvent(c, wx), []);
    } else {
      var e := messages[0];
      assert e in messages;
      var t := TakeTurn(s.world, CacheOf(s, c), e);
      ServeIsTurn(s, e);
      if t.open {
        TalkIsRun(Step(s, e), c, messages[1..], wx);
        RunCons(s, e, Happened(t.world, t.cache, c, messages[1..], wx));
        DeliverInTurn(s.mail, t.posts, Talk(t.world, t.cache, c, messages[1..], wx.third).2);
      } else {
        RunCons(s, e, []);
      }
    }
  }

  function Onward(sent: seq<Post>, rest: (World, Cache, seq<Post>)): (World, Cache, seq<Post>) {
    (rest.0, rest.1, sent + rest.2)
  }

  // The conversation from message i on, after what was sent before.
  ghost function TalkFrom(sent: seq<Post>, w: World, cache: Cache, c: ClientId, messages: seq<Event>, i: nat,
      lost: set<ClientId>)
    : (World, Cache, seq<Post>)
    requires i <= |messages| && Conversation(c, messages) && c in w.clients
  {
    Onward(sent, Talk(w, cache, c, messages[i..], lost))
  }

  lemma TalkStep(sent: seq<Post>, w: World, cache: Cache, c: ClientId, messages: seq<Event>, i: nat,
      lost: set<ClientId>)
    requires i < |messages| && Conversation(c, messages) && c in w.clients
    ensures messages[i].MessageEvent? && messages[i].client == c
    ensures var t := TakeTurn(w, cache, messages[i]);
            TalkFrom(sent, w, cache, c, messages, i, lost)
            == if t.open then TalkFrom(sent + t.posts, t.world, t.cache, c, messages, i + 1, lost)
                else (t.world, t.cache, sent + t.posts)
  {
    assert messages[i] in messages;
    assert messages[i..][0] == messages[i] && messages[i..][1..] == messages[i + 1..];
    var t := TakeTurn(w, cache, messages[i]);
    if t.open {
      var rest := Talk(t.world, t.cache, c, messages[i + 1..], lost).2;
      assert sent + (t.posts + rest) == (sent + t.posts) + rest;
    }
  }

  lemma {:induction false} TalkStart(w: World, cache: Cache, c: ClientId, messages: seq<Event>, lost: set<ClientId>)
    requires Conversation(c, messages) && c in w.clients
    ensures TalkFrom([], w, cache, c, messages, 0, lost) == Talk(w, cache, c, messages, lost)
  {
    assert messages[0..] == messages;
    var rest := Talk(w, cache, c, messages, lost).2;
    assert [] + rest == rest;
  }

  lemma TalkEnd(sent: seq<Post>, w: World, cache: Cache, c: ClientId, messages: seq<Event>, lost: set<ClientId>)
    requires Conversation(c, messages) && c in w.clients
    ensures var (v, posts) := CloseClient(w, c, lost);
            TalkFrom(sent, w, cache, c, messages, |messages|, lost) == (v, cache, sent + posts)
  {
    assert messages[|messages|..] == [];
  }

  datatype Piece = TheApp | TheCache | Distance

  class Connection {
    const app: App
    const cache: RequestCache
    const client: ClientId

    ghost predicate Valid()
      reads app, app.store, app.tables, app.tables.Repr, app.Conns, cache, cache.buffer
    {
      client in app.Value.clients && forall piece :: Sound(piece)
    }

    ghost predicate Sound(piece: Piece)
      reads app, app.store, app.tables, app.tables.Repr, app.Conns, cache, cache.buffer
    {
      match piece
      case TheApp => app.Valid()
      case TheCache => cache.Valid()
      case Distance => app.Footprint() !! {cache, cache.buffer}
    }

    lemma Open()
      requires Valid()
      ensures app.Valid() && cache.Valid() && app.Footprint() !! {cache, cache.buffer}
    {
      assert Sound(TheApp) && Sound(TheCache) && Sound(Distance);
    }

    ghost function Footprint(): set<object>
      reads app, app.tables, cache
    {
      app.Footprint() + {cache, cache.buffer}
    }

    constructor (app: App, cache: RequestCache, client: ClientId)
      requires app.Valid() && cache.Valid() && client in app.Value.clients && app.Footprint() !! {cache, cache.buffer}
      ensures Valid() && this.app == app && this.cache == cache && this.client == client
    {
      this.app, this.cache, this.client := app, cache, client;
    }

    method Close(lost: set<ClientId>) returns (posts: seq<Post>)
      requires Valid()
      modifies Footprint()
      ensures Valid() && fresh(Footprint() - old(Footprint()))
      ensures (app.Value, posts) == CloseClient(old(app.Value), client, lost) && cache.Value == old(cache.Value)
    {
      Open();
      posts := app.CloseClient(client, lost);
    }

    method Dispatched(e: Event) returns (posts: seq<Post>, replies: seq<Envelope>, failed: bool)
      requires Valid() && e.MessageEvent? && e.client == client
      modifies Footprint()
      ensures Valid() && fresh(Footprint() - old(Footprint())) && cache.Value == old(cache.Value)
      ensures Outcome(app.Value, posts, replies, failed) == Dispatch(old(app.Value), client, e.envelope, e.wx)
    {
      Open();
      posts, replies, failed := app.DispatchEvent(client, e.envelope, e.wx);
    }

    method Recall(e: Event) returns (cached: Option<seq<Envelope>>)
      requires Valid() && e.MessageEvent?
      modifies Footprint()
      ensures Valid() && fresh(Footprint() - old(Footprint())) && app.Value == old(app.Value)
      ensures (cache.Value, cached) == Lookup(old(cache.Value), e.envelope.requestId, e.envelope.eventType, e.readAt)
    {
      Open();
      cached := cache.Lookup(e.envelope.requestId, e.envelope.eventType, e.readAt);
    }

    method Remember(e: Event, replies: seq<Envelope>)
      requires Valid() && e.MessageEvent?
      modifies Footprint()
      ensures Valid() && fresh(Footprint() - old(Footprint())) && app.Value == old(app.Value)
      ensures cache.Value == Store(old(cache.Value), e.envelope.requestId, e.envelope.eventType, replies, e.evictAt,
          e.storeAt)
    {
      Open();
      cache.Store(e.envelope.requestId, e.envelope.eventType, replies, e.evictAt, e.storeAt);
    }

    // ReplayIdempotent, once the cached response was found: the envelopes are written again.
    method Resend(envelopes: seq<Envelope>, lost: set<ClientId>) returns (posts: seq<Post>, failed: bool)
      ensures failed <==> client in lost && envelopes != []
      ensures posts == if failed then [] else Repeated(client, envelopes)
    {
      posts, failed := [], false;
      for i := 0 to |envelopes|
        invariant posts == Repeated(client, envelopes[..i])
        invariant i > 0 ==> client !in lost
      {
        if client in lost {
          return [], true;
        }
        assert envelopes[..i + 1] == envelopes[..i] + [envelopes[i]];
        posts := posts + [Post({client}, envelopes[i])];
      }
      assert envelopes[..|envelopes|] == envelopes;
    }

    method Serve(e: Event) returns (posts: seq<Post>, open: bool)
      requires Valid() && e.MessageEvent? && e.client == client
      modifies Footprint()
      ensures Valid() && fresh(Footprint() - old(Footprint()))
      ensures Turn(app.Value, cache.Value, posts, open) == TakeTurn(old(app.Value), old(cache.Value), e)
    {
      var cached := Recall(e);
      var failed, replies;
      if cached.Some? {
        posts, failed := Resend(cached.value, e.wx.second);
        if failed {
          posts := Close(e.wx.third);
        }
        return posts, !failed;
      }
      posts, replies, failed := Dispatched(e);
      if failed {
        var more := Close(e.wx.third);
        return posts + more, false;
      }
      Remember(e, replies);
      return posts, true;
    }

    // One iteration: the message is served, and what remains is the conversation from the next on.
    method ServeNext(messages: seq<Event>, i: nat, ghost lost: set<ClientId>, sent: seq<Post>)
      returns (posts: seq<Post>, open: bool)
      requires Valid() && Conversation(client, messages) && i < |messages|
      modifies Footprint()
      ensures Valid() && fresh(Footprint() - old(Footprint()))
      ensures TalkFrom(sent, old(app.Value), old(cache.Value), client, messages, i, lost)
              == if open then TalkFrom(posts, app.Value, cache.Value, client, messages, i + 1, lost)
                 else (app.Value, cache.Value, posts)
    {
      TalkStep(sent, app.Value, cache.Value, client, messages, i, lost);
      var more, goOn := Serve(messages[i]);
      return sent + more, goOn;
    }

    /** The loop of handleWebSocket over the messages that arrive, and the deferred close. */
    method HandleWebSocket(messages: seq<Event>, lost: set<ClientId>) returns (posts: seq<Post>)
      requires Valid() && Conversation(client, messages)
      modifies Footprint()
      ensures Valid() && fresh(Footprint() - old(Footprint()))
      ensures (app.Value, cache.Value, posts) == Talk(old(app.Value), old(cache.Value), client, messages, lost)
    {
      posts := [];
      var open := true;
      ghost var all := Talk(app.Value, cache.Value, client, messages, lost);
      TalkStart(app.Value, cache.Value, client, messages, lost);
      for i := 0 to |messages|
        invariant Valid() && fresh(Footprint() - old(Footprint()))
        invariant all == TalkFrom(posts, app.Value, cache.Value, client, messages, i, lost)
      {
        posts, open := ServeNext(messages, i, lost, posts);
        if !open {
          return;
        }
      }
      TalkEnd(posts, app.Value, cache.Value, client, messages, lost);
      var more := Close(lost);
      posts := posts + more;
    }
  }
}
