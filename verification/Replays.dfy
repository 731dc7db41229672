/** Asking twice has the effect of asking once: over a whole run with any number of connections,
    the requests that were answered recently can be struck out without any other difference. */
module Replays {
  import opened Basics
  import opened Caches
  import opened Worlds

  // ---------- The caches follow the logs over a run ----------

  // The cache is the window of its log as of `seen`, and neither is ahead of the clock.
  ghost predicate FollowsAt(s: System, c: ClientId, seen: int, last: int) {
    seen <= last && Tracks(CacheOf(s, c), LogOf(s, c), seen) && ClockedBy(LogOf(s, c), last)
  }

  ghost predicate Follows(s: System, c: ClientId, last: int) {
    exists seen: int :: FollowsAt(s, c, seen, last)
  }

  ghost predicate CachesFollow(s: System, last: int) {
    forall c :: Follows(s, c, last)
  }

  // When the client's cache was last swept of expired responses: by the look-up of a message, and
  // again by the storing of its response.
  function EvictedBy(s: System, e: Event, c: ClientId, seen: int): int {
    if !(e.MessageEvent? && e.client == c && c in s.world.clients && e.envelope.requestId.text != "") then seen
    else if Lookup(CacheOf(s, c), e.envelope.requestId, e.envelope.eventType, e.readAt).1.Some?
            || Dispatch(s.world, c, e.envelope, e.wx).replies == []
    then e.readAt
    else e.evictAt
  }

  ghost function EvictedAt(s: System, events: seq<Event>, c: ClientId, start: int): int {
    if events == [] then start
    else
      var n := |events| - 1;
      EvictedBy(Run(s, events[..n]), events[n], c, EvictedAt(s, events[..n], c, start))
  }

  // The clock readings of one event, none before `last`.
  ghost predicate Timely(e: Event, last: int) {
    e.MessageEvent? ==> last <= e.readAt <= e.evictAt <= e.storeAt
  }

  function After(e: Event, last: int): int {
    if e.MessageEvent? then e.storeAt else last
  }

  function TimeAfter(events: seq<Event>, start: int): int {
    if events == [] then start else After(events[|events| - 1], TimeAfter(events[..|events| - 1], start))
  }

  ghost predicate TimelyRun(events: seq<Event>, start: int) {
    forall n | 0 <= n < |events| :: Timely(events[n], TimeAfter(events[..n], start))
  }

  // What settling does to caches and logs.
  lemma SettleCaches(s: System, e: Event, o: Outcome)
    requires e.MessageEvent? && e.client in o.world.clients && Answers(o)
    ensures var c, id, kind, t := e.client, e.envelope.requestId, e.envelope.eventType, Settle(s, e, o);
            && CacheOf(t, c) == Store(CacheOf(s, c), id, kind, o.replies, e.evictAt, e.storeAt)
            && LogOf(t, c) == Log(LogOf(s, c), CacheOf(s, c), id, kind, o.replies, e.evictAt, e.storeAt)
    ensures var t := Settle(s, e, o);
            forall d | d != e.client :: CacheOf(t, d) == CacheOf(s, d) && LogOf(t, d) == LogOf(s, d)
  {
  }

  // What one turn of the read loop does to caches and logs.
  lemma ServeCaches(s: System, e: Event)
    requires e.MessageEvent? && e.client in s.world.clients
    ensures var c, id, kind, t := e.client, e.envelope.requestId, e.envelope.eventType, Serve(s, e);
            var (cache, hit) := Lookup(CacheOf(s, c), id, kind, e.readAt);
            var replies := if hit.Some? then [] else Dispatch(s.world, c, e.envelope, e.wx).replies;
            && CacheOf(t, c) == Store(cache, id, kind, replies, e.evictAt, e.storeAt)
            && LogOf(t, c) == Log(LogOf(s, c), cache, id, kind, replies, e.evictAt, e.storeAt)
    ensures forall d | d != e.client :: CacheOf(Serve(s, e), d) == CacheOf(s, d) && LogOf(Serve(s, e), d) == LogOf(s, d)
  {
    var c := e.client;
    var (cache, hit) := Lookup(CacheOf(s, c), e.envelope.requestId, e.envelope.eventType, e.readAt);
    var looked := s.(caches := s.caches[c := cache], live := s.live + {c});
    if hit.None? {
      SettleCaches(looked, e, Dispatch(looked.world, c, e.envelope, e.wx));
    }
  }

  // A turn of the read loop keeps the cache the window of its log, as of the eviction it made.
  lemma ServeFollows(s: System, e: Event, seen: int, last: int)
    requires e.MessageEvent? && e.client in s.world.clients && FollowsAt(s, e.client, seen, last) && Timely(e, last)
    ensures FollowsAt(Serve(s, e), e.client, EvictedBy(s, e, e.client, seen), e.storeAt)
  {
    var c, id, kind := e.client, e.envelope.requestId, e.envelope.eventType;
    ServeCaches(s, e);
    LookupExact(CacheOf(s, c), LogOf(s, c), seen, id, kind, e.readAt);
    var (cache, hit) := Lookup(CacheOf(s, c), id, kind, e.readAt);
    var replies := if hit.Some? then [] else Dispatch(s.world, c, e.envelope, e.wx).replies;
    var looked := if id.text == "" then seen else e.readAt;
    StoreTracks(cache, LogOf(s, c), looked, id, kind, replies, e.evictAt, e.storeAt);
  }

  // A message is replayed exactly if it was answered recently.
  lemma HitExactly(s: System, e: Event, last: int)
    requires e.MessageEvent? && e.client in s.world.clients && Follows(s, e.client, last) && Timely(e, last)
    ensures Lookup(CacheOf(s, e.client), e.envelope.requestId, e.envelope.eventType, e.readAt).1.Some?
        <==> Repeats(s, e)
  {
    var c := e.client;
    var seen: int :| FollowsAt(s, c, seen, last);
    LookupExact(CacheOf(s, c), LogOf(s, c), seen, e.envelope.requestId, e.envelope.eventType, e.readAt);
  }

  lemma StepFollowsAt(s: System, e: Event, c: ClientId, seen: int, last: int)
    requires FollowsAt(s, c, seen, last) && Timely(e, last)
    ensures FollowsAt(Step(s, e), c, EvictedBy(s, e, c, seen), After(e, last))
  {
    if Known(s, e) && e.MessageEvent? {
      if e.client == c {
        ServeFollows(s, e, seen, last);
      } else {
        ServeCaches(s, e);
      }
    } else {
      assert CacheOf(Step(s, e), c) == CacheOf(s, c) && LogOf(Step(s, e), c) == LogOf(s, c);
    }
  }

  lemma StepFollows(s: System, e: Event, last: int)
    requires CachesFollow(s, last) && Timely(e, last)
    ensures CachesFollow(Step(s, e), After(e, last))
  {
    forall c
      ensures Follows(Step(s, e), c, After(e, last))
    {
      assert Follows(s, c, last);
      var seen: int :| FollowsAt(s, c, seen, last);
      StepFollowsAt(s, e, c, seen, last);
    }
  }

  lemma {:induction false} TimelyPrefix(events: seq<Event>, start: int)
    requires TimelyRun(events, start) && events != []
    ensures TimelyRun(events[..|events| - 1], start)
    ensures Timely(events[|events| - 1], TimeAfter(events[..|events| - 1], start))
  {
    var n := |events| - 1;
    assert forall k | 0 <= k < n :: events[..n][..k] == events[..k] && events[..n][k] == events[k];
  }

  /** After any timely run each cache is exactly the window of what its connection stored, as of its
      last eviction: no duplicates, queue and map in step, and the longest suffix of the accepted
      stores with at most 128 entries and none past its time then. */
  lemma {:induction false} RunFollows(s: System, events: seq<Event>, c: ClientId, start: int)
    requires FollowsAt(s, c, start, start) && TimelyRun(events, start)
    ensures FollowsAt(Run(s, events), c, EvictedAt(s, events, c, start), TimeAfter(events, start))
  {
    if events != [] {
      var n := |events| - 1;
      TimelyPrefix(events, start);
      RunFollows(s, events[..n], c, start);
      StepFollowsAt(Run(s, events[..n]), events[n], c, EvictedAt(s, events[..n], c, start),
          TimeAfter(events[..n], start));
    }
  }

  lemma {:induction false} RunCachesFollow(s: System, events: seq<Event>, start: int)
    requires CachesFollow(s, start) && TimelyRun(events, start)
    ensures CachesFollow(Run(s, events), TimeAfter(events, start))
  {
    if events != [] {
      var n := |events| - 1;
      TimelyPrefix(events, start);
      RunCachesFollow(s, events[..n], start);
      StepFollows(Run(s, events[..n]), events[n], TimeAfter(events[..n], start));
    }
  }

  lemma BootFollows(cfg: Config, start: int)
    ensures forall c :: FollowsAt(Boot(cfg), c, start, start)
    ensures CachesFollow(Boot(cfg), start)
  {
    forall c
      ensures FollowsAt(Boot(cfg), c, start, start) && Follows(Boot(cfg), c, start)
    {
      assert WindowFrom(EMPTY_CACHE, [], start, 0);
      assert Tracks(CacheOf(Boot(cfg), c), LogOf(Boot(cfg), c), start);
      assert FollowsAt(Boot(cfg), c, start, start);
    }
  }

  /** From a fresh server, at whatever moment the first message is read. */
  lemma {:induction false} CachesAreWindows(cfg: Config, events: seq<Event>, s: System, c: ClientId, start: int)
    requires TimelyRun(events, start) && s == Run(Boot(cfg), events)
    ensures Tracks(CacheOf(s, c), LogOf(s, c), EvictedAt(Boot(cfg), events, c, start))
  {
    BootFollows(cfg, start);
    RunFollows(Boot(cfg), events, c, start);
  }

  // ---------- Striking out repeats ----------

  /** The message repeats a request of the same kind whose response was stored fewer than 128
      stores ago and within the time to live. */
  ghost predicate Repeats(s: System, e: Event) {
    && e.MessageEvent? && e.client in s.world.clients
    && Answered(LogOf(s, e.client), e.envelope.requestId, e.envelope.eventType, e.readAt)
  }

  ghost function StruckOut(s: System, events: seq<Event>): seq<Event> {
    if events == [] then []
    else
      var n := |events| - 1;
      StruckOut(s, events[..n]) + (if Repeats(Run(s, events[..n]), events[n]) then [] else [events[n]])
  }

  // Everything an event makes the server send, other than a replay.
  ghost function PostsOf(s: System, e: Event): seq<Post> {
    if !Known(s, e) || Repeats(s, e) then []
    else match e
      case ConnectEvent(c, player, nickname, wx) => Connect(s.world, c, player, nickname, wx).1
      case CloseEvent(c, wx) => CloseClient(s.world, c, wx.third).1
      case MessageEvent(c, envelope, _, _, _, wx) =>
        var o := Dispatch(s.world, c, envelope, wx);
        o.posts + (if o.failed then CloseClient(o.world, c, wx.third).1 else [])
      case _ => []
  }

  ghost function AllPosts(s: System, events: seq<Event>): seq<Post> {
    if events == [] then []
    else AllPosts(s, events[..|events| - 1]) + PostsOf(Run(s, events[..|events| - 1]), events[|events| - 1])
  }

  // The writes of replays succeed.
  ghost predicate ReplaysDelivered(s: System, events: seq<Event>) {
    forall n | 0 <= n < |events| && Repeats(Run(s, events[..n]), events[n]) :: events[n].client !in events[n].wx.second
  }

  // The caches differ at most by what an eviction at `now` drops from either.
  ghost predicate SoonEqual(a: Cache, b: Cache, now: int) {
    Evict(a, now) == Evict(b, now)
  }

  // Same world and same logs, and caches that any eviction from now on makes equal.
  ghost predicate Alike(s: System, t: System, now: int) {
    s.world == t.world && s.logs == t.logs && forall c :: SoonEqual(CacheOf(s, c), CacheOf(t, c), now)
  }

  lemma EqualLater(a: Cache, b: Cache, now: int, later: int)
    requires SoonEqual(a, b, now) && now <= later
    ensures SoonEqual(a, b, later)
  {
    EvictAbsorbs(a, now, later);
    EvictAbsorbs(b, now, later);
  }

  // The cache after looking up and storing, from caches alike before.
  lemma CachesStayAlike(a: Cache, b: Cache, log: seq<Stored>, last: int, id: RequestId, kind: string,
      replies: seq<Envelope>,
                        readAt: int, evictAt: int, storeAt: int)
    requires SoonEqual(a, b, last) && last <= readAt <= evictAt <= storeAt
    ensures Lookup(a, id, kind, readAt).1 == Lookup(b, id, kind, readAt).1
    ensures var x, y := Lookup(a, id, kind, readAt).0, Lookup(b, id, kind, readAt).0;
            && SoonEqual(Store(x, id, kind, replies, evictAt, storeAt), Store(y, id, kind, replies, evictAt, storeAt),
                 storeAt)
            && Log(log, x, id, kind, replies, evictAt, storeAt) == Log(log, y, id, kind, replies, evictAt, storeAt)
  {
    EqualLater(a, b, last, readAt);
    EqualLater(a, b, last, evictAt);
    EqualLater(a, b, last, storeAt);
  }

  // A delivered replay changes nothing but the mail.
  lemma ReplayIsStill(s: System, e: Event)
    requires e.MessageEvent? && e.client in s.world.clients && e.client !in e.wx.second
    requires Lookup(CacheOf(s, e.client), e.envelope.requestId, e.envelope.eventType, e.readAt).1.Some?
    ensures Serve(s, e).world == s.world && Serve(s, e).logs == s.logs
  {
  }

  // A look-up leaves the cache as it was, but for what is evicted in due time.
  lemma LookupIsStill(c: Cache, id: RequestId, kind: string, now: int, later: int)
    requires now <= later
    ensures SoonEqual(Lookup(c, id, kind, now).0, c, later)
  {
    EvictAbsorbs(c, now, later);
  }

  // A replay keeps every cache as it was, but for what is evicted in due time.
  lemma ReplayKeepsCaches(s: System, e: Event, d: ClientId)
    requires e.MessageEvent? && e.client in s.world.clients && e.readAt <= e.storeAt
    requires Lookup(CacheOf(s, e.client), e.envelope.requestId, e.envelope.eventType, e.readAt).1.Some?
    ensures SoonEqual(CacheOf(Serve(s, e), d), CacheOf(s, d), e.storeAt)
  {
    ServeCaches(s, e);
    if d == e.client {
      LookupIsStill(CacheOf(s, d), e.envelope.requestId, e.envelope.eventType, e.readAt, e.storeAt);
    }
  }

  lemma StrikeStaysAlike(s: System, t: System, e: Event, last: int)
    requires CachesFollow(s, last) && Timely(e, last) && Alike(s, t, last)
    requires Repeats(s, e) && e.client !in e.wx.second
    ensures Alike(Step(s, e), t, e.storeAt)
  {
    var after := Serve(s, e);
    assert Lookup(CacheOf(s, e.client), e.envelope.requestId, e.envelope.eventType, e.readAt).1.Some? by {
      assert Follows(s, e.client, last);
      HitExactly(s, e, last);
    }
    ReplayIsStill(s, e);
    forall d
      ensures SoonEqual(CacheOf(after, d), CacheOf(t, d), e.storeAt)
    {
      assert SoonEqual(CacheOf(s, d), CacheOf(t, d), last);
      EqualLater(CacheOf(s, d), CacheOf(t, d), last, e.storeAt);
      ReplayKeepsCaches(s, e, d);
    }
    assert Step(s, e) == after;
  }

  // Settling the same outcome leaves the same world, and the same logs if it logs the same.
  lemma SettleSame(s: System, t: System, e: Event, o: Outcome)
    requires e.MessageEvent? && e.client in o.world.clients && s.logs == t.logs
    requires var c, id, kind := e.client, e.envelope.requestId, e.envelope.eventType;
             Log(LogOf(s, c), CacheOf(s, c), id, kind, o.replies, e.evictAt, e.storeAt)
             == Log(LogOf(t, c), CacheOf(t, c), id, kind, o.replies, e.evictAt, e.storeAt)
    ensures Settle(s, e, o).world == Settle(t, e, o).world && Settle(s, e, o).logs == Settle(t, e, o).logs
  {
  }

  // A message that is not replayed is dispatched and settled.
  lemma ServeSettles(s: System, e: Event)
    requires e.MessageEvent? && e.client in s.world.clients
    requires Lookup(CacheOf(s, e.client), e.envelope.requestId, e.envelope.eventType, e.readAt).1.None?
    ensures var c := e.client;
            var cache := Lookup(CacheOf(s, c), e.envelope.requestId, e.envelope.eventType, e.readAt).0;
            Serve(s, e) == Settle(s.(caches := s.caches[c := cache], live := s.live + {c}), e,
                Dispatch(s.world, c, e.envelope, e.wx))
  {
  }

  lemma ServeSame(s: System, t: System, e: Event, last: int)
    requires Timely(e, last) && Alike(s, t, last)
    requires e.MessageEvent? && e.client in s.world.clients
    requires Lookup(CacheOf(s, e.client), e.envelope.requestId, e.envelope.eventType, e.readAt).1.None?
    ensures Serve(s, e).world == Serve(t, e).world && Serve(s, e).logs == Serve(t, e).logs
    ensures SoonEqual(CacheOf(Serve(s, e), e.client), CacheOf(Serve(t, e), e.client), e.storeAt)
  {
    var c, id, kind := e.client, e.envelope.requestId, e.envelope.eventType;
    var o := Dispatch(s.world, c, e.envelope, e.wx);
    assert SoonEqual(CacheOf(s, c), CacheOf(t, c), last);
    CachesStayAlike(CacheOf(s, c), CacheOf(t, c), LogOf(s, c), last, id, kind, o.replies, e.readAt, e.evictAt,
        e.storeAt);
    ServeCaches(s, e);
    ServeCaches(t, e);
    ServeSettles(s, e);
    ServeSettles(t, e);
    SettleSame(s.(caches := s.caches[c := Lookup(CacheOf(s, c), id, kind, e.readAt).0], live := s.live + {c}),
               t.(caches := t.caches[c := Lookup(CacheOf(t, c), id, kind, e.readAt).0], live := t.live + {c}), e, o);
  }

  lemma ServeStaysAlike(s: System, t: System, e: Event, last: int)
    requires CachesFollow(s, last) && Timely(e, last) && Alike(s, t, last)
    requires e.MessageEvent? && e.client in s.world.clients && !Repeats(s, e)
    ensures Alike(Serve(s, e), Serve(t, e), e.storeAt)
  {
    assert Follows(s, e.client, last);
    HitExactly(s, e, last);
    ServeSame(s, t, e, last);
    ServeCaches(s, e);
    ServeCaches(t, e);
    forall d
      ensures SoonEqual(CacheOf(Serve(s, e), d), CacheOf(Serve(t, e), d), e.storeAt)
    {
      assert SoonEqual(CacheOf(s, d), CacheOf(t, d), last);
      EqualLater(CacheOf(s, d), CacheOf(t, d), last, e.storeAt);
    }
  }

  // Other events do not touch the caches and the logs.
  lemma OthersStayAlike(s: System, t: System, e: Event, last: int)
    requires Alike(s, t, last) && !e.MessageEvent?
    ensures Alike(Step(s, e), Step(t, e), last)
  {
    forall d
      ensures SoonEqual(CacheOf(Step(s, e), d), CacheOf(Step(t, e), d), last)
    {
      assert SoonEqual(CacheOf(s, d), CacheOf(t, d), last);
      assert CacheOf(Step(s, e), d) == CacheOf(s, d) && CacheOf(Step(t, e), d) == CacheOf(t, d);
    }
  }

  lemma StepStaysAlike(s: System, t: System, e: Event, last: int)
    requires CachesFollow(s, last) && Timely(e, last) && Alike(s, t, last) && !Repeats(s, e)
    ensures Alike(Step(s, e), Step(t, e), After(e, last))
    ensures PostsOf(t, e) == PostsOf(s, e)
  {
    if !e.MessageEvent? {
      OthersStayAlike(s, t, e, last);
    } else if Known(s, e) {
      ServeStaysAlike(s, t, e, last);
    } else {
      AlikeLater(s, t, last, e.storeAt);
    }
  }

  lemma AlikeLater(s: System, t: System, last: int, later: int)
    requires Alike(s, t, last) && last <= later
    ensures Alike(s, t, later)
  {
    forall d
      ensures SoonEqual(CacheOf(s, d), CacheOf(t, d), later)
    {
      EqualLater(CacheOf(s, d), CacheOf(t, d), last, later);
    }
  }

  // ---------- What is sent is what is delivered ----------

  lemma ServeDelivers(s: System, e: Event)
    requires e.MessageEvent? && e.client in s.world.clients && !Repeats(s, e)
    requires Lookup(CacheOf(s, e.client), e.envelope.requestId, e.envelope.eventType, e.readAt).1.None?
    ensures Serve(s, e).mail == DeliverAll(s.mail, PostsOf(s, e))
  {
    var o := Dispatch(s.world, e.client, e.envelope, e.wx);
    ServeSettles(s, e);
    if o.failed {
      DeliverInTurn(s.mail, o.posts, CloseClient(o.world, e.client, e.wx.third).1);
    } else {
      assert o.posts + [] == o.posts;
    }
  }

  /** A step that is no replay delivers exactly the messages counted for it. */
  lemma StepDelivers(s: System, e: Event, last: int)
    requires CachesFollow(s, last) && Timely(e, last) && !Repeats(s, e)
    ensures Step(s, e).mail == DeliverAll(s.mail, PostsOf(s, e))
  {
    if Known(s, e) && e.MessageEvent? {
      assert Follows(s, e.client, last);
      HitExactly(s, e, last);
      ServeDelivers(s, e);
    }
  }

  /** A delivered replay delivers exactly the response stored for the request, whichever of the
      recent entries of the log it is. */
  lemma ReplayDelivers(s: System, e: Event, last: int, i: nat)
    requires CachesFollow(s, last) && Timely(e, last) && Known(s, e) && e.MessageEvent? && e.client !in e.wx.second
    requires var log := LogOf(s, e.client);
             && i < |log| && Recent(log, i, e.readAt) && log[i].id == e.envelope.requestId && log[i].id.text != ""
             && log[i].entry.eventType == e.envelope.eventType
    ensures Step(s, e).mail == DeliverAll(s.mail, Repeated(e.client, LogOf(s, e.client)[i].entry.envelopes))
  {
    var c := e.client;
    assert Follows(s, c, last);
    var seen: int :| FollowsAt(s, c, seen, last);
    LookupExact(CacheOf(s, c), LogOf(s, c), seen, e.envelope.requestId, e.envelope.eventType, e.readAt);
    HitDelivers(s, e, LogOf(s, c)[i].entry.envelopes);
  }

  lemma HitDelivers(s: System, e: Event, envelopes: seq<Envelope>)
    requires e.MessageEvent? && Known(s, e) && e.client !in e.wx.second
    requires Lookup(CacheOf(s, e.client), e.envelope.requestId, e.envelope.eventType, e.readAt).1 == Some(envelopes)
    ensures Step(s, e).mail == DeliverAll(s.mail, Repeated(e.client, envelopes))
  {
  }

  // ---------- The promise to a client ----------

  // A message with a request id that is new, or long forgotten, and that gets an answer.
  ghost predicate FirstAnswer(s: System, e: Event) {
    && e.MessageEvent? && e.client in s.world.clients && e.envelope.requestId.text != ""
    && !Remembered(LogOf(s, e.client), e.envelope.requestId, e.readAt)
    && !Dispatch(s.world, e.client, e.envelope, e.wx).failed
  }

  // Its answer goes into the log, with the time it was stored.
  lemma AnswerLogged(s: System, e: Event, last: int)
    requires CachesFollow(s, last) && Timely(e, last) && FirstAnswer(s, e)
    ensures var c, id := e.client, e.envelope.requestId;
            var o := Dispatch(s.world, c, e.envelope, e.wx);
            LogOf(Step(s, e), c) == LogOf(s, c) + [Stored(id, Entry(e.envelope.eventType, o.replies, e.storeAt))]
  {
    var c, id, kind := e.client, e.envelope.requestId, e.envelope.eventType;
    assert Follows(s, c, last);
    var seen: int :| FollowsAt(s, c, seen, last);
    HitExactly(s, e, last);
    var cache := Lookup(CacheOf(s, c), id, kind, e.readAt).0;
    LookupExact(CacheOf(s, c), LogOf(s, c), seen, id, kind, e.readAt);
    RememberedExactly(cache, LogOf(s, c), e.readAt, id, e.evictAt);
    ForgottenStays(LogOf(s, c), id, e.readAt, e.evictAt);
    ServeCaches(s, e);
  }

  lemma ForgottenStays(hist: seq<Stored>, id: RequestId, now: int, later: int)
    requires now <= later
    ensures Remembered(hist, id, later) ==> Remembered(hist, id, now)
  {
    if i :| 0 <= i < |hist| && Recent(hist, i, later) && hist[i].id == id {
      assert Recent(hist, i, now);
    }
  }

  lemma ClientsStay(s: System, e: Event)
    ensures s.world.clients.Keys <= Step(s, e).world.clients.Keys
  {
  }

  // Logs only grow, and connections are not forgotten.
  lemma {:induction false} LogsGrow(s: System, events: seq<Event>, c: ClientId)
    ensures LogOf(s, c) <= LogOf(Run(s, events), c)
    ensures c in s.world.clients ==> c in Run(s, events).world.clients
  {
    if events != [] {
      var before, e := Run(s, events[..|events| - 1]), events[|events| - 1];
      LogsGrow(s, events[..|events| - 1], c);
      ClientsStay(before, e);
      if Known(before, e) && e.MessageEvent? {
        ServeCaches(before, e);
      }
    }
  }

  /** The promise to a client. A request is answered; then, whatever else the server does, the same
      request again, fewer than 128 answers and at most ten minutes later, gets the same answer, and
      nothing else happens. */
  lemma {:induction false} AskedAgain(s: System, e: Event, events: seq<Event>, again: Event, last: int)
    requires CachesFollow(s, last) && Timely(e, last) && FirstAnswer(s, e)
    requires TimelyRun(events, e.storeAt) && Timely(again, TimeAfter(events, e.storeAt))
    requires again.MessageEvent? && again.client == e.client && again.client !in again.wx.second
    requires again.envelope.requestId == e.envelope.requestId && again.envelope.eventType == e.envelope.eventType
    requires again.readAt - e.storeAt <= 600_000_000_000
    requires |LogOf(Run(Step(s, e), events), e.client)| - |LogOf(s, e.client)| <= 128
    ensures var t, o := Run(Step(s, e), events), Dispatch(s.world, e.client, e.envelope, e.wx);
            && Step(t, again).world == t.world
            && Step(t, again).mail == DeliverAll(t.mail, Repeated(e.client, o.replies))
  {
    var t, i := Run(Step(s, e), events), |LogOf(s, e.client)|;
    AnswerLogged(s, e, last);
    StepFollows(s, e, last);
    RunCachesFollow(Step(s, e), events, e.storeAt);
    LogsGrow(Step(s, e), events, e.client);
    var log := LogOf(t, e.client);
    assert log[i] == LogOf(Step(s, e), e.client)[i];
    assert Recent(log, i, again.readAt);
    ReplayDelivers(t, again, TimeAfter(events, e.storeAt), i);
    ReplayIsQuiet(t, again, TimeAfter(events, e.storeAt));
  }

  // A delivered replay changes nothing in the world.
  lemma ReplayIsQuiet(s: System, e: Event, last: int)
    requires CachesFollow(s, last) && Timely(e, last) && Known(s, e) && Repeats(s, e) && e.client !in e.wx.second
    ensures Step(s, e).world == s.world
  {
    assert Follows(s, e.client, last);
    HitExactly(s, e, last);
  }

  /** A message whose answer cannot be written ends its connection. */
  lemma FailureCloses(s: System, e: Event, last: int)
    requires CachesFollow(s, last) && Timely(e, last) && Known(s, e) && e.MessageEvent? && !Repeats(s, e)
    requires Dispatch(s.world, e.client, e.envelope, e.wx).failed
    ensures var t := Step(s, e);
            && e.client !in t.live && e.client !in t.world.hub
            && t.world == CloseClient(Dispatch(s.world, e.client, e.envelope, e.wx).world, e.client, e.wx.third).0
  {
    assert Follows(s, e.client, last);
    HitExactly(s, e, last);
    ServeSettles(s, e);
  }

  // The shortened run looks up what the full run looks up, and so delivers what it sends too.
  lemma KeptDelivers(s: System, t: System, e: Event, last: int)
    requires CachesFollow(s, last) && Timely(e, last) && Alike(s, t, last) && !Repeats(s, e)
    ensures Step(t, e).mail == DeliverAll(t.mail, PostsOf(t, e))
  {
    if Known(s, e) && e.MessageEvent? {
      var c := e.client;
      assert Follows(s, c, last) && SoonEqual(CacheOf(s, c), CacheOf(t, c), last);
      HitExactly(s, e, last);
      EqualLater(CacheOf(s, c), CacheOf(t, c), last, e.readAt);
      ServeDelivers(t, e);
    }
  }

  // One event of the full run, which the shortened run takes too or leaves out.
  lemma OneMore(s: System, t: System, e: Event, last: int)
    requires CachesFollow(s, last) && Timely(e, last) && Alike(s, t, last)
    requires Repeats(s, e) ==> e.client !in e.wx.second
    ensures Alike(Step(s, e), if Repeats(s, e) then t else Step(t, e), After(e, last))
    ensures PostsOf(s, e) == if Repeats(s, e) then [] else PostsOf(t, e)
    ensures !Repeats(s, e) ==> Step(t, e).mail == DeliverAll(t.mail, PostsOf(t, e))
  {
    if Repeats(s, e) {
      StrikeStaysAlike(s, t, e, last);
    } else {
      KeptDelivers(s, t, e, last);
      StepStaysAlike(s, t, e, last);
    }
  }

  lemma {:induction false} RunSnoc(s: System, events: seq<Event>, e: Event)
    ensures Run(s, events + [e]) == Step(Run(s, events), e)
    ensures AllPosts(s, events + [e]) == AllPosts(s, events) + PostsOf(Run(s, events), e)
  {
    assert (events + [e])[..|events|] == events;
  }

  lemma {:induction false} DeliveredPrefix(s: System, events: seq<Event>)
    requires ReplaysDelivered(s, events) && events != []
    ensures var n := |events| - 1;
            && ReplaysDelivered(s, events[..n])
            && (Repeats(Run(s, events[..n]), events[n]) ==> events[n].client !in events[n].wx.second)
  {
    var n := |events| - 1;
    assert forall k | 0 <= k < n :: events[..n][..k] == events[..k] && events[..n][k] == events[k];
  }

  /** Two runs from s have the same effect: alike final systems and the same messages sent, which
      are all that the second one delivers. */
  ghost predicate SameEffect(s: System, events: seq<Event>, kept: seq<Event>, now: int) {
    && Alike(Run(s, events), Run(s, kept), now)
    && AllPosts(s, events) == AllPosts(s, kept)
    && Run(s, kept).mail == DeliverAll(s.mail, AllPosts(s, kept))
  }

  lemma {:induction false} SameEffectGrows(s: System, events: seq<Event>, kept: seq<Event>, e: Event, last: int)
    requires SameEffect(s, events, kept, last) && CachesFollow(Run(s, events), last) && Timely(e, last)
    requires Repeats(Run(s, events), e) ==> e.client !in e.wx.second
    ensures SameEffect(s, events + [e], if Repeats(Run(s, events), e) then kept else kept + [e], After(e, last))
  {
    OneMore(Run(s, events), Run(s, kept), e, last);
    RunSnoc(s, events, e);
    RunSnoc(s, kept, e);
    DeliverInTurn(s.mail, AllPosts(s, kept), PostsOf(Run(s, kept), e));
    assert AllPosts(s, events) + [] == AllPosts(s, events);
  }

  lemma {:induction false} StruckOutSnoc(s: System, events: seq<Event>, e: Event)
    ensures StruckOut(s, events + [e])
            == if Repeats(Run(s, events), e) then StruckOut(s, events) else StruckOut(s, events) + [e]
  {
    assert (events + [e])[..|events|] == events;
    assert StruckOut(s, events) + [] == StruckOut(s, events);
  }

  lemma {:induction false} SameEffectStep(s: System, events: seq<Event>, e: Event, start: int)
    requires var last := TimeAfter(events, start);
             && SameEffect(s, events, StruckOut(s, events), last)
             && CachesFollow(Run(s, events), last) && Timely(e, last)
    requires Repeats(Run(s, events), e) ==> e.client !in e.wx.second
    ensures SameEffect(s, events + [e], StruckOut(s, events + [e]), TimeAfter(events + [e], start))
  {
    SameEffectGrows(s, events, StruckOut(s, events), e, TimeAfter(events, start));
    StruckOutSnoc(s, events, e);
    assert (events + [e])[..|events|] == events;
  }

  /** Exactly-once effect. Striking every recently answered request out of a timely run changes
      neither the final world (tables, ledger, client marks, saved snapshots, event log), nor the
      logs of responses, nor what the server sends besides the replays, which is exactly what the
      shortened run delivers. */
  lemma {:induction false} ExactlyOnce(s: System, events: seq<Event>, start: int)
    requires CachesFollow(s, start) && TimelyRun(events, start) && ReplaysDelivered(s, events)
    ensures SameEffect(s, events, StruckOut(s, events), TimeAfter(events, start))
  {
    if events == [] {
      SameAsItself(s, start);
    } else {
      var n := |events| - 1;
      SplitLast(events);
      TimelyPrefix(events, start);
      DeliveredPrefix(s, events);
      ExactlyOnce(s, events[..n], start);
      RunCachesFollow(s, events[..n], start);
      SameEffectStep(s, events[..n], events[n], start);
    }
  }

  lemma SplitLast(events: seq<Event>)
    requires events != []
    ensures events[..|events| - 1] + [events[|events| - 1]] == events
  {
  }

  lemma SameAsItself(s: System, now: int)
    ensures SameEffect(s, [], [], now)
  {
    assert forall c :: SoonEqual(CacheOf(s, c), CacheOf(s, c), now);
  }

  /** On a fresh server, for any number of connections. */
  lemma {:induction false} RequestsCountOnce(cfg: Config, events: seq<Event>, start: int)
    requires TimelyRun(events, start) && ReplaysDelivered(Boot(cfg), events)
    ensures var kept := StruckOut(Boot(cfg), events);
            && Run(Boot(cfg), events).world == Run(Boot(cfg), kept).world
            && Run(Boot(cfg), events).logs == Run(Boot(cfg), kept).logs
            && Run(Boot(cfg), kept).mail == DeliverAll(map[], AllPosts(Boot(cfg), events))
  {
    BootFollows(cfg, start);
    ExactlyOnce(Boot(cfg), events, start);
  }
}
