/** Revoking a session closes every connection of its player that is still in the hub. */
module Revocation {
  import opened Basics
  import opened Seating
  import opened Ledgers
  import opened Banks
  import opened Worlds
  import opened Conservation
  import opened Admission
  import opened SecondConnections
  import Caches

  // Closing the given connections in turn, as steps of the system.
  function ShutEach(s: System, order: seq<ClientId>, lost: set<ClientId>): (t: System)
    requires forall c | c in order :: c in s.world.clients
    ensures t.world.clients.Keys == s.world.clients.Keys
    ensures t.live == s.live - set c | c in order
  {
    if order == [] then s
    else
      var n := |order| - 1;
      assert order == order[..n] + [order[n]];
      Shut(ShutEach(s, order[..n], lost), order[n], lost)
  }

  /** Whatever the order, closing a player's connections keeps everyone's chips, leaves none of
      them in the hub, and keeps the order among the connections that remain. */
  lemma {:induction false} ShutEachKeeps(s: System, order: seq<ClientId>, lost: set<ClientId>)
    requires InOrder(s) && forall c | c in order :: c in s.world.clients
    ensures var t := ShutEach(s, order, lost);
            && t.world == CloseEach(s.world, order, lost).0
            && InOrder(t) && SameWorth(t.world.bank, s.world.bank)
            && t.world.clients == s.world.clients
            && t.world.hub <= s.world.hub && forall c | c in order :: c !in t.world.hub
  {
    if order != [] {
      var n := |order| - 1;
      assert order == order[..n] + [order[n]];
      ShutEachKeeps(s, order[..n], lost);
      var t := ShutEach(s, order[..n], lost);
      ShutKeeps(t, order[n], lost);
      CloseKeeps(t.world, order[n], lost);
    }
  }

  /** If every live connection of the player is still in the hub, revoking the session takes the
      player off every table, and the wallet and pending buy-ins then hold all the chips. */
  lemma {:induction false} RevokedSitNowhere(s: System, p: string, order: seq<ClientId>, lost: set<ClientId>)
    requires InOrder(s) && multiset(order) == multiset(ConnectionsOf(s.world, p))
    requires forall c | c in s.live && s.world.clients[c].player == p :: c in s.world.hub
    ensures forall c :: c in order ==> c in s.world.clients
    ensures var after := CloseEach(s.world, order, lost).0;
            && SameWorth(after.bank, s.world.bank)
            && ConnectionsOf(after, p) == {}
            && forall id :: !Seated(At(after.bank, id), p)
  {
    forall c
      ensures c in order <==> c in ConnectionsOf(s.world, p)
    {
      assert c in order <==> c in multiset(order);
    }
    ShutEachKeeps(s, order, lost);
    var t := ShutEach(s, order, lost);
    forall id
      ensures !Seated(At(t.world.bank, id), p)
    {
      assert !HasLive(t, p);
    }
  }

  // ---------- The hub over runs ----------

  lemma DepartShrinksHub(w: World, c: ClientId, id: string, release: bool, eventType: string, lost: set<ClientId>)
    requires c in w.clients
    ensures Depart(w, c, id, release, eventType, lost).0.hub <= w.hub
  {
  }

  lemma JoinShrinksHub(w: World, c: ClientId, req: JoinRequest, wx: Weather)
    requires c in w.clients
    ensures HandleJoin(w, c, req, wx).world.hub <= w.hub
  {
    JoinSplits(w, c, req, wx);
    DepartShrinksHub(w, c, w.clients[c].tableId, true, "switch_leave", wx.first);
  }

  lemma DispatchShrinksHub(w: World, c: ClientId, e: ClientEnvelope, wx: Weather)
    requires c in w.clients
    ensures Dispatch(w, c, e, wx).world.hub <= w.hub
  {
    if e.eventType == "join_table" && e.payload.join.Some? {
      JoinShrinksHub(w, c, e.payload.join.value, wx);
    }
  }

  lemma ServeLive(s: System, e: Event)
    requires e.MessageEvent? && e.client in s.world.clients && s.world.hub <= s.live
    ensures Serve(s, e).world.hub <= Serve(s, e).live
  {
    DispatchShrinksHub(s.world, e.client, e.envelope, e.wx);
  }

  /** In every run a connection in the hub is live: only a close takes a connection out of the live
      ones, and it takes it out of the hub as well. */
  lemma {:induction false} HubIsLive(cfg: Config, events: seq<Event>, s: System)
    requires s == Run(Boot(cfg), events)
    ensures s.world.hub <= s.live
  {
    if events != [] {
      var before, e := Run(Boot(cfg), events[..|events| - 1]), events[|events| - 1];
      HubIsLive(cfg, events[..|events| - 1], before);
      if Known(before, e) {
        match e
        case GrantEvent(_, _) =>
        case BuyInEvent(_, _, _) =>
        case ConnectEvent(c, p, nickname, wx) => ConnectShape(before.world, c, p, nickname, wx);
        case MessageEvent(_, _, _, _, _, _) => ServeLive(before, e);
        case CloseEvent(_, _) =>
      }
    }
  }

  /** In every reachable state, revoking a player's session leaves the player seated exactly where
      they were seated with no connection left in the hub: where a failed broadcast has dropped
      their connection, whose own close is still to come. */
  lemma {:induction false} RevokedSitExactly(cfg: Config, events: seq<Event>, s: System, p: string,
                                             order: seq<ClientId>, lost: set<ClientId>)
    requires LegalRun(Boot(cfg), events) && s == Run(Boot(cfg), events)
    requires multiset(order) == multiset(ConnectionsOf(s.world, p))
    ensures forall c :: c in order ==> c in s.world.clients
    ensures var after := CloseEach(s.world, order, lost).0;
            && SameWorth(after.bank, s.world.bank)
            && forall id :: Seated(At(after.bank, id), p)
                 <==> Seated(At(s.world.bank, id), p) && ConnectionsOf(s.world, p) == {}
  {
    BootInOrder(cfg);
    RunConserves(Boot(cfg), events);
    HubIsLive(cfg, events, s);
    forall c
      ensures c in order <==> c in ConnectionsOf(s.world, p)
    {
      assert c in order <==> c in multiset(order);
    }
    if ConnectionsOf(s.world, p) == {} {
      assert |order| == |multiset(order)| == 0;
    } else {
      RevokedSitNowhere(s, p, order, lost);
    }
  }

  // Closing a connection leaves other players and their connections alone.
  ghost predicate Spared(a: World, b: World, p: string, lost: set<ClientId>) {
    && b.clients == a.clients && BankOk(b.bank) && SameWorth(b.bank, a.bank)
    && (forall q, id | q != p :: Seated(At(b.bank, id), q) == Seated(At(a.bank, id), q))
    && (forall d | d in a.hub && d in a.clients && a.clients[d].player != p && d !in lost :: d in b.hub)
  }

  lemma CloseSpares(w: World, c: ClientId, lost: set<ClientId>)
    requires c in w.clients && BankOk(w.bank) && Bounded(w.bank)
    ensures Spared(w, CloseClient(w, c, lost).0, w.clients[c].player, lost)
  {
    CloseKeeps(w, c, lost);
  }

  lemma {:induction false} ClosedAlone(w: World, p: string, order: seq<ClientId>, lost: set<ClientId>)
    requires BankOk(w.bank) && Bounded(w.bank)
    requires forall c | c in order :: c in w.clients && w.clients[c].player == p
    ensures Spared(w, CloseEach(w, order, lost).0, p, lost)
  {
    if order != [] {
      var n := |order| - 1;
      assert order == order[..n] + [order[n]];
      ClosedAlone(w, p, order[..n], lost);
      var v := CloseEach(w, order[..n], lost).0;
      KeepsBounds(w.bank, v.bank);
      CloseSpares(v, order[n], lost);
    }
  }

  /** Revoking a session takes nobody else off a table, and closes nobody else's connection unless a
      broadcast to it fails. */
  lemma {:induction false} RevokedAlone(w: World, p: string, order: seq<ClientId>, lost: set<ClientId>)
    requires BankOk(w.bank) && Bounded(w.bank) && multiset(order) == multiset(ConnectionsOf(w, p))
    ensures forall c :: c in order ==> c in w.clients
    ensures Spared(w, CloseEach(w, order, lost).0, p, lost)
  {
    forall c | c in order
      ensures c in w.clients && w.clients[c].player == p
    {
      assert c in multiset(order);
    }
    ClosedAlone(w, p, order, lost);
  }

  // ---------- A dropped connection keeps its seat ----------

  const DROPPED := Weather({}, {1}, {})

  lemma DroppingTakeSeat(w: World, id: string, stack: int)
    requires 1 in w.clients && Sit(w.bank, id, w.clients[1].player, w.clients[1].nickname, stack, None).1.None?
    ensures var o := TakeSeat(w, 1, id, None, stack, DROPPED); !o.failed && 1 !in o.world.hub
  {
  }

  lemma DroppingJoin(w: World, id: string, amount: int)
    requires 1 in w.clients && !w.clients[1].seated && id == Resolve(w.cfg, "")
    requires HasPending(w.bank, w.clients[1].player, id, amount) && At(w.bank, id).playerSeat == map[]
    ensures var o := HandleJoin(w, 1, ANYWHERE, DROPPED);
            !o.failed && 1 !in o.world.hub && Seated(At(o.world.bank, id), w.clients[1].player)
  {
    var me := w.clients[1];
    JoinEnters(w, 1, ANYWHERE, DROPPED);
    AcceptedExactly(w, 1, ANYWHERE, DROPPED);
    ConsumeEffect(w.bank, me.player, id);
    var paid := Consume(w.bank, me.player, id).0;
    SitOutcome(paid, id, me.player, me.nickname, amount, None);
    DroppingTakeSeat(w.(bank := paid), id, amount);
  }

  lemma DroppingMessage(s: System, e: Event)
    requires e == MessageEvent(1, ClientEnvelope("join_table", Caches.RequestId(""), Payload(Some(ANYWHERE), None)),
                               0, 0, 0, DROPPED)
    requires 1 in s.world.clients && !HandleJoin(s.world, 1, ANYWHERE, DROPPED).failed
    ensures Step(s, e).world == HandleJoin(s.world, 1, ANYWHERE, DROPPED).world
  {
  }

  /** It happens: the broadcast of the player's own join fails, and they sit out of the hub's sight. */
  lemma DroppedStaysSeated(cfg: Config, p: string, nickname: string, initial: int, amount: int)
    returns (events: seq<Event>, w: World)
    requires ColonFree(p) && TrimSpace(cfg.defaultTable) != "" && 0 < amount && 2 * amount <= initial <= MAX_INT64
    ensures LegalRun(Boot(cfg), events) && w == Run(Boot(cfg), events).world
    ensures Seated(At(w.bank, cfg.defaultTable), p) && ConnectionsOf(w, p) == {}
  {
    var s: System;
    events, s := Connects(cfg, p, nickname, initial, amount);
    var e := MessageEvent(1, ClientEnvelope("join_table", Caches.RequestId(""), Payload(Some(ANYWHERE), None)), 0, 0,
        0, DROPPED);
    DroppingJoin(s.world, cfg.defaultTable, amount);
    DroppingMessage(s, e);
    Then(cfg, events, s, e);
    events, w := events + [e], Step(s, e).world;
  }
}
