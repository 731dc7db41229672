/** Two connections of one player at a time: a run from a fresh server in which the second one's
    join is reported as a success and costs its buy-in. */
module SecondConnections {
  import opened Basics
  import opened Seating
  import opened Ledgers
  import opened Banks
  import opened Worlds
  import opened Conservation
  import opened Admission
  import Caches

  const CALM := Weather({}, {}, {})
  const ANYWHERE := JoinRequest("", None)

  function JoinMessage(c: ClientId): Event {
    MessageEvent(c, ClientEnvelope("join_table", Caches.RequestId(""), Payload(Some(ANYWHERE), None)), 0, 0, 0, CALM)
  }

  lemma {:induction false} RunOn(s: System, events: seq<Event>, e: Event)
    ensures Run(s, events + [e]) == Step(Run(s, events), e)
  {
    assert (events + [e])[..|events|] == events;
  }

  // The player has a wallet with enough for a buy-in and none pending.
  ghost predicate CanBuy(b: Bank, p: string, id: string, amount: int) {
    && BankOk(b) && Bounded(b) && ColonFree(p) && TrimSpace(id) != ""
    && p in b.ledger.balances && 0 < amount <= b.ledger.balances[p]
    && BuyInKey(p, TrimSpace(id)) !in b.ledger.pending
  }

  ghost predicate HasPending(b: Bank, p: string, id: string, amount: int) {
    && BankOk(b) && Bounded(b) && ColonFree(p) && TrimSpace(id) != ""
    && Consume(b, p, id).1.Ok? && Consume(b, p, id).1.value.amount == amount
  }

  lemma BuyIn(b: Bank, p: string, id: string, amount: int)
    requires CanBuy(b, p, id, amount)
    ensures var c := Buy(b, p, id, amount);
            && HasPending(c, p, id, amount) && Balance(c.ledger, p) == Balance(b.ledger, p) - amount
            && c.tables == b.tables && SameWorth(c, b)
            && c.ledger.pending.Keys == b.ledger.pending.Keys + {BuyInKey(p, TrimSpace(id))}
  {
    WorthParts(b, p);
    assert Worth(b, p) <= MAX_INT64;
    BuyEffect(b, p, id, amount);
    Wrap64InRange(b.ledger.balances[p] - amount);
    KeepsBounds(b, Buy(b, p, id, amount));
  }

  lemma KeepsBounds(b: Bank, c: Bank)
    requires Bounded(b) && SameWorth(c, b)
    ensures Bounded(c)
  {
    forall q
      ensures Worth(c, q) <= MAX_INT64
    {
      assert Worth(c, q) == Worth(b, q);
    }
  }

  lemma LookOn(b: Bank, p: string, id: string, amount: int)
    requires HasPending(b, p, id, amount)
    ensures HasPending(Look(b, id), p, id, amount) && SameWorth(Look(b, id), b) && At(Look(b, id), id) == At(b, id)
  {
    LookEffect(b, id);
    KeepsBounds(b, Look(b, id));
  }

  // A calm join by a connection that is not seated anywhere, at a table with room.
  lemma CalmJoin(s: System, c: ClientId, amount: int)
    requires c in s.world.clients && !s.world.clients[c].seated
    requires HasPending(s.world.bank, s.world.clients[c].player, Resolve(s.world.cfg, ""), amount)
    requires At(s.world.bank, Resolve(s.world.cfg, "")).playerSeat == map[]
    ensures var w, id, p := s.world, Resolve(s.world.cfg, ""), s.world.clients[c].player;
            var v := Step(s, JoinMessage(c)).world;
            && v.cfg == w.cfg && v.clients.Keys == w.clients.Keys && BankOk(v.bank) && SameWorth(v.bank, w.bank)
            && Seated(At(v.bank, id), p) && Balance(v.bank.ledger, p) == Balance(w.bank.ledger, p)
            && BuyInKey(p, TrimSpace(id)) !in v.bank.ledger.pending
  {
    var w, id, p := s.world, Resolve(s.world.cfg, ""), s.world.clients[c].player;
    JoinEffectOnWorth(w, c, ANYWHERE, CALM);
    AcceptedExactly(w, c, ANYWHERE, CALM);
    CalmShape(s, c);
    JoinFrame(w, c);
  }

  lemma JoinFrame(w: World, c: ClientId)
    requires c in w.clients && !w.clients[c].seated
    ensures HandleJoin(w, c, ANYWHERE, CALM).world.cfg == w.cfg
  {
    JoinSplits(w, c, ANYWHERE, CALM);
  }

  // An anonymous message is dispatched, and what it leads to is kept, as no write fails.
  lemma CalmShape(s: System, c: ClientId)
    requires c in s.world.clients
    ensures Step(s, JoinMessage(c)).world == HandleJoin(s.world, c, ANYWHERE, CALM).world
  {
    var o := HandleJoin(s.world, c, ANYWHERE, CALM);
    CalmNeverFails(s.world, c);
  }

  lemma CalmNeverFails(w: World, c: ClientId)
    requires c in w.clients
    ensures !HandleJoin(w, c, ANYWHERE, CALM).failed
  {
  }

  // ---------- The run ----------

  // The events lead here, lawfully.
  ghost predicate Reached(cfg: Config, events: seq<Event>, s: System) {
    s == Run(Boot(cfg), events) && LegalRun(Boot(cfg), events)
  }

  lemma {:induction false} Then(cfg: Config, events: seq<Event>, s: System, e: Event)
    requires Reached(cfg, events, s) && Legal(s, e)
    ensures Reached(cfg, events + [e], Step(s, e))
  {
    var longer, n := events + [e], |events|;
    RunOn(Boot(cfg), events, e);
    forall k | 0 <= k < |longer|
      ensures LegalAt(Boot(cfg), longer, k)
    {
      assert longer[..n] == events;
      if k < n {
        assert LegalAt(Boot(cfg), events, k) && longer[..k] == events[..k];
      }
    }
  }

  lemma GrantFirst(cfg: Config, p: string, initial: int, amount: int)
    requires ColonFree(p) && TrimSpace(cfg.defaultTable) != "" && 0 < amount <= initial <= MAX_INT64
    ensures var t := Step(Boot(cfg), GrantEvent(p, initial));
            && t == Boot(cfg).(world := Boot(cfg).world.(bank := t.world.bank))
            && CanBuy(t.world.bank, p, cfg.defaultTable, amount) && Worth(t.world.bank, p) == initial
            && Balance(t.world.bank.ledger, p) == initial && At(t.world.bank, cfg.defaultTable).playerSeat == map[]
  {
    BootInOrder(cfg);
    StepKeeps(Boot(cfg), GrantEvent(p, initial));
  }

  lemma BuyStep(s: System, p: string, amount: int)
    requires CanBuy(s.world.bank, p, s.world.cfg.defaultTable, amount)
    ensures var t := Step(s, BuyInEvent(p, "", amount));
            && t == s.(world := s.world.(bank := t.world.bank))
            && HasPending(t.world.bank, p, s.world.cfg.defaultTable, amount)
            && Balance(t.world.bank.ledger, p) == Balance(s.world.bank.ledger, p) - amount
            && t.world.bank.tables == s.world.bank.tables && SameWorth(t.world.bank, s.world.bank)
  {
    BuyIn(s.world.bank, p, s.world.cfg.defaultTable, amount);
  }

  lemma ConnectStep(s: System, c: ClientId, p: string, nickname: string)
    ensures var w, t := s.world, Step(s, ConnectEvent(c, p, nickname, CALM));
            && t.live == s.live + {c}
            && t.world == w.(bank := Look(w.bank, w.cfg.defaultTable), hub := w.hub + {c},
                             clients := w.clients[c := Client(p, nickname, w.cfg.defaultTable, false)])
  {
    ConnectShape(s.world, c, p, nickname, CALM);
  }

  lemma LookCanBuy(b: Bank, p: string, id: string, amount: int)
    requires CanBuy(b, p, id, amount)
    ensures CanBuy(Look(b, id), p, id, amount) && SameWorth(Look(b, id), b) && At(Look(b, id), id) == At(b, id)
  {
    LookEffect(b, id);
    KeepsBounds(b, Look(b, id));
  }

  // Lawful runs after which the player has bought in, ...
  lemma BuysIn(cfg: Config, p: string, initial: int, amount: int) returns (events: seq<Event>, s: System)
    requires ColonFree(p) && TrimSpace(cfg.defaultTable) != "" && 0 < amount && 2 * amount <= initial <= MAX_INT64
    ensures Reached(cfg, events, s) && s == Boot(cfg).(world := Boot(cfg).world.(bank := s.world.bank))
    ensures HasPending(s.world.bank, p, cfg.defaultTable, amount) && Worth(s.world.bank, p) == initial
    ensures Balance(s.world.bank.ledger, p) >= amount && At(s.world.bank, cfg.defaultTable).playerSeat == map[]
  {
    GrantFirst(cfg, p, initial, amount);
    Then(cfg, [], Boot(cfg), GrantEvent(p, initial));
    var granted := Step(Boot(cfg), GrantEvent(p, initial));
    BuyStep(granted, p, amount);
    Then(cfg, [] + [GrantEvent(p, initial)], granted, BuyInEvent(p, "", amount));
    events, s := [] + [GrantEvent(p, initial)] + [BuyInEvent(p, "", amount)], Step(granted, BuyInEvent(p, "", amount));
  }

  // ... has connected, ...
  lemma Connects(cfg: Config, p: string, nickname: string, initial: int, amount: int)
    returns (events: seq<Event>, s: System)
    requires ColonFree(p) && TrimSpace(cfg.defaultTable) != "" && 0 < amount && 2 * amount <= initial <= MAX_INT64
    ensures Reached(cfg, events, s) && s.world.cfg == cfg && s.live == {1}
    ensures s.world.clients == map[1 := Client(p, nickname, cfg.defaultTable, false)]
    ensures HasPending(s.world.bank, p, cfg.defaultTable, amount) && Worth(s.world.bank, p) == initial
    ensures Balance(s.world.bank.ledger, p) >= amount && At(s.world.bank, cfg.defaultTable).playerSeat == map[]
  {
    var before: System;
    events, before := BuysIn(cfg, p, initial, amount);
    ConnectStep(before, 1, p, nickname);
    LookOn(before.world.bank, p, cfg.defaultTable, amount);
    Then(cfg, events, before, ConnectEvent(1, p, nickname, CALM));
    events, s := events + [ConnectEvent(1, p, nickname, CALM)], Step(before, ConnectEvent(1, p, nickname, CALM));
  }

  // ... and sits at the default table.
  lemma SitsDownFirst(cfg: Config, p: string, nickname: string, initial: int, amount: int)
    returns (events: seq<Event>, s: System)
    requires ColonFree(p) && TrimSpace(cfg.defaultTable) != "" && 0 < amount && 2 * amount <= initial <= MAX_INT64
    ensures Reached(cfg, events, s) && s.world.cfg == cfg && 1 in s.world.clients && 2 !in s.world.clients
    ensures CanBuy(s.world.bank, p, cfg.defaultTable, amount) && Worth(s.world.bank, p) == initial
    ensures Seated(At(s.world.bank, cfg.defaultTable), p)
  {
    var before: System;
    events, before := Connects(cfg, p, nickname, initial, amount);
    CalmJoin(before, 1, amount);
    Then(cfg, events, before, JoinMessage(1));
    KeepsBounds(before.world.bank, Step(before, JoinMessage(1)).world.bank);
    events, s := events + [JoinMessage(1)], Step(before, JoinMessage(1));
  }

  /** With a second connection the hypothesis on live connections fails, and with it conservation:
      for every player and every amount that the first grant pays for twice, a lawful run, then a
      second connection, then a second buy-in, lead to a join by the second connection that
      consumes the buy-in and leaves the player that much poorer. */
  lemma SecondConnectionForfeits(cfg: Config, p: string, nickname: string, initial: int, amount: int)
    returns (lawful: seq<Event>, w: World)
    requires ColonFree(p) && TrimSpace(cfg.defaultTable) != "" && 0 < amount && 2 * amount <= initial <= MAX_INT64
    ensures LegalRun(Boot(cfg), lawful)
    ensures w == Run(Boot(cfg), lawful + [ConnectEvent(2, p, nickname, CALM)] + [BuyInEvent(p, "", amount)]).world
    ensures 2 in w.clients && Forfeits(w, 2, ANYWHERE) && Worth(w.bank, p) == initial
    ensures Worth(HandleJoin(w, 2, ANYWHERE, CALM).world.bank, p) == initial - amount
  {
    var s: System;
    lawful, s := SitsDownFirst(cfg, p, nickname, initial, amount);
    ConnectStep(s, 2, p, nickname);
    LookCanBuy(s.world.bank, p, cfg.defaultTable, amount);
    var t := Step(s, ConnectEvent(2, p, nickname, CALM));
    BuyStep(t, p, amount);
    w := Step(t, BuyInEvent(p, "", amount)).world;
    RunOn(Boot(cfg), lawful, ConnectEvent(2, p, nickname, CALM));
    RunOn(Boot(cfg), lawful + [ConnectEvent(2, p, nickname, CALM)], BuyInEvent(p, "", amount));
    assert Forfeits(w, 2, ANYWHERE);
    JoinEffectOnWorth(w, 2, ANYWHERE, CALM);
  }
}
