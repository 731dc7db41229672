/** Why a close that a join of its own connection overlaps does not end the connection for the purpose
    of counting live ones: if it did, another connection could come in and lose a buy-in. */
module OverlappedCloses {
  import opened Basics
  import opened Sums
  import opened Seating
  import opened Ledgers
  import opened Banks
  import opened Worlds
  import opened Interleaving
  import opened Schedules
  import opened Races
  import opened StaleCloses

  ghost predicate Path(start: Shop, actions: seq<Action>, s: Shop) {
    s == Play(start, actions) && OrderlyRun(start, actions)
  }

  lemma {:induction false} PathOn(start: Shop, actions: seq<Action>, s: Shop, a: Action)
    requires Path(start, actions, s) && Orderly(s, a)
    ensures Path(start, actions + [a], Act(s, a))
  {
    var longer, n := actions + [a], |actions|;
    assert longer[..n] == actions;
    forall k | 0 <= k < |longer|
      ensures OrderlyAt(start, longer, k)
    {
      if k < n {
        assert OrderlyAt(start, actions, k) && longer[..k] == actions[..k];
      }
    }
  }

  // The player sits at the table and has bought in once more for it.
  ghost predicate Primed(b: Bank, p: string, id: string, amount: int) {
    && BankOk(b) && ColonFree(p) && TrimSpace(id) != "" && p in b.ledger.balances && Seated(At(b, id), p)
    && b.ledger.pending.Keys == {BuyInKey(p, TrimSpace(id))}
    && b.ledger.pending[BuyInKey(p, TrimSpace(id))].amount == amount > 0
  }

  lemma BuyAgain(b: Bank, p: string, id: string, amount: int)
    requires Sits(b, p, id, amount) && amount <= b.ledger.balances[p]
    ensures var c := Buy(b, p, id, amount); Primed(c, p, id, amount) && Worth(c, p) == Worth(b, p)
  {
    BuyEffect(b, p, id, amount);
    Wrap64InRange(b.ledger.balances[p] - amount);
  }

  lemma LookPrimed(b: Bank, p: string, id: string, amount: int)
    requires Primed(b, p, id, amount)
    ensures Primed(Look(b, id), p, id, amount) && Worth(Look(b, id), p) == Worth(b, p)
  {
    LookEffect(b, id);
  }

  // What is left of the wallet when all else is in hands.
  lemma WalletLeft(s: Shop, p: string, id: string, amount: int, initial: int)
    requires Sound(s) && Owned(s, p) == initial && CanSit(s.bank, p, id, amount)
    requires (forall other :: !Seated(At(s.bank, other), p)) && InFlight(s, p) == amount
    ensures s.bank.ledger.balances[p] == initial - amount
  {
    assert PendingOf(s.bank.ledger, p) == map[];
    LoneStack(s.bank, p, id);
  }

  // ---------- The two connections ----------

  function First(cfg: Config, p: string, nickname: string, b: Bank, amount: int): Shop {
    Shop(cfg, b, map[1 := Client(p, nickname, cfg.defaultTable, false)], {1},
         map[1 := Job(1, p, JoinSit(cfg.defaultTable, None, amount))], {})
  }

  // Connection 1 sits, connection 2 is on its way.
  function Second(cfg: Config, p: string, nickname: string, b: Bank, task: Task): Shop {
    var me := Client(p, nickname, cfg.defaultTable, false);
    Shop(cfg, b, map[1 := me.(seated := true), 2 := me], {2}, map[3 := Job(2, p, task)], {})
  }

  // A close starts while the join is about to sit down, finds no mark, and is done.
  lemma CloseInVain(cfg: Config, p: string, nickname: string, b: Bank, amount: int)
    requires Sound(First(cfg, p, nickname, b, amount)) && ColonFree(p)
    ensures var s := First(cfg, p, nickname, b, amount);
            && Lawful(s, Start(2, 1, CloseBegin)) && Lawful(Act(s, Start(2, 1, CloseBegin)), Resume(2))
            && Act(Act(s, Start(2, 1, CloseBegin)), Resume(2)) == s
  {
    var s := First(cfg, p, nickname, b, amount);
    assert s.jobs[1].client == 1 && IsJoin(s.jobs[1].task);
    assert Joining(s, 1);
    var t := Act(s, Start(2, 1, CloseBegin));
    assert t == s.(jobs := s.jobs[2 := Job(1, p, CloseBegin)], crossed := {2});
    assert Act(t, Resume(2)).jobs == s.jobs;
    assert Act(t, Resume(2)).clients == s.clients;
    assert Act(t, Resume(2)).crossed == {};
  }

  lemma LeadsToFirst(cfg: Config, p: string, nickname: string, amount: int, initial: int)
    returns (actions: seq<Action>, b: Bank)
    requires ColonFree(p) && TrimSpace(cfg.defaultTable) != "" && 0 < amount && 2 * amount <= initial <= MAX_INT64
    ensures CanSit(b, p, cfg.defaultTable, amount) && amount <= b.ledger.balances[p]
    ensures Here(cfg, actions, First(cfg, p, nickname, b, amount), p, initial)
  {
    var id, me := cfg.defaultTable, Client(p, nickname, cfg.defaultTable, false);
    actions, b := Funded(cfg, p, initial, amount);
    actions, b := BuyAndArrive(cfg, actions, Shop(cfg, b, map[], {}, map[], {}), 1, me, amount, initial);
    var s := Shop(cfg, b, map[1 := me], {1}, map[], {});
    assert s == Shop(cfg, b, map[], {}, map[], {}).(clients := map[][1 := me], live := {1});
    actions, b := JoinToSit(cfg, actions, s, 1, 1, me, amount, initial);
    var t := First(cfg, p, nickname, b, amount);
    assert t == Begun(s.(bank := b), 1, 1, me, JoinSit(id, None, amount));
    Claims(cfg, actions, t, p, initial);
    InHandsOfFirst(cfg, p, nickname, b, amount);
    WalletLeft(t, p, id, amount, initial);
  }

  lemma InHandsOfFirst(cfg: Config, p: string, nickname: string, b: Bank, amount: int)
    requires Sound(First(cfg, p, nickname, b, amount))
    ensures InFlight(First(cfg, p, nickname, b, amount), p) == amount
    ensures forall id :: !Seated(At(b, id), p)
  {
    var s := First(cfg, p, nickname, b, amount);
    assert JobSound(s, 1);
    assert Nowhere(s.bank, p);
    var none: map<nat, int> := map[];
    SumUpdate(none, 1, amount);
    assert Sum(none) == 0 && InHands(s, p) == none[1 := amount];
  }

  // ---------- From there on, were connection 1 not live ----------

  function Ended(s: Shop): Shop {
    s.(live := s.live - {1})
  }

  // The join sits down and sets its mark.
  lemma FirstSits(cfg: Config, p: string, nickname: string, b: Bank, amount: int)
    returns (actions: seq<Action>, c: Bank)
    requires CanSit(b, p, cfg.defaultTable, amount)
    ensures Sits(c, p, cfg.defaultTable, amount) && c.ledger == b.ledger && Worth(c, p) == Worth(b, p) + amount
    ensures Path(Ended(First(cfg, p, nickname, b, amount)), actions,
                 Shop(cfg, c, map[1 := Client(p, nickname, cfg.defaultTable, true)], {}, map[], {}))
  {
    var id, me, s := cfg.defaultTable, Client(p, nickname, cfg.defaultTable, false),
        Ended(First(cfg, p, nickname, b, amount));
    c := SitStep(cfg, b, me, amount);
    SitEffect(b, id, p, nickname, amount, None);
    ActMoved(s, 1, c, me, Some(JoinMark(id)));
    PathOn(s, [], s, Resume(1));
    var t := StaleCloses.Moved(s, 1, c, Some(JoinMark(id)));
    PathOn(s, [] + [Resume(1)], t, Resume(1));
    FirstMarks(cfg, p, nickname, b, c, amount);
    actions := [] + [Resume(1)] + [Resume(1)];
  }

  lemma FirstMarks(cfg: Config, p: string, nickname: string, b: Bank, c: Bank, amount: int)
    ensures var s := Ended(First(cfg, p, nickname, b, amount));
            Act(StaleCloses.Moved(s, 1, c, Some(JoinMark(cfg.defaultTable))), Resume(1))
            == Shop(cfg, c, map[1 := Client(p, nickname, cfg.defaultTable, true)], {}, map[], {})
  {
    var s := Ended(First(cfg, p, nickname, b, amount));
    assert s.live == {} && StaleCloses.Moved(s, 1, c, Some(JoinMark(cfg.defaultTable))).jobs.Keys == {1};
  }

  // The second connection buys in, ...
  lemma SecondBuys(start: Shop, before: seq<Action>, s: Shop, p: string, amount: int)
    requires Path(start, before, s)
    requires Sits(s.bank, p, s.cfg.defaultTable, amount) && amount <= s.bank.ledger.balances[p]
    ensures var b := Buy(s.bank, p, s.cfg.defaultTable, amount);
            && Primed(b, p, s.cfg.defaultTable, amount) && Worth(b, p) == Worth(s.bank, p)
            && Path(start, before + [Order(p, "", amount)], s.(bank := b))
  {
    BuyAgain(s.bank, p, s.cfg.defaultTable, amount);
    assert TrimSpace("") == "";
    PathOn(start, before, s, Order(p, "", amount));
  }

  // ... arrives, and asks for the same table.
  lemma SecondAsks(start: Shop, before: seq<Action>, s: Shop, p: string, nickname: string)
    returns (actions: seq<Action>)
    requires s == Shop(s.cfg, s.bank, map[1 := Client(p, nickname, s.cfg.defaultTable, true)], {}, map[], {})
    requires Path(start, before, s) && ColonFree(p)
    ensures Path(start, actions, Second(s.cfg, p, nickname, Look(s.bank, s.cfg.defaultTable),
                                        JoinBegin(s.cfg.defaultTable, None)))
  {
    var start2 := Start(3, 2, JoinBegin(s.cfg.defaultTable, None));
    assert !HasLiveIn(s, p);
    PathOn(start, before, s, Arrive(2, p, nickname));
    var u := Act(s, Arrive(2, p, nickname));
    assert u.live == {2} && u.jobs == map[];
    PathOn(start, before + [Arrive(2, p, nickname)], u, start2);
    actions := before + [Arrive(2, p, nickname)] + [start2];
    assert Act(u, start2).crossed == {};
    assert Act(u, start2).live == {2};
  }

  // A step of the second connection's join whose outcome is known.
  lemma SecondMoves(start: Shop, before: seq<Action>, cfg: Config, me: Client, b: Bank, task: Task, c: Bank, next: Task)
    requires me == Client(me.player, me.nickname, cfg.defaultTable, false) && IsJoin(task)
    requires Path(start, before, Second(cfg, me.player, me.nickname, b, task))
    requires JoinMove(b, me, task) == Move(c, me, Some(next))
    ensures Path(start, before + [Resume(3)], Second(cfg, me.player, me.nickname, c, next))
  {
    ActMoved(Second(cfg, me.player, me.nickname, b, task), 3, c, me, Some(next));
    PathOn(start, before, Second(cfg, me.player, me.nickname, b, task), Resume(3));
  }

  lemma SecondPays(b: Bank, me: Client, amount: int) returns (c: Bank)
    requires Primed(b, me.player, me.tableId, amount)
    ensures JoinMove(b, me, JoinConsume(me.tableId, None, me.tableId, false))
            == Move(c, me, Some(JoinSit(me.tableId, None, amount)))
    ensures BankOk(c) && me.player in c.ledger.balances && Seated(At(c, me.tableId), me.player)
    ensures Worth(c, me.player) == Worth(b, me.player) - amount
  {
    ConsumeEffect(b, me.player, me.tableId);
    c := Consume(b, me.player, me.tableId).0;
  }

  // Sitting down where one already sits is reported as a success, and puts nothing on the table.
  lemma SecondSits(b: Bank, me: Client, amount: int) returns (c: Bank)
    requires BankOk(b) && amount > 0 && me.player in b.ledger.balances && Seated(At(b, me.tableId), me.player)
    ensures JoinMove(b, me, JoinSit(me.tableId, None, amount)) == Move(c, me, Some(JoinMark(me.tableId)))
    ensures Worth(c, me.player) == Worth(b, me.player)
  {
    SitEffect(b, me.tableId, me.player, me.nickname, amount, None);
    c := Sit(b, me.tableId, me.player, me.nickname, amount, None).0;
  }

  lemma SecondChecks(start: Shop, before: seq<Action>, cfg: Config, me: Client, b: Bank) returns (actions: seq<Action>)
    requires me == Client(me.player, me.nickname, cfg.defaultTable, false)
    requires Path(start, before, Second(cfg, me.player, me.nickname, b, JoinBegin(me.tableId, None)))
    ensures Path(start, actions,
                 Second(cfg, me.player, me.nickname, b, JoinConsume(me.tableId, None, me.tableId, false)))
  {
    var check := JoinCheck(me.tableId, None, me.tableId, false);
    SecondMoves(start, before, cfg, me, b, JoinBegin(me.tableId, None), b, check);
    SecondMoves(start, before + [Resume(3)], cfg, me, b, check, b, JoinConsume(me.tableId, None, me.tableId, false));
    actions := before + [Resume(3)] + [Resume(3)];
  }

  lemma SecondMarks(start: Shop, before: seq<Action>, cfg: Config, me: Client, b: Bank) returns (t: Shop)
    requires me == Client(me.player, me.nickname, cfg.defaultTable, false)
    requires Path(start, before, Second(cfg, me.player, me.nickname, b, JoinMark(me.tableId)))
    ensures Path(start, before + [Resume(3)], t) && t.jobs == map[] && t.bank == b
  {
    var s := Second(cfg, me.player, me.nickname, b, JoinMark(me.tableId));
    PathOn(start, before, s, Resume(3));
    t := Act(s, Resume(3));
    assert s.jobs - {3} == map[];
  }

  lemma SecondJoins(start: Shop, before: seq<Action>, cfg: Config, me: Client, b: Bank, amount: int)
    returns (actions: seq<Action>, t: Shop)
    requires me == Client(me.player, me.nickname, cfg.defaultTable, false)
    requires Path(start, before, Second(cfg, me.player, me.nickname, b, JoinBegin(me.tableId, None)))
    requires Primed(b, me.player, me.tableId, amount)
    ensures Path(start, actions, t) && t.jobs == map[] && Worth(t.bank, me.player) == Worth(b, me.player) - amount
  {
    var sit := JoinSit(me.tableId, None, amount);
    actions := SecondChecks(start, before, cfg, me, b);
    var c := SecondPays(b, me, amount);
    SecondMoves(start, actions, cfg, me, b, JoinConsume(me.tableId, None, me.tableId, false), c, sit);
    actions := actions + [Resume(3)];
    var d := SecondSits(c, me, amount);
    SecondMoves(start, actions, cfg, me, c, sit, d, JoinMark(me.tableId));
    actions := actions + [Resume(3)];
    t := SecondMarks(start, actions, cfg, me, d);
    actions := actions + [Resume(3)];
  }

  /** For every player, amount and default table: a lawful schedule from a fresh server, at whose end a
      close of connection 1 starts and is done while the connection's join has yet to sit down. Were
      connection 1 then no longer live, the rest would be orderly, a second connection with its own
      buy-in included, and the player would lose that buy-in. */
  lemma OverlappedCloseMatters(cfg: Config, p: string, nickname: string, amount: int, initial: int)
    returns (lawful: seq<Action>, rest: seq<Action>, t: Shop)
    requires ColonFree(p) && TrimSpace(cfg.defaultTable) != "" && 0 < amount && 2 * amount <= initial <= MAX_INT64
    ensures var closed := lawful + [Start(2, 1, CloseBegin)] + [Resume(2)];
            var s := Play(Opening(cfg), closed);
            && LawfulRun(Opening(cfg), closed) && 2 !in s.jobs && s.live == {1}
            && OrderlyRun(Ended(s), rest) && t == Play(Ended(s), rest) && Idle(t, p)
            && Worth(t.bank, p) == Owned(s, p) - amount
  {
    var b, c: Bank;
    lawful, b := LeadsToFirst(cfg, p, nickname, amount, initial);
    var s := First(cfg, p, nickname, b, amount);
    Claims(cfg, lawful, s, p, initial);
    CloseInVain(cfg, p, nickname, b, amount);
    Do(cfg, lawful, s, Start(2, 1, CloseBegin));
    Do(cfg, lawful + [Start(2, 1, CloseBegin)], Act(s, Start(2, 1, CloseBegin)), Resume(2));
    InHandsOfFirst(cfg, p, nickname, b, amount);
    rest, c := FirstSits(cfg, p, nickname, b, amount);
    var sat := Shop(cfg, c, map[1 := Client(p, nickname, cfg.defaultTable, true)], {}, map[], {});
    SecondBuys(Ended(s), rest, sat, p, amount);
    c := Buy(c, p, cfg.defaultTable, amount);
    LookPrimed(c, p, cfg.defaultTable, amount);
    rest := SecondAsks(Ended(s), rest + [Order(p, "", amount)], sat.(bank := c), p, nickname);
    c := Look(c, cfg.defaultTable);
    rest, t := SecondJoins(Ended(s), rest, cfg, Client(p, nickname, cfg.defaultTable, false), c, amount);
  }
}
