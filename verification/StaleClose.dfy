/** A second close of a dead connection can meet the player's next connection: a schedule from a
    fresh server, with one live connection at any time, in which a buy-in is lost. */
module StaleCloses {
  import opened Basics
  import opened Seating
  import opened Ledgers
  import opened Banks
  import opened Worlds
  import opened Interleaving
  import opened Schedules
  import opened Races

  ghost predicate Reached(cfg: Config, actions: seq<Action>, s: Shop) {
    s == Play(Opening(cfg), actions) && LawfulRun(Opening(cfg), actions)
  }

  lemma {:induction false} Do(cfg: Config, actions: seq<Action>, s: Shop, a: Action)
    requires Reached(cfg, actions, s) && Lawful(s, a)
    ensures Reached(cfg, actions + [a], Act(s, a))
    ensures forall p :: Endowed(Opening(cfg), actions + [a], p)
                        == Endowed(Opening(cfg), actions, p) + EndowedBy(s, a, p)
  {
    assert (actions + [a])[..|actions|] == actions;
    LawfulLonger(Opening(cfg), actions + [a]);
  }

  datatype Claim = IsReached | IsSound | Owns | Received | ByName

  ghost predicate Holds(claim: Claim, cfg: Config, actions: seq<Action>, s: Shop, p: string, owned: int) {
    match claim
    case IsReached => Reached(cfg, actions, s)
    case IsSound => Sound(s)
    case Owns => Owned(s, p) == owned
    case Received => Endowed(Opening(cfg), actions, p) == owned
    case ByName => forall a | a in actions && a.Arrive? :: a.player == p
  }

  // The actions lead here, to a sound shop where the player owns what they were granted, counting
  // chips in hands. Kept by claims, so that a long schedule need not look inside.
  ghost predicate Here(cfg: Config, actions: seq<Action>, s: Shop, p: string, owned: int) {
    forall claim :: Holds(claim, cfg, actions, s, p, owned)
  }

  lemma {:induction false} Claims(cfg: Config, actions: seq<Action>, s: Shop, p: string, owned: int)
    requires Here(cfg, actions, s, p, owned)
    ensures Reached(cfg, actions, s) && Sound(s) && Owned(s, p) == owned == Endowed(Opening(cfg), actions, p)
    ensures forall a | a in actions && a.Arrive? :: a.player == p
  {
    assert Holds(ByName, cfg, actions, s, p, owned);
    assert Holds(IsReached, cfg, actions, s, p, owned) && Holds(IsSound, cfg, actions, s, p, owned);
    assert Holds(Owns, cfg, actions, s, p, owned) && Holds(Received, cfg, actions, s, p, owned);
  }

  lemma DoLawful(cfg: Config, actions: seq<Action>, s: Shop, a: Action, p: string, owned: int)
      returns (longer: seq<Action>)
    requires Here(cfg, actions, s, p, owned) && Lawful(s, a) && (a.Arrive? ==> a.player == p)
    ensures Here(cfg, longer, Act(s, a), p, owned + EndowedBy(s, a, p)) && actions <= longer
  {
    Claims(cfg, actions, s, p, owned);
    longer := actions + [a];
    Do(cfg, actions, s, a);
    LawfulFits(s, a);
    ActSound(s, a);
    ActDrifts(s, a, p);
  }

  // ---------- The bank along the way ----------

  // The player can buy in for the amount, and nobody sits at the table.
  ghost predicate CanBuy(b: Bank, p: string, id: string, amount: int) {
    && BankOk(b) && ColonFree(p) && TrimSpace(id) != ""
    && p in b.ledger.balances && 0 < amount <= b.ledger.balances[p] <= MAX_INT64
    && b.ledger.pending == map[] && At(b, id).playerSeat == map[]
  }

  // A buy-in is pending.
  ghost predicate CanJoin(b: Bank, p: string, id: string, amount: int) {
    && BankOk(b) && ColonFree(p) && TrimSpace(id) != ""
    && p in b.ledger.balances && 0 <= b.ledger.balances[p] && b.ledger.balances[p] + amount <= MAX_INT64
    && b.ledger.pending.Keys == {BuyInKey(p, TrimSpace(id))}
    && b.ledger.pending[BuyInKey(p, TrimSpace(id))].amount == amount > 0
    && At(b, id).playerSeat == map[]
  }

  // The buy-in is in hands.
  ghost predicate CanSit(b: Bank, p: string, id: string, amount: int) {
    && BankOk(b) && ColonFree(p) && TrimSpace(id) != "" && 0 < amount
    && p in b.ledger.balances && 0 <= b.ledger.balances[p] && b.ledger.balances[p] + amount <= MAX_INT64
    && b.ledger.pending == map[] && At(b, id).playerSeat == map[]
  }

  // The player sits at the table with it.
  ghost predicate Sits(b: Bank, p: string, id: string, amount: int) {
    && BankOk(b) && ColonFree(p) && TrimSpace(id) != "" && 0 < amount
    && p in b.ledger.balances && 0 <= b.ledger.balances[p] && b.ledger.balances[p] + amount <= MAX_INT64
    && b.ledger.pending == map[]
    && At(b, id).playerSeat.Keys == {p} && StackAt(At(b, id), p) == amount
  }

  lemma Bought(b: Bank, p: string, id: string, amount: int)
    requires CanBuy(b, p, id, amount)
    ensures CanJoin(Buy(b, p, id, amount), p, id, amount)
  {
    BuyEffect(b, p, id, amount);
    Wrap64InRange(b.ledger.balances[p] - amount);
  }

  // The steps that move the chips, each with the bank it leads to.

  lemma ConsumeStep(cfg: Config, b: Bank, me: Client, amount: int) returns (c: Bank)
    requires CanJoin(b, me.player, me.tableId, amount)
    ensures CanSit(c, me.player, me.tableId, amount)
    ensures MoveOf(cfg, b, me, JoinConsume(me.tableId, None, me.tableId, false))
            == Move(c, me, Some(JoinSit(me.tableId, None, amount)))
  {
    ConsumeEffect(b, me.player, me.tableId);
    c := Consume(b, me.player, me.tableId).0;
  }

  lemma SitStep(cfg: Config, b: Bank, me: Client, amount: int) returns (c: Bank)
    requires CanSit(b, me.player, me.tableId, amount)
    ensures Sits(c, me.player, me.tableId, amount)
    ensures MoveOf(cfg, b, me, JoinSit(me.tableId, None, amount)) == Move(c, me, Some(JoinMark(me.tableId)))
  {
    var p, id := me.player, me.tableId;
    AtSolvent(b, id);
    SitEffect(b, id, p, me.nickname, amount, None);
    JoinEffect(At(b, id), p, me.nickname, amount, None);
    TableFullExactly(At(b, id), p, me.nickname, amount, None);
    c := Sit(b, id, p, me.nickname, amount, None).0;
    assert At(c, id) == Join(At(b, id), p, me.nickname, amount, None).table;
  }

  // Nobody sits at the table any more; the chips are still in hands.
  ghost predicate CanPay(b: Bank, p: string, id: string, amount: int) {
    CanSit(b, p, id, amount)
  }

  lemma RiseStep(cfg: Config, b: Bank, me: Client, amount: int) returns (c: Bank)
    requires Sits(b, me.player, me.tableId, amount)
    ensures CanPay(c, me.player, me.tableId, amount)
    ensures MoveOf(cfg, b, me, ExitLeave(me.tableId, true, amount, true))
            == Move(c, me, Some(ExitCredit(me.tableId, true, amount)))
    ensures MoveOf(cfg, b, me, ExitLeave(me.tableId, true, 0, false)) == Move(c, me, None)
  {
    RiseEffect(b, me.tableId, me.player);
    c := Rise(b, me.tableId, me.player).0;
    assert At(c, me.tableId) == Leave(At(b, me.tableId), me.player).table;
    RiseMove(cfg, b, me, amount, true);
    RiseMove(cfg, b, me, 0, false);
  }

  lemma RiseMove(cfg: Config, b: Bank, me: Client, stack: int, had: bool)
    requires Rise(b, me.tableId, me.player).1.None?
    ensures MoveOf(cfg, b, me, ExitLeave(me.tableId, true, stack, had))
            == Move(Rise(b, me.tableId, me.player).0, me,
                    if had && stack > 0 then Some(ExitCredit(me.tableId, true, stack)) else None)
  {
  }

  lemma PayStep(cfg: Config, b: Bank, me: Client, amount: int) returns (c: Bank)
    requires CanPay(b, me.player, me.tableId, amount)
    ensures CanBuy(c, me.player, me.tableId, amount)
    ensures MoveOf(cfg, b, me, ExitCredit(me.tableId, true, amount)) == Move(c, me, None)
  {
    CreditEffect(b, me.player, amount);
    c := Credit(b, me.player, amount);
  }

  // ---------- The schedule, piece by piece ----------

  // The shop after a step of job j that touches neither marks nor crossings.
  function Moved(s: Shop, j: nat, b: Bank, next: Option<Task>): Shop
    requires j in s.jobs
  {
    var job := s.jobs[j];
    s.(bank := b,
       live := if IsClose(job.task) && next.None? then s.live - {job.client} else s.live,
       jobs := if next.Some? then s.jobs[j := job.(task := next.value)] else s.jobs - {j})
  }

  lemma ActMoved(s: Shop, j: nat, b: Bank, me: Client, next: Option<Task>)
    requires j in s.jobs && j !in s.crossed && s.jobs[j].client in s.clients && s.clients[s.jobs[j].client] == me
    requires MoveOf(s.cfg, s.bank, me, s.jobs[j].task) == Move(b, me, next)
    ensures Act(s, Resume(j)) == Moved(s, j, b, next)
  {
    assert s.clients[s.jobs[j].client := me] == s.clients;
    assert s.crossed - {j} == s.crossed;
  }

  // One lawful step whose outcome is known.
  lemma Go(cfg: Config, actions: seq<Action>, s: Shop, j: nat, b: Bank, me: Client, next: Option<Task>, owned: int)
    returns (longer: seq<Action>)
    requires Here(cfg, actions, s, me.player, owned) && j in s.jobs && j !in s.crossed
    requires s.jobs[j].client in s.clients && s.clients[s.jobs[j].client] == me
    requires NotStale(s.bank, s.jobs[j].player, s.jobs[j].task)
    requires MoveOf(s.cfg, s.bank, me, s.jobs[j].task) == Move(b, me, next)
    ensures Here(cfg, longer, Moved(s, j, b, next), me.player, owned) && actions <= longer
  {
    longer := DoLawful(cfg, actions, s, Resume(j), me.player, owned);
    ActMoved(s, j, b, me, next);
  }

  // The shop with a job begun on a connection that has no other.
  function Begun(s: Shop, j: nat, c: ClientId, me: Client, task: Task): Shop {
    s.(live := if task.CloseBegin? then s.live else s.live + {c}, jobs := s.jobs[j := Job(c, me.player, task)])
  }

  // The shop with a close in progress.
  function Closing(s: Shop, j: nat, c: ClientId, p: string, task: Task): Shop {
    s.(jobs := s.jobs[j := Job(c, p, task)])
  }

  lemma Open(cfg: Config, actions: seq<Action>, s: Shop, j: nat, c: ClientId, me: Client, task: Task, owned: int)
    returns (longer: seq<Action>)
    requires Here(cfg, actions, s, me.player, owned) && j !in s.jobs && j !in s.crossed
    requires c in s.clients && s.clients[c] == me && forall k | k in s.jobs :: s.jobs[k].client != c
    requires task.JoinBegin? || task.CloseBegin?
    requires ColonFree(me.player) && (task.JoinBegin? ==> SoleLive(s, c))
    ensures Here(cfg, longer, Begun(s, j, c, me, task), me.player, owned) && actions <= longer
  {
    longer := DoLawful(cfg, actions, s, Start(j, c, task), me.player, owned);
    assert Crossing(s, j, c, task) == {};
    assert s.crossed - {j} + {} == s.crossed;
  }

  lemma BegunNext(s: Shop, j: nat, c: ClientId, me: Client, task: Task, b: Bank, next: Task)
    requires !task.CloseBegin? && !next.CloseBegin?
    ensures Moved(Begun(s, j, c, me, task), j, b, Some(next)) == Begun(s.(bank := b), j, c, me, next)
  {
  }

  lemma ClosingNext(s: Shop, j: nat, c: ClientId, p: string, task: Task, b: Bank, next: Task)
    ensures Moved(Closing(s, j, c, p, task), j, b, Some(next)) == Closing(s.(bank := b), j, c, p, next)
  {
  }

  // A fresh connection's join at its own table, up to the point of sitting down.
  lemma JoinToSit(cfg: Config, actions: seq<Action>, s: Shop, j: nat, c: ClientId, me: Client, amount: int, owned: int)
    returns (longer: seq<Action>, b: Bank)
    requires Here(cfg, actions, s, me.player, owned) && j !in s.jobs && j !in s.crossed
    requires c in s.clients && s.clients[c] == me && !me.seated && SoleLive(s, c)
    requires (forall k | k in s.jobs :: s.jobs[k].client != c) && CanJoin(s.bank, me.player, me.tableId, amount)
    ensures CanSit(b, me.player, me.tableId, amount)
    ensures Here(cfg, longer, Begun(s.(bank := b), j, c, me, JoinSit(me.tableId, None, amount)), me.player, owned)
  {
    var p, id := me.player, me.tableId;
    longer := Open(cfg, actions, s, j, c, me, JoinBegin(id, None), owned);
    var s1 := Begun(s, j, c, me, JoinBegin(id, None));
    longer := Go(cfg, longer, s1, j, s.bank, me, Some(JoinCheck(id, None, id, false)), owned);
    BegunNext(s, j, c, me, JoinBegin(id, None), s.bank, JoinCheck(id, None, id, false));
    var s2 := Begun(s, j, c, me, JoinCheck(id, None, id, false));
    longer := Go(cfg, longer, s2, j, s.bank, me, Some(JoinConsume(id, None, id, false)), owned);
    BegunNext(s, j, c, me, JoinCheck(id, None, id, false), s.bank, JoinConsume(id, None, id, false));
    var s3 := Begun(s, j, c, me, JoinConsume(id, None, id, false));
    b := ConsumeStep(s.cfg, s.bank, me, amount);
    longer := Go(cfg, longer, s3, j, b, me, Some(JoinSit(id, None, amount)), owned);
    BegunNext(s, j, c, me, JoinConsume(id, None, id, false), b, JoinSit(id, None, amount));
  }

  // Setting the mark, with no other job around.
  lemma MarkAlone(cfg: Config, actions: seq<Action>, s: Shop, j: nat, c: ClientId, me: Client, owned: int)
    returns (longer: seq<Action>)
    requires Here(cfg, actions, s, me.player, owned) && j !in s.crossed && c in s.clients && s.clients[c] == me
    requires s.jobs == map[j := Job(c, me.player, JoinMark(me.tableId))]
    ensures Here(cfg, longer, s.(clients := s.clients[c := me.(seated := true)], jobs := map[]), me.player, owned)
  {
    longer := DoLawful(cfg, actions, s, Resume(j), me.player, owned);
    assert s.crossed - {j} == s.crossed;
    assert Act(s, Resume(j)) == s.(clients := s.clients[c := me.(seated := true)], jobs := map[]);
  }

  // Sitting down with no other job around, and setting the mark.
  lemma SitAlone(cfg: Config, actions: seq<Action>, s: Shop, j: nat, c: ClientId, me: Client, amount: int, owned: int)
    returns (longer: seq<Action>, b: Bank)
    requires Here(cfg, actions, s, me.player, owned) && j !in s.crossed && c in s.clients && s.clients[c] == me
    requires s.jobs == map[j := Job(c, me.player, JoinSit(me.tableId, None, amount))]
    requires CanSit(s.bank, me.player, me.tableId, amount)
    ensures Sits(b, me.player, me.tableId, amount)
    ensures Here(cfg, longer, s.(bank := b, clients := s.clients[c := me.(seated := true)], jobs := map[]), me.player,
        owned)
  {
    var p, id := me.player, me.tableId;
    b := SitStep(s.cfg, s.bank, me, amount);
    longer := DoLawful(cfg, actions, s, Resume(j), p, owned);
    ActMoved(s, j, b, me, Some(JoinMark(id)));
    var sat := s.(bank := b, jobs := map[j := Job(c, p, JoinMark(id))]);
    assert sat == Moved(s, j, b, Some(JoinMark(id)));
    longer := MarkAlone(cfg, longer, sat, j, c, me, owned);
  }

  // A close that has read the stack leaves and pays it out. The mark stays.
  lemma CloseToEnd(cfg: Config, actions: seq<Action>, s: Shop, j: nat, c: ClientId, me: Client, amount: int, owned: int)
    returns (longer: seq<Action>, b: Bank)
    requires var id, p := me.tableId, me.player;
             && Here(cfg, actions, Closing(s, j, c, p, ExitLeave(id, true, amount, true)), p, owned)
             && j !in s.crossed && c in s.clients && s.clients[c] == me && s.jobs == map[]
                  && Sits(s.bank, p, id, amount)
    ensures CanBuy(b, me.player, me.tableId, amount)
    ensures Here(cfg, longer, s.(bank := b, live := s.live - {c}), me.player, owned)
    ensures actions <= longer
  {
    var p, id := me.player, me.tableId;
    var read := Closing(s, j, c, p, ExitLeave(id, true, amount, true));
    var left := RiseStep(s.cfg, s.bank, me, amount);
    longer := Go(cfg, actions, read, j, left, me, Some(ExitCredit(id, true, amount)), owned);
    var paying := Closing(s.(bank := left), j, c, p, ExitCredit(id, true, amount));
    ClosingNext(s, j, c, p, ExitLeave(id, true, amount, true), left, ExitCredit(id, true, amount));
    b := PayStep(s.cfg, left, me, amount);
    longer := Go(cfg, longer, paying, j, b, me, None, owned);
    assert s.(bank := b, live := s.live - {c}) == Moved(paying, j, b, None);
  }

  // A close finds its player at the table and pays out the stack.
  lemma CloseSeated(cfg: Config, actions: seq<Action>, s: Shop, j: nat, c: ClientId, me: Client, amount: int,
      owned: int)
    returns (longer: seq<Action>, b: Bank)
    requires Here(cfg, actions, s, me.player, owned) && j !in s.crossed && c in s.clients && s.clients[c] == me
    requires s.jobs == map[] && me.seated && Sits(s.bank, me.player, me.tableId, amount)
    ensures CanBuy(b, me.player, me.tableId, amount)
    ensures Here(cfg, longer, s.(bank := b, live := s.live - {c}), me.player, owned)
    ensures actions <= longer
  {
    longer := CloseToRead(cfg, actions, s, j, c, me, owned);
    LookSits(s.bank, me.player, me.tableId, amount);
    longer, b := CloseToEnd(cfg, longer, s.(bank := Look(s.bank, me.tableId)), j, c, me, amount, owned);
  }

  lemma LookSits(b: Bank, p: string, id: string, amount: int)
    requires Sits(b, p, id, amount)
    ensures Sits(Look(b, id), p, id, amount)
  {
    LookEffect(b, id);
  }

  lemma LookCanBuy(b: Bank, p: string, id: string, amount: int, other: string)
    requires CanBuy(b, p, id, amount)
    ensures CanBuy(Look(b, other), p, id, amount)
  {
    LookEffect(b, other);
  }

  lemma LookCanJoin(b: Bank, p: string, id: string, amount: int, other: string)
    requires CanJoin(b, p, id, amount)
    ensures CanJoin(Look(b, other), p, id, amount)
  {
    LookEffect(b, other);
  }

  // A close up to and including its reading of the stack at the marked table.
  lemma CloseToRead(cfg: Config, actions: seq<Action>, s: Shop, j: nat, c: ClientId, me: Client, owned: int)
    returns (longer: seq<Action>)
    requires Here(cfg, actions, s, me.player, owned) && j !in s.crossed && c in s.clients && s.clients[c] == me
    requires s.jobs == map[] && me.seated && ColonFree(me.player)
    ensures var id, p := me.tableId, me.player;
            Here(cfg, longer, Closing(s.(bank := Look(s.bank, id)), j, c, p,
                                      ExitLeave(id, true, StackAt(At(s.bank, id), p), Seated(At(s.bank, id), p))),
                                p, owned)
    ensures actions <= longer
  {
    var p, id := me.player, me.tableId;
    longer := Open(cfg, actions, s, j, c, me, CloseBegin, owned);
    var s1 := Closing(s, j, c, p, CloseBegin);
    assert s1 == Begun(s, j, c, me, CloseBegin);
    longer := Go(cfg, longer, s1, j, s.bank, me, Some(CloseTable), owned);
    var s2 := Closing(s, j, c, p, CloseTable);
    ClosingNext(s, j, c, p, CloseBegin, s.bank, CloseTable);
    longer := Go(cfg, longer, s2, j, s.bank, me, Some(ExitRead(id, true)), owned);
    var s3 := Closing(s, j, c, p, ExitRead(id, true));
    ClosingNext(s, j, c, p, CloseTable, s.bank, ExitRead(id, true));
    var next := ExitLeave(id, true, StackAt(At(s.bank, id), p), Seated(At(s.bank, id), p));
    longer := Go(cfg, longer, s3, j, Look(s.bank, id), me, Some(next), owned);
    ClosingNext(s, j, c, p, ExitRead(id, true), Look(s.bank, id), next);
  }

  // A buy-in by HTTP, and the connection it is meant for.
  lemma BuyAndArrive(cfg: Config, actions: seq<Action>, s: Shop, c: ClientId, me: Client, amount: int, owned: int)
    returns (longer: seq<Action>, b: Bank)
    requires Here(cfg, actions, s, me.player, owned) && s.cfg == cfg && c !in s.clients && s.live == {}
    requires me == Client(me.player, me.nickname, cfg.defaultTable, false)
        && CanBuy(s.bank, me.player, me.tableId, amount)
    ensures CanJoin(b, me.player, me.tableId, amount)
    ensures Here(cfg, longer, s.(bank := b, clients := s.clients[c := me], live := {c}), me.player, owned)
  {
    var p, id := me.player, me.tableId;
    longer := DoLawful(cfg, actions, s, Order(p, "", amount), p, owned);
    Bought(s.bank, p, id, amount);
    var bought := s.(bank := Buy(s.bank, p, id, amount));
    assert TrimSpace("") == "";
    assert Act(s, Order(p, "", amount)) == bought;
    assert !HasLiveIn(bought, p);
    longer := DoLawful(cfg, longer, bought, Arrive(c, p, me.nickname), p, owned);
    LookCanJoin(bought.bank, p, id, amount, id);
    b := Look(bought.bank, id);
    assert {} + {c} == {c};
    assert Act(bought, Arrive(c, p, me.nickname)) == s.(bank := b, clients := s.clients[c := me], live := {c});
  }

  // A connection buys in and sits down, ...
  lemma SitsOnce(cfg: Config, p: string, nickname: string, amount: int, initial: int)
    returns (actions: seq<Action>, b: Bank)
    requires ColonFree(p) && TrimSpace(cfg.defaultTable) != "" && 0 < amount <= initial <= MAX_INT64
    ensures Sits(b, p, cfg.defaultTable, amount)
    ensures Here(cfg, actions, Shop(cfg, b, map[1 := Client(p, nickname, cfg.defaultTable, true)], {1}, map[], {}),
                 p, initial)
  {
    var id := cfg.defaultTable;
    var fresh1, marked := Client(p, nickname, id, false), Client(p, nickname, id, true);
    actions, b := Funded(cfg, p, initial, amount);
    actions, b := BuyAndArrive(cfg, actions, Shop(cfg, b, map[], {}, map[], {}), 1, fresh1, amount, initial);
    var s1 := Shop(cfg, b, map[1 := fresh1], {1}, map[], {});
    actions, b := JoinToSit(cfg, actions, s1, 1, 1, fresh1, amount, initial);
    var s2 := Shop(cfg, b, map[1 := fresh1], {1}, map[1 := Job(1, p, JoinSit(id, None, amount))], {});
    assert s2 == Begun(s1.(bank := b), 1, 1, fresh1, JoinSit(id, None, amount));
    actions, b := SitAlone(cfg, actions, s2, 1, 1, fresh1, amount, initial);
    var s3 := Shop(cfg, b, map[1 := marked], {1}, map[], {});
    assert s3 == s2.(bank := b, clients := s2.clients[1 := marked], jobs := map[]);
  }

  // ... is closed, ...
  lemma ClosedOnce(cfg: Config, p: string, nickname: string, amount: int, initial: int)
    returns (before: seq<Action>, sat: Bank, actions: seq<Action>, b: Bank)
    requires ColonFree(p) && TrimSpace(cfg.defaultTable) != "" && 0 < amount <= initial <= MAX_INT64
    ensures var marked := Client(p, nickname, cfg.defaultTable, true);
            && Sits(sat, p, cfg.defaultTable, amount)
            && Here(cfg, before, Shop(cfg, sat, map[1 := marked], {1}, map[], {}), p, initial)
            && CanBuy(b, p, cfg.defaultTable, amount)
            && Here(cfg, actions, Shop(cfg, b, map[1 := marked], {}, map[], {}), p, initial)
            && before <= actions
  {
    var marked := Client(p, nickname, cfg.defaultTable, true);
    before, sat := SitsOnce(cfg, p, nickname, amount, initial);
    var s := Shop(cfg, sat, map[1 := marked], {1}, map[], {});
    actions, b := CloseSeated(cfg, before, s, 2, 1, marked, amount, initial);
    assert Shop(cfg, b, map[1 := marked], {}, map[], {}) == s.(bank := b, live := s.live - {1});
  }

  // ... and is closed once more; the second close has just read that nobody sits at the table.
  lemma ClosedTwice(cfg: Config, p: string, nickname: string, amount: int, initial: int)
    returns (actions: seq<Action>, b: Bank)
    requires ColonFree(p) && TrimSpace(cfg.defaultTable) != "" && 0 < amount <= initial <= MAX_INT64
    ensures var id := cfg.defaultTable;
            && CanBuy(b, p, id, amount)
            && Here(cfg, actions, Shop(cfg, b, map[1 := Client(p, nickname, id, true)], {},
                                       map[3 := Job(1, p, ExitLeave(id, true, 0, false))], {}), p, initial)
  {
    var id, marked := cfg.defaultTable, Client(p, nickname, cfg.defaultTable, true);
    var _, _, once, left := ClosedOnce(cfg, p, nickname, amount, initial);
    var s4 := Shop(cfg, left, map[1 := marked], {}, map[], {});
    actions := CloseToRead(cfg, once, s4, 3, 1, marked, initial);
    NobodyThere(left, p, id, amount);
    LookCanBuy(left, p, id, amount, id);
    var s5 := Closing(s4.(bank := Look(left, id)), 3, 1, p, ExitLeave(id, true, 0, false));
    b := Look(left, id);
    assert s5 == Shop(cfg, b, map[1 := marked], {}, map[3 := Job(1, p, ExitLeave(id, true, 0, false))], {});
  }

  lemma NobodyThere(b: Bank, p: string, id: string, amount: int)
    requires CanBuy(b, p, id, amount)
    ensures !Seated(At(b, id), p) && StackAt(At(b, id), p) == 0
  {
  }

  // A fresh server, and the first grant.
  lemma Funded(cfg: Config, p: string, initial: int, amount: int) returns (actions: seq<Action>, b: Bank)
    requires ColonFree(p) && TrimSpace(cfg.defaultTable) != "" && 0 < amount <= initial <= MAX_INT64
    ensures CanBuy(b, p, cfg.defaultTable, amount) && Here(cfg, actions, Shop(cfg, b, map[], {}, map[], {}), p, initial)
  {
    var s := Opening(cfg);
    OpeningSound(cfg);
    assert OrderlyRun(s, []);
    assert Here(cfg, [], s, p, 0);
    actions := DoLawful(cfg, [], s, Endow(p, initial), p, 0);
    GrantEffect(s.bank, p, initial);
    b := Grant(s.bank, p, initial);
    assert Act(s, Endow(p, initial)) == Shop(cfg, b, map[], {}, map[], {});
  }

  // The player's next connection has bought in and is about to sit down at the same table.
  lemma AboutToSit(cfg: Config, p: string, nickname: string, amount: int, initial: int)
    returns (actions: seq<Action>, b: Bank)
    requires ColonFree(p) && TrimSpace(cfg.defaultTable) != "" && 0 < amount <= initial <= MAX_INT64
    ensures CanSit(b, p, cfg.defaultTable, amount)
        && Here(cfg, actions, Crowded(cfg, b, p, nickname, amount), p, initial)
  {
    var id := cfg.defaultTable;
    var next := Client(p, nickname, id, false);
    actions, b := ClosedTwice(cfg, p, nickname, amount, initial);
    var s0 := Shop(cfg, b, map[1 := next.(seated := true)], {}, map[3 := Job(1, p, ExitLeave(id, true, 0, false))], {});
    actions, b := BuyAndArrive(cfg, actions, s0, 2, next, amount, initial);
    var s1 := s0.(bank := b, clients := s0.clients[2 := next], live := {2});
    actions, b := JoinToSit(cfg, actions, s1, 4, 2, next, amount, initial);
    assert Begun(s1.(bank := b), 4, 2, next, JoinSit(id, None, amount)) == Crowded(cfg, b, p, nickname, amount);
  }

  // Job 3 is the stale second close of connection 1, job 4 the join of connection 2.
  function Crowded(cfg: Config, b: Bank, p: string, nickname: string, amount: int): Shop {
    var id := cfg.defaultTable;
    Shop(cfg, b, map[1 := Client(p, nickname, id, true), 2 := Client(p, nickname, id, false)], {2},
         map[3 := Job(1, p, ExitLeave(id, true, 0, false)), 4 := Job(2, p, JoinSit(id, None, amount))], {})
  }

  // The same shop with the join seated and about to set its mark, and the close still there or gone.
  function MarkPending(cfg: Config, b: Bank, p: string, nickname: string, amount: int, closing: bool): Shop {
    var s, id := Crowded(cfg, b, p, nickname, amount), cfg.defaultTable;
    s.(jobs := if closing then s.jobs[4 := Job(2, p, JoinMark(id))] else map[4 := Job(2, p, JoinMark(id))])
  }

  // The join sits down beside the close that has read an empty seat. No chip is lost yet.
  lemma SitBeside(cfg: Config, actions: seq<Action>, b: Bank, p: string, nickname: string, amount: int, initial: int)
    returns (longer: seq<Action>, sat: Bank)
    requires CanSit(b, p, cfg.defaultTable, amount)
        && Here(cfg, actions, Crowded(cfg, b, p, nickname, amount), p, initial)
    ensures Sits(sat, p, cfg.defaultTable, amount)
    ensures Here(cfg, longer, MarkPending(cfg, sat, p, nickname, amount, true), p, initial)
  {
    var s, id, me := Crowded(cfg, b, p, nickname, amount), cfg.defaultTable,
        Client(p, nickname, cfg.defaultTable, false);
    sat := SitStep(cfg, b, me, amount);
    longer := Go(cfg, actions, s, 4, sat, me, Some(JoinMark(id)), initial);
    assert Moved(s, 4, sat, Some(JoinMark(id))) == MarkPending(cfg, sat, p, nickname, amount, true);
  }

  // Leaving on the strength of an empty reading gives up the seat and pays nothing for it.
  lemma StaleStep(s: Shop, j: nat, me: Client, amount: int) returns (left: Bank)
    requires j in s.jobs && j !in s.crossed && s.jobs[j].task == ExitLeave(me.tableId, true, 0, false)
    requires s.jobs[j].client in s.clients && s.clients[s.jobs[j].client] == me && s.jobs[j].player == me.player
    requires Sits(s.bank, me.player, me.tableId, amount)
    ensures Act(s, Resume(j)) == Moved(s, j, left, None)
    ensures Owned(Moved(s, j, left, None), me.player) == Owned(s, me.player) - amount
  {
    LeaveStepExactly(s, j);
    left := RiseStep(s.cfg, s.bank, me, amount);
    ActMoved(s, j, left, me, None);
  }

  lemma CloseGone(cfg: Config, sat: Bank, left: Bank, p: string, nickname: string, amount: int)
    ensures Moved(MarkPending(cfg, sat, p, nickname, amount, true), 3, left, None)
            == MarkPending(cfg, left, p, nickname, amount, false)
  {
  }

  // The close gives up the seat, and the join, none the wiser, marks its connection as seated.
  lemma LeaveAndMark(s: Shop, cfg: Config, sat: Bank, p: string, nickname: string, amount: int) returns (t: Shop)
    requires s == MarkPending(cfg, sat, p, nickname, amount, true) && Sits(sat, p, cfg.defaultTable, amount)
    ensures t == Act(Act(s, Resume(3)), Resume(4)) && t.jobs == map[] && Owned(t, p) == Owned(s, p) - amount
  {
    var left := StaleStep(s, 3, Client(p, nickname, cfg.defaultTable, true), amount);
    CloseGone(cfg, sat, left, p, nickname, amount);
    t := MarkLast(MarkPending(cfg, left, p, nickname, amount, false), 4, p);
  }

  lemma MarkLast(s: Shop, j: nat, p: string) returns (t: Shop)
    requires j in s.jobs && s.jobs[j].task.JoinMark? && s.jobs[j].client in s.clients && s.jobs.Keys == {j}
    ensures t == Act(s, Resume(j)) && t.jobs == map[] && Owned(t, p) == Owned(s, p)
  {
    HandsAfter(s, j, NextMove(s, j), p);
    t := Act(s, Resume(j));
  }

  lemma {:induction false} TwoMore(s: Shop, actions: seq<Action>, a: Action, b: Action, p: string)
    ensures Play(s, actions + [a] + [b]) == Act(Act(Play(s, actions), a), b)
    ensures a.Resume? && b.Resume? ==> Endowed(s, actions + [a] + [b], p) == Endowed(s, actions, p)
  {
    var longer := actions + [a] + [b];
    assert longer[..|longer| - 1] == actions + [a] && (actions + [a])[..|actions|] == actions;
  }

  /** The loss, for every amount, player and default table: a lawful schedule from a fresh server, and
      two steps of the jobs left over, after which no job is unfinished and the player owns less than
      they were granted, by the buy-in. Everyone has had one live connection at any time; the first
      of the two steps is the stale leave. */
  lemma StaleCloseLoses(cfg: Config, p: string, nickname: string, amount: int, initial: int)
    returns (lawful: seq<Action>, t: Shop)
    requires ColonFree(p) && TrimSpace(cfg.defaultTable) != "" && 0 < amount <= initial <= MAX_INT64
    ensures LawfulRun(Opening(cfg), lawful) && OneLive(Play(Opening(cfg), lawful))
    ensures t == Play(Opening(cfg), lawful + [Resume(3)] + [Resume(4)]) && Idle(t, p)
    ensures Worth(t.bank, p) == Endowed(Opening(cfg), lawful + [Resume(3)] + [Resume(4)], p) - amount
  {
    var b;
    lawful, b := AboutToSit(cfg, p, nickname, amount, initial);
    lawful, b := SitBeside(cfg, lawful, b, p, nickname, amount, initial);
    var s := MarkPending(cfg, b, p, nickname, amount, true);
    Claims(cfg, lawful, s, p, initial);
    t := LeaveAndMark(s, cfg, b, p, nickname, amount);
    TwoMore(Opening(cfg), lawful, Resume(3), Resume(4), p);
    IdleHands(t, p);
  }
}
