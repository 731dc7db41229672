/** The store computes in 64-bit integers. Whatever the handlers do, it computes what a ledger of
    unbounded integers would. */
module Overflow {
  import opened Basics
  import opened Seating
  import opened Ledgers
  import opened Banks
  import opened Worlds
  import opened Interleaving
  import opened Schedules
  import opened Atomicity
  import opened Conservation

  // ---------- The unbounded ledger ----------

  function ExactCredit(b: Bank, p: string, amount: int): Bank {
    b.(ledger := CreditWalletIn(Unbounded, b.ledger, p, amount).0)
  }

  function ExactBuy(b: Bank, p: string, id: string, amount: int): Bank {
    var t := TrimSpace(id);
    b.(ledger := CreateBuyInIn(Unbounded, b.ledger, BuyInKey(p, t), p, t, amount).0)
  }

  lemma CreditSame(b: Bank, p: string, amount: int)
    requires BankOk(b) && amount >= 0 && Balance(b.ledger, p) + amount <= MAX_INT64
    ensures ExactCredit(b, p, amount) == Credit(b, p, amount)
    ensures Balance(Credit(b, p, amount).ledger, p) == Balance(b.ledger, p) + amount
  {
    assert Balance(b.ledger, p) >= 0;
    Wrap64InRange(Balance(b.ledger, p) + amount);
  }

  lemma BuySame(b: Bank, p: string, id: string, amount: int)
    requires Balance(b.ledger, p) <= MAX_INT64
    ensures ExactBuy(b, p, id, amount) == Buy(b, p, id, amount)
  {
    if 0 < amount <= Balance(b.ledger, p) {
      Wrap64InRange(Balance(b.ledger, p) - amount);
    }
  }

  // ---------- Interleaved handlers ----------

  predicate Credits(task: Task) {
    task.JoinCredit? || task.JoinRefund? || task.ExitCredit?
  }

  function CreditOf(task: Task): int
    requires Credits(task)
  {
    match task
    case JoinCredit(_, _, _, _, owed) => owed
    case JoinRefund(stack) => stack
    case ExitCredit(_, _, owed) => owed
  }

  // The step with credits computed in unbounded integers.
  function ExactMove(cfg: Config, b: Bank, me: Client, task: Task): Move {
    var m := MoveOf(cfg, b, me, task);
    if Credits(task) then m.(bank := ExactCredit(b, me.player, CreditOf(task))) else m
  }

  lemma SameMove(cfg: Config, b: Bank, me: Client, task: Task, alive: bool)
    requires BankOk(b) && TaskOk(b, me.player, task, alive) && Worth(b, me.player) + Held(task) <= MAX_INT64
    ensures ExactMove(cfg, b, me, task) == MoveOf(cfg, b, me, task)
  {
    if Credits(task) {
      WorthParts(b, me.player);
      CreditSame(b, me.player, CreditOf(task));
    }
  }

  ghost function ExactAct(s: Shop, a: Action): Shop {
    match a
    case Resume(j) =>
      if j in s.jobs && s.jobs[j].client in s.clients
      then After(s, j, ExactMove(s.cfg, s.bank, s.clients[s.jobs[j].client], s.jobs[j].task))
      else s
    case Order(p, id, amount) => if amount <= 0 then s else s.(bank := ExactBuy(s.bank, p, Resolve(s.cfg, id), amount))
    case _ => Act(s, a)
  }

  ghost function ExactPlay(s: Shop, actions: seq<Action>): Shop {
    if actions == [] then s else ExactAct(ExactPlay(s, actions[..|actions| - 1]), actions[|actions| - 1])
  }

  lemma SameAct(s: Shop, a: Action)
    requires Sound(s)
    ensures ExactAct(s, a) == Act(s, a)
  {
    if a.Resume? && a.job in s.jobs {
      var job := s.jobs[a.job];
      assert JobSound(s, a.job);
      HandsPositive(s, job.player);
      assert Owned(s, job.player) <= MAX_INT64;
      SameMove(s.cfg, s.bank, s.clients[job.client], job.task, Alive(s, a.job));
    } else if a.Order? {
      BalanceFits(s, a.player);
      BuySame(s.bank, a.player, Resolve(s.cfg, a.tableId), a.amount);
    }
  }

  /** Over any orderly schedule from a fresh server, whatever its exits have read, as long as nobody is
      richer than a balance can be, the 64-bit ledger, credits and debits alike, does exactly what the
      unbounded one does. In a lawful schedule nobody gets so rich. */
  lemma {:induction false} UnboundedPlay(cfg: Config, actions: seq<Action>)
    requires OrderlyRun(Opening(cfg), actions) && FittingRun(Opening(cfg), actions)
    ensures ExactPlay(Opening(cfg), actions) == Play(Opening(cfg), actions)
  {
    if actions != [] {
      var n := |actions| - 1;
      OrderlyPrefix(Opening(cfg), actions);
      FittingPrefix(Opening(cfg), actions);
      UnboundedPlay(cfg, actions[..n]);
      OpeningSound(cfg);
      PlaySound(Opening(cfg), actions[..n]);
      SameAct(Play(Opening(cfg), actions[..n]), actions[n]);
    }
  }

  /** Every credit a job makes raises the wallet by exactly the amount. */
  lemma {:induction false} JobCreditsExact(cfg: Config, actions: seq<Action>, s: Shop, j: nat)
    requires OrderlyRun(Opening(cfg), actions) && FittingRun(Opening(cfg), actions)
    requires s == Play(Opening(cfg), actions) && j in s.jobs && Credits(s.jobs[j].task)
    ensures var p := s.jobs[j].player;
            Balance(Act(s, Resume(j)).bank.ledger, p) == Balance(s.bank.ledger, p) + CreditOf(s.jobs[j].task)
  {
    OpeningSound(cfg);
    PlaySound(Opening(cfg), actions);
    CreditStep(s, j);
  }

  lemma CreditStep(s: Shop, j: nat)
    requires Sound(s) && j in s.jobs && Credits(s.jobs[j].task)
    ensures var p := s.jobs[j].player;
            Balance(Act(s, Resume(j)).bank.ledger, p) == Balance(s.bank.ledger, p) + CreditOf(s.jobs[j].task)
  {
    var job := s.jobs[j];
    assert JobSound(s, j);
    HandsPositive(s, job.player);
    assert Owned(s, job.player) <= MAX_INT64;
    WorthParts(s.bank, job.player);
    CreditSame(s.bank, job.player, CreditOf(job.task));
  }

  // ---------- Handlers in one step ----------

  // The remaining steps of a job, with credits computed in unbounded integers.
  function ExactFinish(cfg: Config, b: Bank, me: Client, task: Task): (Bank, Client)
    decreases Rank(task)
  {
    var m := ExactMove(cfg, b, me, task);
    if m.next.None? then (m.bank, m.me)
    else
      assert Rank(m.next.value) < Rank(task) by {
        MoveRank(cfg, b, me, task);
      }
      ExactFinish(cfg, m.bank, m.me, m.next.value)
  }

  ghost predicate MayFinish(b: Bank, me: Client, task: Task, alive: bool) {
    && BankOk(b) && ColonFree(me.player) && TaskOk(b, me.player, task, alive) && OneSeat(b, me.player)
    && (IsJoin(task) ==> alive) && (alive ==> MarkOk(b, me, task))
    && Worth(b, me.player) + Held(task) <= MAX_INT64 && NotStale(b, me.player, task)
  }

  lemma MayGoOn(cfg: Config, b: Bank, me: Client, task: Task, alive: bool)
    requires MayFinish(b, me, task, alive)
    ensures var m := MoveOf(cfg, b, me, task);
            m.next.Some? ==> MayFinish(m.bank, m.me, m.next.value, alive)
  {
    MoveProgress(cfg, b, me, task, alive);
    NoDriftExactly(b, me.player, task);
    var m := MoveOf(cfg, b, me, task);
    StillOneSeat(b, me, task, alive, m);
    ReadsNow(cfg, b, me, task);
  }

  lemma StillOneSeat(b: Bank, me: Client, task: Task, alive: bool, m: Move)
    requires OneSeat(b, me.player) && Progress(b, me, task, alive, m)
    ensures OneSeat(m.bank, me.player)
  {
    if SitsDown(task, m) {
      assert OnlyAt(m.bank, me.player, m.next.value.id);
    } else {
      forall id | Seated(At(m.bank, id), me.player)
        ensures OnlyAt(m.bank, me.player, id)
      {
        assert OnlyAt(b, me.player, id);
      }
    }
  }

  lemma {:induction false} SameFinish(cfg: Config, b: Bank, me: Client, task: Task, alive: bool)
    requires MayFinish(b, me, task, alive)
    ensures ExactFinish(cfg, b, me, task) == Finish(cfg, b, me, task)
    decreases Rank(task)
  {
    SameMove(cfg, b, me, task, alive);
    var m := MoveOf(cfg, b, me, task);
    if m.next.Some? {
      MoveRank(cfg, b, me, task);
      MayGoOn(cfg, b, me, task, alive);
      SameFinish(cfg, m.bank, m.me, m.next.value, alive);
    }
  }

  lemma OneSeatInOrder(s: System, p: string)
    requires InOrder(s)
    ensures OneSeat(s.world.bank, p)
  {
    forall id | Seated(At(s.world.bank, id), p)
      ensures OnlyAt(s.world.bank, p, id)
    {
      assert HasLive(s, p);
      var c :| c in s.live && c in s.world.clients && s.world.clients[c].player == p;
      assert Marked(s.world, c);
    }
  }

  // The only connection of a player that may be heard from is marked right.
  lemma HeardCovers(s: System, c: ClientId)
    requires InOrder(s) && c in s.world.clients
    requires forall d | d in s.live && s.world.clients[d].player == s.world.clients[c].player :: d == c
    ensures var me := s.world.clients[c]; Covers(s.world.bank, me.player, me.tableId, me.seated)
  {
    WakeKeeps(s, c);
    assert Marked(s.world, c);
  }

  /** Over any legal run, the handler of the next message leaves tables, ledger and mark as it would
      with an unbounded ledger, whichever of the two messages it is. */
  lemma {:induction false} MessagesUnbounded(cfg: Config, events: seq<Event>, s: System, c: ClientId, req: JoinRequest,
                                             requested: string, wx: Weather)
    requires LegalRun(Boot(cfg), events) && s == Run(Boot(cfg), events) && c in s.world.clients
    requires forall d | d in s.live && d in s.world.clients
        && s.world.clients[d].player == s.world.clients[c].player :: d == c
    ensures ExactFinish(s.world.cfg, s.world.bank, s.world.clients[c],
        JoinBegin(Resolve(s.world.cfg, req.tableId), req.seat))
            == PartOf(HandleJoin(s.world, c, req, wx).world, c)
    ensures ExactFinish(s.world.cfg, s.world.bank, s.world.clients[c], LeaveBegin(requested))
            == PartOf(HandleLeave(s.world, c, requested, wx).world, c)
  {
    BootInOrder(cfg);
    RunConserves(Boot(cfg), events);
    var me := s.world.clients[c];
    HeardCovers(s, c);
    OneSeatInOrder(s, me.player);
    assert Worth(s.world.bank, me.player) <= MAX_INT64;
    JoinAlone(s.world, c, req, wx);
    LeaveAlone(s.world, c, requested, wx);
    SameFinish(s.world.cfg, s.world.bank, me, JoinBegin(Resolve(s.world.cfg, req.tableId), req.seat), true);
    SameFinish(s.world.cfg, s.world.bank, me, LeaveBegin(requested), true);
  }

  /** And so does the closing of any connection, stale ones included. */
  lemma {:induction false} ClosesUnbounded(cfg: Config, events: seq<Event>, s: System, c: ClientId, lost: set<ClientId>)
    requires LegalRun(Boot(cfg), events) && s == Run(Boot(cfg), events) && c in s.world.clients
    ensures ExactFinish(s.world.cfg, s.world.bank, s.world.clients[c], CloseBegin)
            == PartOf(CloseClient(s.world, c, lost).0, c)
  {
    BootInOrder(cfg);
    RunConserves(Boot(cfg), events);
    var me := s.world.clients[c];
    OneSeatInOrder(s, me.player);
    assert Worth(s.world.bank, me.player) <= MAX_INT64;
    CloseAlone(s.world, c, lost);
    SameFinish(s.world.cfg, s.world.bank, me, CloseBegin, false);
  }

  /** And every buy-in: the debit is the mathematical one. */
  lemma {:induction false} BuyInsUnbounded(cfg: Config, events: seq<Event>, b: Bank, p: string, id: string, amount: int)
    requires LegalRun(Boot(cfg), events) && b == Run(Boot(cfg), events).world.bank
    ensures ExactBuy(b, p, id, amount) == Buy(b, p, id, amount)
  {
    BootInOrder(cfg);
    RunConserves(Boot(cfg), events);
    WorthParts(b, p);
    assert Worth(b, p) <= MAX_INT64;
    BuySame(b, p, id, amount);
  }
}
