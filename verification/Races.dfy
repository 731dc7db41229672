/** Exits that race for one stack: leave_table, the close after a lost connection and the close of
    a revoked session, in any number and any order, among everything else the player does. */
module Races {
  import opened Basics
  import opened Sums
  import opened Seating
  import opened Ledgers
  import opened Banks
  import opened Worlds
  import opened Interleaving
  import opened Schedules
  import opened Overflow

  // ---------- What leaving pays out ----------

  predicate Leaves(task: Task) {
    task.ExitLeave? || task.JoinLeave?
  }

  // The table the step leaves, and what it pays out if the player is found there.
  function LeftTable(task: Task): string
    requires Leaves(task)
  {
    if task.ExitLeave? then task.id else task.from
  }

  function PaysOut(task: Task): int
    requires Leaves(task)
  {
    if task.ExitLeave? then (if task.had && task.stack > 0 then task.stack else 0)
    else if task.had then task.previous
    else 0
  }

  lemma StackTaken(b: Bank, id: string, p: string, c: Bank, e: Option<TableError>)
    requires BankOk(b) && (c, e) == Rise(b, id, p)
    ensures Worth(c, p) == Worth(b, p) - StackAt(At(b, id), p)
    ensures e.None? <==> Seated(At(b, id), p)
    ensures if e.None? then StackAt(At(b, id), p) > 0 else StackAt(At(b, id), p) == 0
  {
    RiseMoves(b, id, p);
  }

  lemma LeaveShape(cfg: Config, b: Bank, me: Client, task: Task)
    requires Leaves(task)
    ensures var (c, e) := Rise(b, LeftTable(task), me.player);
            var m := MoveOf(cfg, b, me, task);
            m.bank == c && HeldNext(m.next) == Held(task) + (if e.None? then PaysOut(task) else 0)
  {
  }

  /** The step that leaves a table pays out the stack that was read there earlier, in an exit as in
      a join. So it changes what the player owns by the difference to the stack that is there. */
  lemma LeaveStepExactly(s: Shop, j: nat)
    requires BankOk(s.bank) && j in s.jobs && Leaves(s.jobs[j].task)
    requires s.jobs[j].client in s.clients && s.clients[s.jobs[j].client].player == s.jobs[j].player
    ensures var p, task := s.jobs[j].player, s.jobs[j].task;
            Owned(Act(s, Resume(j)), p) == Owned(s, p)
              + (if Seated(At(s.bank, LeftTable(task)), p)
                  then PaysOut(task) - StackAt(At(s.bank, LeftTable(task)), p) else 0)
  {
    var p, task := s.jobs[j].player, s.jobs[j].task;
    var me := s.clients[s.jobs[j].client];
    var (c, e) := Rise(s.bank, LeftTable(task), p);
    StackTaken(s.bank, LeftTable(task), p, c, e);
    LeaveShape(s.cfg, s.bank, me, task);
    HandsAfter(s, j, NextMove(s, j), p);
  }

  /** The exact condition: in any reachable or unreachable state with sound tables, a leave step
      keeps what its player owns if and only if the player is not there, or the stack it read is
      the stack there. */
  lemma StaleReadExactly(s: Shop, j: nat)
    requires BankOk(s.bank) && j in s.jobs && Leaves(s.jobs[j].task)
    requires s.jobs[j].client in s.clients && s.clients[s.jobs[j].client].player == s.jobs[j].player
    ensures var p, task := s.jobs[j].player, s.jobs[j].task;
            Owned(Act(s, Resume(j)), p) == Owned(s, p)
            <==> (Seated(At(s.bank, LeftTable(task)), p) ==> PaysOut(task) == StackAt(At(s.bank, LeftTable(task)), p))
  {
    LeaveStepExactly(s, j);
  }

  lemma SitShape(cfg: Config, b: Bank, me: Client, task: Task)
    requires task.JoinSit? && task.stack > 0
    ensures var (c, e) := Sit(b, task.id, me.player, me.nickname, task.stack, task.seat);
            var m := MoveOf(cfg, b, me, task);
            m.bank == c && HeldNext(m.next) == (if e.None? then 0 else task.stack)
  {
  }

  /** The step that sits down costs the player the whole stack if they already sit there, and nothing
      otherwise. */
  lemma SitStepExactly(s: Shop, j: nat)
    requires BankOk(s.bank) && j in s.jobs && s.jobs[j].task.JoinSit? && s.jobs[j].task.stack > 0
    requires s.jobs[j].client in s.clients && s.clients[s.jobs[j].client].player == s.jobs[j].player
    requires s.jobs[j].player in s.bank.ledger.balances
    ensures var p, task := s.jobs[j].player, s.jobs[j].task;
            Owned(Act(s, Resume(j)), p) == Owned(s, p) - (if Seated(At(s.bank, task.id), p) then task.stack else 0)
  {
    var p, task := s.jobs[j].player, s.jobs[j].task;
    SitEffect(s.bank, task.id, p, s.clients[s.jobs[j].client].nickname, task.stack, task.seat);
    SitShape(s.cfg, s.bank, s.clients[s.jobs[j].client], task);
    HandsAfter(s, j, NextMove(s, j), p);
  }

  // ---------- The account of one seat ----------

  // Payments are counted by amount, or one by one.
  function Share(amount: int, counting: bool): int {
    if counting then (if amount > 0 then 1 else 0) else amount
  }

  // The part of a job's chips that came from leaving the table.
  function HeldFrom(task: Task, id: string, counting: bool): int {
    match task
    case JoinUnmark(_, _, from, _, owed) => if from == id then Share(owed, counting) else 0
    case JoinCredit(_, _, from, _, owed) => if from == id then Share(owed, counting) else 0
    case ExitCredit(left, _, owed) => if left == id then Share(owed, counting) else 0
    case _ => 0
  }

  function HeldFromNext(next: Option<Task>, id: string, counting: bool): int {
    if next.Some? then HeldFrom(next.value, id, counting) else 0
  }

  // What a credit step pays into the wallet for leaving the table.
  function PaidOn(task: Task, id: string, counting: bool): int {
    if task.JoinCredit? || task.ExitCredit? then HeldFrom(task, id, counting) else 0
  }

  ghost function Stake(b: Bank, p: string, id: string, counting: bool): int {
    Share(StackAt(At(b, id), p), counting)
  }

  lemma SameStake(a: Bank, b: Bank, p: string, id: string, counting: bool)
    requires SameSeat(a, b, p, id)
    ensures Stake(b, p, id, counting) == Stake(a, p, id, counting)
  {
  }

  // What rising from a table does to the stakes.
  lemma RiseStake(b: Bank, from: string, p: string, id: string)
    requires BankOk(b)
    ensures var (c, e) := Rise(b, from, p);
            && StackAt(At(c, id), p) == (if id == from then 0 else StackAt(At(b, id), p))
            && (e.None? <==> Seated(At(b, from), p))
            && (e.Some? ==> StackAt(At(b, from), p) == 0)
  {
    AtSolvent(b, from);
    LeaveEffect(At(b, from), p);
    RiseEffect(b, from, p);
    var (c, e) := Rise(b, from, p);
    assert forall other | other != from :: At(c, other) == At(b, other);
  }

  // What a leave step takes into hands, by what rising came to.
  lemma LeaveHeld(cfg: Config, b: Bank, me: Client, task: Task, id: string, counting: bool)
    requires Leaves(task)
    ensures var from := LeftTable(task);
            var (c, e) := Rise(b, from, me.player);
            var m := MoveOf(cfg, b, me, task);
            && m.bank == c
            && HeldFromNext(m.next, id, counting) == if id == from && e.None? then Share(PaysOut(task), counting) else 0
  {
  }

  // A step that leaves a table turns the stake there into chips in hands.
  lemma LeaveAccount(cfg: Config, b: Bank, me: Client, task: Task, id: string, counting: bool)
    requires Leaves(task) && BankOk(b)
    requires LeftTable(task) == id && Seated(At(b, id), me.player) ==> PaysOut(task) == StackAt(At(b, id), me.player)
    ensures var m := MoveOf(cfg, b, me, task);
            Stake(m.bank, me.player, id, counting) + HeldFromNext(m.next, id, counting)
                == Stake(b, me.player, id, counting)
  {
    RiseStake(b, LeftTable(task), me.player, id);
    LeaveHeld(cfg, b, me, task, id, counting);
  }

  // Nothing is about to leave this table on the strength of a stale reading.
  ghost predicate ReadRight(b: Bank, p: string, task: Task, id: string) {
    task.ExitLeave? && task.id == id ==> NotStale(b, p, task)
  }

  // What a leave step has read is what it will find.
  lemma LeaveCurrent(b: Bank, p: string, task: Task)
    requires Leaves(task) && BankOk(b) && TaskOk(b, p, task, false) && NotStale(b, p, task)
    ensures Seated(At(b, LeftTable(task)), p) ==> PaysOut(task) == StackAt(At(b, LeftTable(task)), p)
  {
    AtSolvent(b, LeftTable(task));
  }

  lemma CreditAccount(cfg: Config, b: Bank, me: Client, task: Task, id: string, counting: bool)
    requires task.JoinCredit? || task.ExitCredit? || (task.JoinUnmark? && task.owed >= 0)
    ensures var m := MoveOf(cfg, b, me, task);
            && m.bank.tables == b.tables
            && HeldFromNext(m.next, id, counting) + PaidOn(task, id, counting) == HeldFrom(task, id, counting)
  {
  }

  // A step that sits down elsewhere, or nowhere.
  lemma SitAccount(cfg: Config, b: Bank, me: Client, task: Task, id: string)
    requires task.JoinSit? && !(SitsDown(task, MoveOf(cfg, b, me, task)) && task.id == id)
    ensures SameSeat(b, MoveOf(cfg, b, me, task).bank, me.player, id)
  {
  }

  // Every other step leaves all tables as they are.
  lemma QuietAccount(cfg: Config, b: Bank, me: Client, task: Task, id: string)
    requires !Leaves(task) && !task.JoinSit?
    ensures At(MoveOf(cfg, b, me, task).bank, id) == At(b, id)
  {
  }

  /** One step of one job keeps the account of the seat: stake, chips in hands, chips paid. */
  lemma MoveAccount(cfg: Config, b: Bank, me: Client, task: Task, id: string, counting: bool)
    requires BankOk(b) && TaskOk(b, me.player, task, false) && ReadRight(b, me.player, task, id)
    requires !(SitsDown(task, MoveOf(cfg, b, me, task)) && task.id == id)
    ensures var m := MoveOf(cfg, b, me, task);
            Stake(m.bank, me.player, id, counting) + HeldFromNext(m.next, id, counting) + PaidOn(task, id, counting)
            == Stake(b, me.player, id, counting) + HeldFrom(task, id, counting)
  {
    if Leaves(task) {
      if LeftTable(task) == id {
        LeaveCurrent(b, me.player, task);
      }
      LeaveAccount(cfg, b, me, task, id, counting);
    } else if task.JoinSit? {
      SitAccount(cfg, b, me, task, id);
    } else {
      QuietAccount(cfg, b, me, task, id);
      if task.JoinCredit? || task.ExitCredit? || task.JoinUnmark? {
        CreditAccount(cfg, b, me, task, id, counting);
      }
    }
  }

  // ---------- The account over one action ----------

  function InHandsFrom(s: Shop, p: string, id: string, counting: bool): map<nat, int> {
    map j | j in s.jobs && s.jobs[j].player == p :: HeldFrom(s.jobs[j].task, id, counting)
  }

  ghost function InFlightFrom(s: Shop, p: string, id: string, counting: bool): int {
    Sum(InHandsFrom(s, p, id, counting))
  }

  // What the action pays into the player's wallet for leaving the table.
  function PaidBy(s: Shop, a: Action, p: string, id: string, counting: bool): int {
    if a.Resume? && a.job in s.jobs && s.jobs[a.job].player == p then PaidOn(s.jobs[a.job].task, id, counting) else 0
  }

  // The player does not sit down at the table.
  ghost predicate StaysAway(s: Shop, a: Action, p: string, id: string) {
    a.Resume? && a.job in s.jobs && s.jobs[a.job].player == p && s.jobs[a.job].client in s.clients ==>
      !(SitsDown(s.jobs[a.job].task, NextMove(s, a.job)) && s.jobs[a.job].task.id == id)
  }

  lemma HandsFromAfter(s: Shop, j: nat, m: Move, p: string, id: string, counting: bool)
    requires j in s.jobs
    ensures InFlightFrom(After(s, j, m), p, id, counting) == InFlightFrom(s, p, id, counting)
            + (if p == s.jobs[j].player
                then HeldFromNext(m.next, id, counting) - HeldFrom(s.jobs[j].task, id, counting) else 0)
  {
    var before, after := InHandsFrom(s, p, id, counting), InHandsFrom(After(s, j, m), p, id, counting);
    if p != s.jobs[j].player {
      assert after == before;
    } else if m.next.Some? {
      assert after == before[j := HeldFrom(m.next.value, id, counting)];
      SumUpdate(before, j, HeldFrom(m.next.value, id, counting));
    } else {
      assert after == before - {j};
      SumRemove(before, j);
    }
  }

  lemma HandsFromBegin(s: Shop, j: nat, c: ClientId, task: Task, p: string, id: string, counting: bool)
    requires j !in s.jobs && c in s.clients && HeldFrom(task, id, counting) == 0
    ensures InFlightFrom(Begin(s, j, c, task), p, id, counting) == InFlightFrom(s, p, id, counting)
  {
    var before, after := InHandsFrom(s, p, id, counting), InHandsFrom(Begin(s, j, c, task), p, id, counting);
    if p == s.clients[c].player {
      assert after == before[j := 0];
      SumUpdate(before, j, 0);
    } else {
      assert after == before;
    }
  }

  // Since `s`, the player's seat at the table is as it was, or given up.
  ghost predicate NotTaken(s: Shop, t: Shop, p: string, id: string) {
    Seated(At(t.bank, id), p) ==> SameSeat(s.bank, t.bank, p, id)
  }

  // No exit of the player has a stale reading of the table.
  ghost predicate Clean(s: Shop, p: string, id: string) {
    forall j | j in s.jobs && s.jobs[j].player == p :: ReadRight(s.bank, p, s.jobs[j].task, id)
  }

  ghost predicate AccountKept(s: Shop, t: Shop, p: string, id: string, counting: bool, paid: int) {
    && NotTaken(s, t, p, id)
    && Stake(t.bank, p, id, counting) + InFlightFrom(t, p, id, counting) + paid
       == Stake(s.bank, p, id, counting) + InFlightFrom(s, p, id, counting)
  }

  lemma OwnAccount(s: Shop, j: nat, p: string, id: string, counting: bool)
    requires Sound(s) && j in s.jobs && StaysAway(s, Resume(j), p, id) && s.jobs[j].player == p && Clean(s, p, id)
    ensures s.jobs[j].client in s.clients
    ensures var m := NextMove(s, j);
            && (Seated(At(m.bank, id), p) ==> SameSeat(s.bank, m.bank, p, id))
            && Stake(m.bank, p, id, counting) + HeldFromNext(m.next, id, counting)
                 + PaidOn(s.jobs[j].task, id, counting)
               == Stake(s.bank, p, id, counting) + HeldFrom(s.jobs[j].task, id, counting)
  {
    var job := s.jobs[j];
    assert JobSound(s, j);
    MoveReady(s, j);
    TaskWakes(s.bank, p, job.task, Alive(s, j), false);
    MoveAccount(s.cfg, s.bank, s.clients[job.client], job.task, id, counting);
    if SitsDown(job.task, NextMove(s, j)) {
      assert SameSeat(s.bank, NextMove(s, j).bank, p, id);
    }
  }

  lemma OthersSeat(s: Shop, j: nat, m: Move, p: string, id: string)
    requires Ready(s, j, m) && s.jobs[j].player != p
    ensures SameSeat(s.bank, m.bank, p, id)
  {
    assert JobSound(s, j);
    assert SameSeats(s.bank, m.bank, p);
  }

  lemma ResumeAccount(s: Shop, j: nat, p: string, id: string, counting: bool)
    requires Sound(s) && j in s.jobs && StaysAway(s, Resume(j), p, id) && Clean(s, p, id)
    ensures AccountKept(s, Act(s, Resume(j)), p, id, counting, PaidBy(s, Resume(j), p, id, counting))
  {
    if s.jobs[j].player == p {
      OwnAccount(s, j, p, id, counting);
    } else {
      MoveReady(s, j);
      OthersSeat(s, j, NextMove(s, j), p, id);
      SameStake(s.bank, NextMove(s, j).bank, p, id, counting);
    }
    HandsFromAfter(s, j, NextMove(s, j), p, id, counting);
    assert Act(s, Resume(j)) == After(s, j, NextMove(s, j));
  }

  // Readings of a table stay right until the player sits down there.
  lemma StaysClean(s: Shop, j: nat, m: Move, p: string, id: string)
    requires Clean(s, p, id) && j in s.jobs && NotTaken(s, After(s, j, m), p, id)
    requires s.jobs[j].player == p && m.next.Some? ==> NotStale(m.bank, p, m.next.value)
    ensures Clean(After(s, j, m), p, id)
  {
    var t := After(s, j, m);
    forall k | k in t.jobs && t.jobs[k].player == p
      ensures ReadRight(t.bank, p, t.jobs[k].task, id)
    {
      assert k != j ==> t.jobs[k] == s.jobs[k] && ReadRight(s.bank, p, s.jobs[k].task, id);
    }
  }

  lemma ActClean(s: Shop, a: Action, p: string, id: string)
    requires Sound(s) && Orderly(s, a) && Clean(s, p, id) && NotTaken(s, Act(s, a), p, id)
    ensures Clean(Act(s, a), p, id)
  {
    match a
    case Resume(j) =>
      if j in s.jobs {
        assert JobSound(s, j);
        ReadsNow(s.cfg, s.bank, s.clients[s.jobs[j].client], s.jobs[j].task);
        StaysClean(s, j, NextMove(s, j), p, id);
      }
    case Start(_, _, _) =>
    case _ =>
      assert At(Act(s, a).bank, id) == At(s.bank, id);
      assert Act(s, a).jobs == s.jobs;
  }

  lemma ActAccount(s: Shop, a: Action, p: string, id: string, counting: bool)
    requires Sound(s) && Orderly(s, a) && StaysAway(s, a, p, id) && Clean(s, p, id)
    ensures AccountKept(s, Act(s, a), p, id, counting, PaidBy(s, a, p, id, counting))
  {
    match a
    case Resume(j) =>
      if j in s.jobs {
        ResumeAccount(s, j, p, id, counting);
      }
    case Start(j, c, task) =>
      if c in s.clients {
        HandsFromBegin(s, j, c, task, p, id, counting);
      }
    case _ =>
      assert At(Act(s, a).bank, id) == At(s.bank, id);
      assert InHandsFrom(Act(s, a), p, id, counting) == InHandsFrom(s, p, id, counting);
  }

  // ---------- The account over a schedule ----------

  ghost function Paid(s: Shop, actions: seq<Action>, p: string, id: string, counting: bool): int {
    if actions == [] then 0
    else
      var n := |actions| - 1;
      Paid(s, actions[..n], p, id, counting) + PaidBy(Play(s, actions[..n]), actions[n], p, id, counting)
  }

  ghost predicate StaysAwayAt(s: Shop, actions: seq<Action>, p: string, id: string, n: nat)
    requires n < |actions|
  {
    StaysAway(Play(s, actions[..n]), actions[n], p, id)
  }

  ghost predicate StaysAwayRun(s: Shop, actions: seq<Action>, p: string, id: string) {
    forall n | 0 <= n < |actions| :: StaysAwayAt(s, actions, p, id, n)
  }

  lemma {:induction false} StaysAwayPrefix(s: Shop, actions: seq<Action>, p: string, id: string)
    requires StaysAwayRun(s, actions, p, id) && actions != []
    ensures StaysAwayRun(s, actions[..|actions| - 1], p, id)
    ensures StaysAway(Play(s, actions[..|actions| - 1]), actions[|actions| - 1], p, id)
  {
    var n := |actions| - 1;
    assert StaysAwayAt(s, actions, p, id, n);
    forall k | 0 <= k < n
      ensures StaysAwayAt(s, actions[..n], p, id, k)
    {
      assert StaysAwayAt(s, actions, p, id, k) && actions[..n][..k] == actions[..k];
    }
  }

  /** Over any orderly schedule in which the player does not sit down at the table again, started
      with no stale reading of it: the stake at the table, the chips in hands from leaving it, and the
      payments made for leaving it add up to the same, by amount and by number. */
  lemma {:induction false} SeatAccount(s: Shop, actions: seq<Action>, p: string, id: string, counting: bool)
    requires Sound(s) && OrderlyRun(s, actions) && FittingRun(s, actions)
    requires StaysAwayRun(s, actions, p, id) && Clean(s, p, id)
    ensures AccountKept(s, Play(s, actions), p, id, counting, Paid(s, actions, p, id, counting))
    ensures Clean(Play(s, actions), p, id)
  {
    if actions != [] {
      var n := |actions| - 1;
      OrderlyPrefix(s, actions);
      FittingPrefix(s, actions);
      StaysAwayPrefix(s, actions, p, id);
      SeatAccount(s, actions[..n], p, id, counting);
      PlaySound(s, actions[..n]);
      ActAccount(Play(s, actions[..n]), actions[n], p, id, counting);
      ActClean(Play(s, actions[..n]), actions[n], p, id);
    }
  }

  lemma IdleHandsFrom(s: Shop, p: string, id: string, counting: bool)
    requires Idle(s, p)
    ensures InFlightFrom(s, p, id, counting) == 0
  {
    assert InHandsFrom(s, p, id, counting) == map[];
  }

  // From and to a moment with none of the player's jobs unfinished, an orderly schedule in which the
  // player does not sit down at the table again, whatever else they do.
  ghost predicate Absence(s: Shop, actions: seq<Action>, t: Shop, p: string, id: string) {
    && Sound(s) && OrderlyRun(s, actions) && FittingRun(s, actions) && t == Play(s, actions)
    && Idle(s, p) && Idle(t, p) && StaysAwayRun(s, actions, p, id)
  }

  /** Exactly one refund. Whatever the player does but sit down at the table again (join other tables,
      buy in, receive grants), and whatever stale readings of other tables their exits have: if the
      seat was given up, one payment was made for it, and it was the stack. */
  lemma {:induction false} RefundedOnce(s: Shop, actions: seq<Action>, t: Shop, p: string, id: string)
    requires Absence(s, actions, t, p, id) && Seated(At(s.bank, id), p) && !Seated(At(t.bank, id), p)
    ensures Paid(s, actions, p, id, false) == StackAt(At(s.bank, id), p)
    ensures Paid(s, actions, p, id, true) == 1
  {
    SettledAccount(s, actions, t, p, id, false);
    SettledAccount(s, actions, t, p, id, true);
    AtSolvent(s.bank, id);
    AtSolvent(t.bank, id);
  }

  /** And if the player still sits there, no payment was made for it. */
  lemma {:induction false} NotRefundedIfSeated(s: Shop, actions: seq<Action>, t: Shop, p: string, id: string)
    requires Absence(s, actions, t, p, id) && Seated(At(t.bank, id), p)
    ensures Paid(s, actions, p, id, false) == 0 && Paid(s, actions, p, id, true) == 0
  {
    SettledAccount(s, actions, t, p, id, false);
    SettledAccount(s, actions, t, p, id, true);
  }

  lemma {:induction false} SettledAccount(s: Shop, actions: seq<Action>, t: Shop, p: string, id: string, counting: bool)
    requires Absence(s, actions, t, p, id)
    ensures Sound(t) && NotTaken(s, t, p, id)
    ensures Paid(s, actions, p, id, counting) == Stake(s.bank, p, id, counting) - Stake(t.bank, p, id, counting)
  {
    PlaySound(s, actions);
    SeatAccount(s, actions, p, id, counting);
    IdleHandsFrom(s, p, id, counting);
    IdleHandsFrom(t, p, id, counting);
  }

  /** A payment is a credit: the action that makes it raises the wallet by the amount. */
  lemma PaidIsCredited(s: Shop, a: Action, p: string, id: string)
    requires Sound(s) && PaidBy(s, a, p, id, false) != 0
    ensures Balance(Act(s, a).bank.ledger, p) == Balance(s.bank.ledger, p) + PaidBy(s, a, p, id, false)
  {
    CreditStep(s, a.job);
  }

  lemma LoneStack(b: Bank, p: string, id: string)
    requires OnlyAt(b, p, id)
    ensures StackTotal(b, p) == StackAt(At(b, id), p)
  {
    var stacks := StacksOf(b.tables, p);
    forall k | k in stacks && k != id
      ensures stacks[k] == 0
    {
      assert !Seated(At(b, k), p);
    }
    if id in stacks {
      SumSplit(stacks, id);
      SumZero(stacks - {id});
    } else {
      SumZero(stacks);
    }
  }

  /** Once none of the player's connections is live and none of their jobs unfinished, wallet and
      pending buy-ins hold everything they owned, whatever happened in between, but for the drift,
      which is nothing in a lawful schedule. */
  lemma {:induction false} RefundedWhenGone(s: Shop, actions: seq<Action>, t: Shop, p: string)
    requires Sound(s) && OrderlyRun(s, actions) && FittingRun(s, actions) && t == Play(s, actions)
    requires Idle(t, p) && !HasLiveIn(t, p)
    ensures Balance(t.bank.ledger, p) + PendingTotal(t.bank, p)
            == Owned(s, p) + Endowed(s, actions, p) + Drifted(s, actions, p)
    ensures LawfulRun(s, actions) ==> Drifted(s, actions, p) == 0
  {
    PlaySound(s, actions);
    PlayDrifts(s, actions, p);
    IdleHands(t, p);
    LooseEnds(t, p);
    LoneStack(t.bank, p, "");
    AtSolvent(t.bank, "");
    if LawfulRun(s, actions) {
      LawfulFitting(s, actions);
    }
  }
}
