/** The handlers cut at every lock they take, and interleaved: any number of jobs in progress, each
    moving one step at a time in any order. Chips a job has taken from one place and not yet put
    in another are in its hands. */
module Interleaving {
  import opened Basics
  import opened Seating
  import opened Ledgers
  import opened Banks
  import opened Worlds

  // What a job does next, with what it has read so far.
  datatype Task =
    | JoinBegin(id: string, seat: Option<int>)
    | JoinCheck(id: string, seat: Option<int>, from: string, seated: bool)
    | JoinConsume(id: string, seat: Option<int>, from: string, seated: bool)
    | JoinRead(id: string, seat: Option<int>, from: string, stack: int)
    | JoinLeave(id: string, seat: Option<int>, from: string, stack: int, previous: int, had: bool)
    | JoinUnmark(id: string, seat: Option<int>, from: string, stack: int, owed: int)
    | JoinCredit(id: string, seat: Option<int>, from: string, stack: int, owed: int)
    | JoinSit(id: string, seat: Option<int>, stack: int)
    | JoinRefund(stack: int)
    | JoinMark(id: string)
    | LeaveBegin(requested: string)
    | CloseBegin
    | CloseTable
    | ExitRead(id: string, closing: bool)
    | ExitLeave(id: string, closing: bool, stack: int, had: bool)
    | ExitCredit(id: string, closing: bool, owed: int)
    | ExitUnmark(id: string)

  datatype Job = Job(client: ClientId, player: string, task: Task)

  // `crossed` holds the closes that overlapped with a join of their own connection: such a close
  // may miss the seat the join takes, and the connection stays live until a later one.
  datatype Shop = Shop(cfg: Config, bank: Bank, clients: map<ClientId, Client>, live: set<ClientId>,
                       jobs: map<nat, Job>, crossed: set<nat>)

  predicate IsJoin(task: Task) {
    || task.JoinBegin? || task.JoinCheck? || task.JoinConsume? || task.JoinRead? || task.JoinLeave?
    || task.JoinUnmark? || task.JoinCredit? || task.JoinSit? || task.JoinRefund? || task.JoinMark?
  }

  predicate IsClose(task: Task) {
    task.CloseBegin? || task.CloseTable? || ((task.ExitRead? || task.ExitLeave? || task.ExitCredit?) && task.closing)
  }

  predicate IsLeave(task: Task) {
    !IsJoin(task) && !IsClose(task)
  }

  // The chips in a job's hands.
  function Held(task: Task): int {
    match task
    case JoinRead(_, _, _, stack) => stack
    case JoinLeave(_, _, _, stack, _, _) => stack
    case JoinUnmark(_, _, _, stack, owed) => stack + owed
    case JoinCredit(_, _, _, stack, owed) => stack + owed
    case JoinSit(_, _, stack) => stack
    case JoinRefund(stack) => stack
    case ExitCredit(_, _, owed) => owed
    case _ => 0
  }

  function HeldNext(next: Option<Task>): int {
    if next.Some? then Held(next.value) else 0
  }

  // One step: the bank and the job's client after it, and what is left to do.
  datatype Move = Move(bank: Bank, me: Client, next: Option<Task>)

  function JoinMove(b: Bank, me: Client, task: Task): Move
    requires IsJoin(task)
  {
    match task
    case JoinBegin(id, seat) => Move(b, me, Some(JoinCheck(id, seat, me.tableId, me.seated)))
    case JoinCheck(id, seat, from, seated) =>
      if seated && from == id then Move(Look(b, id), me, None)
      else
        var (checked, invalid) := Prevalidate(b, id, seat);
        Move(checked, me, if invalid.Some? then None else Some(JoinConsume(id, seat, from, seated)))
    case JoinConsume(id, seat, from, seated) =>
      var (paid, receipt) := Consume(b, me.player, id);
      Move(paid, me, if receipt.Err? then None
                     else if seated then Some(JoinRead(id, seat, from, receipt.value.amount))
                     else Some(JoinSit(id, seat, receipt.value.amount)))
    case JoinRead(id, seat, from, stack) =>
      Move(Look(b, from), me, Some(JoinLeave(id, seat, from, stack, StackAt(At(b, from), me.player),
          Seated(At(b, from), me.player))))
    case JoinLeave(id, seat, from, stack, previous, had) =>
      var (left, error) := Rise(b, from, me.player);
      Move(left, me, Some(JoinUnmark(id, seat, from, stack, if error.None? && had then previous else 0)))
    case JoinUnmark(id, seat, from, stack, owed) =>
      Move(b, me.(tableId := from, seated := false), 
           Some(if owed > 0 then JoinCredit(id, seat, from, stack, owed) else JoinSit(id, seat, stack)))
    case JoinCredit(id, seat, from, stack, owed) => Move(Credit(b, me.player, owed), me, Some(JoinSit(id, seat, stack)))
    case JoinSit(id, seat, stack) =>
      var (sat, error) := Sit(b, id, me.player, me.nickname, stack, seat);
      Move(sat, me, if error.None? then Some(JoinMark(id)) else if stack > 0 then Some(JoinRefund(stack)) else None)
    case JoinRefund(stack) => Move(Credit(b, me.player, stack), me, None)
    case JoinMark(id) => Move(b, me.(tableId := id, seated := true), None)
  }

  function ExitMove(cfg: Config, b: Bank, me: Client, task: Task): Move
    requires !IsJoin(task)
  {
    match task
    case LeaveBegin(requested) =>
      Move(b, me, Some(ExitRead(if TrimSpace(requested) != "" then Resolve(cfg, requested) else me.tableId, false)))
    case CloseBegin => Move(b, me, if me.seated then Some(CloseTable) else None)
    case CloseTable => Move(b, me, Some(ExitRead(me.tableId, true)))
    case ExitRead(id, closing) =>
      Move(Look(b, id), me, Some(ExitLeave(id, closing, StackAt(At(b, id), me.player), Seated(At(b, id), me.player))))
    case ExitLeave(id, closing, stack, had) =>
      var (left, error) := Rise(b, id, me.player);
      Move(left, me, if error.Some? then None
                     else if had && stack > 0 then Some(ExitCredit(id, closing, stack))
                     else if closing then None else Some(ExitUnmark(id)))
    case ExitCredit(id, closing, owed) =>
      Move(Credit(b, me.player, owed), me, if closing then None else Some(ExitUnmark(id)))
    case ExitUnmark(id) => Move(b, me.(tableId := id, seated := false), None)
  }

  function MoveOf(cfg: Config, b: Bank, me: Client, task: Task): Move {
    if IsJoin(task) then JoinMove(b, me, task) else ExitMove(cfg, b, me, task)
  }

  // ---------- What a job may rely on ----------

  ghost predicate OnlyAt(b: Bank, p: string, id: string) {
    forall other :: Seated(At(b, other), p) ==> other == id
  }

  ghost predicate Nowhere(b: Bank, p: string) {
    forall id :: !Seated(At(b, id), p)
  }

  // A client's mark covers every seat of its player.
  ghost predicate Covers(b: Bank, p: string, id: string, seated: bool) {
    if seated then OnlyAt(b, p, id) else Nowhere(b, p)
  }

  // The stack read earlier is still what is there, unless the player has left.
  ghost predicate Current(b: Bank, p: string, id: string, stack: int, had: bool) {
    Seated(At(b, id), p) ==> had && stack == StackAt(At(b, id), p)
  }

  ghost predicate JoinOk(b: Bank, p: string, task: Task)
    requires IsJoin(task)
  {
    match task
    case JoinBegin(_, _) => true
    case JoinCheck(_, _, from, seated) => Covers(b, p, from, seated)
    case JoinConsume(id, _, from, seated) => Covers(b, p, from, seated) && !(seated && from == id)
    case JoinRead(id, _, from, stack) => OnlyAt(b, p, from) && from != id && stack > 0 && p in b.ledger.balances
    case JoinLeave(id, _, from, stack, previous, had) =>
      OnlyAt(b, p, from) && from != id && stack > 0 && p in b.ledger.balances && Current(b, p, from, previous, had)
    case JoinUnmark(_, _, _, stack, owed) => Nowhere(b, p) && stack > 0 && owed >= 0 && p in b.ledger.balances
    case JoinCredit(_, _, _, stack, owed) => Nowhere(b, p) && stack > 0 && owed > 0 && p in b.ledger.balances
    case JoinSit(_, _, stack) => Nowhere(b, p) && stack > 0 && p in b.ledger.balances
    case JoinRefund(stack) => Nowhere(b, p) && stack > 0 && p in b.ledger.balances
    case JoinMark(id) => OnlyAt(b, p, id)
  }

  // `alive` says whether the job's client is live and no join of it overlaps; any other exit, such
  // as a stale second close, may find anything.
  ghost predicate ExitOk(b: Bank, p: string, task: Task, alive: bool)
    requires !IsJoin(task)
  {
    match task
    case LeaveBegin(_) => true
    case CloseBegin => true
    case CloseTable => true
    case ExitRead(id, closing) => closing && alive ==> OnlyAt(b, p, id)
    case ExitLeave(id, closing, _, _) => closing && alive ==> OnlyAt(b, p, id)
    case ExitCredit(_, _, owed) => owed > 0 && p in b.ledger.balances && (alive ==> Nowhere(b, p))
    case ExitUnmark(_) => alive ==> Nowhere(b, p)
  }

  // An exit about to leave will pay out what it takes.
  ghost predicate NotStale(b: Bank, p: string, task: Task) {
    task.ExitLeave? ==> Current(b, p, task.id, task.stack, task.had)
  }

  // What the step of an exit that leaves a table pays out beyond the stack it takes.
  ghost function Drift(b: Bank, p: string, task: Task): int {
    if task.ExitLeave? && Seated(At(b, task.id), p)
    then (if task.had && task.stack > 0 then task.stack else 0) - StackAt(At(b, task.id), p)
    else 0
  }

  lemma NoDriftExactly(b: Bank, p: string, task: Task)
    requires BankOk(b)
    ensures Drift(b, p, task) == 0 <==> NotStale(b, p, task)
  {
    if task.ExitLeave? {
      AtSolvent(b, task.id);
    }
  }

  ghost predicate TaskOk(b: Bank, p: string, task: Task, alive: bool) {
    if IsJoin(task) then JoinOk(b, p, task) else ExitOk(b, p, task, alive)
  }

  // ---------- One step of one job ----------

  ghost predicate SameSeat(a: Bank, b: Bank, p: string, id: string) {
    Seated(At(b, id), p) == Seated(At(a, id), p) && StackAt(At(b, id), p) == StackAt(At(a, id), p)
  }

  ghost predicate SameSeats(a: Bank, b: Bank, p: string) {
    forall id :: SameSeat(a, b, p, id)
  }

  // A player may have left a table since, but nothing else happened.
  ghost predicate Shrinks(a: Bank, b: Bank, p: string) {
    forall id :: Seated(At(b, id), p) ==> SameSeat(a, b, p, id)
  }

  ghost predicate WalletsKept(a: Bank, b: Bank) {
    forall p | p in a.ledger.balances :: p in b.ledger.balances
  }

  // What a step by player p leaves alone, and what it moves between the bank and the player's hands.
  ghost predicate Transfers(a: Bank, b: Bank, p: string, heldBefore: int, heldAfter: int) {
    && BankOk(b) && WalletsKept(a, b)
    && (forall q | q != p :: SameSeats(a, b, q))
    && (forall q :: Worth(b, q) + (if q == p then heldAfter else 0) == Worth(a, q) + (if q == p then heldBefore else 0))
  }

  lemma LookMoves(b: Bank, p: string, id: string)
    requires BankOk(b)
    ensures Transfers(b, Look(b, id), p, 0, 0) && Shrinks(b, Look(b, id), p)
    ensures Look(b, id).ledger == b.ledger && forall other :: At(Look(b, id), other) == At(b, other)
  {
    LookEffect(b, id);
  }

  lemma CreditMoves(b: Bank, p: string, amount: int)
    requires BankOk(b) && amount > 0 && Worth(b, p) + amount <= MAX_INT64
    ensures Transfers(b, Credit(b, p, amount), p, amount, 0) && Shrinks(b, Credit(b, p, amount), p)
    ensures Credit(b, p, amount).tables == b.tables
  {
    WorthParts(b, p);
    CreditEffect(b, p, amount);
  }

  lemma ConsumeMoves(b: Bank, p: string, id: string)
    requires BankOk(b) && ColonFree(p)
    ensures var (c, r) := Consume(b, p, id);
            && Transfers(b, c, p, 0, if r.Ok? then r.value.amount else 0) && Shrinks(b, c, p)
            && c.tables == b.tables && (r.Ok? ==> r.value.amount > 0 && p in c.ledger.balances)
  {
    ConsumeEffect(b, p, id);
  }

  lemma RiseMoves(b: Bank, id: string, p: string)
    requires BankOk(b)
    ensures var (c, e) := Rise(b, id, p);
            && Transfers(b, c, p, 0, StackAt(At(b, id), p)) && Shrinks(b, c, p)
            && (e.None? <==> Seated(At(b, id), p)) && c.ledger == b.ledger
            && (e.None? ==> StackAt(At(b, id), p) > 0 && p in b.ledger.balances)
                 && (e.Some? ==> StackAt(At(b, id), p) == 0)
            && (OnlyAt(b, p, id) ==> Nowhere(c, p))
  {
    RiseEffect(b, id, p);
    AtSolvent(b, id);
    LeaveEffect(At(b, id), p);
    var (c, e) := Rise(b, id, p);
    assert forall other | other != id :: At(c, other) == At(b, other);
    forall q | q != p
      ensures SameSeats(b, c, q)
    {
      assert SameSeat(b, c, q, id);
    }
  }

  lemma SitMoves(b: Bank, id: string, p: string, nickname: string, stack: int, seat: Option<int>)
    requires BankOk(b) && stack > 0 && p in b.ledger.balances && Nowhere(b, p)
    ensures var (c, e) := Sit(b, id, p, nickname, stack, seat);
            && Transfers(b, c, p, stack, if e.None? then 0 else stack) && c.ledger == b.ledger
            && (if e.None? then OnlyAt(c, p, id) && Grows(b, c, p, id, stack) else Nowhere(c, p))
  {
    SitEffect(b, id, p, nickname, stack, seat);
    AtSolvent(b, id);
    JoinEffect(At(b, id), p, nickname, stack, seat);
    var (c, e) := Sit(b, id, p, nickname, stack, seat);
    assert forall other | other != id :: At(c, other) == At(b, other);
    assert !Seated(At(b, id), p);
    forall q | q != p
      ensures SameSeats(b, c, q)
    {
      assert SameSeat(b, c, q, id);
    }
  }

  // The step takes a seat.
  predicate SitsDown(task: Task, m: Move) {
    task.JoinSit? && m.next.Some? && m.next.value.JoinMark?
  }

  // The player sits down at the table with the stack, and nothing else happened.
  ghost predicate Grows(a: Bank, b: Bank, p: string, id: string, stack: int) {
    StackAt(At(b, id), p) == stack && Seated(At(b, id), p) && forall other | other != id :: SameSeat(a, b, p, other)
  }

  // What one step of a job achieves.
  ghost predicate Progress(b: Bank, me: Client, task: Task, alive: bool, m: Move) {
    && Transfers(b, m.bank, me.player, Held(task) + Drift(b, me.player, task), HeldNext(m.next))
    && m.me.player == me.player && m.me.nickname == me.nickname && (IsClose(task) ==> m.me == me)
    && (m.next.Some? ==> TaskOk(m.bank, me.player, m.next.value, alive)
                         && IsJoin(m.next.value) == IsJoin(task) && (IsClose(m.next.value) <==> IsClose(task)))
    && (if SitsDown(task, m) then Grows(b, m.bank, me.player, task.id, task.stack) else Shrinks(b, m.bank, me.player))
    && (alive && !(m.next.Some? && m.next.value.JoinMark?) ==> Covers(m.bank, me.player, m.me.tableId, m.me.seated))
    && (alive && IsClose(task) && m.next.None? ==> Nowhere(m.bank, me.player))
  }

  // The client's mark is right, which only a join about to set it may spoil.
  ghost predicate MarkOk(b: Bank, me: Client, task: Task) {
    task.JoinMark? || Covers(b, me.player, me.tableId, me.seated)
  }

  lemma JoinReads(b: Bank, me: Client, task: Task)
    requires task.JoinBegin? || task.JoinRead?
    requires BankOk(b) && JoinOk(b, me.player, task) && MarkOk(b, me, task)
    ensures Progress(b, me, task, true, JoinMove(b, me, task))
  {
    if task.JoinRead? {
      LookMoves(b, me.player, task.from);
    }
  }

  // Once the check of the seat has come out as bank c, changing no table.
  lemma Checked(b: Bank, me: Client, task: Task, c: Bank, next: Option<Task>)
    requires task.JoinCheck? && JoinOk(b, me.player, task) && MarkOk(b, me, task)
    requires Transfers(b, c, me.player, 0, 0) && Shrinks(b, c, me.player)
    requires next.Some? ==> next.value == JoinConsume(task.id, task.seat, task.from, task.seated)
    requires next.Some? ==> !(task.seated && task.from == task.id)
    ensures Progress(b, me, task, true, Move(c, me, next))
  {
    CoversShrink(b, c, me.player, task.from, task.seated);
    CoversShrink(b, c, me.player, me.tableId, me.seated);
  }

  lemma JoinChecks(b: Bank, me: Client, task: Task)
    requires task.JoinCheck? && BankOk(b) && JoinOk(b, me.player, task) && MarkOk(b, me, task)
    ensures Progress(b, me, task, true, JoinMove(b, me, task))
  {
    LookMoves(b, me.player, task.id);
    StandStill(b, me.player);
    var m := JoinMove(b, me, task);
    assert m.bank == b || m.bank == Look(b, task.id);
    Checked(b, me, task, m.bank, m.next);
  }

  lemma StandStill(b: Bank, p: string)
    requires BankOk(b)
    ensures Transfers(b, b, p, 0, 0) && Shrinks(b, b, p)
  {
  }

  // Once consuming the buy-in has come out as bank c, changing no table.
  lemma Spent(b: Bank, me: Client, task: Task, c: Bank, next: Option<Task>)
    requires task.JoinConsume? && JoinOk(b, me.player, task) && MarkOk(b, me, task)
    requires Transfers(b, c, me.player, 0, HeldNext(next)) && Shrinks(b, c, me.player)
    requires next.Some? ==> HeldNext(next) > 0 && me.player in c.ledger.balances
    requires next.Some? ==> next.value == (if task.seated then JoinRead(task.id, task.seat, task.from, HeldNext(next))
                                           else JoinSit(task.id, task.seat, HeldNext(next)))
    ensures Progress(b, me, task, true, Move(c, me, next))
  {
    CoversShrink(b, c, me.player, task.from, task.seated);
    CoversShrink(b, c, me.player, me.tableId, me.seated);
  }

  lemma JoinConsumes(b: Bank, me: Client, task: Task)
    requires task.JoinConsume? && BankOk(b) && ColonFree(me.player) && JoinOk(b, me.player, task) && MarkOk(b, me, task)
    ensures Progress(b, me, task, true, JoinMove(b, me, task))
  {
    ConsumeMoves(b, me.player, task.id);
    var m := JoinMove(b, me, task);
    Spent(b, me, task, m.bank, m.next);
  }

  // Once the attempt to leave the old table has come out as bank c and error e.
  lemma MovedOn(b: Bank, me: Client, task: Task, c: Bank, e: Option<TableError>)
    requires task.JoinLeave? && JoinOk(b, me.player, task)
    requires Transfers(b, c, me.player, 0, StackAt(At(b, task.from), me.player)) && Nowhere(c, me.player)
    requires Shrinks(b, c, me.player)
    requires e.None? <==> Seated(At(b, task.from), me.player)
    requires if e.None? then StackAt(At(b, task.from), me.player) > 0 else StackAt(At(b, task.from), me.player) == 0
    ensures var owed := if e.None? && task.had then task.previous else 0;
            Progress(b, me, task, true, Move(c, me, Some(JoinUnmark(task.id, task.seat, task.from, task.stack, owed))))
  {
  }

  lemma JoinLeaves(b: Bank, me: Client, task: Task)
    requires task.JoinLeave? && BankOk(b) && JoinOk(b, me.player, task)
    ensures Progress(b, me, task, true, JoinMove(b, me, task))
  {
    RiseMoves(b, task.from, me.player);
    var (c, e) := Rise(b, task.from, me.player);
    MovedOn(b, me, task, c, e);
  }

  // Once the attempt to sit has come out as bank c and error e.
  lemma SatDown(b: Bank, me: Client, task: Task, c: Bank, e: Option<TableError>)
    requires task.JoinSit? && task.stack > 0 && me.player in b.ledger.balances
    requires Transfers(b, c, me.player, task.stack, if e.None? then 0 else task.stack)
    requires if e.None? then OnlyAt(c, me.player, task.id) && Grows(b, c, me.player, task.id, task.stack)
             else Nowhere(c, me.player)
    ensures Progress(b, me, task, true,
                     Move(c, me, if e.None? then Some(JoinMark(task.id)) else Some(JoinRefund(task.stack))))
  {
  }

  lemma JoinSits(b: Bank, me: Client, task: Task)
    requires task.JoinSit? && BankOk(b) && JoinOk(b, me.player, task)
    ensures Progress(b, me, task, true, JoinMove(b, me, task))
  {
    SitMoves(b, task.id, me.player, me.nickname, task.stack, task.seat);
    var (c, e) := Sit(b, task.id, me.player, me.nickname, task.stack, task.seat);
    SatDown(b, me, task, c, e);
  }

  lemma JoinCredits(b: Bank, me: Client, task: Task)
    requires task.JoinCredit? || task.JoinRefund?
    requires BankOk(b) && JoinOk(b, me.player, task) && MarkOk(b, me, task)
        && Worth(b, me.player) + Held(task) <= MAX_INT64
    ensures Progress(b, me, task, true, JoinMove(b, me, task))
  {
    CreditMoves(b, me.player, if task.JoinCredit? then task.owed else task.stack);
  }

  lemma JoinMarks(b: Bank, me: Client, task: Task)
    requires task.JoinUnmark? || task.JoinMark?
    requires BankOk(b) && JoinOk(b, me.player, task)
    ensures Progress(b, me, task, true, JoinMove(b, me, task))
  {
  }

  ghost predicate OneSeat(b: Bank, p: string) {
    forall id :: Seated(At(b, id), p) ==> OnlyAt(b, p, id)
  }

  // Once the player has got up from the table.
  lemma GotUp(b: Bank, me: Client, task: Task, alive: bool, c: Bank)
    requires task.ExitLeave? && Seated(At(b, task.id), me.player) && StackAt(At(b, task.id), me.player) > 0
    requires Transfers(b, c, me.player, 0, StackAt(At(b, task.id), me.player)) && Shrinks(b, c, me.player)
    requires me.player in b.ledger.balances && Nowhere(c, me.player)
    ensures Progress(b, me, task, alive, LeftWith(me, task, c, None))
  {
  }

  // Once the player has turned out not to be there.
  lemma NotThere(b: Bank, me: Client, task: Task, alive: bool, c: Bank, e: TableError)
    requires task.ExitLeave? && ExitOk(b, me.player, task, alive) && !Seated(At(b, task.id), me.player)
    requires Transfers(b, c, me.player, 0, 0) && Shrinks(b, c, me.player)
    requires OnlyAt(b, me.player, task.id) ==> Nowhere(c, me.player)
    requires alive ==> Covers(b, me.player, me.tableId, me.seated)
    ensures Progress(b, me, task, alive, LeftWith(me, task, c, Some(e)))
  {
    if alive {
      CoversShrink(b, c, me.player, me.tableId, me.seated);
    }
  }

  function LeftWith(me: Client, task: Task, c: Bank, e: Option<TableError>): Move
    requires task.ExitLeave?
  {
    Move(c, me, if e.Some? then None
                else if task.had && task.stack > 0 then Some(ExitCredit(task.id, task.closing, task.stack))
                else if task.closing then None else Some(ExitUnmark(task.id)))
  }

  lemma ExitLeaves(cfg: Config, b: Bank, me: Client, task: Task, alive: bool)
    requires task.ExitLeave? && BankOk(b) && ExitOk(b, me.player, task, alive) && OneSeat(b, me.player)
    requires alive ==> Covers(b, me.player, me.tableId, me.seated)
    ensures Progress(b, me, task, alive, ExitMove(cfg, b, me, task))
  {
    RiseMoves(b, task.id, me.player);
    var (c, e) := Rise(b, task.id, me.player);
    if e.None? {
      assert OnlyAt(b, me.player, task.id);
      GotUp(b, me, task, alive, c);
    } else {
      NotThere(b, me, task, alive, c, e.value);
    }
  }

  lemma ExitReads(cfg: Config, b: Bank, me: Client, task: Task, alive: bool)
    requires task.ExitRead? && BankOk(b) && ExitOk(b, me.player, task, alive)
    requires alive ==> Covers(b, me.player, me.tableId, me.seated)
    ensures Progress(b, me, task, alive, ExitMove(cfg, b, me, task))
  {
    LookMoves(b, me.player, task.id);
  }

  lemma ExitCredits(cfg: Config, b: Bank, me: Client, task: Task, alive: bool)
    requires task.ExitCredit? && BankOk(b) && ExitOk(b, me.player, task, alive)
    requires Worth(b, me.player) + Held(task) <= MAX_INT64
    ensures Progress(b, me, task, alive, ExitMove(cfg, b, me, task))
  {
    CreditMoves(b, me.player, task.owed);
  }

  lemma ExitMarks(cfg: Config, b: Bank, me: Client, task: Task, alive: bool)
    requires task.LeaveBegin? || task.CloseBegin? || task.CloseTable? || task.ExitUnmark?
    requires BankOk(b) && ExitOk(b, me.player, task, alive)
    requires alive ==> Covers(b, me.player, me.tableId, me.seated)
    ensures Progress(b, me, task, alive, ExitMove(cfg, b, me, task))
  {
  }

  lemma JoinProgress(b: Bank, me: Client, task: Task)
    requires IsJoin(task) && BankOk(b) && ColonFree(me.player) && JoinOk(b, me.player, task) && MarkOk(b, me, task)
    requires Worth(b, me.player) + Held(task) <= MAX_INT64
    ensures Progress(b, me, task, true, JoinMove(b, me, task))
  {
    match task
    case JoinBegin(_, _) => JoinReads(b, me, task);
    case JoinCheck(_, _, _, _) => JoinChecks(b, me, task);
    case JoinConsume(_, _, _, _) => JoinConsumes(b, me, task);
    case JoinRead(_, _, _, _) => JoinReads(b, me, task);
    case JoinLeave(_, _, _, _, _, _) => JoinLeaves(b, me, task);
    case JoinUnmark(_, _, _, _, _) => JoinMarks(b, me, task);
    case JoinCredit(_, _, _, _, _) => JoinCredits(b, me, task);
    case JoinSit(_, _, _) => JoinSits(b, me, task);
    case JoinRefund(_) => JoinCredits(b, me, task);
    case JoinMark(_) => JoinMarks(b, me, task);
  }

  lemma ExitProgress(cfg: Config, b: Bank, me: Client, task: Task, alive: bool)
    requires !IsJoin(task) && BankOk(b) && ExitOk(b, me.player, task, alive) && OneSeat(b, me.player)
    requires alive ==> Covers(b, me.player, me.tableId, me.seated)
    requires Worth(b, me.player) + Held(task) <= MAX_INT64
    ensures Progress(b, me, task, alive, ExitMove(cfg, b, me, task))
  {
    match task
    case ExitLeave(_, _, _, _) => ExitLeaves(cfg, b, me, task, alive);
    case ExitRead(_, _) => ExitReads(cfg, b, me, task, alive);
    case ExitCredit(_, _, _) => ExitCredits(cfg, b, me, task, alive);
    case _ => ExitMarks(cfg, b, me, task, alive);
  }

  /** Every step of every job moves chips between the bank and the job's hands without gain or
      loss, but for an exit that leaves on the strength of a stale reading; it leaves other players'
      seats alone, and prepares what the next step relies on. */
  lemma MoveProgress(cfg: Config, b: Bank, me: Client, task: Task, alive: bool)
    requires BankOk(b) && ColonFree(me.player) && TaskOk(b, me.player, task, alive) && OneSeat(b, me.player)
    requires IsJoin(task) ==> alive
    requires alive ==> MarkOk(b, me, task)
    requires Worth(b, me.player) + Held(task) <= MAX_INT64
    ensures Progress(b, me, task, alive, MoveOf(cfg, b, me, task))
  {
    if IsJoin(task) {
      JoinProgress(b, me, task);
    } else {
      ExitProgress(cfg, b, me, task, alive);
    }
  }

  // Reading a table makes for a right reading.
  lemma ReadsNow(cfg: Config, b: Bank, me: Client, task: Task)
    ensures var m := MoveOf(cfg, b, me, task);
            m.next.Some? ==> NotStale(m.bank, me.player, m.next.value)
  {
    if task.ExitRead? {
      assert At(Look(b, task.id), task.id) == At(b, task.id);
    }
  }

  // ---------- What survives other steps ----------

  lemma SameShrinks(a: Bank, b: Bank, p: string)
    requires SameSeats(a, b, p)
    ensures Shrinks(a, b, p)
  {
    assert forall id :: SameSeat(a, b, p, id);
  }

  lemma CoversShrink(a: Bank, b: Bank, p: string, id: string, seated: bool)
    requires Shrinks(a, b, p) && Covers(a, p, id, seated)
    ensures Covers(b, p, id, seated)
  {
  }

  /** What a job relies on is not disturbed by others, even if they make its player leave. */
  lemma TaskShrinks(a: Bank, b: Bank, p: string, task: Task, alive: bool, still: bool)
    requires Shrinks(a, b, p) && WalletsKept(a, b) && TaskOk(a, p, task, alive) && (still ==> alive)
    ensures TaskOk(b, p, task, still)
  {
  }
}
