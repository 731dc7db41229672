/** Any schedule of any number of interleaved jobs: no chip is gained or lost, and what the jobs
    hold between two steps accounts for the difference. */
module Schedules {
  import opened Basics
  import opened Sums
  import opened Seating
  import opened Ledgers
  import opened Banks
  import opened Worlds
  import opened Interleaving

  datatype Action =
    | Resume(job: nat)
    | Start(job: nat, client: ClientId, task: Task)
    | Arrive(client: ClientId, player: string, nickname: string)
    | Endow(player: string, initial: int)
    | Order(player: string, tableId: string, amount: int)

  // A join of the connection is in progress.
  ghost predicate Joining(s: Shop, c: ClientId) {
    exists j :: j in s.jobs && s.jobs[j].client == c && IsJoin(s.jobs[j].task)
  }

  // The shop after job j made move m. A connection whose close has run is no longer live, unless a
  // join of it overlapped.
  function After(s: Shop, j: nat, m: Move): Shop
    requires j in s.jobs
  {
    var job := s.jobs[j];
    s.(bank := m.bank,
       clients := s.clients[job.client := m.me],
       live := if IsClose(job.task) && m.next.None? && j !in s.crossed then s.live - {job.client} else s.live,
       jobs := if m.next.Some? then s.jobs[j := job.(task := m.next.value)] else s.jobs - {j},
       crossed := if m.next.Some? then s.crossed else s.crossed - {j})
  }

  function NextMove(s: Shop, j: nat): Move
    requires j in s.jobs && s.jobs[j].client in s.clients
  {
    MoveOf(s.cfg, s.bank, s.clients[s.jobs[j].client], s.jobs[j].task)
  }

  // The closes that a new job makes overlap with a join of their connection, itself or others.
  ghost function Crossing(s: Shop, j: nat, c: ClientId, task: Task): set<nat> {
    if task.JoinBegin? then set k | k in s.jobs && s.jobs[k].client == c && IsClose(s.jobs[k].task)
    else if IsClose(task) && Joining(s, c) then {j}
    else {}
  }

  // A message wakes its connection; a close does not.
  ghost function Begin(s: Shop, j: nat, c: ClientId, task: Task): Shop
    requires c in s.clients
  {
    s.(jobs := s.jobs[j := Job(c, s.clients[c].player, task)],
       live := if task.CloseBegin? then s.live else s.live + {c},
       crossed := s.crossed - {j} + Crossing(s, j, c, task))
  }

  ghost function Act(s: Shop, a: Action): Shop {
    match a
    case Resume(j) => if j in s.jobs && s.jobs[j].client in s.clients then After(s, j, NextMove(s, j)) else s
    case Start(j, c, task) => if c in s.clients then Begin(s, j, c, task) else s
    case Arrive(c, p, nickname) =>
      s.(clients := s.clients[c := Client(p, nickname, s.cfg.defaultTable, false)], live := s.live + {c},
         bank := Look(s.bank, s.cfg.defaultTable))
    case Endow(p, initial) => s.(bank := Grant(s.bank, p, initial))
    case Order(p, id, amount) => if amount <= 0 then s else s.(bank := Buy(s.bank, p, Resolve(s.cfg, id), amount))
  }

  // ---------- Chips in hands ----------

  function InHands(s: Shop, p: string): map<nat, int> {
    map j | j in s.jobs && s.jobs[j].player == p :: Held(s.jobs[j].task)
  }

  /** The chips that jobs of the player have taken and not yet put back. */
  ghost function InFlight(s: Shop, p: string): int {
    Sum(InHands(s, p))
  }

  ghost function Owned(s: Shop, p: string): int {
    Worth(s.bank, p) + InFlight(s, p)
  }

  lemma HandsAfter(s: Shop, j: nat, m: Move, p: string)
    requires j in s.jobs
    ensures InFlight(After(s, j, m), p)
            == InFlight(s, p) + (if p == s.jobs[j].player then HeldNext(m.next) - Held(s.jobs[j].task) else 0)
  {
    var before, after := InHands(s, p), InHands(After(s, j, m), p);
    if p != s.jobs[j].player {
      assert after == before;
    } else if m.next.Some? {
      assert after == before[j := Held(m.next.value)];
      SumUpdate(before, j, Held(m.next.value));
    } else {
      assert after == before - {j};
      SumRemove(before, j);
    }
  }

  lemma HandsBegin(s: Shop, j: nat, c: ClientId, task: Task, p: string)
    requires j !in s.jobs && c in s.clients && Held(task) == 0
    ensures InFlight(Begin(s, j, c, task), p) == InFlight(s, p)
  {
    var before, after := InHands(s, p), InHands(Begin(s, j, c, task), p);
    if p == s.clients[c].player {
      assert after == before[j := 0];
      SumUpdate(before, j, 0);
    } else {
      assert after == before;
    }
  }

  // ---------- The invariant ----------

  ghost predicate HasLiveIn(s: Shop, p: string) {
    exists c :: c in s.live && c in s.clients && s.clients[c].player == p
  }

  ghost predicate OneLive(s: Shop) {
    && s.live <= s.clients.Keys
    && forall c, d | c in s.live && d in s.live && s.clients[c].player == s.clients[d].player :: c == d
  }

  // Nobody sits without a live connection.
  ghost predicate SeatsHaveLive(s: Shop) {
    forall p, id :: Seated(At(s.bank, id), p) ==> HasLiveIn(s, p)
  }

  ghost predicate Marking(s: Shop, c: ClientId) {
    exists j :: j in s.jobs && s.jobs[j].client == c && s.jobs[j].task.JoinMark?
  }

  // A live connection's mark is right, unless a join of it is about to set it.
  ghost predicate MarkSound(s: Shop, c: ClientId)
    requires c in s.clients
  {
    Marking(s, c) || Covers(s.bank, s.clients[c].player, s.clients[c].tableId, s.clients[c].seated)
  }

  // The job's client is live, and no join of it overlaps with the job.
  predicate Alive(s: Shop, j: nat)
    requires j in s.jobs
  {
    s.jobs[j].client in s.live && j !in s.crossed
  }

  ghost predicate JobSound(s: Shop, j: nat)
    requires j in s.jobs
  {
    var job := s.jobs[j];
    && job.client in s.clients && s.clients[job.client].player == job.player && ColonFree(job.player)
    && TaskOk(s.bank, job.player, job.task, Alive(s, j))
    && (j in s.crossed ==> IsClose(job.task))
    && (IsJoin(job.task) ==> job.client in s.live && JoinApart(s, j))
  }

  // A player has one join in progress at most, and every other job of its connection is a close
  // known to overlap with it.
  ghost predicate JoinApart(s: Shop, j: nat)
    requires j in s.jobs
  {
    forall k | k in s.jobs && k != j && s.jobs[k].player == s.jobs[j].player :: Apart(s, j, k)
  }

  predicate Apart(s: Shop, j: nat, k: nat)
    requires j in s.jobs && k in s.jobs
  {
    && !IsJoin(s.jobs[k].task)
    && (s.jobs[k].client == s.jobs[j].client ==> IsClose(s.jobs[k].task) && k in s.crossed)
  }

  // Nobody owns more than a 64-bit balance could hold.
  ghost predicate Fits(s: Shop) {
    forall p :: Owned(s, p) <= MAX_INT64
  }

  ghost predicate ChipsSound(s: Shop) {
    BankOk(s.bank) && Fits(s)
  }

  ghost predicate Sound(s: Shop) {
    && ChipsSound(s) && OneLive(s) && SeatsHaveLive(s)
    && (forall c | c in s.live :: MarkSound(s, c))
    && (forall j | j in s.jobs :: JobSound(s, j))
  }

  lemma {:induction false} HandsPositive(s: Shop, p: string)
    requires Sound(s)
    ensures InFlight(s, p) >= 0
        && forall j | j in s.jobs && s.jobs[j].player == p :: 0 <= Held(s.jobs[j].task) <= InFlight(s, p)
  {
    var hands := InHands(s, p);
    forall j | j in hands
      ensures hands[j] >= 0
    {
      assert JobSound(s, j);
    }
    SumBounds(hands);
    forall j | j in s.jobs && s.jobs[j].player == p
      ensures 0 <= Held(s.jobs[j].task) <= InFlight(s, p)
    {
      assert j in hands;
    }
  }

  // ---------- A step of a job ----------

  ghost predicate Ready(s: Shop, j: nat, m: Move) {
    && Sound(s) && j in s.jobs && s.jobs[j].client in s.clients
    && Progress(s.bank, s.clients[s.jobs[j].client], s.jobs[j].task, Alive(s, j), m)
  }

  lemma ResumeChips(s: Shop, j: nat, m: Move, p: string)
    requires Ready(s, j, m)
    ensures Owned(After(s, j, m), p)
            == Owned(s, p) + (if p == s.jobs[j].player then Drift(s.bank, p, s.jobs[j].task) else 0)
  {
    assert JobSound(s, j);
    HandsAfter(s, j, m, p);
  }

  // The seats of anyone but a player who sits down only shrink.
  lemma ResumeShrinks(s: Shop, j: nat, m: Move, q: string)
    requires Ready(s, j, m) && (q == s.jobs[j].player ==> !SitsDown(s.jobs[j].task, m))
    ensures Shrinks(s.bank, m.bank, q)
  {
    assert JobSound(s, j);
    if q != s.jobs[j].player {
      SameShrinks(s.bank, m.bank, q);
    }
  }

  lemma ResumeLive(s: Shop, j: nat, m: Move)
    requires Ready(s, j, m)
    ensures OneLive(After(s, j, m)) && SeatsHaveLive(After(s, j, m))
  {
    var t, c, p := After(s, j, m), s.jobs[j].client, s.jobs[j].player;
    assert JobSound(s, j);
    forall q, id | Seated(At(t.bank, id), q)
      ensures HasLiveIn(t, q)
    {
      if q == p && IsJoin(s.jobs[j].task) {
        assert c in t.live && t.clients[c].player == p;
      } else {
        ResumeShrinks(s, j, m, q);
        assert SameSeat(s.bank, t.bank, q, id);
        assert HasLiveIn(s, q);
        var d :| d in s.live && d in s.clients && s.clients[d].player == q;
        assert t.clients[d].player == q;
      }
    }
  }

  lemma ResumeMark(s: Shop, j: nat, m: Move, d: ClientId)
    requires Ready(s, j, m) && d in After(s, j, m).live && d in s.clients
    ensures MarkSound(After(s, j, m), d)
  {
    var t, c, p := After(s, j, m), s.jobs[j].client, s.jobs[j].player;
    assert JobSound(s, j) && MarkSound(s, d);
    if d == c && Alive(s, j) {
      if m.next.Some? && m.next.value.JoinMark? {
        assert t.jobs[j].client == c && t.jobs[j].task.JoinMark?;
      }
    } else {
      assert s.clients[d].player == p ==> !IsJoin(s.jobs[j].task);
      ResumeShrinks(s, j, m, s.clients[d].player);
      if Marking(s, d) {
        var k :| k in s.jobs && s.jobs[k].client == d && s.jobs[k].task.JoinMark?;
        assert k in t.jobs && t.jobs[k] == s.jobs[k];
      } else {
        CoversShrink(s.bank, m.bank, s.clients[d].player, s.clients[d].tableId, s.clients[d].seated);
      }
    }
  }

  // A join stays apart from the other jobs of its player when one of them moves.
  lemma ResumeApart(s: Shop, j: nat, m: Move, i: nat)
    requires Ready(s, j, m) && i in s.jobs && i in After(s, j, m).jobs && IsJoin(s.jobs[i].task)
    ensures JoinApart(After(s, j, m), i)
  {
    var t := After(s, j, m);
    assert JobSound(s, i) && JobSound(s, j);
    forall k | k in t.jobs && k != i && t.jobs[k].player == t.jobs[i].player
      ensures Apart(t, i, k)
    {
      assert Apart(s, i, k);
    }
  }

  lemma ResumeOwnJob(s: Shop, j: nat, m: Move)
    requires Ready(s, j, m) && m.next.Some?
    ensures JobSound(After(s, j, m), j)
  {
    assert JobSound(s, j);
    if IsJoin(s.jobs[j].task) {
      ResumeApart(s, j, m, j);
    }
  }

  // What an exit of no live connection relies on survives its player sitting down.
  lemma ExitSurvivesSit(a: Bank, b: Bank, p: string, task: Task)
    requires !IsJoin(task) && TaskOk(a, p, task, false) && WalletsKept(a, b)
    ensures TaskOk(b, p, task, false)
  {
  }

  lemma ResumeOtherTask(s: Shop, j: nat, m: Move, k: nat)
    requires Ready(s, j, m) && k in s.jobs && k != j
    ensures TaskOk(m.bank, s.jobs[k].player, s.jobs[k].task, Alive(After(s, j, m), k))
  {
    var job := s.jobs[k];
    assert JobSound(s, j) && JobSound(s, k);
    if job.player == s.jobs[j].player && SitsDown(s.jobs[j].task, m) {
      assert Apart(s, j, k);
      assert !Alive(s, k);
      ExitSurvivesSit(s.bank, m.bank, job.player, job.task);
    } else {
      ResumeShrinks(s, j, m, job.player);
      TaskShrinks(s.bank, m.bank, job.player, job.task, Alive(s, k), Alive(After(s, j, m), k));
    }
  }

  lemma ResumeOtherJob(s: Shop, j: nat, m: Move, k: nat)
    requires Ready(s, j, m) && k in s.jobs && k != j
    ensures JobSound(After(s, j, m), k)
  {
    assert JobSound(s, j) && JobSound(s, k);
    ResumeOtherTask(s, j, m, k);
    if IsJoin(s.jobs[k].task) {
      ResumeApart(s, j, m, k);
      assert s.jobs[j].player == s.jobs[k].player ==> Apart(s, k, j);
    }
  }

  lemma MoveReady(s: Shop, j: nat)
    requires Sound(s) && j in s.jobs
    ensures s.jobs[j].client in s.clients && Ready(s, j, NextMove(s, j))
  {
    var job := s.jobs[j];
    assert JobSound(s, j);
    var me := s.clients[job.client];
    HandsPositive(s, job.player);
    assert Owned(s, job.player) <= MAX_INT64;
    OneSeatEach(s, job.player);
    if Alive(s, j) && !job.task.JoinMark? {
      assert MarkSound(s, job.client);
      NotMarking(s, j);
    }
    MoveProgress(s.cfg, s.bank, me, job.task, Alive(s, j));
  }

  // The client of a job that no join overlaps is about to be marked only by that job itself.
  lemma NotMarking(s: Shop, j: nat)
    requires Sound(s) && j in s.jobs && Alive(s, j) && !s.jobs[j].task.JoinMark?
    ensures !Marking(s, s.jobs[j].client)
  {
    assert JobSound(s, j);
    forall k | k in s.jobs && s.jobs[k].client == s.jobs[j].client
      ensures !s.jobs[k].task.JoinMark?
    {
      assert JobSound(s, k);
      assert k != j && IsJoin(s.jobs[k].task) ==> Apart(s, k, j);
    }
  }

  // A live connection whose join is about to mark it belongs to a player at one table only.
  lemma MarkingOneSeat(s: Shop, c: ClientId, p: string)
    requires Sound(s) && c in s.clients && s.clients[c].player == p && Marking(s, c)
    ensures OneSeat(s.bank, p)
  {
    var k :| k in s.jobs && s.jobs[k].client == c && s.jobs[k].task.JoinMark?;
    assert JobSound(s, k);
    assert OnlyAt(s.bank, p, s.jobs[k].task.id);
  }

  // A player sits at one table at most.
  lemma OneSeatEach(s: Shop, p: string)
    requires Sound(s)
    ensures OneSeat(s.bank, p)
  {
    forall id | Seated(At(s.bank, id), p)
      ensures OnlyAt(s.bank, p, id)
    {
      assert HasLiveIn(s, p);
      var c :| c in s.live && c in s.clients && s.clients[c].player == p;
      assert MarkSound(s, c);
      if Marking(s, c) {
        MarkingOneSeat(s, c, p);
      }
    }
  }

  /** A step of a job keeps what everyone owns, counting chips in hands, but for the drift of an exit
      that leaves. */
  lemma ResumeDrifts(s: Shop, j: nat, p: string)
    requires Sound(s) && j in s.jobs
    ensures Owned(Act(s, Resume(j)), p) == Owned(s, p) + DriftBy(s, Resume(j), p)
  {
    MoveReady(s, j);
    ResumeChips(s, j, NextMove(s, j), p);
  }

  /** A step of a job keeps the invariant, unless it makes its player richer than a balance can be. */
  lemma ResumeSound(s: Shop, j: nat)
    requires Sound(s) && j in s.jobs && Fits(Act(s, Resume(j)))
    ensures Sound(Act(s, Resume(j)))
  {
    MoveReady(s, j);
    var m := NextMove(s, j);
    var t := After(s, j, m);
    ResumeLive(s, j, m);
    forall d | d in t.live
      ensures MarkSound(t, d)
    {
      ResumeMark(s, j, m, d);
    }
    forall k | k in t.jobs
      ensures JobSound(t, k)
    {
      if k == j {
        ResumeOwnJob(s, j, m);
      } else {
        ResumeOtherJob(s, j, m, k);
      }
    }
  }

  // ---------- Other actions ----------

  // Only the player's one live connection may send messages, and a connection's messages are
  // handled one after the other; closes may start at any time.
  ghost predicate MayStart(s: Shop, j: nat, c: ClientId, task: Task) {
    && j !in s.jobs && (task.JoinBegin? || task.LeaveBegin? || task.CloseBegin?)
    && (c in s.clients ==>
          && ColonFree(s.clients[c].player)
          && (!task.CloseBegin? ==>
                && SoleLive(s, c)
                && forall k | k in s.jobs && s.jobs[k].client == c :: InTurn(s.jobs[k].task, task)))
  }

  ghost predicate SoleLive(s: Shop, c: ClientId)
    requires c in s.clients
  {
    forall d | d in s.live && d in s.clients && s.clients[d].player == s.clients[c].player :: d == c
  }

  // The unfinished task of a connection does not stand in the way of its next message.
  predicate InTurn(unfinished: Task, message: Task) {
    !IsJoin(unfinished) && (message.JoinBegin? ==> !IsLeave(unfinished))
  }

  // Any unfinished job may be resumed at any time; everything else respects the above.
  ghost predicate Orderly(s: Shop, a: Action) {
    match a
    case Resume(_) => true
    case Start(j, c, task) => MayStart(s, j, c, task)
    case Arrive(c, p, _) => c !in s.clients && ColonFree(p) && !HasLiveIn(s, p)
    case Endow(_, initial) => 0 <= initial <= MAX_INT64
    case Order(p, _, _) => ColonFree(p)
  }

  // No exit leaves a table on the strength of a stale reading.
  ghost predicate Lawful(s: Shop, a: Action) {
    Orderly(s, a) && (a.Resume? && a.job in s.jobs ==> NotStale(s.bank, s.jobs[a.job].player, s.jobs[a.job].task))
  }

  // What the action adds to the player's chips, or takes from them, by leaving so.
  ghost function DriftBy(s: Shop, a: Action, p: string): int {
    if a.Resume? && a.job in s.jobs && s.jobs[a.job].player == p then Drift(s.bank, p, s.jobs[a.job].task) else 0
  }

  lemma LooseEnds(s: Shop, p: string)
    requires Sound(s) && !HasLiveIn(s, p)
    ensures Nowhere(s.bank, p)
  {
    forall id
      ensures !Seated(At(s.bank, id), p)
    {
      assert Seated(At(s.bank, id), p) ==> HasLiveIn(s, p);
    }
  }

  // Waking a connection whose player has no live one: the player sits nowhere.
  lemma WakeNowhere(s: Shop, c: ClientId)
    requires Sound(s) && c in s.clients && c !in s.live && SoleLive(s, c)
    ensures Nowhere(s.bank, s.clients[c].player)
  {
    assert !HasLiveIn(s, s.clients[c].player);
    LooseEnds(s, s.clients[c].player);
  }

  lemma TaskWakes(b: Bank, p: string, task: Task, alive: bool, still: bool)
    requires TaskOk(b, p, task, alive) && (!alive && still ==> Nowhere(b, p))
    ensures TaskOk(b, p, task, still)
  {
  }

  // A new message finds no join of its player in progress.
  lemma NoJoinYet(s: Shop, j: nat, c: ClientId, task: Task, k: nat)
    requires Sound(s) && MayStart(s, j, c, task) && c in s.clients && !task.CloseBegin?
    requires k in s.jobs && s.jobs[k].player == s.clients[c].player
    ensures !IsJoin(s.jobs[k].task)
  {
    assert JobSound(s, k);
    assert s.jobs[k].client == c ==> InTurn(s.jobs[k].task, task);
  }

  // The new job stands apart from a join in progress, and a new join from all other jobs.
  lemma StartApart(s: Shop, j: nat, c: ClientId, task: Task, i: nat)
    requires Sound(s) && MayStart(s, j, c, task) && c in s.clients
    requires i in Begin(s, j, c, task).jobs && IsJoin(Begin(s, j, c, task).jobs[i].task)
    ensures JoinApart(Begin(s, j, c, task), i)
  {
    var t := Begin(s, j, c, task);
    forall k | k in t.jobs && k != i && t.jobs[k].player == t.jobs[i].player
      ensures Apart(t, i, k)
    {
      if i == j {
        NoJoinYet(s, j, c, task, k);
        assert s.jobs[k].client == c ==> InTurn(s.jobs[k].task, task);
      } else {
        assert JobSound(s, i);
        if k == j {
          if !task.CloseBegin? {
            NoJoinYet(s, j, c, task, i);
          }
        } else {
          assert Apart(s, i, k);
        }
      }
    }
  }

  lemma StartJobs(s: Shop, j: nat, c: ClientId, task: Task, k: nat)
    requires Sound(s) && MayStart(s, j, c, task) && c in s.clients && k in Begin(s, j, c, task).jobs
    ensures JobSound(Begin(s, j, c, task), k)
  {
    var t := Begin(s, j, c, task);
    if IsJoin(t.jobs[k].task) {
      StartApart(s, j, c, task, k);
    }
    if k != j {
      assert JobSound(s, k);
      var job := s.jobs[k];
      if job.client == c && c !in s.live && c in t.live {
        WakeNowhere(s, c);
      }
      TaskWakes(s.bank, job.player, job.task, Alive(s, k), Alive(t, k));
    }
  }

  lemma StartMarks(s: Shop, j: nat, c: ClientId, task: Task, d: ClientId)
    requires Sound(s) && MayStart(s, j, c, task) && c in s.clients && d in Begin(s, j, c, task).live && d in s.clients
    ensures MarkSound(Begin(s, j, c, task), d)
  {
    var t := Begin(s, j, c, task);
    if d in s.live {
      assert MarkSound(s, d);
      if Marking(s, d) {
        var k :| k in s.jobs && s.jobs[k].client == d && s.jobs[k].task.JoinMark?;
        assert k in t.jobs && t.jobs[k] == s.jobs[k];
      }
    } else {
      WakeNowhere(s, c);
    }
  }

  lemma StartLive(s: Shop, j: nat, c: ClientId, task: Task)
    requires Sound(s) && MayStart(s, j, c, task) && c in s.clients
    ensures OneLive(Begin(s, j, c, task)) && SeatsHaveLive(Begin(s, j, c, task))
  {
    var t := Begin(s, j, c, task);
    forall p, id | Seated(At(t.bank, id), p)
      ensures HasLiveIn(t, p)
    {
      assert HasLiveIn(s, p);
      var d :| d in s.live && d in s.clients && s.clients[d].player == p;
      assert d in t.live;
    }
  }

  lemma StartSound(s: Shop, j: nat, c: ClientId, task: Task)
    requires Sound(s) && MayStart(s, j, c, task) && c in s.clients
    ensures Sound(Begin(s, j, c, task)) && forall p :: Owned(Begin(s, j, c, task), p) == Owned(s, p)
  {
    var t := Begin(s, j, c, task);
    forall p
      ensures Owned(t, p) == Owned(s, p) <= MAX_INT64
    {
      HandsBegin(s, j, c, task, p);
    }
    StartLive(s, j, c, task);
    forall d | d in t.live
      ensures MarkSound(t, d)
    {
      StartMarks(s, j, c, task, d);
    }
    forall k | k in t.jobs
      ensures JobSound(t, k)
    {
      StartJobs(s, j, c, task, k);
    }
  }

  // The bank changed, but nobody's seat did.
  lemma BankChanged(s: Shop, b: Bank)
    requires Sound(s) && BankOk(b) && WalletsKept(s.bank, b)
    requires forall id :: At(b, id) == At(s.bank, id)
    requires forall p :: Worth(b, p) + InFlight(s, p) <= MAX_INT64
    ensures Sound(s.(bank := b)) && forall p :: Owned(s.(bank := b), p) == Worth(b, p) + InFlight(s, p)
  {
    var t := s.(bank := b);
    assert forall p :: InHands(t, p) == InHands(s, p);
    assert forall p :: Owned(t, p) == Worth(b, p) + InFlight(s, p);
    forall p, id | Seated(At(t.bank, id), p)
      ensures HasLiveIn(t, p)
    {
      assert HasLiveIn(s, p);
    }
    forall c | c in t.live
      ensures MarkSound(t, c)
    {
      assert MarkSound(s, c);
      assert Marking(s, c) ==> Marking(t, c);
    }
    forall j | j in t.jobs
      ensures JobSound(t, j)
    {
      assert JobSound(s, j);
      TaskShrinks(s.bank, b, s.jobs[j].player, s.jobs[j].task, Alive(s, j), Alive(t, j));
      assert IsJoin(s.jobs[j].task) ==> JoinApart(t, j) by {
        assert forall k | k in s.jobs :: Apart(t, j, k) == Apart(s, j, k);
      }
    }
  }

  // Whoever holds chips has a wallet.
  lemma EmptyHands(s: Shop, p: string)
    requires Sound(s) && p !in s.bank.ledger.balances
    ensures Owned(s, p) == 0
  {
    PoorWithoutWallet(s.bank, p);
    var hands := InHands(s, p);
    forall j | j in hands
      ensures hands[j] == 0
    {
      assert JobSound(s, j);
    }
    SumZero(hands);
  }

  lemma EndowSound(s: Shop, p: string, initial: int)
    requires Sound(s) && 0 <= initial <= MAX_INT64
    ensures var t := Act(s, Endow(p, initial));
            && Sound(t)
            && forall q :: Owned(t, q) == Owned(s, q) + (if q == p && p !in s.bank.ledger.balances then initial else 0)
  {
    var b := Grant(s.bank, p, initial);
    GrantEffect(s.bank, p, initial);
    forall q
      ensures Worth(b, q) + InFlight(s, q) <= MAX_INT64
    {
      assert Owned(s, q) <= MAX_INT64;
      if p !in s.bank.ledger.balances {
        EmptyHands(s, p);
      }
    }
    BankChanged(s, b);
  }

  lemma BalanceFits(s: Shop, p: string)
    requires Sound(s)
    ensures 0 <= Balance(s.bank.ledger, p) <= MAX_INT64
  {
    WorthParts(s.bank, p);
    HandsPositive(s, p);
    assert Owned(s, p) <= MAX_INT64;
  }

  lemma OrderSound(s: Shop, p: string, id: string, amount: int)
    requires Sound(s) && ColonFree(p)
    ensures var t := Act(s, Order(p, id, amount)); Sound(t) && forall q :: Owned(t, q) == Owned(s, q)
  {
    if amount > 0 {
      var b := Buy(s.bank, p, Resolve(s.cfg, id), amount);
      BalanceFits(s, p);
      BuyEffect(s.bank, p, Resolve(s.cfg, id), amount);
      forall q
        ensures Worth(b, q) + InFlight(s, q) <= MAX_INT64
      {
        assert Owned(s, q) <= MAX_INT64;
      }
      BankChanged(s, b);
    }
  }

  lemma NewcomerSound(s: Shop, c: ClientId, p: string, nickname: string)
    requires Sound(s) && c !in s.clients && ColonFree(p) && !HasLiveIn(s, p)
    ensures var t := s.(clients := s.clients[c := Client(p, nickname, s.cfg.defaultTable, false)],
        live := s.live + {c});
            Sound(t) && forall q :: Owned(t, q) == Owned(s, q)
  {
    var t := s.(clients := s.clients[c := Client(p, nickname, s.cfg.defaultTable, false)], live := s.live + {c});
    LooseEnds(s, p);
    assert forall q :: InHands(t, q) == InHands(s, q);
    assert forall q :: Owned(t, q) == Owned(s, q);
    forall q, id | Seated(At(t.bank, id), q)
      ensures HasLiveIn(t, q)
    {
      assert HasLiveIn(s, q);
      var d :| d in s.live && d in s.clients && s.clients[d].player == q;
      assert t.clients[d].player == q;
    }
    forall d | d in t.live
      ensures MarkSound(t, d)
    {
      if d != c {
        assert MarkSound(s, d);
        assert Marking(s, d) ==> Marking(t, d);
      }
    }
    forall j | j in t.jobs
      ensures JobSound(t, j)
    {
      assert JobSound(s, j);
      assert s.jobs[j].client != c;
      assert forall k | k in s.jobs :: Apart(t, j, k) == Apart(s, j, k);
    }
  }

  lemma ArriveSound(s: Shop, c: ClientId, p: string, nickname: string)
    requires Sound(s) && Orderly(s, Arrive(c, p, nickname))
    ensures var t := Act(s, Arrive(c, p, nickname)); Sound(t) && forall q :: Owned(t, q) == Owned(s, q)
  {
    NewcomerSound(s, c, p, nickname);
    var t := s.(clients := s.clients[c := Client(p, nickname, s.cfg.defaultTable, false)], live := s.live + {c});
    var b := Look(s.bank, s.cfg.defaultTable);
    LookEffect(s.bank, s.cfg.defaultTable);
    forall q
      ensures Worth(b, q) + InFlight(t, q) <= MAX_INT64
    {
      assert Owned(t, q) <= MAX_INT64;
    }
    BankChanged(t, b);
  }

  function EndowedBy(s: Shop, a: Action, p: string): int {
    if a.Endow? && a.player == p && p !in s.bank.ledger.balances then a.initial else 0
  }

  /** Every orderly action keeps the invariant, unless it makes someone richer than a balance can be. */
  lemma ActSound(s: Shop, a: Action)
    requires Sound(s) && Orderly(s, a) && Fits(Act(s, a))
    ensures Sound(Act(s, a))
  {
    match a
    case Resume(j) =>
      if j in s.jobs {
        ResumeSound(s, j);
      }
    case Start(j, c, task) =>
      if c in s.clients {
        StartSound(s, j, c, task);
      }
    case Arrive(c, p, nickname) => ArriveSound(s, c, p, nickname);
    case Endow(p, initial) => EndowSound(s, p, initial);
    case Order(p, id, amount) => OrderSound(s, p, id, amount);
  }

  /** And it keeps everyone's chips, counting those in hands, but for a first grant and the drift of
      an exit that leaves. */
  lemma ActDrifts(s: Shop, a: Action, p: string)
    requires Sound(s) && Orderly(s, a)
    ensures Owned(Act(s, a), p) == Owned(s, p) + EndowedBy(s, a, p) + DriftBy(s, a, p)
  {
    match a
    case Resume(j) =>
      if j in s.jobs {
        ResumeDrifts(s, j, p);
      }
    case Start(j, c, task) =>
      if c in s.clients {
        StartSound(s, j, c, task);
      }
    case Arrive(c, q, nickname) => ArriveSound(s, c, q, nickname);
    case Endow(q, initial) => EndowSound(s, q, initial);
    case Order(q, id, amount) => OrderSound(s, q, id, amount);
  }

  /** An orderly action conserves chips, but for a first grant, exactly if it is lawful. */
  lemma ActConserves(s: Shop, a: Action)
    requires Sound(s) && Orderly(s, a)
    ensures Conserves(s, a) <==> Lawful(s, a)
  {
    forall p
      ensures Owned(Act(s, a), p) == Owned(s, p) + EndowedBy(s, a, p) + DriftBy(s, a, p)
    {
      ActDrifts(s, a, p);
    }
    if a.Resume? && a.job in s.jobs {
      NoDriftExactly(s.bank, s.jobs[a.job].player, s.jobs[a.job].task);
      assert DriftBy(s, a, s.jobs[a.job].player) == Drift(s.bank, s.jobs[a.job].player, s.jobs[a.job].task);
    }
  }

  ghost predicate Conserves(s: Shop, a: Action) {
    forall p :: Owned(Act(s, a), p) == Owned(s, p) + EndowedBy(s, a, p)
  }

  // A lawful action makes nobody too rich.
  lemma LawfulFits(s: Shop, a: Action)
    requires Sound(s) && Lawful(s, a)
    ensures Fits(Act(s, a)) && forall p :: DriftBy(s, a, p) == 0
  {
    ActConserves(s, a);
    forall p
      ensures Owned(Act(s, a), p) <= MAX_INT64 && DriftBy(s, a, p) == 0
    {
      ActDrifts(s, a, p);
      assert Owned(s, p) <= MAX_INT64;
      if EndowedBy(s, a, p) != 0 {
        EmptyHands(s, p);
      }
    }
  }

  // ---------- Whole schedules ----------

  ghost function Play(s: Shop, actions: seq<Action>): Shop {
    if actions == [] then s else Act(Play(s, actions[..|actions| - 1]), actions[|actions| - 1])
  }

  ghost predicate OrderlyAt(s: Shop, actions: seq<Action>, n: nat)
    requires n < |actions|
  {
    Orderly(Play(s, actions[..n]), actions[n])
  }

  ghost predicate OrderlyRun(s: Shop, actions: seq<Action>) {
    forall n | 0 <= n < |actions| :: OrderlyAt(s, actions, n)
  }

  ghost predicate LawfulAt(s: Shop, actions: seq<Action>, n: nat)
    requires n < |actions|
  {
    Lawful(Play(s, actions[..n]), actions[n])
  }

  ghost predicate LawfulRun(s: Shop, actions: seq<Action>) {
    forall n | 0 <= n < |actions| :: LawfulAt(s, actions, n)
  }

  ghost predicate FitsAt(s: Shop, actions: seq<Action>, n: nat)
    requires n <= |actions|
  {
    Fits(Play(s, actions[..n]))
  }

  // At no time does anyone own more than a balance could hold.
  ghost predicate FittingRun(s: Shop, actions: seq<Action>) {
    forall n | 0 <= n <= |actions| :: FitsAt(s, actions, n)
  }

  ghost function Endowed(s: Shop, actions: seq<Action>, p: string): int {
    if actions == [] then 0
    else
      var n := |actions| - 1;
      Endowed(s, actions[..n], p) + EndowedBy(Play(s, actions[..n]), actions[n], p)
  }

  // What stale readings have added to the player's chips, or taken from them.
  ghost function Drifted(s: Shop, actions: seq<Action>, p: string): int {
    if actions == [] then 0
    else
      var n := |actions| - 1;
      Drifted(s, actions[..n], p) + DriftBy(Play(s, actions[..n]), actions[n], p)
  }

  lemma {:induction false} OrderlyPrefix(s: Shop, actions: seq<Action>)
    requires OrderlyRun(s, actions) && actions != []
    ensures OrderlyRun(s, actions[..|actions| - 1])
    ensures Orderly(Play(s, actions[..|actions| - 1]), actions[|actions| - 1])
  {
    var n := |actions| - 1;
    assert OrderlyAt(s, actions, n);
    forall k | 0 <= k < n
      ensures OrderlyAt(s, actions[..n], k)
    {
      assert OrderlyAt(s, actions, k) && actions[..n][..k] == actions[..k];
    }
  }

  lemma {:induction false} LawfulPrefix(s: Shop, actions: seq<Action>)
    requires LawfulRun(s, actions) && actions != []
    ensures LawfulRun(s, actions[..|actions| - 1])
    ensures Lawful(Play(s, actions[..|actions| - 1]), actions[|actions| - 1])
  {
    var n := |actions| - 1;
    assert LawfulAt(s, actions, n);
    forall k | 0 <= k < n
      ensures LawfulAt(s, actions[..n], k)
    {
      assert LawfulAt(s, actions, k) && actions[..n][..k] == actions[..k];
    }
  }

  lemma {:induction false} FittingPrefix(s: Shop, actions: seq<Action>)
    requires FittingRun(s, actions) && actions != []
    ensures FittingRun(s, actions[..|actions| - 1]) && Fits(Play(s, actions))
  {
    var n := |actions| - 1;
    assert FitsAt(s, actions, n + 1) && actions[..n + 1] == actions;
    forall k | 0 <= k <= n
      ensures FitsAt(s, actions[..n], k)
    {
      assert FitsAt(s, actions, k) && actions[..n][..k] == actions[..k];
    }
  }

  /** The invariant holds between any two steps of any orderly schedule, whatever its exits have read,
      as long as nobody is richer than a balance can be. */
  lemma {:induction false} PlaySound(s: Shop, actions: seq<Action>)
    requires Sound(s) && OrderlyRun(s, actions) && FittingRun(s, actions)
    ensures Sound(Play(s, actions))
  {
    if actions != [] {
      var n := |actions| - 1;
      OrderlyPrefix(s, actions);
      FittingPrefix(s, actions);
      PlaySound(s, actions[..n]);
      ActSound(Play(s, actions[..n]), actions[n]);
    }
  }

  /** Between any two steps of any such schedule, each player's balance, pending buy-ins, stacks and
      chips in flight together differ from the start by the first grants and by what exits with a
      stale reading paid out beyond what they took. */
  lemma {:induction false} PlayDrifts(s: Shop, actions: seq<Action>, p: string)
    requires Sound(s) && OrderlyRun(s, actions) && FittingRun(s, actions)
    ensures Owned(Play(s, actions), p) == Owned(s, p) + Endowed(s, actions, p) + Drifted(s, actions, p)
  {
    if actions != [] {
      var n := |actions| - 1;
      OrderlyPrefix(s, actions);
      FittingPrefix(s, actions);
      PlayDrifts(s, actions[..n], p);
      PlaySound(s, actions[..n]);
      ActDrifts(Play(s, actions[..n]), actions[n], p);
    }
  }

  /** A lawful schedule is such a schedule, and it drifts nowhere. */
  lemma {:induction false} LawfulFitting(s: Shop, actions: seq<Action>)
    requires Sound(s) && LawfulRun(s, actions)
    ensures OrderlyRun(s, actions) && FittingRun(s, actions) && forall p :: Drifted(s, actions, p) == 0
  {
    if actions == [] {
      assert FitsAt(s, [], 0);
    } else {
      var n := |actions| - 1;
      LawfulPrefix(s, actions);
      LawfulFitting(s, actions[..n]);
      PlaySound(s, actions[..n]);
      LawfulFits(Play(s, actions[..n]), actions[n]);
      LongerFitting(s, actions);
    }
  }

  // A fitting schedule may be continued by a lawful action.
  lemma {:induction false} LongerFitting(s: Shop, actions: seq<Action>)
    requires actions != [] && FittingRun(s, actions[..|actions| - 1]) && Fits(Play(s, actions))
    requires LawfulRun(s, actions)
    ensures OrderlyRun(s, actions) && FittingRun(s, actions)
  {
    var n := |actions| - 1;
    forall k | 0 <= k <= n + 1
      ensures FitsAt(s, actions, k)
    {
      if k == n + 1 {
        assert actions[..k] == actions;
      } else {
        assert FitsAt(s, actions[..n], k) && actions[..n][..k] == actions[..k];
      }
    }
    forall k | 0 <= k <= n
      ensures OrderlyAt(s, actions, k)
    {
      assert LawfulAt(s, actions, k);
    }
  }

  /** Between any two steps of any lawful schedule, they differ from the start by the first grants
      alone. */
  lemma {:induction false} PlayConserves(s: Shop, actions: seq<Action>, p: string)
    requires Sound(s) && LawfulRun(s, actions)
    ensures Owned(Play(s, actions), p) == Owned(s, p) + Endowed(s, actions, p)
  {
    LawfulFitting(s, actions);
    PlayDrifts(s, actions, p);
  }

  // After the first n actions everyone owns what they did, but for first grants.
  ghost predicate ConservedAt(s: Shop, actions: seq<Action>, n: nat)
    requires n <= |actions|
  {
    forall p :: Owned(Play(s, actions[..n]), p) == Owned(s, p) + Endowed(s, actions[..n], p)
  }

  ghost predicate ConservedThroughout(s: Shop, actions: seq<Action>) {
    forall n | 0 <= n <= |actions| :: ConservedAt(s, actions, n)
  }

  /** The exact condition: an orderly schedule conserves everyone's chips throughout if and only if it
      is lawful, that is, if no exit in it leaves on the strength of a stale reading. */
  lemma {:induction false} ConservedExactly(s: Shop, actions: seq<Action>)
    requires Sound(s) && OrderlyRun(s, actions)
    ensures ConservedThroughout(s, actions) <==> LawfulRun(s, actions)
  {
    if LawfulRun(s, actions) {
      forall n | 0 <= n <= |actions|
        ensures ConservedAt(s, actions, n)
      {
        LawfulTake(s, actions, n);
        forall p
          ensures Owned(Play(s, actions[..n]), p) == Owned(s, p) + Endowed(s, actions[..n], p)
        {
          PlayConserves(s, actions[..n], p);
        }
      }
    }
    if ConservedThroughout(s, actions) {
      ConservedLawful(s, actions);
    }
  }

  lemma {:induction false} LawfulTake(s: Shop, actions: seq<Action>, n: nat)
    requires LawfulRun(s, actions) && n <= |actions|
    ensures LawfulRun(s, actions[..n])
  {
    forall k | 0 <= k < n
      ensures LawfulAt(s, actions[..n], k)
    {
      assert LawfulAt(s, actions, k) && actions[..n][..k] == actions[..k];
    }
  }

  // The first stale leave would show.
  lemma {:induction false} ConservedLawful(s: Shop, actions: seq<Action>)
    requires Sound(s) && OrderlyRun(s, actions) && ConservedThroughout(s, actions)
    ensures LawfulRun(s, actions)
  {
    if actions != [] {
      var n := |actions| - 1;
      OrderlyPrefix(s, actions);
      ConservedPrefix(s, actions);
      ConservedLawful(s, actions[..n]);
      LawfulFitting(s, actions[..n]);
      PlaySound(s, actions[..n]);
      ActConserves(Play(s, actions[..n]), actions[n]);
      LawfulLonger(s, actions);
    }
  }

  lemma {:induction false} LawfulLonger(s: Shop, actions: seq<Action>)
    requires actions != [] && LawfulRun(s, actions[..|actions| - 1])
    requires Lawful(Play(s, actions[..|actions| - 1]), actions[|actions| - 1])
    ensures LawfulRun(s, actions)
  {
    var n := |actions| - 1;
    forall k | 0 <= k <= n
      ensures LawfulAt(s, actions, k)
    {
      if k < n {
        assert LawfulAt(s, actions[..n], k) && actions[..n][..k] == actions[..k];
      }
    }
  }

  lemma {:induction false} ConservedPrefix(s: Shop, actions: seq<Action>)
    requires ConservedThroughout(s, actions) && actions != []
    ensures ConservedThroughout(s, actions[..|actions| - 1])
    ensures Conserves(Play(s, actions[..|actions| - 1]), actions[|actions| - 1])
  {
    var n := |actions| - 1;
    assert ConservedAt(s, actions, n) && ConservedAt(s, actions, n + 1) && actions[..n + 1] == actions;
    forall k | 0 <= k <= n
      ensures ConservedAt(s, actions[..n], k)
    {
      assert ConservedAt(s, actions, k) && actions[..n][..k] == actions[..k];
    }
  }

  function Opening(cfg: Config): Shop {
    Shop(cfg, Bank(EMPTY_LEDGER, map[cfg.defaultTable := NewTable(cfg.defaultTable)]), map[], {}, map[], {})
  }

  lemma OpeningSound(cfg: Config)
    ensures Sound(Opening(cfg)) && forall p :: Owned(Opening(cfg), p) == 0
  {
    var s := Opening(cfg);
    forall p
      ensures Owned(s, p) == 0
    {
      PoorWithoutWallet(s.bank, p);
      assert InHands(s, p) == map[];
    }
  }

  // None of the player's jobs is unfinished.
  ghost predicate Idle(s: Shop, p: string) {
    forall j | j in s.jobs :: s.jobs[j].player != p
  }

  lemma IdleHands(s: Shop, p: string)
    requires Idle(s, p)
    ensures InFlight(s, p) == 0
  {
    assert InHands(s, p) == map[];
  }

  /** From a fresh server: when none of a player's jobs is unfinished, balance, pending buy-ins and
      stacks are the grants received and the drift, which is nothing in a lawful schedule. */
  lemma {:induction false} NothingLost(cfg: Config, actions: seq<Action>, s: Shop, p: string)
    requires OrderlyRun(Opening(cfg), actions) && FittingRun(Opening(cfg), actions)
    requires s == Play(Opening(cfg), actions) && Idle(s, p)
    ensures Worth(s.bank, p) == Endowed(Opening(cfg), actions, p) + Drifted(Opening(cfg), actions, p)
    ensures LawfulRun(Opening(cfg), actions) ==> Drifted(Opening(cfg), actions, p) == 0
  {
    OpeningSound(cfg);
    PlayDrifts(Opening(cfg), actions, p);
    IdleHands(s, p);
    assert Owned(s, p) == Endowed(Opening(cfg), actions, p) + Drifted(Opening(cfg), actions, p);
    if LawfulRun(Opening(cfg), actions) {
      LawfulFitting(Opening(cfg), actions);
    }
  }

  /** At any time, neither the three places nor the jobs' hands hold a negative amount. */
  lemma {:induction false} NoDebtsInFlight(cfg: Config, actions: seq<Action>, s: Shop, p: string)
    requires OrderlyRun(Opening(cfg), actions) && FittingRun(Opening(cfg), actions)
    requires s == Play(Opening(cfg), actions)
    ensures InFlight(s, p) >= 0 && Balance(s.bank.ledger, p) >= 0 && PendingTotal(s.bank, p) >= 0
        && StackTotal(s.bank, p) >= 0
  {
    OpeningSound(cfg);
    PlaySound(Opening(cfg), actions);
    HandsPositive(s, p);
    WorthParts(s.bank, p);
  }

  /** In every reachable state, between any two steps, a player sits at one table at most. */
  lemma {:induction false} OneSeatAlways(cfg: Config, actions: seq<Action>, s: Shop, p: string, a: string, b: string)
    requires OrderlyRun(Opening(cfg), actions) && FittingRun(Opening(cfg), actions)
    requires s == Play(Opening(cfg), actions)
    requires Seated(At(s.bank, a), p) && Seated(At(s.bank, b), p)
    ensures a == b
  {
    OpeningSound(cfg);
    PlaySound(Opening(cfg), actions);
    OneSeatEach(s, p);
    assert OnlyAt(s.bank, p, a);
  }

  // ---------- Every job comes to an end ----------

  // An upper bound on the steps a task still takes.
  function Rank(task: Task): nat {
    match task
    case JoinBegin(_, _) => 9
    case JoinCheck(_, _, _, _) => 8
    case JoinConsume(_, _, _, _) => 7
    case JoinRead(_, _, _, _) => 6
    case JoinLeave(_, _, _, _, _, _) => 5
    case JoinUnmark(_, _, _, _, _) => 4
    case JoinCredit(_, _, _, _, _) => 3
    case JoinSit(_, _, _) => 2
    case JoinRefund(_) => 1
    case JoinMark(_) => 1
    case LeaveBegin(_) => 5
    case CloseBegin => 6
    case CloseTable => 5
    case ExitRead(_, _) => 4
    case ExitLeave(_, _, _, _) => 3
    case ExitCredit(_, _, _) => 2
    case ExitUnmark(_) => 1
  }

  lemma JoinRank(b: Bank, me: Client, task: Task)
    requires IsJoin(task)
    ensures JoinMove(b, me, task).next.Some? ==> Rank(JoinMove(b, me, task).next.value) < Rank(task)
  {
  }

  lemma ExitRank(cfg: Config, b: Bank, me: Client, task: Task)
    requires !IsJoin(task)
    ensures ExitMove(cfg, b, me, task).next.Some? ==> Rank(ExitMove(cfg, b, me, task).next.value) < Rank(task)
  {
  }

  lemma MoveRank(cfg: Config, b: Bank, me: Client, task: Task)
    ensures MoveOf(cfg, b, me, task).next.Some? ==> Rank(MoveOf(cfg, b, me, task).next.value) < Rank(task)
  {
    if IsJoin(task) {
      JoinRank(b, me, task);
    } else {
      ExitRank(cfg, b, me, task);
    }
  }

  /** No step waits for another job: a job that is resumed finishes or gets closer to finishing,
      and no action of anyone else sets it back. */
  lemma RankDrops(s: Shop, a: Action, j: nat)
    requires Sound(s) && Orderly(s, a) && j in s.jobs
    ensures a == Resume(j) && j in Act(s, a).jobs ==> Rank(Act(s, a).jobs[j].task) < Rank(s.jobs[j].task)
    ensures a != Resume(j) ==> j in Act(s, a).jobs && Act(s, a).jobs[j] == s.jobs[j]
  {
    assert JobSound(s, j);
    var job := s.jobs[j];
    var me := s.clients[job.client];
    MoveRank(s.cfg, s.bank, me, job.task);
    var m := NextMove(s, j);
    assert After(s, j, m).jobs == if m.next.Some? then s.jobs[j := job.(task := m.next.value)] else s.jobs - {j};
  }
}
