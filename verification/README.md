# Chips, seats and requests of the cash-table backend

A Dafny 4.11 model of the poker backend's stateful core, with proofs. Players hold chips in three
places: a wallet, pending buy-ins and table stacks. WebSocket handlers move them between two stores,
any number of tables and a hub of connections, with compensation when a step fails; a per-connection
cache answers repeated requests; snapshots and an event log are written after every change.

The model has four layers.

- **Values.** `Seating` (one table), `TableManager` (the registry), `Ledgers` (the in-memory store),
  `PostgresRows` (the SQL rows), `Caches` (the response cache), `Sessions` (the nickname index),
  `SnapshotStore`, and `Banks` (ledger and tables together, with everyone's worth).
- **Objects.** The classes of the program with their fields updated in place, each method proved equal
  to a transition of a value: `Tables.Table` (seat array, index, counter), `TableManager.Manager`,
  `EventStores.EventStore`, `PostgresStores.PostgresStore`, `RequestCaches.RequestCache` (a queue that
  is a slice of a backing array, compacted over itself), `SessionStores.SessionStore`, `Apps.App` with
  `Apps.WsClient`, and `ReadLoops.Connection`.
- **Handlers and runs.** `Worlds` gives each handler as one step of the whole server; which socket
  writes fail is an input of every step. `Requests` says what each request comes to without reference
  to the handlers: its table, its answer, who sits where, the wallet, the log. `Conservation`, `Admission`, `Watching`, `Recovery`,
  `EventLog`, `Replays` and `Revocation` prove what every handler and every run keeps;
  `SecondConnections` gives the run in which a second connection loses a buy-in.
- **Interleavings.** `Interleaving`, `Schedules`, `Races` and `Atomicity` cut the handlers at every
  lock they take and let any number of jobs interleave; `Overflow` shows that 64-bit balances make no
  difference to them, and `StaleCloses` and `OverlappedCloses` give the schedules in which a buy-in is
  lost. `SaveOrders` adds the saving of snapshots as steps of its own.

Lemmas carry `{:induction false}` wherever Dafny would add an induction hypothesis of its own; every
induction is written out. `dafny verify dfyconfig.toml` checks the whole project.

Hypotheses are stated where they are needed and nowhere else:

- Conservation, single seat and the event log assume one live connection per player. A connection is
  live from connecting, or from its last message, until `closeClient` has run. Without this
  hypothesis a join can lose chips: `Conservation.JoinConservesExactly` says exactly when, and
  `SecondConnections.SecondConnectionForfeits` gives a run from a fresh server.
- Runs start from a fresh server: no stored snapshots, so no restored seats without a connection.
  `Recovery.RestartRecovers` says what a restart brings back, and that the seats it brings back are
  not covered by any connection's mark.
- Player ids contain no colon (`Ledgers.KeyCollisionExactly` says what goes wrong otherwise), session
  ids and connections are fresh, grants are between 0 and the largest 64-bit integer.
- An orderly schedule of the interleaved model respects the same: only the player's one live
  connection sends messages, and a connection handles its messages in turn. Any unfinished job may take
  its next step at any time, and closes start at any time and any number of times, also while a join
  of the same connection is under way. Such a close may miss the seat that the join is about to
  take, so a connection counts as live until a close that no join of it overlaps has ended;
  `OverlappedCloses.OverlappedCloseMatters` shows what would be lost if the overlapped close ended it.
- A lawful schedule is an orderly one in which no exit gives up a seat on the strength of a stale
  reading of its stack. By `Schedules.ConservedExactly` the orderly schedules that conserve everyone's
  chips throughout are the lawful ones and no others, and `Schedules.PlayDrifts` gives the difference
  for the rest, as long as the schedule fits: nobody ever owns more than a 64-bit balance can hold.
  Stale readings could bring that about in principle, as they can pay out a stack twice; a lawful
  schedule cannot (`Schedules.LawfulFitting`).
- The clock does not go backwards (cache and replay results only).

## Where the code and its promises differ

1. A buy-in by a player without a wallet, refused for lack of funds, leaves a wallet of 0 in the
   in-memory store, while Postgres rolls it back; a later first grant then reaches only the Postgres
   wallet (`PostgresRows.RelatedExactly`, `PostgresRows.WalletlessBuyInDiverges`). This is a property
   of the store interface: the application ensures a wallet whenever it creates a session, so that it
   takes a failed statement there for a player to buy in without one.
2. Creating a session and deleting it again restores the session store exactly when the player had no
   session before, or already had one under the same canonical nickname
   (`Sessions.DeleteUndoesCreate`). `Sessions.DeleteMayNotRestore` is the failing case: the first
   session stays and its nickname is free for anyone.
3. A negative answer of the nickname check is reliable exactly when cutting the name to twenty runes
   does not change its canonical form. For every name of more than twenty runes some store that can
   be reached makes it wrong (`Sessions.NegativeCheckExact`, `Sessions.LongNamesNotCheckable`).
4. Two different player ids can share a pending-buy-in key exactly when one is the other followed by
   a colon, or starts with the other followed by two colons (`Ledgers.KeyCollisionExactly`).
5. A join that reaches a table where the player already sits, through another connection, is reported
   as a success and forfeits the consumed buy-in (`Conservation.JoinConservesExactly`, and
   `SecondConnections.SecondConnectionForfeits` for a run that leads there).
6. Leaving a table pays out the stack that was read before the seat is given up. A second close of a
   dead connection can read "not seated", the player's next connection can then sit down at the same
   table, and the close gives up that seat and refunds nothing, although the player has had one live
   connection at any time (`StaleCloses.StaleCloseLoses`). `Races.LeaveStepExactly` gives the exact
   loss or gain of every such step, `Schedules.PlayDrifts` that of a whole schedule, and
   `Schedules.ConservedExactly` the exact condition for there to be none.
7. Revoking a session closes the connections found in the hub. A player whose connection a failed
   broadcast has just dropped from the hub keeps the seat until that connection's own close
   (`Revocation.RevokedSitExactly`, `Revocation.DroppedStaysSeated`).
8. A snapshot is saved after the lock of its table is released, and saving compares no versions. A close
   can overtake the saving of the join before it; then the store keeps the player seated at a table
   they have left with their chips (`SaveOrders.LateSaveOutlives`). `SaveOrders.RecoversExactly` says
   when the store is current.

## Model

| member | source | states |
|---|---|---|
| Schedules.PlayConserves | backend/internal/app/ws_handlers.go:84-200 | over any lawful schedule of interleaved handler steps, started from a sound state: balance, pending buy-ins, stacks and chips in flight of each player together change by the first grants alone |
| Schedules.ConservedExactly | backend/internal/app/ws_handlers.go:84-200 | an orderly schedule from a sound state conserves everyone's chips, but for first grants, after each of its steps if and only if no exit in it leaves on the strength of a stale reading |
| Schedules.PlayDrifts | backend/internal/app/ws_handlers.go:84-200 | over any fitting orderly schedule each player's chips, in hands included, change by exactly the first grants and, for each exit that leaves, the stack it read less the stack it found |
| Schedules.PlaySound | backend/internal/app/ws_handlers.go:84-200 | the invariant that marks cover seats, seats need a live connection, and each job may rely on what it read, holds between any two steps of any fitting orderly schedule, stale exits included |
| Schedules.LawfulFitting | backend/internal/app/ws_handlers.go:84-200 | a lawful schedule from a sound state is orderly and fits, and drifts for nobody |
| Schedules.NothingLost | backend/internal/app/ws_handlers.go:128-168 | over any fitting orderly schedule from a fresh server, whenever none of a player's jobs is unfinished, the three places hold exactly the grants and the drift, which is 0 if the schedule is lawful; also while others race for the same or the last seat |
| Schedules.NoDebtsInFlight | backend/internal/app/ws_handlers.go:128-168 | between any two steps of any fitting orderly schedule from a fresh server, no balance, pending total, stack total or amount in flight is negative |
| Schedules.OneSeatAlways | backend/internal/app/ws_handlers.go:140-165 | between any two steps of any fitting orderly schedule from a fresh server, a player sits at one table at most |
| Schedules.RankDrops | backend/internal/app/ws_handlers.go:84-200 | every step of a job brings it nearer its end and no other action sets it back, so every handler finishes |
| Schedules.ActSound | backend/internal/app/ws_handlers.go:84-200 | every orderly action (any job step, a new job, a connection, a grant, a buy-in) keeps that invariant, with closes starting at any time |
| Schedules.ActConserves | backend/internal/app/ws_handlers.go:84-200 | an orderly action conserves everyone's chips, counting those in hands, but for a first grant, if and only if it is lawful |
| Schedules.ActDrifts | backend/internal/app/ws_handlers.go:84-200 | what each player owns changes by the first grant and the drift of the exit that leaves, for every orderly action |
| Interleaving.MoveProgress | backend/internal/app/ws_handlers.go:107-200 | each single step of each handler moves chips between the bank and the job's hands with no gain or loss but the drift of a stale exit, leaves other players' seats alone and establishes what its next step relies on |
| Interleaving.TaskShrinks | backend/internal/app/ws_handlers.go:185-194 | what a job has read stays usable when other jobs make the same player leave |
| Races.RefundedOnce | backend/internal/app/ws_handlers.go:84-101 | over any fitting orderly schedule in which the player does not sit down at that table again, joins of other tables, buy-ins, grants and stale readings of other tables included, and any number of exits racing: if the seat was given up, exactly one payment was made for it, and it was the stack |
| Races.NotRefundedIfSeated | backend/internal/app/ws_handlers.go:84-101 | and if the player still sits there, no payment was made for it |
| Races.RefundedWhenGone | backend/internal/app/session_helpers.go:21-42 | over any fitting orderly schedule, once no connection of the player is live and none of their jobs unfinished, wallet and pending buy-ins hold what they owned at the start, their first grant and the drift, which is 0 in a lawful schedule |
| Races.SeatAccount | backend/internal/app/ws_handlers.go:84-101 | over any fitting orderly schedule in which the player does not sit down at the table again, started with no stale reading of it, the stake at the table, the chips in hands from leaving it and the payments made for leaving it add up to the same, by amount and by number |
| Races.PaidIsCredited | backend/internal/app/state_helpers.go:100-115 | each of these payments is a credit that raises the wallet by its amount |
| Races.LeaveStepExactly | backend/internal/app/ws_handlers.go:87-96 | for every leave step of an exit or a join in any state with sound tables: what the player owns changes by the stack read earlier less the stack there, if the player is there, and not at all otherwise |
| Races.StaleReadExactly | backend/internal/app/ws_handlers.go:87-96 | a step that leaves a table, in an exit or in a join, keeps what its player owns if and only if the player is not there or the stack read earlier is the stack there |
| Races.SitStepExactly | backend/internal/table/table.go:70-73 | a step that sits down costs its player the whole stack if they already sit there, and nothing otherwise |
| StaleCloses.StaleCloseLoses | backend/internal/app/ws_handlers.go:84-105 | for every player, amount and default table a lawful schedule from a fresh server and two more steps of its unfinished jobs, the first a stale leave, after which no job is unfinished and the player owns less than the grants by the buy-in |
| OverlappedCloses.OverlappedCloseMatters | backend/internal/table/table.go:70-73 | for every player and amount a lawful schedule from a fresh server that ends with a close overlapped by a join of its connection: were the connection then not live, an orderly rest with a second connection would lose a buy-in |
| Overflow.UnboundedPlay | backend/internal/store/event_store.go:100-157 | over any fitting orderly schedule from a fresh server, stale exits included, the ledger with 64-bit credits and debits does exactly what one with unbounded integers does |
| Overflow.JobCreditsExact | backend/internal/store/event_store.go:100-112 | in every state of every fitting orderly schedule, each credit or refund a job is about to make raises the balance by exactly its amount |
| Overflow.MessagesUnbounded | backend/internal/app/ws_handlers.go:107-200 | over any legal run, the next join or leave message does to tables, ledger and mark what it would with an unbounded ledger |
| Overflow.ClosesUnbounded | backend/internal/app/ws_handlers.go:84-105 | and so does every close, stale ones included |
| Overflow.BuyInsUnbounded | backend/internal/store/event_store.go:114-157 | and every buy-in: its debit is the mathematical one |
| Atomicity.JoinAlone | backend/internal/app/ws_handlers.go:107-170 | the join job run undisturbed changes bank and client mark exactly as the one-step handler does |
| Atomicity.LeaveAlone | backend/internal/app/ws_handlers.go:172-200 | the same for leave_table |
| Atomicity.CloseAlone | backend/internal/app/ws_handlers.go:84-105 | the same for closing a connection |
| Conservation.RunConserves | backend/internal/app/ws_handlers.go:84-200 | over every legal run each player's worth changes by exactly the first grants, and the seat, mark and solvency invariants are kept |
| Conservation.StepKeeps | backend/internal/app/ws_handlers.go:84-200 | every atomic step (grant, buy-in, connect, message, close, stale second close) keeps the invariants and everyone's worth but for a first grant |
| Conservation.ChipsConserved | backend/internal/store/event_store.go:83-178 | from a fresh server a player's worth is exactly the grants received |
| Conservation.NoDebts | backend/internal/store/event_store.go:83-178 | balance, pending buy-ins and stacks are each non-negative in every reachable state |
| Conservation.SingleSeat | backend/internal/app/ws_handlers.go:84-105 | in every reachable state a player sits at one table at most |
| Conservation.SeatedAreLive | backend/internal/app/ws_handlers.go:84-105 | in every reachable state a seated player has a live connection, although closing never clears the mark |
| Conservation.JoinEffectOnWorth | backend/internal/app/ws_handlers.go:107-170 | a join keeps everyone's worth, except that a forfeiting one costs its player exactly the consumed buy-in |
| Conservation.JoinConservesExactly | backend/internal/table/table.go:70-73 | a join conserves chips if and only if it is not a join to a table where the player already sits unknown to this connection |
| SecondConnections.SecondConnectionForfeits | backend/internal/table/table.go:70-73 | for every player and amount a lawful run from a fresh server, a second connection and a second buy-in, after which the join of the second connection loses exactly that buy-in |
| Conservation.DepartConserves | backend/internal/app/ws_handlers.go:85-101 | leaving moves the stack to the wallet whoever asks and whatever table is named; it fails exactly for those not seated there |
| Conservation.CloseKeeps | backend/internal/app/ws_handlers.go:84-105 | closing a connection keeps everyone's worth and, if the mark was right, leaves its player seated nowhere, although the mark itself is not cleared |
| Revocation.ShutEachKeeps | backend/internal/app/session_helpers.go:38-41 | closing any list of connections in any order keeps everyone's chips and the invariants and empties the hub of them |
| Revocation.HubIsLive | backend/internal/app/ws_hub.go:170-192 | in every run every connection in the hub is live |
| Revocation.RevokedSitExactly | backend/internal/app/session_helpers.go:21-42 | in every reachable state, with all chips kept, a revoked player still sits exactly where they sat with no connection left in the hub |
| Revocation.RevokedAlone | backend/internal/app/session_helpers.go:38-41 | revoking takes nobody else off a table and closes nobody else's connection unless a broadcast to it fails |
| Revocation.DroppedStaysSeated | backend/internal/app/ws_handlers.go:208-216 | a legal run from a fresh server to such a state: the broadcast of the player's own join fails |
| Banks.RiseEffect | backend/internal/table/table.go:94-108 | leaving takes exactly the player's own stack off the table, or fails and changes nobody's worth |
| Banks.SitEffect | backend/internal/table/table.go:66-91 | joining adds the stack to a newcomer's worth and nothing for anyone already seated there |
| Banks.ConsumeEffect | backend/internal/store/event_store.go:159-178 | what consuming a buy-in pays out is exactly what stops being pending, and it is positive |
| Banks.BuyEffect | backend/internal/store/event_store.go:114-157 | a buy-in moves chips from the wallet to the pending entry or moves nothing |
| Banks.GrantEffect | backend/internal/store/event_store.go:83-91 | only the first grant to a player adds chips |
| Banks.CreditEffect | backend/internal/store/event_store.go:100-112 | a credit within the 64-bit range raises the wallet and the worth of that player alone by the amount |
| Admission.PrevalidateExact | backend/internal/app/state_helpers.go:117-133 | the check before consuming the buy-in passes if and only if the seat asked for exists and is free |
| Admission.DeclinedTouchesNothing | backend/internal/app/ws_handlers.go:118-137 | a request that finds the player seated there, the seat unavailable or no buy-in leaves the ledger, the pending buy-in, the marks and every table as they were |
| Admission.AcceptedExactly | backend/internal/app/ws_handlers.go:128-169 | every other join fails only when no seat was asked for and nine others sit there, answers TABLE_FULL then, and returns the buy-in; otherwise the player sits at the seat asked for with the buy-in as stack; the stack of a table left behind is in the wallet either way |
| Requests.JoinExactly | backend/internal/app/ws_handlers.go:107-170 | a join_table message in every case: it is about the trimmed table id it names, or the default table; who sits there already is shown it; INVALID_SEAT, SEAT_TAKEN and BUY_IN_REQUIRED are answered exactly when due and change nothing; otherwise the booked buy-in is used up, the present table is left as switch_leave with its stack in the wallet, and the player is listed at the table named, under their own nickname, with the buy-in, at the seat asked for or the lowest free one, and marked, announced and logged as join_table; or, at a full table, is answered TABLE_FULL with the buy-in back in the wallet |
| Requests.LeaveExactly | backend/internal/app/ws_handlers.go:172-200 | a leave_table message is about the trimmed table id it names, or the client's own table, and touches no other: the player is no longer listed there, the stack is in the wallet, the mark, the announcement and the log entry say so; who does not sit there is answered PLAYER_NOT_FOUND and nothing changes |
| Requests.CloseExactly | backend/internal/app/ws_handlers.go:84-105 | a close takes its player off the table the client is marked with, and off no other, pays the stack, announces and logs disconnect_leave, and drops the client from the hub; the mark stays |
| Requests.ConnectExactly | backend/internal/app/ws_handlers.go:24-45 | a new connection carries its player and nickname, sits nowhere, watches the default table and is shown it, or is out of the hub again |
| Requests.OtherMessages | backend/internal/app/ws_handlers.go:73-82 | messages of other kinds or without a proper body are answered UNSUPPORTED_EVENT or INVALID_PAYLOAD and change nothing |
| Requests.BuyInExactly | backend/internal/store/event_store.go:114-157 | which buy-in gets which refusal; an accepted one is booked once for the trimmed table id and leaves the wallet, a repeated one is answered with what is booked |
| Requests.BuyInRequest | backend/internal/app/http_handlers.go:269-319 | a buy-in request books for the table it names, or the default table, and takes its amount from the wallet, or does nothing |
| Requests.BuyInReceipt | backend/internal/app/http_handlers.go:291-319 | the receipt of an accepted request carries the player and the trimmed id of the table named |
| Seating.SnapshotFaithful | backend/internal/table/table.go:172-194 | a snapshot names its table, lists exactly the indexed players in strictly increasing seat order, counts them, at most nine, and can start from two |
| Seating.JoinEffect | backend/internal/table/table.go:66-91 | joining keeps seats and index inverse, seats a newcomer with the given stack, raises the version by one exactly when something changed and touches nobody else |
| Seating.JoinListed | backend/internal/table/table.go:66-91 | a newcomer who is let in is listed with their own nickname and stack at the seat asked for or the lowest free one, and everyone else as before |
| Seating.JoinRefusedExactly | backend/internal/table/table.go:70-170 | which refusal a join gets, in every case |
| Seating.LeaveEffect | backend/internal/table/table.go:94-108 | leaving keeps the index, removes exactly that player, and fails exactly when not seated |
| Seating.LeaveListed | backend/internal/table/table.go:94-108 | who leaves is no longer listed, and everyone else is as before |
| Seating.LeaveUndoesJoin | backend/internal/table/table.go:66-108 | leaving right after joining restores seats and index and moves the version by two |
| Seating.TableFullExactly | backend/internal/table/table.go:152-170 | TableFull occurs if and only if a newcomer without a preference meets nine seated players; otherwise an unpreferred newcomer gets the lowest free seat |
| Seating.RebuildExact | backend/internal/table/table.go:119-150 | the restoring pass accepts a list if and only if ids are non-empty and distinct and seats in range and distinct, and then holds exactly the listed players |
| Seating.RestoreCharacterised | backend/internal/table/table.go:119-150 | restore succeeds exactly on matching, acceptable snapshots (so never with more than nine players); refusal changes nothing; afterwards the snapshot is the seat-sorted permutation of the input |
| Seating.RestoreIgnoresOrder | backend/internal/table/table.go:128-146 | two orderings of the same stored players restore the same table |
| Seating.RestoreRoundTrip | backend/internal/table/table.go:119-150 | restoring a table's own snapshot into a fresh table rebuilds seats, index and version |
| Seating.RunOpsKeepIndex | backend/internal/table/table.go:66-150 | every run of join, leave and restore keeps seats and player index mutually inverse |
| Seating.VersionIdentifiesState | backend/internal/table/table.go:70-107 | in a run without a restore, two observations with equal version are the same table |
| Tables.Table.Join | backend/internal/table/table.go:66-91 | the in-place join equals the transition on the table's value, result and error included |
| Tables.Table.Leave | backend/internal/table/table.go:94-108 | the in-place leave equals the transition on the table's value |
| Tables.Table.ChooseSeat | backend/internal/table/table.go:152-170 | the scan for a seat finds the lowest free one, or reports the error the preference deserves |
| Tables.Table.TakeSnapshot | backend/internal/table/table.go:172-194 | collecting and insertion-sorting the seats yields the snapshot of the value |
| Tables.Table.Restore | backend/internal/table/table.go:119-150 | the in-place restore equals the transition on the table's value and leaves the table alone on refusal |
| TableManager.Manager.GetOrCreateTable | backend/internal/table/manager.go:44-56 | a table is created on first mention and every other table is untouched |
| TableManager.Manager.Join | backend/internal/table/manager.go:21-24 | a join through the registry changes the named table only |
| TableManager.Manager.Leave | backend/internal/table/manager.go:27-30 | a leave through the registry changes the named table only |
| TableManager.Manager.Snapshot | backend/internal/table/manager.go:33-36 | taking a snapshot changes no table |
| TableManager.Manager.Restore | backend/internal/table/manager.go:39-42 | a restore through the registry changes the named table only |
| EventStores.EventStore.EnsureWallet | backend/internal/store/event_store.go:83-91 | the mutable store grants only the first time |
| EventStores.EventStore.CreditWallet | backend/internal/store/event_store.go:100-112 | the mutable store's credit equals the ledger transition, 64-bit wrap-around included |
| EventStores.EventStore.CreateBuyIn | backend/internal/store/event_store.go:114-157 | the mutable store's buy-in equals the ledger transition: one pending entry per key, checks in the source's order |
| EventStores.EventStore.ConsumePendingBuyIn | backend/internal/store/event_store.go:159-178 | the mutable store's consumption equals the ledger transition |
| Ledgers.KeyCollisionExactly | backend/internal/store/event_store.go:192-194 | distinct player ids have colliding keys for some tables if and only if one extends the other by a colon alone or by two colons and more |
| Ledgers.ColonFreeKeysInjective | backend/internal/store/event_store.go:192-194 | for colon-free player ids equal keys mean equal player and table, whatever the table id |
| Ledgers.CompositeKeyRefinesPair | backend/internal/store/event_store.go:126-177 | over every run with colon-free player ids the string-keyed ledger answers as one keyed by the pair |
| PostgresRows.RowsAdvance | backend/internal/store/postgres_event_store.go:184-376 | over every run there is at most one pending row per player and table, and rows are only appended or marked consumed |
| PostgresRows.BuyInRefusedExactly | backend/internal/store/postgres_event_store.go:211-285 | for every state and request: table not found exactly without an active table, an invalid amount exactly outside its room's range, insufficient balance exactly with neither a pending row nor enough in the wallet; a refusal changes nothing |
| PostgresRows.BuyInBooked | backend/internal/store/postgres_event_store.go:236-320 | a first buy-in takes its amount from the wallet and appends one pending row for it, a repeated one is answered with the row there is |
| PostgresRows.ConsumedExactly | backend/internal/store/postgres_event_store.go:323-376 | consuming marks the pending row, and nothing else, consumed; without one, or without a wallet, it changes nothing |
| PostgresRows.WalletsExactly | backend/internal/store/postgres_event_store.go:156-208 | which grants and credits are refused, and the balance after the others |
| PostgresRows.RunKeepsRange | backend/internal/store/postgres_event_store.go:211-320 | over every run, every row's amount lies in the range of its table's room and carries that room's id, and no buy-in raises a wallet |
| PostgresRows.SameAnswer | backend/internal/store/postgres_event_store.go:156-376 | each comparable request gets the same answer from rows and in-memory ledger, receipt and balance included |
| PostgresRows.RelatedExactly | backend/internal/store/postgres_event_store.go:156-376 | the two stores stay related by a comparable request if and only if it is not a buy-in by a player without a wallet row |
| PostgresRows.WalletlessBuyInDiverges | backend/internal/store/postgres_event_store.go:268-296 | after such a buy-in the first grant reaches the Postgres wallet and not the in-memory one |
| PostgresRows.StoresBisimilar | backend/internal/store/postgres_event_store.go:156-376 | over every regular run the two stores answer alike and stay related |
| PostgresRows.StoresAnswerAlike | backend/internal/store/event_store.go:83-178 | the string-keyed store and Postgres, started empty, give the same answers over every regular run with colon-free player ids |
| PostgresStores.PostgresStore.EnsureWallet | backend/internal/store/postgres_event_store.go:156-165 | the statement inserts a wallet row only if there is none |
| PostgresStores.PostgresStore.CreditWallet | backend/internal/store/postgres_event_store.go:184-208 | the statements equal the row transition, a refused overflow included |
| PostgresStores.PostgresStore.CreateBuyIn | backend/internal/store/postgres_event_store.go:211-320 | the transaction equals the row transition: room range, existing pending row, rollback on insufficient balance |
| PostgresStores.PostgresStore.ConsumePendingBuyIn | backend/internal/store/postgres_event_store.go:323-376 | the transaction consumes the newest pending row, or changes nothing |
| Caches.EvictTracks | backend/internal/app/ws_hub.go:149-168 | evicting narrows the cache to the longest suffix of the store history with at most 128 entries, none past its time |
| Caches.StoreTracks | backend/internal/app/ws_hub.go:122-147 | a store keeps queue and map in step, without duplicates, equal to the recent window of the history of accepted stores |
| Caches.LookupExact | backend/internal/app/ws_hub.go:96-112 | a request is replayed if and only if its response is among the last 128 stored and not past its time to live, and with the response stored for it |
| Caches.EvictAbsorbs | backend/internal/app/ws_hub.go:149-168 | an earlier eviction makes no difference to a later one |
| RequestCaches.CompactInPlace | backend/internal/app/ws_hub.go:149-168 | filtering the queue over the very array slice being read yields the eviction |
| RequestCaches.ScanEvicts | backend/internal/app/ws_hub.go:149-168 | looking at every request in turn, deleting expired responses on the way, is the eviction |
| RequestCaches.RequestCache.Lookup | backend/internal/app/ws_hub.go:96-112 | the mutable look-up equals the cache transition |
| RequestCaches.RequestCache.Store | backend/internal/app/ws_hub.go:122-147 | the mutable store equals the cache transition |
| RequestCaches.RequestCache.TrimToCap | backend/internal/app/ws_hub.go:142-146 | the pop-front loop brings the queue and the map down to the cap together |
| Replays.RunFollows | backend/internal/app/ws_handlers.go:47-70 | over any timely run of any connections every cache is exactly the window of what its connection stored as of its last eviction, whose time the run determines: look-ups of repeated messages evict at the reading, stored responses at the storing, other connections and anonymous requests not at all |
| Replays.AskedAgain | backend/internal/app/ws_handlers.go:47-70 | the promise to a client: a request with a new id that was answered gets, fewer than 128 answers and at most ten minutes later and whatever else the server did, the same answer again, and the world does not change |
| Replays.FailureCloses | backend/internal/app/ws_handlers.go:60-69 | a message whose answer cannot be written ends its connection |
| Replays.CachesAreWindows | backend/internal/app/ws_hub.go:96-168 | the same for every cache of every timely run from a fresh server |
| Replays.StepDelivers | backend/internal/app/ws_handlers.go:56-69 | a step that repeats no recent request delivers exactly the messages counted for it |
| Replays.ReplayDelivers | backend/internal/app/ws_hub.go:113-118 | a replay whose writes succeed delivers exactly the response stored for the request |
| Replays.ExactlyOnce | backend/internal/app/ws_handlers.go:56-69 | striking out every message that repeats a recently answered request changes neither the final world (tables, ledger, marks, snapshots, events), nor the logs of responses, nor anything else the server sends, which is exactly what the shortened run delivers |
| Replays.RequestsCountOnce | backend/internal/app/ws_handlers.go:47-70 | the same from a fresh server with any number of connections, down to what each client has received in the shortened run |
| Sessions.RunKeepsIndex | backend/internal/session/store.go:80-206 | every run of create, delete and expiry keeps the two nickname maps inverse, with exactly the players that have a stored session |
| Sessions.FindExactly | backend/internal/session/store.go:132-148 | a look-up finds exactly the stored sessions whose time is not up; otherwise the id is not in the store afterwards; other sessions stay |
| Sessions.FoundUntilExpiry | backend/internal/session/store.go:80-148 | over every run, a session that was created and not deleted is found exactly until its time is up, with its player, nickname of at most twenty runes or guest name, kind and email |
| Sessions.CreateRefusedExactly | backend/internal/session/store.go:101-122 | a creation is refused exactly if another player with a stored session goes by the name, and then changes nothing |
| Sessions.DeleteUndoesCreate | backend/internal/session/store.go:80-129 | deleting a session just created restores the store if and only if the player had none before or the same canonical nickname |
| Sessions.DeleteMayNotRestore | backend/internal/session/store.go:80-129 | a first session, a second one under another name, and its deletion leave the first session with a nickname that is no longer taken |
| Sessions.NegativeCheckExact | backend/internal/session/store.go:68-78 | in every store that a run from an empty one can reach, a negative nickname check means an immediate create is not refused, if and only if the name's canonical form survives normalisation |
| Sessions.ShortNamesCheckable | backend/internal/session/store.go:159-174 | names of 1 to 20 runes after trimming survive normalisation |
| Sessions.AsciiSuffix | backend/internal/session/store.go:168-172 | the byte-wise suffix of a guest name is the rune-wise one for an ASCII id |
| Sessions.LongNamesNotCheckable | backend/internal/session/store.go:159-174 | for any lower-casing that goes rune by rune, longer names do not: in some reachable store a negative check is followed by a refusal |
| SessionStores.SessionStore.Create | backend/internal/session/store.go:80-122 | the mutable create equals the registry transition |
| SessionStores.SessionStore.Delete | backend/internal/session/store.go:125-129 | the mutable delete equals the registry transition |
| SessionStores.SessionStore.FindValid | backend/internal/session/store.go:132-148 | looking up an expired session deletes it and releases the nickname |
| SessionStores.SessionStore.ReleaseNicknameIfUnused | backend/internal/session/store.go:190-206 | the loop over the sessions releases the nickname exactly when no session of the player is left |
| SessionStores.SessionStore.IsNicknameTaken | backend/internal/session/store.go:68-78 | the mutable check equals the registry's answer |
| Watching.WatchersAgree | backend/internal/app/ws_handlers.go:195-216 | after every handler of every run, whatever writes failed, each client in the hub has received its table's present snapshot, and it outranks every other snapshot of that table it ever received |
| Watching.AnnouncePublished | backend/internal/app/ws_handlers.go:147-168 | announcing a changed table tells everyone who remains in the hub at that table, saves it and makes every earlier snapshot older |
| Watching.DispatchPublished | backend/internal/app/ws_handlers.go:73-82 | every handler leaves each client in the hub undisturbed or told, sends nothing newer than the tables, and keeps stored snapshots in step |
| Recovery.CrashRecovery | backend/internal/app/state_helpers.go:15-52 | with snapshots on and non-empty player ids, at every handler boundary of every run, loading and restoring each saved snapshot reproduces every table: seats, index and version |
| Recovery.RestartRecovers | backend/internal/app/app.go:60-77 | a server restarted over the snapshots of any run has the default table as it was; the seat marks are in order there if and only if nobody was seated |
| Recovery.RestoredExactly | backend/internal/app/state_helpers.go:15-39 | what is stored under an id is restored at the table it names, or the one asked for, exactly if its players can be seated; no other table is touched |
| Recovery.RestartForgets | backend/internal/app/app.go:83-102 | with snapshots disabled a restart is a fresh start |
| SaveOrders.RecoversExactly | backend/internal/store/table_snapshot_store.go:96-112 | over any schedule of interleaved handler steps and saves from a fresh server, when nothing is left to be saved: loading and restoring gives back a table as it is if and only if the last save of it carried the highest version of all its saves |
| SaveOrders.RecoversTaken | backend/internal/app/state_helpers.go:41-52 | at any moment of such a schedule, what a crash would bring back is the new table or one that was there, and the present version only as it is |
| SaveOrders.LateSaveOutlives | backend/internal/app/ws_handlers.go:84-105 | for every player, amount and default table a schedule from a fresh server with lawful handler steps, after which everything is saved and nobody sits at the table, but restoring it would seat the player |
| SnapshotStore.SaveThenRecover | backend/internal/store/table_snapshot_store.go:96-140 | the fields dropped on saving are recomputed on loading, and restoring gives the saved table |
| EventLog.EventLogGapless | backend/internal/app/state_helpers.go:135-159 | over every legal run the event log of a table has versions 1, 2, 3, ... without gaps or repeats, and its last payload is the present snapshot |
| Apps.App.constructor | backend/internal/app/app.go:60-77 | a new application is the fresh server with the default table restored from what an earlier process saved |
| Apps.App.CurrentStack | backend/internal/app/state_helpers.go:89-97 | the search of the snapshot finds exactly a seated player's stack |
| Apps.App.PrevalidateSeat | backend/internal/app/state_helpers.go:117-133 | the search of the snapshot equals the prevalidation of the handler model |
| Apps.App.RefundStack | backend/internal/app/state_helpers.go:100-115 | a positive amount is credited, any other ignored |
| Apps.App.ConsumeBuyIn | backend/internal/app/state_helpers.go:78-87 | consumption through the store, with its amount or error |
| Apps.App.ClientsForTable | backend/internal/app/ws_hub.go:194-206 | lists each connection in the hub at the table exactly once |
| Apps.App.Broadcast | backend/internal/app/ws_handlers.go:208-216 | reaches every watcher whose write succeeds and drops every other from the hub |
| Apps.App.PersistSnapshot | backend/internal/app/state_helpers.go:41-52 | saves exactly when snapshots are enabled |
| Apps.App.PersistTableEvent | backend/internal/app/state_helpers.go:135-159 | logs exactly when events are enabled |
| Apps.App.HandleJoinTable | backend/internal/app/ws_handlers.go:107-170 | the statement-by-statement handler equals the one-step join: state, messages, responses and failure |
| Apps.App.HandleLeaveTable | backend/internal/app/ws_handlers.go:172-200 | the same for leave_table |
| Apps.App.CloseClient | backend/internal/app/ws_handlers.go:84-105 | the same for closing a connection |
| Apps.App.DispatchEvent | backend/internal/app/ws_handlers.go:73-82 | the same for dispatching a message |
| Apps.App.RevokeConnections | backend/internal/app/session_helpers.go:38-41 | closes each connection of the player in the hub exactly once, in some order |
| Apps.App.TableBuyIn | backend/internal/app/http_handlers.go:269-319 | a positive buy-in goes to the store under the resolved table id, any other is refused |
| Apps.App.GrantWallet | backend/internal/app/state_helpers.go:69-76 | ensuring a wallet is the first grant of the model |
| Apps.App.RestoreSnapshot | backend/internal/app/state_helpers.go:15-39 | a stored snapshot is restored under its own table id, or the requested one if blank |
| Apps.App.Connect | backend/internal/app/ws_handlers.go:36-45 | a new connection enters the hub and is sent the default table, or is closed at once if that write fails |
| ReadLoops.Connection.Serve | backend/internal/app/ws_handlers.go:47-70 | one iteration of the loop: replay, or dispatch and remember, or close on failure |
| ReadLoops.Connection.Resend | backend/internal/app/ws_hub.go:113-118 | the replay loop writes every cached envelope, or fails at the first write |
| ReadLoops.Connection.HandleWebSocket | backend/internal/app/ws_handlers.go:47-70 | the whole loop with its deferred close equals the recursive conversation over the messages |
| ReadLoops.Connection.ServeNext | backend/internal/app/ws_handlers.go:47-70 | one turn of the loop does what the conversation does with its next message |
| ReadLoops.ServeIsTurn | backend/internal/app/ws_handlers.go:47-70 | one iteration is one step of the whole system: world, cache and mail |
| ReadLoops.TalkIsRun | backend/internal/app/ws_handlers.go:47-70 | an undisturbed conversation is a run of the whole system |

## Left out

- PlayDrifts: schedules in which stale readings make someone own more than the largest 64-bit integer are excluded. Broadcasts are not steps of their own in any schedule.
- RunConserves: a player with two live connections is excluded, because a join then may forfeit a buy-in (JoinConservesExactly gives the exact condition for a single step, SecondConnectionForfeits a run).
- ExactlyOnce: the socket writes of replays are taken to succeed; a failed replay closes the connection and so does change the world.
- RestartRecovers: the run theorems do not continue across a restart; players restored to a seat have no connection that is marked with it, and the in-memory wallets start empty.
- StoresAnswerAlike: requests are compared when the table exists with a room, amounts are in the room's range and credits stay in the 64-bit range; receipts are compared without their room, which the in-memory store does not know, and their timestamp. Isolation anomalies, timeouts and failing statements are not modelled.
- EventLogGapless: appending to the event table is taken to succeed.
- CrashRecovery: the saves of a handler are part of its one step; SaveOrders has them apart. Saving is taken to succeed; the key-value server and the JSON encoding are trusted and modelled as a map.
- The version counter is an unbounded natural number, not a 64-bit one; buy-in ids likewise.
- Which writes fail is fixed per broadcast of a handler, not per write; every response list the handlers produce has one envelope, so a replay is all or nothing.
- Connections are identified by number where the program compares pointers; the pending-write lock and write deadlines are not modelled.
- JSON decoding is an input: a payload arrives as decoded or as malformed. Timestamps in messages, receipts and events, and the field-by-field payload conversion, are omitted.
- Lower-casing is an arbitrary function of strings (of runes, a stray byte being read as the replacement character); NegativeCheckExact only asks that it keeps non-empty text non-empty, and LongNamesNotCheckable that it keeps the number of runes. Random ids are inputs assumed fresh.
- HTTP endpoints other than the buy-in, cookies, origin checks, token verification, configuration, migrations, room seeding and the web client are not part of this model: they would add only input, output and one-branch facts.
- Store calls by handlers do not fail for infrastructure reasons, as the in-memory store's do not; a refund that the database loses is outside the model.
