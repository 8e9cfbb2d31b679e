# Verified model of the gmsv_pg query engine

gmsv_pg runs PostgreSQL queries for Garry's Mod: Lua starts queries and transactions, one worker thread
executes them over libpq, and Lua collects the results. This project models that engine in Dafny and proves
what its design promises, for every input, every server and every interleaving of the two threads' steps.

`dafny verify dfyconfig.toml` checks everything.

## How it is organised

- **Query lifecycle.** `BlockingQueue.dfy`, `QueryWorker.dfy` and `QueryData.dfy` are the mutable objects.
  `QueryLifecycle.dfy` is the two-thread protocol (pg/src/postgres/Database.cpp:42-378) as a step system: one step is one critical section, or one
  access to an atomic field, and the worker has a program counter for `connectRun`, `run` and `runQuery`.
  A running transaction publishes its children one after the other, and a cancel may meet it or the published child.
  `LifecyclePlaces` to `LifecycleShutdown` carry the invariants, `LifecycleTheorems`, `LifecycleHonour`,
  `LifecycleStays` and `LifecycleWaits` state the results, `LifecycleCalls` and `LifecycleServing` what each call and each
  execution amounts to when it is not interleaved, `LifecycleRaces.dfy` gives a run for each exception, and
  `LifecycleRefinement.dfy` proves that every step on the queue and the finished list is what the class does.
- **Transactions.** `Libpq.dfy` is the connection and the server, which are foreign code; `LibpqExecutor.dfy`,
  `ActiveQueryState.dfy`, `Transaction.dfy` and `Database.dfy` are the repository's, exception paths included.
  `TransactionTheorems.dfy`, `TransactionReports.dfy`, `DatabaseTheorems.dfy` and `QueryTheorems.dfy` state the results
  for one execution, `RunLedger.dfy` for any sequence of them.
- **Text.** `Characters.dfy`, `SqlScanner.dfy`, `SqlServer.dfy` (what the server takes for transaction control, by
  sections 4.1.1 and 4.1.5 of the PostgreSQL documentation), `Conninfo.dfy` (the parser of section 34.1.1.1 of the PostgreSQL documentation),
  `ConnectionConfig.dfy` and `ConnectionConfigTheorems.dfy`.
- **Parameters and Lua bookkeeping.** `PreparedQuery.dfy`, `IQuery.dfy`, `LuaReferences.dfy`,
  `LuaBookkeeping.dfy`, `LuaRunningLists.dfy`, `LuaRestarts.dfy` and `LuaLosses.dfy`.

Exceptions are outcome values (`Outcome`, `Result`). A method with a loop or with state is proved equal to a
value function, and the theorems are about that function.

## Assumptions

- *The server.* It answers from an arbitrary script; an answer that `Libpq.Follows` rules out is read as a lost
  connection, so "for every script" is "for every server that keeps to these rules": ROLLBACK on a live
  connection leaves it idle; a lost connection discards the open transaction, unless COMMIT was under way and
  the server had not refused it; a statement that fails, or that leaves the transaction open, commits nothing.
  The last rule is what `hidden` lifts, and `HiddenCommitIsReportedRolledBack` shows that it is needed.
- *Granularity.* Each group of writes the worker makes between two synchronisation points is one step. The
  check-then-set pairs of `abortQuery` and of the worker are not merged: both races are in the step system, and
  `AbortHonouredExactly` says exactly which aborts are still honoured.
- *Cancellation.* In the step system a cancel raises its flag in one step and withdraws it in a later one, and
  both may fall anywhere. In `Transaction.dfy` and `Database.dfy` attempts come in during a command or before the
  Guard's end, and each is delivered, failed or still under way; between the last command of a transaction and the loop over its
  children the flags are stable.
- *Lua.* A new reference is not 0 and not live; freed numbers may come again. Callbacks run between calls.
- *Fresh data.* An execution's data are new when it is started, as `buildQueryData` makes them.

## What was found

Each of these is proved, most with an exact condition:

1. `wait()` during a failing connect may complete an execution that the worker is completing too: it is delivered
   twice. Delivery is exactly once if and only if that fallback is not taken.
2. An abort may be written after the statement has begun (a success is reported as aborted), or be overwritten by
   the worker (an acknowledged abort runs). It is honoured if and only if, at the write, the statement has not
   begun and the worker is not already bound to begin it (`AbortHonouredExactly`); the status it writes stays if
   and only if nothing is about to write over it (`AbortStaysExactly`).
3. When a child ends the transaction itself, the parent reports an unknown outcome but the children are told
   "Transaction rolled back", although they may be durable. That is the only case without a cancel flag; with one
   up the children end ABORTED, also when COMMIT lost its connection (`ChildrenHonestExactly`).
4. A child error of class 08 on a good connection is taken for a lost connection: no ROLLBACK is sent, and the
   session stays inside the transaction unless runQuery then reconnects. A failed COMMIT and a ROLLBACK that cannot
   be sent may leave it there too, and nothing else does (`LeftOpenExactly`, `LeftInsideExactly`).
5. The default connect_timeout of 10 seconds overrides a value given in the option table.
6. Control statements slip through the scanner behind an empty statement (`;commit`), behind most block comments
   that nest, and with words outside the six, such as PREPARE TRANSACTION; `SlipsThroughExactly` has the exact
   condition.
7. Starting a pending transaction again throws, as it should, but takes a child off its query's running list if
   and only if anything but children added before it stands before it there, and moves those that stay to the back.
   Over every run a list is exactly the open executions but those lost in this way (`ListsLoseOnlyToRestarts`).
8. Children may be ABORTED while their transaction reports ERROR; and, when a cancel comes in after the children
   were settled and before the Guard's end, a transaction may be ABORTED while its children report ERROR.
9. A cancel request that was delivered is forgotten when a second one on the same execution fails.
10. When ROLLBACK cannot be sent on a connection that is still good, the caller is told "rolled back", the session
    stays inside the transaction, and the COMMIT of the next transaction makes it durable after all. What is durable
    is what was reported as SUCCESS if and only if every such transaction found nothing pending
    (`DurableIsWhatSucceeded`).
11. When a query finds no session and the dial fails, runQuery dials a second time at once, and reports ERROR with the
    first failure's text even if the second attempt has opened the session (`FailedDialIsRepeated`).

`README.md:481` of the repository shows `onError` as "transaction rolled back"; the code also calls it when
the outcome is unknown, and the model follows the code.

## Model

| member | source | states |
|---|---|---|
| BlockingQueues.BlockingQueue.Put | pg/src/BlockingQueue.h:15-23 | An element is let in at the back exactly when the queue is not closed |
| BlockingQueues.BlockingQueue.SwapToFrontIf | pg/src/BlockingQueue.h:29-37 | Exchanges index 0 and the first match, and says whether it did |
| BlockingQueues.BlockingQueue.RemoveIf | pg/src/BlockingQueue.h:39-45 | Leaves the order-preserving filter of the rest; true exactly when something matched |
| BlockingQueues.BlockingQueue.Take | pg/src/BlockingQueue.h:57-64 | Gives the front; fails only when closed and empty, and stays blocked when open and empty |
| BlockingQueues.BlockingQueue.CloseAndClear | pg/src/BlockingQueue.h:73-83 | Closes and hands over the whole contents |
| BlockingQueues.QueueConserves | pg/src/BlockingQueue.h:15-83 | Over any life of the queue: admitted = contents + taken + dropped, as multisets |
| BlockingQueues.TakesAreFifo | pg/src/BlockingQueue.h:15-64 | Without swaps and removals: taken followed by contents is what was admitted, in order |
| BlockingQueues.ClosedAdmitsNothing | pg/src/BlockingQueue.h:15-23 | Once closed, whatever follows, the queue stays closed and admits nothing |
| QueryWorkers.QueryWorker.Enqueue | pg/src/postgres/QueryWorker.cpp:6-13 | WAITING and queued, or ABORTED and finished when the queue is closed |
| QueryWorkers.QueryWorker.SwapToFront | pg/src/postgres/QueryWorker.cpp:15-19 | Exactly this (query, data) pair changes place with the front |
| QueryWorkers.QueryWorker.RemoveQueued | pg/src/postgres/QueryWorker.cpp:21-25 | Every copy of the pair leaves the queue, the others keep their order |
| QueryWorkers.QueryWorker.CompleteQueued | pg/src/postgres/QueryWorker.cpp:27-38 | Ownership goes from queue to finished list, with error, status and flag; otherwise nothing changes |
| QueryWorkers.QueryWorker.AbortQueued | pg/src/postgres/QueryWorker.cpp:40-52 | Queue emptied; every pair ABORTED, finished and handed to the caller in order, the rest of its data kept; the finished list untouched |
| QueryWorkers.QueryWorker.AbortQueuedAndClose | pg/src/postgres/QueryWorker.cpp:54-66 | The same, and the queue is closed |
| QueryWorkers.QueryWorker.CompleteQueuedWithErrorAndClose | pg/src/postgres/QueryWorker.cpp:80-90 | The whole queue is appended to the finished list in order, each pair completed with the error and nothing else of its data changed; the queue is closed |
| QueryWorkers.QueryWorker.TakeFinished | pg/src/postgres/QueryWorker.cpp:96 | Hands over the finished list and empties it |
| LifecycleTheorems.ExecutionsAreConserved | pg/src/postgres/Database.cpp:55-341 | Over every run: copies of an execution in queue, worker, finished list, Lua thread and delivered = its acceptance + its wait fallbacks |
| LifecycleTheorems.ExactlyOnceIffNoFallback | pg/src/postgres/Database.cpp:343-364 | Delivery is exactly once in a run if and only if the run never takes the fallback of waitForQuery |
| LifecycleTheorems.ConnectedDeliversOnce | pg/src/postgres/Database.cpp:222-248 | The fallback needs a failed connect: without one every execution is delivered at most once, and only if accepted |
| LifecycleTheorems.QuietMeansDelivered | pg/src/postgres/Database.cpp:310-341 | With nothing under way, every acceptance (and fallback) has been delivered |
| LifecycleTheorems.FallbackTakenExactly | pg/src/postgres/Database.cpp:343-364 | The fallback is taken exactly by a wait that reaches it while its execution is unfinished, and then the connect has failed and the worker is completing the queue |
| LifecycleRaces.DoubleDelivery | pg/src/postgres/Database.cpp:350-363 | A concrete run: wait() during a failing connect delivers one start twice |
| LifecycleTheorems.CallbackHasOutcome | pg/src/lua/LuaIQuery.cpp:179-203 | What reaches a callback is ABORTED, or COMPLETE with ERROR or SUCCESS: the "should not happen" branch is unreachable |
| LifecycleTheorems.WaitThenThinkDelivers | pg/src/postgres/IQuery.cpp:96-106 | When wait() returns, the execution is in the finished list or has left it already |
| LifecycleTheorems.ExecutedAtMostOnce | pg/src/postgres/Database.cpp:310-341 | executeStatement is called at most once per execution over any reconnects, in the order taken, and never for one removed by abort, shutdown or connect failure |
| LifecycleTheorems.NoFalseAbort | pg/src/postgres/Database.cpp:55-79 | At the granularity of both threads: a statement that ran is reported ABORTED only after a cancel that met it as the active query, or met one of its children while published, or after an abort written too late |
| LifecycleHonour.AbortHonouredExactly | pg/src/postgres/Database.cpp:67-72 | When abort is about to write ABORTED outside the queue: the execution never runs in any continuation if and only if it has not begun and the worker is not between its second look at the status and the statement with a session or the prospect of one |
| LifecycleStays.AbortStaysExactly | pg/src/postgres/Database.cpp:67-72 | The ABORTED written there is still there in every continuation if and only if the worker is not about to write RUNNING or COMPLETE over it, and no failed connect leaves it to the worker or to a wait |
| LifecycleRaces.LateAbort | pg/src/postgres/Database.cpp:67-72 | A concrete run: a statement that succeeded is reported ABORTED although no cancel was sent |
| LifecycleRaces.OverwrittenAbort | pg/src/postgres/Database.cpp:324-331 | A concrete run: ABORTED is written before the statement begins, the worker writes RUNNING over it and the statement succeeds |
| LifecycleRaces.ChildCancelAborts | pg/src/postgres/Transaction.cpp:63-65 | A concrete run: only a child was met by a cancel, and the transaction ends ABORTED |
| LifecycleTheorems.ShutdownBound | pg/src/postgres/Database.cpp:119-133 | After m_shuttingDown is set at most one more executeStatement begins, in any continuation |
| LifecycleTheorems.ShutdownTerminates | pg/src/postgres/Database.cpp:222-341 | After it the worker takes a bounded number of steps outside statements, and cannot be stuck except waiting for the queue to be closed |
| LifecycleWaits.WaitReturns | pg/src/postgres/IQuery.cpp:96-106 | While wait() is blocked the worker can always take a step, and takes a bounded number outside statements before the execution is finished and wait() goes on |
| LifecycleCalls.CancelMeetsRunning | pg/src/postgres/Database.cpp:74-83 | In any interleaving: if a statement runs under guard from the beginning of abort(), abortAllQueries() or shutdown() to its end, then in between cancel() has met it, its flag is up and the request is being sent |
| LifecycleCalls.CallsHead | pg/src/postgres/Database.cpp:55-171 | These are the three calls of which that holds |
| LifecycleCalls.AbortAlone | pg/src/postgres/Database.cpp:55-79 | With the worker standing still abort() of an execution takes it out of the queue as aborted; or marks it aborted while WAITING; or cancels it while it runs and is active, the flag staying up if and only if the request got through; and changes nothing else |
| LifecycleCalls.AbortAllAlone | pg/src/postgres/Database.cpp:155-171 | Likewise abortAllQueries(): everything queued is aborted and returned in order, a WAITING execution in flight is marked aborted, the active one is cancelled |
| LifecycleCalls.ShutdownAlone | pg/src/postgres/Database.cpp:119-133 | Likewise shutdown(): the active execution is cancelled, a WAITING one in flight marked aborted, the queue closed and its executions aborted and put into the finished list in order |
| LifecycleCalls.StartAlone | pg/src/postgres/Database.cpp:42-49 | Likewise start: queued and WAITING, or ABORTED and finished when shutting down or closed |
| LifecycleCalls.WaitAlone | pg/src/postgres/Database.cpp:343-364 | Likewise wait: returns, blocks, completes out of the queue with an error, or completes without it |
| LifecycleCalls.AbortKidAlone | pg/src/postgres/ActiveQueryState.cpp:42-65 | Likewise abort() of a child: its flag is raised if and only if it is published, and withdrawn when the request fails |
| LifecycleCalls.PingAlone | pg/src/postgres/Database.cpp:135-143 | A failed ping dials once if and only if the status was CONNECTED, automatic reconnection is on and the database is not shutting down |
| LifecycleCalls.ConnectAlone | pg/src/postgres/Database.cpp:97-105 | connect() starts the worker with status CONNECTING if and only if the status was NOT_CONNECTED and it was never started, and otherwise changes nothing |
| LifecycleCalls.SettingAlone | pg/src/postgres/Database.cpp:205 | Setting automatic reconnection changes that setting alone |
| LifecycleCalls.ConnectionDecides | pg/src/postgres/Database.cpp:222-240 | The first connection attempt opens the session and the loop, or fails with waiting turned off |
| LifecycleServing.ServesOpen | pg/src/postgres/Database.cpp:310-341 | With the Lua thread standing still and a session open, the execution at the front of the queue is executed, put into the finished list and ends SUCCESS, ABORTED for the cancellation that was asked for, or ERROR, and the connection is dialled again only for a retriable loss |
| LifecycleServing.ServesDialled | pg/src/postgres/Database.cpp:275-283 | Without a session and with automatic reconnection it is dialled first, and executed when that succeeds |
| LifecycleServing.ServesUndialled | pg/src/postgres/Database.cpp:284-293 | When that fails it ends with ERROR without being executed, and the connection is dialled once more |
| LifecycleServing.ServesClosed | pg/src/postgres/Database.cpp:275-293 | Without a session and without automatic reconnection it ends with ERROR without being executed |
| LifecycleServing.ServesShutDown | pg/src/postgres/Database.cpp:322-330 | After m_shuttingDown it ends ABORTED without being executed |
| LifecycleServing.TopIsReady | pg/src/postgres/Database.cpp:310-314 | In every run the worker comes to the front of the queue in the state that these five start from |
| LifecycleServing.SuccessMeansExecuted | pg/src/postgres/Database.cpp:281-283 | Over every run: SUCCESS is only reported for an execution whose statement was executed |
| LifecycleTheorems.ExitedWorkerLeavesNothing | pg/src/postgres/Database.cpp:222-248 | At exit the queue is closed and empty, the session reset, the status not CONNECTED, and every accepted execution finished |
| LifecycleRefinement.PutStep | pg/src/postgres/QueryWorker.cpp:6-13 | Enqueue on the class is the step EnqueuePut, lists, flag and data |
| LifecycleRefinement.RemoveStep | pg/src/postgres/Database.cpp:55-65 | The queued half of abortQuery on the class is the step AbortRemove |
| LifecycleRefinement.CompleteStep | pg/src/postgres/QueryWorker.cpp:27-38 | CompleteQueued on the class is the step WaitRemove |
| LifecycleRefinement.ClearStep | pg/src/postgres/QueryWorker.cpp:40-52 | AbortQueued on the class is the step ClearQueued, and what it returns is what will be delivered |
| LifecycleRefinement.CloseAndClearStep | pg/src/postgres/QueryWorker.cpp:54-66 | AbortQueuedAndClose on the class is the step CloseAndClear |
| LifecycleRefinement.TakeStep | pg/src/postgres/QueryWorker.cpp:92 | TakeNext on the class is the step Top, which is enabled exactly when the call would not block |
| LifecycleRefinement.FinishStep | pg/src/postgres/QueryWorker.cpp:94 | Finish on the class is the step Finishing |
| LifecycleRefinement.CollectStep | pg/src/postgres/QueryWorker.cpp:96 | TakeFinished on the class is the step Think |
| LifecycleRefinement.FailAllSteps | pg/src/postgres/QueryWorker.cpp:80-90 | CompleteQueuedWithErrorAndClose on the class is what the worker's steps from a failed connect to its exit amount to |
| LifecycleRefinement.RemovalRefined | pg/src/postgres/QueryWorker.cpp:21-25 | The removal of the class is the removal of the step system |
| LifecycleRefinement.SwapRefined | pg/src/postgres/QueryWorker.cpp:15-19 | The swap of the class is the swap of the step system |
| LifecycleRefinement.HandlerRefined | pg/src/postgres/Database.cpp:284-307 | After an exception the handler of the step system writes what the catch blocks of runQuery leave and reconnects in the same cases |
| LibpqExecutor.DrainResults | pg/src/postgres/LibpqExecutor.cpp:64-94 | Appends the results before the first failure, leaves nothing unread (COPY resets the connection), and ends as the first failure or the lost connection says |
| LibpqExecutor.ExecuteCommand | pg/src/postgres/LibpqExecutor.cpp:56-62 | Sends on a drained connection and leaves it drained, on every path |
| LibpqExecutor.ExecuteSimple | pg/src/postgres/LibpqExecutor.cpp:13-19 | The same for several statements; a NUL is refused before anything is sent |
| LibpqExecutor.ExecuteParams | pg/src/postgres/LibpqExecutor.cpp:26-54 | The same with parameters, sent in order as text with a length and a format each, NULL as NULL |
| LibpqExecutor.ResultError | pg/src/postgres/LibpqExecutor.cpp:106-115 | A failed result is a connection exception exactly when the connection is bad or the SQLSTATE is of class 08 |
| LibpqExecutor.EndsExactly | pg/src/postgres/LibpqExecutor.cpp:56-94 | A command that no result stops: what is added to what was sent, that all payloads are appended in order, and the normal return or the connection exception without SQLSTATE, by the reply alone |
| LibpqExecutor.StopsExactly | pg/src/postgres/LibpqExecutor.cpp:96-115 | A command stopped by its first failed result: the payloads before it are appended; a COPY result is refused and the connection reset; any other is thrown with its SQLSTATE, its message or else the connection's, as a connection exception if and only if the connection is bad or the class 08 |
| LibpqExecutor.AppendedExactly | pg/src/postgres/LibpqExecutor.cpp:64-104 | Exactly the k results before the first failure are appended, in order, for any result stream |
| LibpqExecutor.ReturnsExactly | pg/src/postgres/LibpqExecutor.cpp:64-89 | A command returns normally if and only if it was accepted, all results succeeded and the connection survived |
| LibpqExecutor.ExecuteLeavesReady | pg/src/postgres/LibpqExecutor.cpp:56-94 | However a command ends, the next send is legal |
| QueryDatas.QueryData.AdvanceResult | pg/src/postgres/Query.cpp:101-109 | The cursor stays in bounds and moves exactly while more results are announced |
| QueryDatas.ChainVisitedOnce | pg/src/postgres/Query.cpp:101-114 | Reading and advancing visits every result from the cursor on once, in order |
| QueryDatas.AdvancesExactly | pg/src/postgres/Query.cpp:101-109 | After k advances over n results the cursor is at min(k, n-1), and hasMoreResults is exact |
| ActiveQueryStates.ActiveQueryState.BeginCancel | pg/src/postgres/ActiveQueryState.cpp:42-57 | The part under the mutex: only the guarded execution and the published aliases can be flagged; without a handle the flag is withdrawn |
| ActiveQueryStates.ActiveQueryState.EndCancel | pg/src/postgres/ActiveQueryState.cpp:58-65 | The part outside the mutex: a request that failed withdraws the flag, whoever raised it; one that got through leaves it |
| ActiveQueryStates.ActiveQueryState.Cancel | pg/src/postgres/ActiveQueryState.cpp:42-65 | Both parts: requested if and only if it matched, had a handle and got through; anything it does not match is untouched |
| ActiveQueryStates.ActiveQueryState.Clear | pg/src/postgres/ActiveQueryState.cpp:25-30 | Only called when no Guard is alive: every caller proves it |
| ActiveQueryStates.FlaggedExactly | pg/src/postgres/ActiveQueryState.cpp:42-65 | After any attempts an execution is flagged if and only if the last attempt on it had a handle and has not failed, delivered or still under way |
| Transactions.ExecuteQuery | pg/src/postgres/Query.cpp:55-61 | A child: control SQL is refused before a NUL, and both before anything is sent |
| Transactions.ExecuteInTransaction | pg/src/postgres/Transaction.cpp:87-105 | The child loop: children in order, stopping at the first that throws or does not leave the transaction open; at most one alias published at a time; exact data of every child |
| Transactions.ExecuteStatement | pg/src/postgres/Transaction.cpp:18-85 | The whole protocol: what is sent, what is thrown, and the exact data of the transaction and of all children, on every exception path |
| Transactions.MarkUnknown | pg/src/postgres/Transaction.cpp:25-36 | The two "outcome unknown" handlers complete every child with that error |
| Transactions.CloseFailed | pg/src/postgres/Transaction.cpp:62-84 | The last catch block: a flag on any child becomes the transaction's, and decides between aborted and rolled back |
| TransactionReports.FailureReports | pg/src/postgres/Transaction.cpp:18-85 | By the command that failed: what is thrown, the transaction's text, and every child's text, status and result |
| TransactionReports.ChildResults | pg/src/postgres/Transaction.cpp:87-105 | Whatever becomes of the transaction, a child that was reached keeps the results of its own statement, and the others have none |
| TransactionReports.ChildExactly | pg/src/postgres/Query.cpp:55-61 | A child is refused as control, then for a NUL, and is otherwise its own single statement with its parameters |
| TransactionReports.FlagUpExactly | pg/src/postgres/Transaction.cpp:63-65 | The flag a transaction ends with is up if and only if a cancel of its own stands, or it has failed and a cancel of a child that ran stands |
| TransactionReports.CancelledChildAborts | pg/src/postgres/Transaction.cpp:62-84 | A child cancelled while it runs, and stopped with SQLSTATE 57014: the transaction and all its children end ABORTED |
| TransactionTheorems.CommittedMeansAll | pg/src/postgres/Transaction.cpp:21-61 | A normal return: BEGIN, every child in order and COMMIT were sent, nothing else, and exactly the children became durable |
| TransactionTheorems.RolledBackMeansNothing | pg/src/postgres/Transaction.cpp:36-84 | A failed BEGIN, child or COMMIT, and a connection lost in a child, leave the durable state unchanged |
| TransactionTheorems.AllOrNothing | pg/src/postgres/Transaction.cpp:18-85 | All children or none are durable, also when COMMIT's fate is unknown, unless a child ended the transaction itself |
| TransactionTheorems.HonestParent | pg/src/postgres/Transaction.cpp:62-84 | A change of the durable state without commit is always reported as unknown on the parent, and "rolled back" is said only when nothing changed |
| TransactionTheorems.HonestParentExactly | pg/src/postgres/Transaction.cpp:62-84 | For every server, hidden commits included: "rolled back" is false on the parent if and only if a child made something durable before the end, and what did not commit is always reported as rolled back or unknown |
| TransactionTheorems.ChildrenEffect | pg/src/postgres/Transaction.cpp:87-105 | While all children return and leave the transaction open, it holds exactly the children so far and nothing is durable |
| TransactionTheorems.CommitOnlyWhileOpen | pg/src/postgres/Transaction.cpp:41-43 | COMMIT is sent only to a transaction that is still open |
| TransactionTheorems.LeftOpenExactly | pg/src/postgres/Transaction.cpp:21-61 | A transaction is left open if and only if BEGIN failed on a session that was open already; or all children ran, COMMIT failed and the server is still inside; or a child left it open, and its exception is a connection exception on a good connection or the ROLLBACK could not be sent; nothing is left unread |
| TransactionTheorems.UniformChildren | pg/src/postgres/Transaction.cpp:25-84 | All children end finished and alike: SUCCESS, ERROR or ABORTED; aborted exactly when the transaction failed with a flag on it or on a child |
| TransactionTheorems.LiveConnectionLeftOpen | pg/src/postgres/Transaction.cpp:25-35 | A concrete server: SQLSTATE 08P01 on a good connection leaves the transaction open and no ROLLBACK is sent |
| TransactionTheorems.ChildrenHonestExactly | pg/src/postgres/Transaction.cpp:62-84 | For every server and transaction: a child is told "rolled back" although something became durable if and only if a child ended the transaction and no flag is up; with a flag the children end ABORTED although something became durable exactly then or when COMMIT's connection was lost |
| TransactionTheorems.EndedChildIsToldRolledBack | pg/src/postgres/Transaction.cpp:68-78 | For any child the scanner lets through there is a server with which it is durable, the parent says unknown, and the child is told rolled back |
| TransactionTheorems.EndingChildExists | pg/src/postgres/Transaction.cpp:95-98 | A COMMIT behind a nested comment is such a child |
| TransactionTheorems.HiddenCommitIsReportedRolledBack | pg/src/postgres/Transaction.cpp:36-39 | Without the assumption on hidden commits the "rolled back" report is not honest |
| Databases.Database.RunQuery | pg/src/postgres/Database.cpp:275-308 | Opens or dials the session, runs under a guard, and leaves data and session exactly as the exception classes demand; at most one alias, no clear under a guard |
| Databases.Database.ExecuteQuery | pg/src/postgres/Query.cpp:45-53 | A query outside a transaction: all statements or a single one, by its setting; results appended, flag as the attempts leave it |
| Databases.Database.AttemptReconnect | pg/src/postgres/Database.cpp:259-269 | Refused when shutting down; otherwise closes the session before dialling once |
| QueryTheorems.SuccessExactlyAnswered | pg/src/postgres/Query.cpp:45-53 | For a query outside a transaction on an open session: SUCCESS if and only if its text has no NUL, its command was accepted, every result is a success and the connection survived; then exactly that command was sent and the results are the payloads of the reply |
| QueryTheorems.UnsentFails | pg/src/postgres/LibpqExecutor.cpp:13-19 | A NUL in the text or a refused send: nothing is sent or appended, and what is thrown |
| QueryTheorems.FirstFailureDecides | pg/src/postgres/Database.cpp:6-8 | The first failed result decides: ABORTED without result if and only if a cancel stands and its SQLSTATE is 57014 or its message says so, otherwise ERROR with its message; the results before it are kept |
| QueryTheorems.FirstFailureDials | pg/src/postgres/Database.cpp:284-293 | ... and the session is dialled again, once, if and only if its class is 08 but not 08007, or the connection is bad without SQLSTATE, it is not taken as the cancellation, reconnection is on and the database is not shutting down |
| QueryTheorems.HandlerExactly | pg/src/postgres/Database.cpp:284-307 | For every exception, what the catch blocks make of the data and whether they dial, with the cancellation and the lost connection spelled out |
| QueryTheorems.DialledExactly | pg/src/postgres/Database.cpp:275-279 | Before the query a closed session is dialled, once, if and only if automatic reconnection is on and the database is not shutting down; what a dial leaves |
| QueryTheorems.NoSessionNoQuery | pg/src/postgres/Database.cpp:275-279 | Without a session nothing is sent and the execution ends with ERROR and the text of the failed connection |
| QueryTheorems.FailedDialIsRepeated | pg/src/postgres/Database.cpp:284-293 | A dial that fails before the query is repeated by the handler, for the next query only |
| DatabaseTheorems.NoFalseAbort | pg/src/postgres/Database.cpp:284-307 | ABORTED only if an attempt to cancel the execution or one of its children while active had a handle and had not failed when the flags were read; else even 57014 is an error |
| DatabaseTheorems.AbortedTogether | pg/src/postgres/Database.cpp:281-302 | SUCCESS if and only if committed; the transaction is ABORTED exactly when it failed with the cancellation and a flag was up at the handler, its children exactly when a flag was up when they were settled; so an aborted transaction has only aborted children unless a cancel came in between |
| DatabaseTheorems.AbortedLeavesNothing | pg/src/postgres/Database.cpp:284-302 | An aborted transaction left nothing durable unless COMMIT lost its connection |
| DatabaseTheorems.LeftInsideExactly | pg/src/postgres/Database.cpp:284-293 | The session is still inside a transaction after runQuery if and only if one of those branches was taken and runQuery does not reconnect |
| RunLedger.NothingIsReplayed | pg/src/postgres/Database.cpp:259-308 | Over any sequence of runQuery calls and reconnects, what is sent is the concatenation of what each execution sends of its own commands, each at most once and in order, and all of them for every execution that reports SUCCESS |
| RunLedger.DurableLedger | pg/src/postgres/Database.cpp:259-308 | Over any such sequence the durable state is the initial one followed by a part for each execution: nothing from one that met no session, and of a transaction what its report says: after what was pending, all of a SUCCESS; all or nothing when the fate of COMMIT is unknown; and otherwise nothing unless it says the outcome is unknown |
| RunLedger.DurableIsWhatSucceeded | pg/src/postgres/Database.cpp:259-308 | For any sequence of transactions of which none is reported unknown: the durable state is the initial one followed by the transactions reported SUCCESS, in order, if and only if each of these began on a session with no statements pending in an open transaction |
| RunLedger.RolledBackComesBack | pg/src/postgres/Transaction.cpp:36-39 | A concrete server: ROLLBACK cannot be sent on a good connection, the caller is told rolled back, and the next transaction's COMMIT makes it durable |
| SqlScanner.ScanLeadingKeyword | pg/src/postgres/Query.cpp:10-32 | The index loops compute the recursive definition, on every string |
| SqlScanner.TriviaChangesNothing | pg/src/postgres/Query.cpp:12-26 | Prepending white space, line comments and closed block comments changes nothing |
| SqlScanner.CaseChangesNothing | pg/src/postgres/PreparedQuery.cpp:34-43 | Changing letter case changes nothing |
| SqlScanner.RejectedExactly | pg/src/postgres/Query.cpp:34-38 | SQL is rejected if and only if, after white space and closed comments, its first whole word is one of the six control words in any case |
| SqlScanner.SixWordsExactly | pg/src/postgres/Query.cpp:34-38 | The six words are BEGIN, START, COMMIT, END, ROLLBACK and ABORT |
| Characters.SpacesExactly | pg/src/postgres/Query.cpp:13 | White space is blank, tab, line feed, carriage return, vertical tab and form feed |
| SqlScanner.LettersExactly | pg/src/postgres/Query.cpp:28 | A letter is one of the 26 capitals or the 26 small letters, listed one by one |
| SqlScanner.LowerExactly | pg/src/postgres/Query.cpp:29-31 | The 26 capitals become the 26 small letters, everything else stays |
| Conninfo.SafeKeyExactly | pg/src/postgres/ConnectionConfig.cpp:77-84 | An option key is accepted if and only if it is not empty and made of digits, letters and underscores |
| SqlScanner.SameCommentExactlyWhenFlat | pg/src/postgres/Query.cpp:19-24 | Scanner and server (section 4.1.5 of the PostgreSQL documentation) leave a block comment at the same place if and only if no comment opens inside it |
| SqlScanner.NestedCommentHidesCommit | pg/src/postgres/Query.cpp:19-24 | A concrete input where they do not, and COMMIT is not recognised |
| SqlServer.SlipsThroughExactly | pg/src/postgres/Query.cpp:10-38 | Every SQL that the server reads as transaction control escapes the scanner if and only if an empty statement comes first; or a block comment with another in it, and what stands behind its first closing mark is not refused itself; or neither, and the word is not one of the six |
| SqlServer.EmptyStatementHidesCommit | pg/src/postgres/Query.cpp:34-38 | A concrete input of the first kind |
| SqlServer.PrepareSlipsThrough | pg/src/postgres/Query.cpp:34-38 | A concrete input of the last kind: PREPARE TRANSACTION |
| SqlServer.NestedCommentMayBeRefused | pg/src/postgres/Query.cpp:19-24 | A nested comment before a control word is not enough: this input is refused all the same |
| ConnectionConfigs.ConnectionConfig.Positional | pg/src/postgres/ConnectionConfig.cpp:7-21 | Accepted exactly when no value has a NUL |
| ConnectionConfigs.ConnectionConfig.Options | pg/src/postgres/ConnectionConfig.cpp:31-43 | Accepted exactly when every key is safe and no value has a NUL; the first offence decides the message |
| ConnectionConfigs.ConnectionConfig.SetSSLSettings | pg/src/postgres/ConnectionConfig.cpp:56-65 | Refused for raw strings, capath or cipher, then NUL; otherwise stored, and acceptance is kept |
| ConnectionConfigs.ConnectionConfig.SetConnectTimeout | pg/src/postgres/ConnectionConfig.cpp:45-48 | Refused for raw strings; otherwise stored, and acceptance is kept |
| ConnectionConfigs.ConnectionConfig.BuildConnectionString | pg/src/postgres/ConnectionConfig.cpp:96-123 | The loops print the entries of the configuration, or pass the raw string on |
| ConnectionConfigs.ConnectionConfig.QuoteConninfoValue | pg/src/postgres/ConnectionConfig.cpp:67-75 | Quotes, and escapes exactly quotes and backslashes |
| ConnectionConfigTheorems.RoundTrip | pg/src/postgres/ConnectionConfig.cpp:67-123 | For every accepted configuration built from parts, parsing by section 34.1.1.1 gives back exactly the non-empty settings in order |
| ConnectionConfigTheorems.NothingCutOff | pg/src/postgres/ConnectionConfig.cpp:86-88 | No built string contains a NUL, so the C string is the whole of it |
| Conninfo.DecimalReadsBack | pg/src/postgres/ConnectionConfig.cpp:107-109 | Printed numbers read back as themselves and need no quotes |
| ConnectionConfigTheorems.Precedence | pg/src/postgres/ConnectionConfig.cpp:103-121 | Last wins: derived settings over the option table over positional settings |
| ConnectionConfigTheorems.ModeExactly | pg/src/postgres/ConnectionConfig.cpp:110-118 | The SSL mode that was set is the one libpq is given, under libpq's own name for it, whatever the option table says |
| ConnectionConfigTheorems.TableTimeoutTakesEffectExactly | pg/src/postgres/ConnectionConfig.cpp:108-109 | A connect_timeout in the option table takes effect if and only if the configured timeout is 0 or the same |
| ConnectionConfigTheorems.DefaultTimeoutWins | pg/src/postgres/ConnectionConfig.cpp:108-109 | A concrete table that asks for 3 seconds and gets 10 |
| PreparedQueries.PreparedQuery.SetString | pg/src/postgres/PreparedQuery.cpp:61-68 | Index 0 and NUL refused, in this order; otherwise a new field replaces the old one |
| PreparedQueries.PreparedQuery.SetNumber | pg/src/postgres/PreparedQuery.cpp:55-59 | Index 0 and non-finite numbers refused |
| PreparedQueries.PreparedQuery.DenseParameters | pg/src/postgres/PreparedQuery.cpp:95-106 | As long as the largest index set; slot i-1 is text exactly where index i holds a non-null field |
| PreparedQueries.PreparedQuery.MaxParameterIndex | pg/src/postgres/PreparedQuery.cpp:129-133 | The largest key, 0 for none, in whatever order the map is walked |
| PreparedQueries.PreparedQuery.ExecuteStatement | pg/src/postgres/PreparedQuery.cpp:91-108 | Sends the dense vector of the snapshot |
| PreparedQueries.SentIsWhatWasSet | pg/src/postgres/PreparedQuery.cpp:50-85 | Whatever is set or cleared later, an execution sends what was last set when it was started |
| PreparedQueries.DenseDetermined | pg/src/postgres/PreparedQuery.cpp:95-106 | The snapshot determines the vector |
| IQueries.IQuery.Start | pg/src/postgres/IQuery.cpp:12-20 | Validated, listed, enqueued on the worker, marked as started and as first; everything that each refusal leaves |
| IQueries.IQuery.EnqueueQuery | pg/src/postgres/Database.cpp:42-49 | Queued and WAITING if and only if neither shutting down nor closed, otherwise ABORTED and finished |
| IQueries.IQuery.FinishQueryData | pg/src/postgres/IQuery.cpp:62-70 | Pops the front or erases every copy |
| RunningLists.FinishTakesAllExactly | pg/src/postgres/IQuery.cpp:62-70 | It takes out all copies if and only if the front is not followed by another copy of itself |
| LuaReferences.LuaCallbackReferences.ReferenceCallbacks | pg/src/lua/LuaIQuery.cpp:124-145 | Which references are created, in which order, and where they are kept |
| LuaReferences.OwnCallbacks | pg/src/lua/LuaIQuery.cpp:124-145 | A new execution references its query's table, and under each of its four fields the callback of that name if and only if the table has it |
| LuaReferences.KeptCallbacks | pg/src/lua/LuaIQuery.cpp:129-144 | A callback that has a reference already keeps it |
| LuaReferences.LuaCallbackReferences.Release | pg/src/lua/LuaIQuery.cpp:159-170 | Frees every reference held, once, and keeps none |
| LuaReferences.LuaTransaction.ClearAddedQueries | pg/src/lua/LuaTransaction.cpp:152-160 | Frees every added query's reference and forgets the list |
| LuaReferences.CloseUndoesReference | pg/src/lua/LuaIQuery.cpp:124-173 | Closing frees exactly what referencing created; closing again frees nothing |
| LuaBookkeeping.ReferencesConserved | pg/src/lua/LuaIQuery.cpp:8-18 | Over any run of starts (accepted or refused), deliveries with result tables held while the callback makes further calls, addQuery, clearQueries and destruction: created minus freed = references held, each held once, none freed twice |
| LuaBookkeeping.FinishingAgainFreesNothing | pg/src/lua/LuaIQuery.cpp:151-173 | A second close frees nothing, in any state |
| LuaRunningLists.RunningListsExact | pg/src/postgres/IQuery.cpp:12-70 | Over any run without restarts of pending transactions: a query's running list is, in order and without duplicates, its open executions |
| LuaRunningLists.RefusedStartChangesNothing | pg/src/lua/LuaIQuery.cpp:8-18 | A start that throws, of anything but a transaction whose children are still open, leaves every running list as it was |
| LuaRestarts.RestartLeaves | pg/src/lua/LuaTransaction.cpp:63-79 | Starting a started transaction again leaves on every query's list first what are not its children, then those of its children that stay |
| LuaRestarts.RestartDropsExactly | pg/src/postgres/IQuery.cpp:62-70 | An execution leaves its list in a refused restart if and only if it is a child of the transaction and anything but children added before it stands before it |
| LuaRestarts.RestartChangesNothingExactly | pg/src/postgres/Transaction.cpp:11-16 | A refused restart leaves a list as it was if and only if the transaction's children on it, in order, are none of it or all of it |
| LuaRestarts.RestartLosesChild | pg/src/lua/LuaTransaction.cpp:63-79 | A concrete run in which a restart loses an open child from its query's list |
| LuaRestarts.RestartReorders | pg/src/postgres/IQuery.cpp:62-70 | A concrete run in which a restart changes the order of a list: the child that stays goes to the back |
| LuaLosses.ListsLoseOnlyToRestarts | pg/src/postgres/IQuery.cpp:12-70 | Over every run, restarts included: a query's running list has no duplicates and holds exactly its open executions but those a restart took off |
| LuaLosses.RefusedStartInAnyRun | pg/src/lua/LuaIQuery.cpp:8-18 | After any run, a start the database refuses leaves every running list as it was, unless it is a restart |

## Left out

- LifecycleTheorems.ShutdownTerminates: assumes that each statement and each connection attempt ends, and does not model condition-variable wake-ups; waiting is a step enabled when its condition holds.
- LuaRunningLists.RunningListsExact: for runs that do not start a transaction again while its children are open, because the code is not exact there; ListsLoseOnlyToRestarts has what holds over every run.
- LuaRunningLists.RefusedStartChangesNothing: the same exception; RefusedStartInAnyRun and RestartChangesNothingExactly cover every run.
- TransactionTheorems.HonestParent: for servers without hidden commits, because PQtransactionStatus cannot see COMMIT AND CHAIN; HonestParentExactly has the condition for every server.
- RunLedger.DurableLedger: says nothing of what a query outside a transaction adds on an open session, because the server rules say nothing of it.
- DatabaseTheorems.NoFalseAbort: says that some attempt stood, not that the server's error was caused by it.
- LifecycleTheorems.NoFalseAbort: an abort written too late is an alternative, because the code does not exclude it; LateAbort is such a run, and AbortStaysExactly says which writes stay.
- LifecycleWaits.WaitReturns: assumes, as ShutdownTerminates does, that each statement and each connection attempt ends. It is about executions the queue accepted: IQuery::wait takes the last of a query's running list, which may be a child staged by a transaction, and a child's own data are not in the step system.
- PreparedQueries.PreparedQuery.SetNumber: leaves the parameters alone when the number is refused, which takes the right side of the assignment (PreparedQuery.cpp:58) to be evaluated first; the build is C++11, which leaves the order open, and the other order would insert a null field for the refused index.
- PreparedQueries.PreparedQuery.DenseParameters: indexes are unbounded, so the loop's wrap-around at an index of UINT_MAX is not modelled; a Lua number is its 17-digit text or not finite.
- Databases.Database.RunQuery: no modelled call throws a std::exception other than the two exception classes, so its catch block, which does what the one for PGException does with an error that is not a cancellation, is absent; the reconnect log is left out.
- QueryWorkers.QueryWorker.AbortQueued: pairs without data are not modelled; enqueue never makes one.
- The concurrent operations of Database.cpp (abortQuery, abortAllQueries, shutdown, connectRun, run, waitForQuery) are steps on values, not methods of a class: two threads interleave inside them, and a Dafny method runs alone. The lists they share are classes, and LifecycleRefinement proves each step on them to be the class's method.
- IQuery::abort over several executions is a sequence of single aborts; the aborted pairs are delivered one by one. A child's own status is not part of the step system, so an abort may try any child at any time.
- LuaBookkeeping.ReferencesConserved: the database object's own table reference and the Lua stack are not modelled.
- Conversion of result rows, type OIDs and numbers to Lua values; PGresult fields are carried along unread.
- Ping, escape, character set and the metadata of a session; the SELECT 1 of ping is not part of the transaction protocol.
- Raw connection strings: passed through unchanged.
- Option bits, option snapshots and simple getters: they would add only easy members.
- The completeQueuedWithError that takes only a reason, which nothing calls, and BlockingQueue's remove, size and empty.
- The Lua API around connection callbacks, module start and the database option table's conversion of Lua values.
