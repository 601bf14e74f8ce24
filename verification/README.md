# Verified model of the agent, run and session core

This project models the parts of the service that coordinate work: the bounded agent run, the durable Chat Run
protocol on PostgreSQL, the two session stores, the recent-dialogue cache, two catalogue algorithms and the
replayable event stream. `dafny verify dfyconfig.toml` checks all of it.

Code that updates state in place is a class or a method with loops, proved equal to a specification function;
the promises are lemmas about those functions, most of them over every run or history.

## Components

**Durable runs** (`ChatTables`, `ChatTransactions`, `ChatInvariants`, `ChatEffects`, `ChatFencing`,
`ChatDatabase`, `ChatRunExecutor`). Sessions, turns and runs are three tables with the unique indexes of the
schema. Each repository method is one atomic transaction that answers and commits or raises and leaves every row
alone; any number of workers interleave them freely. The invariant gives consecutive turn numbers, one active
run per session, and a one-to-one match of completed runs and turns. On top of it: a cancel that has won wins
forever, a superseded token never commits again, tokens increase with turn index, and an execution that paused
stays barred. What each transaction writes and answers is stated without its own code: whose text a turn holds,
the table of status moves, the answers to repeated requests. The executor's two flags and its exception paths
are modelled branch by branch, with calls that break before or after their transaction took effect and other
workers' transactions in between.

**The agent run** (`Plans`, `References`, `PlanContracts`, `PlanFaults`, `RecoveryPlanning`, `Decisions`,
`ToolExecution`, `PythonValues`, `CacheSources`, `ToolPass`, `ContextMessages`, `AgentState`, `AgentGraph`,
`AgentSafety`, `AgentOutcomes`, `AgentTheorems`, `AgentSignals`, `AgentExample`, `AgentRun`). A state machine
with one step per graph node. The controller's replies, tool handlers, evidence, answer, critic and the deadline
are an arbitrary `World`, a new one for every step. The state has three possible fates per step: the next node,
a collaborator that throws (`Raised`), or one of the runtime's own consistency checks (`Crash`). `Crash` is
proved unreachable, and every run ends, with each status and response type exactly on its own signals, which the
collaborators gave. A reference resolves to the end of a walk through its call's result, and that is what the
handler is given; plans and decisions are accepted, and draw each error, exactly under conditions on the plan
and the catalogue.

**Session stores** (`SessionLedger`, then `MemorySession`, `SessionLocks`, `MemoryStore`, `MemoryRuns`,
`MemoryRecency`, `InMemorySessionStore`, and `RedisModels`, `RedisDecoding`, `RedisScripts`, `RedisSessions`,
`RedisRuns`). The ledger is the common promise: a bounded log of turns and a table of request claims, driven by
events. The in-memory store is locks, leases and dictionaries in least-recently-used order; the Redis store is a
set of scripts over texts under leases that may end at any moment, with clients acting on stale reads. Each
operation of either is shown to be exactly a short list of ledger events. What has to go goes oldest first: the
order of the sessions is the order of their last use over every run.

**Canonical JSON** (`Json`). Printing with sorted keys and escapes as in section 7 of RFC 8259, a reader, and
the round trip; tool-call fingerprints and stored texts are built on it.

**Recent dialogue** (`DialogueWindow`, `ConversationMemory`). The window builder, and the cache-aside service
with stale reads, late writes, expiry and store failures.

**Catalogue** (`RecipeGraph`, `ValueAliases`). Depth-first cycle detection over two mutable sets, and the strict
two-pass alias map.

**Events** (`EventReplay`). The append script, batched reads after a cursor, the stream loop and chains of
reconnects.

## Where the code does not do what one might expect

Where a lemma states it, the lemma is named.

- A commit can be rejected by the unique index on (session, request): product chat may store a turn under the
  request id of a run that is still running (`CommitRejectedByProductChat`). `StepKeeps` shows it is the only
  such case.
- Extending the cached window differs from rebuilding it exactly when an older turn was cut and what is left of
  it still fits beside the new one: the extension keeps the cut turn, a rebuild drops it
  (`ExtensionAgreesWithRebuild`, both directions; `ExtensionCanDisagree`, turns for every budget from four
  characters). Over whole histories the cache is right if and only if that never happens
  (`CacheIsRightExactly`), and it cannot happen when no turn exceeds the budget (`NoOversizedTurns`).
- With `max_chars` of one, which the builder accepts but the configured policy does not, a turn with two
  non-empty messages is kept with two characters (`TruncatedTurnFits`, exact condition).
- The append script counts a turn before it finds that the text lacks the pattern (`AppendIsWholeExactly`); the
  complete script does the same, and may have pushed the turn (`CompleteIsWholeExactly`). For texts the store
  itself produces this branch is dead (`AppendIsAllOrNothing`, `CompleteIsAllOrNothing`).
- Calls that a replan keeps are compared as Python dictionaries, in which true equals 1. A kept call with `true`
  for `1` is accepted, but its fingerprint differs: it enters its handler again and may use up the budget of the
  appended calls (`AnAcceptedReplanDoesNotReplay`). A replan replays the first attempt if and only if its kept
  calls have the same arguments up to the order of keys (`ReplanReplaysExactly`).
- An execution can leave its run active: when it stops before its try (`StoppedBeforeTry`); when its last mark
  is lost, which the code ignores (`FailedMarkLost`, `BothMarksLost`); when a cancel is requested before the
  failed mark, which is then refused (`CancelBeforeFailedMark`); or when a second cancel breaks off the first
  mark of a running row (`CancelledTwice`). `LeftActiveExactly` shows there is no other way. A later sweep ends
  such a run (`SweepEndsIt`).
- Marks compare the worker and not the token, so a task cancelled after its pause can end the execution that
  resumed the run on the same worker. `LateMarksExactly` says exactly when its marks change anything;
  `RunningSuccessorIsHit`, `CancellingSuccessorIsHit` and `StartedBetweenMarksIsHit` are the ways it happens.
  They change nothing as long as this worker does not start the run again meanwhile (`PausedMarksMiss`). That
  the session transaction held by `execute` keeps it from doing so is an assumption about its lock, not modelled
  here.
- `interrupt_stale_runs` leaves the checkpoint on the row, unlike everything else that ends a run
  (`CheckpointOutlivesExactly`).
- A run that is not resumed never reaches the checkpoint node (`HandlersRunOnce`).
- A limit of zero kept turns, also outside the policy, keeps all of them (`KeptCount`).
- The begin script answers a claim it refuses with `data_invalid` after it wrote the schema and purged expired
  records (`RefusedBeginChangesExactly`, both directions).
- In the in-memory store a refused completion may leave a new empty session, and what was evicted for it stays
  gone (`RefusedCompletionChangesExactly`). The fencing counter starts again exactly when the last user leaves a
  session that has no data (`CounterFallsExactly`, `SameTokenTwice`).
- After a full batch was read from a run that has ended, the recovery line may come before the remaining events
  (`RecoveryIsCompleteExactly`, `EarlyRecovery`); the ordinary lines are still consecutive.

## Model

| member | source | states |
|---|---|---|
| `ChatInvariants.StepKeeps` | apps/api/app/application/postgres_chat_run_repository.py:65-527 | every repository transaction, issued by anybody at any time, keeps: turns of a session are numbered exactly 1 to next_turn_index - 1 with distinct request ids; at most one active run per session; a run is completed exactly when it owns a turn of its own session and request, and no turn is owned twice; lease fields agree with the status; later turns were committed under tokens no smaller. With fresh identifiers no unique index ever rejects a transaction except a commit whose request already has a turn |
| `ChatInvariants.ExecKeeps` | apps/api/app/application/postgres_chat_run_repository.py:65-527 | the same over every history of transactions in any interleaving, by induction |
| `ChatInvariants.CreateRunKeeps` | apps/api/app/application/postgres_chat_run_repository.py:65-133 | creating or replaying a run keeps the invariant; only a reused run id is rejected by an index |
| `ChatInvariants.MarkRunningKeeps` | apps/api/app/application/postgres_chat_run_repository.py:172-201 | keeps the invariant and never meets a unique index |
| `ChatInvariants.MarkWaitingKeeps` | apps/api/app/application/postgres_chat_run_repository.py:203-241 | pausing keeps the invariant and never meets a unique index |
| `ChatInvariants.ResumeKeeps` | apps/api/app/application/postgres_chat_run_repository.py:243-282 | resuming keeps the invariant and never meets a unique index |
| `ChatInvariants.HeartbeatKeeps` | apps/api/app/application/postgres_chat_run_repository.py:284-307 | keeps the invariant and never meets a unique index |
| `ChatInvariants.RequestCancelKeeps` | apps/api/app/application/postgres_chat_run_repository.py:309-339 | keeps the invariant and never meets a unique index |
| `ChatInvariants.MarkTerminalKeeps` | apps/api/app/application/postgres_chat_run_repository.py:491-527 | the three terminal marks keep the invariant and never meet a unique index |
| `ChatInvariants.SweepKeeps` | apps/api/app/application/postgres_chat_run_repository.py:374-404 | the stale sweeper keeps the invariant and always succeeds |
| `ChatInvariants.CheckpointOutlivesExactly` | apps/api/app/application/postgres_chat_run_repository.py:397-401 | a run that ends keeps a checkpoint if and only if the sweeper ended it and it had one |
| `ChatInvariants.CompleteKeeps` | apps/api/app/application/postgres_chat_run_repository.py:406-489 | the commit transaction keeps the invariant, and with a fresh turn id an index rejects it only when the request already has a turn |
| `ChatInvariants.CommitKeeps` | apps/api/app/application/postgres_chat_run_repository.py:445-478 | storing the turn, counting it and finishing the run in one transaction keeps the invariant |
| `ChatInvariants.FinishedTokens` | apps/api/app/application/postgres_chat_run_repository.py:442-478 | the run finished by a commit has a token no smaller than any committed before it in its session |
| `ChatInvariants.CommitRejected` | apps/api/app/application/postgres_chat_run_repository.py:453-478 | when the request id already has a turn the inserted row breaks the index on (session, request) |
| `ChatInvariants.CommitRejectedByProductChat` | apps/api/app/application/postgres_chat_run_repository.py:453-478 | the exception is reachable: a dialogue turn stored under the request id of a running run makes the commit of that run fail, for every such state |
| `ChatInvariants.StoreTurnKeeps` | apps/api/app/application/postgres_chat_repository.py:560-630 | storing a new turn at the session's next index keeps the invariant |
| `ChatInvariants.StoreOrReplayKeeps` | apps/api/app/application/postgres_chat_repository.py:472-558 | storing or replaying a product-chat turn keeps the invariant; only a reused turn id is rejected |
| `ChatInvariants.ClaimKeeps` | apps/api/app/application/postgres_chat_repository.py:174-209 | claiming a fencing token keeps the invariant and never meets a unique index |
| `ChatInvariants.CreateSessionKeeps` | apps/api/app/application/postgres_chat_repository.py:49-56 | a new session keeps the invariant; only a reused session id is rejected |
| `ChatEffects.TurnsChangeExactly` | apps/api/app/application/postgres_chat_run_repository.py:445-478 | a transaction adds a turn if and only if its answer says so, and then exactly one: for a commit with the question, payload, request and session of its run and the answer presented, for product chat with the texts presented, at the session's next index, which moves by one; every other turn and session stays |
| `ChatEffects.CompleteStores` | apps/api/app/application/postgres_chat_run_repository.py:406-489 | a commit that stores finishes its run by that turn and touches no other run; otherwise nothing changes |
| `ChatEffects.DialogueStores` | apps/api/app/application/postgres_chat_repository.py:472-630 | a product-chat append or commit that stores answers with the index and the text it stored and touches no run; otherwise nothing changes |
| `ChatEffects.EveryTurnWasPresented` | apps/api/app/application/postgres_chat_run_repository.py:406-489 | over every history each turn there is holds the texts that one transaction presented under its id |
| `ChatEffects.EveryRunWasAsked` | apps/api/app/application/postgres_chat_run_repository.py:65-133 | over every history each run was created by one transaction and still carries its session, request, payload and question |
| `ChatEffects.EveryRowTells` | apps/api/app/application/postgres_chat_run_repository.py:65-527 | over every history: an error code exactly on failed and interrupted runs, a heartbeat while leased and after a worker ended it, no checkpoint after a regular end, an answered one while the run is on its way again |
| `ChatEffects.StatusMovesExactly` | apps/api/app/application/postgres_chat_run_repository.py:172-527 | the life of a run as a table: a transaction moves a run to another status if and only if the table says so, with its browser, worker, token, checkpoint, expected index and request conditions |
| `ChatEffects.MovedRowsCarry` | apps/api/app/application/postgres_chat_run_repository.py:172-527 | a moved run carries the lease it was given, the question it waits with, the chosen option, the code it ended with |
| `ChatEffects.RunOpsRefuseExactly` | apps/api/app/application/postgres_chat_run_repository.py:172-527 | each error of a transaction on a run is drawn if and only if it is due, by owner, worker, token, status, checkpoint, expected index and request, and then nothing changes |
| `ChatEffects.HeartbeatWritesExactly` | apps/api/app/application/postgres_chat_run_repository.py:284-307 | a heartbeat is written exactly for the worker of a leased run, and nothing else is |
| `ChatEffects.SweepAnswersExactly` | apps/api/app/application/postgres_chat_run_repository.py:374-404 | the sweeper answers with exactly the runs it interrupted |
| `ChatEffects.SessionsBelong` | apps/api/app/application/postgres_chat_repository.py:49-56 | a session keeps its browser for good and starts without a turn |
| `ChatEffects.ClaimAnswersExactly` | apps/api/app/application/postgres_chat_repository.py:174-209 | a claim answers with the requested token or the next, above the session's, and is refused exactly when the requested one is not above it |
| `ChatEffects.CreateAnswersExactly` | apps/api/app/application/postgres_chat_run_repository.py:65-133 | an owned request is answered from its earlier run, refused for another payload, refused while a run is active, or leads to a new run, exactly when each is due |
| `ChatEffects.DialogueAnswersExactly` | apps/api/app/application/postgres_chat_repository.py:472-558 | a dialogue turn is answered with the index and text stored for its request and payload, refused for another payload, or stored, exactly when each is due |
| `ChatEffects.CommitAnswersExactly` | apps/api/app/application/postgres_chat_repository.py:560-630 | the same for the holder of the active token; anybody else is refused and nothing changes |
| `ChatFencing.CancelAnswered` | apps/api/app/application/postgres_chat_run_repository.py:309-339 | a cancel succeeds exactly for an owned run that has not ended, and then the run is cancel-requested or cancelled |
| `ChatFencing.CancelForever` | apps/api/app/application/postgres_chat_run_repository.py:430-433 | after a cancel has won, in every continuation the run stays cancel-requested, cancelled or interrupted, owns no turn, and a commit by any worker with any token changes nothing and fails |
| `ChatFencing.CancelStep` | apps/api/app/application/postgres_chat_run_repository.py:188-191 | no single transaction brings a cancelled run back |
| `ChatFencing.SupersededStep` | apps/api/app/application/postgres_chat_repository.py:174-209 | an allocated token stays superseded under every transaction |
| `ChatFencing.FencedForever` | apps/api/app/application/postgres_chat_run_repository.py:426-443 | once a session has a newer token, no transaction that presents an older one stores a turn, through either commit path, in any continuation |
| `ChatFencing.ActKeeps` | apps/api/app/application/chat_run_executor.py:97-133 | every action of the executors and of everybody else keeps: tokens of executions are distinct, at most the session's active one, and every token on a run row is held by one execution of that run |
| `ChatFencing.HistoryKeeps` | apps/api/app/application/chat_run_executor.py:97-133 | the same over every history of executions |
| `ChatFencing.RunKeeps` | apps/api/app/application/postgres_chat_run_repository.py:172-201 | marking a run running under the token of one execution keeps tokens apart |
| `ChatFencing.TokensStrictlyIncrease` | apps/api/app/application/chat_run_executor.py:97-133 | in every history of the executors, of two completed runs of one session the one with the later turn was committed under the strictly larger token |
| `ChatFencing.PauseBars` | apps/api/app/application/postgres_chat_run_repository.py:203-241 | a successful pause bars the execution that issued it |
| `ChatFencing.BarredStep` | apps/api/app/application/chat_run_executor.py:97-133 | no action lifts the bar, whoever resumes the run |
| `ChatFencing.BarredForever` | apps/api/app/application/postgres_chat_run_repository.py:426-443 | an execution that paused can never commit, before or after the run is resumed: its commit changes nothing in any continuation |
| `ChatDatabase.Database.constructor` | apps/api/app/application/postgres_chat_run_repository.py:62-63 | the tables start empty |
| `ChatDatabase.Database.CreateSession` | apps/api/app/application/postgres_chat_repository.py:49-56 | exactly the specified transaction |
| `ChatDatabase.Database.Perform` | apps/api/app/application/postgres_chat_run_repository.py:65-527 | any transaction, asked for by anybody, is performed as specified |
| `ChatDatabase.Database.Flush` | apps/api/app/application/postgres_chat_run_repository.py:121-133 | the end of a transaction keeps its rows, or restores the ones it started from when a unique index is broken |
| `ChatDatabase.Database.ClaimFencing` | apps/api/app/application/postgres_chat_repository.py:174-209 | the in-place updates are exactly the specified transaction: row locked, stale requests refused, counter raised |
| `ChatDatabase.Database.CreateRun` | apps/api/app/application/postgres_chat_run_repository.py:65-133 | exactly the specified transaction, replay and conflict answers included |
| `ChatDatabase.Database.MarkRunning` | apps/api/app/application/postgres_chat_run_repository.py:172-201 | exactly the specified transaction, with its refusal of cancelled and ended runs and of stale tokens |
| `ChatDatabase.Database.MarkWaiting` | apps/api/app/application/postgres_chat_run_repository.py:203-241 | exactly the specified transaction: worker and token are given up with the checkpoint |
| `ChatDatabase.Database.Resume` | apps/api/app/application/postgres_chat_run_repository.py:243-282 | exactly the specified transaction, with its checkpoint errors |
| `ChatDatabase.Database.Heartbeat` | apps/api/app/application/postgres_chat_run_repository.py:284-307 | exactly the specified transaction |
| `ChatDatabase.Database.RequestCancel` | apps/api/app/application/postgres_chat_run_repository.py:309-339 | exactly the specified transaction: a paused run is cancelled at once, a queued or running one is asked to cancel |
| `ChatDatabase.Database.MarkTerminal` | apps/api/app/application/postgres_chat_run_repository.py:491-527 | exactly the specified transaction for the three terminal marks, ignoring marks by another worker or on a status they do not allow |
| `ChatDatabase.Database.SweepStale` | apps/api/app/application/postgres_chat_run_repository.py:374-404 | the loop over locked rows interrupts exactly the stale recoverable runs and answers with their ids |
| `ChatDatabase.Database.CompleteWithTurn` | apps/api/app/application/postgres_chat_run_repository.py:406-489 | exactly the specified commit transaction with its error order; what it stores is said by TurnsChangeExactly |
| `ChatDatabase.Database.AppendOrReplay` | apps/api/app/application/postgres_chat_repository.py:472-558 | stores the turn or answers with the one already stored for the request and payload |
| `ChatDatabase.Database.AppendDialogue` | apps/api/app/application/postgres_chat_repository.py:472-558 | exactly the specified product-chat transaction; what it stores and answers is said by TurnsChangeExactly and DialogueAnswersExactly |
| `ChatDatabase.Database.CommitTurn` | apps/api/app/application/postgres_chat_repository.py:560-630 | exactly the specified fenced commit; what it stores and answers is said by TurnsChangeExactly and CommitAnswersExactly |
| `ChatRunExecutor.MarkLands` | apps/api/app/application/postgres_chat_run_repository.py:491-527 | a mark its own worker issues takes effect exactly on the statuses it allows |
| `ChatRunExecutor.MarkMisses` | apps/api/app/application/postgres_chat_run_repository.py:491-527 | a row that names another worker, or none because it was paused, is out of reach of every mark |
| `ChatRunExecutor.MarkLeavesActive` | apps/api/app/application/postgres_chat_run_repository.py:491-527 | after a mark that is answered, lost, or broken off after it took effect, the row is ours and active exactly when it was before and the mark took no effect or was not allowed |
| `ChatRunExecutor.PersistFacts` | apps/api/app/application/chat_run_executor.py:135-220 | a flag that is set tells the truth about the row; without one the tables are as they were unless the call broke after its transaction took effect; no handler runs exactly when the execution stopped before its try |
| `ChatRunExecutor.LeftActiveExactly` | apps/api/app/application/chat_run_executor.py:135-273 | for every end of the graph, every fate of each repository call and any transactions of others in between: a run that still names the execution is left active if and only if the execution stopped before its try, or its last mark met the row active and was lost, was the failed mark on a cancel-requested row, or the cancelled mark broken off on a running one; no mark follows a commit, and only a cancelled task's follow a pause |
| `ChatRunExecutor.MarkCancelledEnds` | apps/api/app/application/chat_run_executor.py:392-403 | the same for the two marks of a cancelled task: the interrupted one is sent exactly when the repository refuses or loses the cancelled one |
| `ChatRunExecutor.StoppedBeforeTry` | apps/api/app/application/chat_run_executor.py:142-173 | whatever stops the execution before its try, nothing is marked, with or without a requested cancel |
| `ChatRunExecutor.FailedMarkLost` | apps/api/app/application/chat_run_executor.py:372-380 | a failed mark lost in the repository leaves the row as it was |
| `ChatRunExecutor.CancelBeforeFailedMark` | apps/api/app/application/chat_run_executor.py:258-261 | a cancel requested between a failed commit and the failed mark leaves the run cancel-requested, though it was running at the commit |
| `ChatRunExecutor.BothMarksLost` | apps/api/app/application/chat_run_executor.py:392-403 | a cancelled task whose two marks are lost leaves the row as it was |
| `ChatRunExecutor.CancelledTwice` | apps/api/app/application/chat_run_executor.py:392-403 | a second cancel during the first mark ends the execution without the interrupted mark |
| `ChatRunExecutor.ARowIsRunning` | apps/api/app/application/postgres_chat_run_repository.py:65-201 | such rows exist: four transactions lead to one |
| `ChatRunExecutor.SweepEndsIt` | apps/api/app/application/postgres_chat_run_repository.py:374-404 | a row left active is interrupted by a sweep that finds its heartbeat old |
| `ChatRunExecutor.MarkHitsExactly` | apps/api/app/application/postgres_chat_run_repository.py:491-527 | a mark changes the tables exactly when it takes effect on a row that names its worker in a status it allows, and then it ends the row and leaves the token |
| `ChatRunExecutor.LateMarksExactly` | apps/api/app/application/chat_run_executor.py:239-250 | for every pause followed by a late cancel, whatever others do before and between the marks and however the two calls fare: each mark that is sent changes the tables if and only if it hits, that is takes effect on a row naming this worker, of any token, in a status it allows; the second is sent exactly after a repository fault of the first |
| `ChatRunExecutor.PausedMarksMiss` | apps/api/app/application/chat_run_executor.py:239-250 | as long as this worker does not start the run again before the marks are through, they change nothing |
| `ChatRunExecutor.LateCancelHitsSuccessor` | apps/api/app/application/chat_run_executor.py:392-403 | whatever execution owns the token of a row that is hit: its run is cancelled by the first mark or interrupted by the second, under its own token |
| `ChatRunExecutor.RunningSuccessorIsHit` | apps/api/app/application/chat_run_executor.py:392-403 | a running successor on the same worker is interrupted |
| `ChatRunExecutor.CancellingSuccessorIsHit` | apps/api/app/application/chat_run_executor.py:392-403 | one that is asked to cancel is cancelled by the first mark |
| `ChatRunExecutor.StartedBetweenMarksIsHit` | apps/api/app/application/chat_run_executor.py:392-403 | one that starts between the marks, after the first was refused, is interrupted by the second |
| `ChatRunExecutor.SameWorkerResumes` | apps/api/app/application/postgres_chat_run_repository.py:243-282 | a resume and a second start on the same worker lead to the running successor |
| `ChatRunExecutor.SameWorkerResumesAndCancels` | apps/api/app/application/postgres_chat_run_repository.py:309-339 | with a cancel request besides, to the one that is asked to cancel |
| `ChatRunExecutor.SameWorkerStartsBetween` | apps/api/app/application/postgres_chat_run_repository.py:243-282 | a start between the marks leads to the one only the second mark meets |
| `ChatRunExecutor.Executor.Others` | apps/api/app/application/chat_run_executor.py:135-273 | the transactions of others between two calls |
| `ChatRunExecutor.Executor.SendMark` | apps/api/app/application/chat_run_executor.py:372-403 | one mark with this worker's name, answered or broken, and the fault its caller sees |
| `ChatRunExecutor.Executor.MarkFailed` | apps/api/app/application/chat_run_executor.py:372-380 | the failed mark, every fault of it swallowed |
| `ChatRunExecutor.Executor.MarkCancelledOrInterrupted` | apps/api/app/application/chat_run_executor.py:392-403 | the cancelled mark, then, after a fault of the repository only, the interrupted one |
| `ChatRunExecutor.Executor.Pause` | apps/api/app/application/chat_run_executor.py:189-195 | the pause transaction, answered or broken |
| `ChatRunExecutor.Executor.Complete` | apps/api/app/application/chat_run_executor.py:212-221 | the commit transaction, answered or broken |
| `ChatRunExecutor.Executor.PersistOutcome` | apps/api/app/application/chat_run_executor.py:173-261 | the durable step sets its flag only when the call is answered, and leads to the specified handler |
| `ChatRunExecutor.Executor.ExecuteRunning` | apps/api/app/application/chat_run_executor.py:135-273 | the code with its flags, handlers and swallowed faults ends as the specified execution does, with the same tables |
| `References.ParseWritten` | apps/api/app/agentic/references.py:12-18 | a reference written from a call id and plain path parts reads back as exactly those |
| `References.LookupPath` | apps/api/app/agentic/references.py:21-28 | the loop finds a value exactly when each part of the path is a key of the dictionary reached, and returns it |
| `References.ResolveErrors` | apps/api/app/agentic/nodes/tools.py:340-382 | the errors of resolving nested arguments are those of the references found in them, one by one and in order |
| `References.OnlyTargetErrors` | apps/api/app/agentic/nodes/tools.py:365-382 | when every reference parses and names a finished call, only a failed target or a missing path can go wrong |
| `References.ReferenceResolvesExactly` | apps/api/app/agentic/nodes/tools.py:364-382 | resolving a reference gives a value without an error if and only if it parses, its call ended well, and the value ends a walk that starts at what that call's result shows under the first part of the path (data, source and the rest) and goes from dictionary to entry under each further part |
| `References.ResolvesExactly` | apps/api/app/agentic/nodes/tools.py:340-362 | resolving goes through if and only if there is a value the argument becomes, and gives that one: references give way to what they stand for, keys, order, list lengths and everything else stay |
| `References.NothingToResolve` | apps/api/app/agentic/nodes/tools.py:340-362 | a value without references stays as it is |
| `PlanContracts.ValidateToolCalls` | apps/api/app/agentic/planning/contracts.py:246-265 | the loop reports exactly the specified errors in order |
| `PlanContracts.NoCallErrors` | apps/api/app/agentic/planning/contracts.py:246-265 | no error exactly when call ids are distinct and every tool is registered |
| `PlanContracts.ValidateReferences` | apps/api/app/agentic/planning/contracts.py:268-322 | the nested loops report exactly the specified errors in order |
| `PlanContracts.NoReferenceErrors` | apps/api/app/agentic/planning/contracts.py:268-322 | no error exactly when every reference found in a declared argument of a registered call parses, names an earlier call, and, when that call's tool is registered, goes to an output path it declares, of a kind the argument accepts from that tool and path |
| `PlanContracts.NoReferenceError` | apps/api/app/agentic/planning/contracts.py:281-322 | the same for one reference |
| `PlanContracts.ValidateRequiredReferences` | apps/api/app/agentic/planning/contracts.py:325-342 | the loop reports exactly the specified errors |
| `PlanContracts.NoRequiredReferenceErrors` | apps/api/app/agentic/planning/contracts.py:325-342 | no error exactly when every argument that is given and must be a reference is one |
| `PlanContracts.ValidateToolArgs` | apps/api/app/agentic/planning/contracts.py:345-352 | the loop reports exactly the specified errors |
| `PlanContracts.NoToolArgErrors` | apps/api/app/agentic/planning/contracts.py:345-352 | no error exactly when every registered call uses declared argument names only and its planned values fit the input model |
| `PlanContracts.NoOutputContractErrors` | apps/api/app/agentic/planning/contracts.py:391-430 | no error exactly when the output contract exists, the required kinds are known, cover it and stay within it, and its tools are called |
| `PlanContracts.ValidatePlanAgainstCatalog` | apps/api/app/agentic/planning/contracts.py:118-144 | all checks in order, exactly as specified |
| `PlanContracts.PlanAccepted` | apps/api/app/agentic/planning/contracts.py:118-144 | a plan is accepted if and only if ids are distinct, tools known, mocks off, the call limit kept, every reference allowed (parses, earlier call, declared output path, accepted kind), every argument that must be a reference is one, argument names declared and values fitting, the output contract exists and its evidence and tools are there, and every required kind is produced by a tool of the plan; no error function is named |
| `PlanFaults.ReferenceErrorIs` | apps/api/app/agentic/planning/contracts.py:281-322 | one reference reports an error if and only if that is what is wrong with it |
| `PlanFaults.PlanErrorsAre` | apps/api/app/agentic/planning/contracts.py:118-144 | the plan checks report an error if and only if it is due: for every error the condition on the plan, its calls and the catalogue |
| `PlanContracts.ValidPlanIsExecutable` | apps/api/app/agentic/planning/contracts.py:118-144 | every reference of an accepted plan parses and names an earlier call of the plan, and its tools can produce all required evidence |
| `PlanContracts.GoodCallTargets` | apps/api/app/agentic/planning/contracts.py:268-322 | the references nested anywhere in an accepted call's arguments name earlier calls |
| `Plans.Find` | apps/api/app/agentic/planning/contracts.py:246-265 | a registered tool is found exactly when one has that name |
| `Plans.Produced` | apps/api/app/agentic/planning/contracts.py:368-388 | exactly the evidence kinds the registered tools among the calls produce |
| `RecoveryPlanning.SelectionIsChoice` | apps/api/app/agentic/runtime/recovery.py:58-77 | every combination tried is a choice of exactly that many different tools |
| `RecoveryPlanning.ChoiceIsSelected` | apps/api/app/agentic/runtime/recovery.py:58-77 | every choice of that many different tools is tried |
| `RecoveryPlanning.FirstCountIsFirst` | apps/api/app/agentic/runtime/recovery.py:58-77 | the search answers the first count at which some combination covers the missing kinds |
| `RecoveryPlanning.MinimumIsLeast` | apps/api/app/agentic/runtime/recovery.py:58-77 | no set of unused tools that covers the missing kinds is smaller than the answer, and if there is one the search has an answer |
| `RecoveryPlanning.MinimumIsReached` | apps/api/app/agentic/runtime/recovery.py:58-77 | the answer is the size of a set of unused tools that covers the missing kinds |
| `RecoveryPlanning.RecoverableHasCover` | apps/api/app/agentic/runtime/recovery.py:34-77 | when missing evidence is judged recoverable the minimum exists, so the missing-cover error is unreachable |
| `RecoveryPlanning.RecoverableExactly` | apps/api/app/agentic/runtime/recovery.py:34-55 | missing evidence is recoverable if and only if there is some and every missing kind is required, names no failed call, and is produced by a tool no call used |
| `RecoveryPlanning.DedupeKeepsFirst` | apps/api/app/agentic/runtime/recovery.py:34-55 | what was seen first comes first, and once |
| `Decisions.ValidateControllerDecision` | apps/api/app/agentic/planning/decisions.py:141-194 | reports exactly the specified errors for each kind of decision |
| `Decisions.DecisionAccepted` | apps/api/app/agentic/planning/decisions.py:141-194 | when each decision is accepted: a direct answer when it covers the metrics asked for, a clarification when it names a field, missing context and capability boundary always, a plan when it is not empty, routed to one place and passes the catalogue checks |
| `PlanFaults.DecisionErrorsAre` | apps/api/app/agentic/planning/decisions.py:141-194 | a decision draws an error if and only if it is due; a misrouted plan is looked at no further |
| `Decisions.EffectiveTells` | apps/api/app/agentic/planning/decisions.py:89-127 | a kind is required if and only if the plan, its output contract or one of its tools asks for it |
| `Decisions.AcceptedPlanHasOneDestination` | apps/api/app/agentic/planning/decisions.py:141-194 | an accepted plan is not empty, passes the catalogue checks for its effective evidence, and goes to one place only: all its tools feed the controller and it requires no evidence, or none does |
| `Decisions.ValidateParts` | apps/api/app/agentic/planning/recovery.py:20-22 | reports exactly the unchangeable parts that differ |
| `Decisions.ValidateKept` | apps/api/app/agentic/planning/recovery.py:24-31 | reports exactly the faults of the kept prefix, whose arguments are compared as Python dictionaries |
| `Decisions.ValidateAppended` | apps/api/app/agentic/planning/recovery.py:33-73 | reports exactly the faults of the appended calls |
| `Decisions.ValidateReplanDecision` | apps/api/app/agentic/planning/recovery.py:6-74 | reports exactly the specified faults of a replan |
| `Decisions.AcceptedReplanExtends` | apps/api/app/agentic/planning/recovery.py:6-74 | an accepted replan has the first plan's calls, with the same ids and tools and arguments equal in Python, and appended ones: new ids, tools unused so far, each producing something missing, at least one and at most the remaining budget, everything else unchanged |
| `Decisions.AcceptedReplanIsBetweenBounds` | apps/api/app/agentic/planning/recovery.py:29-73 | an accepted replan appends at least the minimum number of calls and at most the remaining budget |
| `Decisions.AskController` | apps/api/app/agentic/planning/controller.py:94-367 | at most one reply for each configured call, each rejected one answered with its errors: the loop decides exactly as specified |
| `Decisions.DecideExactly` | apps/api/app/agentic/planning/controller.py:94-367 | the decision is the first accepted candidate if no call broke before it; the failure is one of planning if and only if a call broke first or all were rejected and the last reply was no JSON, and one of validation if and only if all were rejected and the last was JSON |
| `Decisions.DecidedIsAccepted` | apps/api/app/agentic/planning/controller.py:94-367 | whatever the controller decides on has passed the decision checks and, on a replan, the replan checks |
| `ToolExecution.FingerprintIdentifies` | apps/api/app/agentic/runtime/recovery.py:15-31 | two calls share a fingerprint text exactly when tool, arguments and context agree up to the order of keys |
| `ToolExecution.Execute` | apps/api/app/agentic/tools/executor.py:16-75 | a handler is entered only below the tool limit; the budget failure is reported only at the limit; a result names its own call |
| `ToolExecution.StoppedRunsStay` | apps/api/app/agentic/nodes/tools.py:136-255 | after a runtime failure the rest of the plan is not looked at |
| `ToolExecution.RunCallOutcome` | apps/api/app/agentic/nodes/tools.py:57-306 | one outcome per call; an unresolved call lists the errors of its references; the tool budget stops a call only when it is used up, and a call uses at most one unit |
| `ToolExecution.RunCallExactly` | apps/api/app/agentic/nodes/tools.py:57-306 | the arguments a call's own become are the ones the cache is asked for, the input model judges and the handler is given; the outcome is reuse, refusal, stop or entry exactly when each is due, and leaves exactly its result, record, spending, cache entry and failure; without such arguments the call is unresolved |
| `ToolExecution.ResolvedArgsExist` | apps/api/app/agentic/nodes/tools.py:90-128 | a call that is not unresolved has such arguments |
| `ToolExecution.ResultsFollowPlan` | apps/api/app/agentic/nodes/tools.py:57-306 | results and dispatch records are one and the same prefix of the plan's calls, by id and tool |
| `ToolExecution.ResultsByCallId` | apps/api/app/agentic/nodes/tools.py:79-89 | what a reference to a call finds is that call's own result |
| `ToolExecution.RunAccounts` | apps/api/app/agentic/nodes/tools.py:129-263 | each fingerprint enters its handler at most once, the counter equals the handler entries and stays within the limit, the cache only grows |
| `ToolExecution.ValidPlansResolve` | apps/api/app/agentic/nodes/tools.py:340-382 | a plan whose references name earlier calls never meets an invalid reference or an unavailable target |
| `ToolExecution.CleanCall` | apps/api/app/agentic/nodes/tools.py:57-306 | a call that adds no error leaves its success under its own id in the cache |
| `ToolExecution.CleanRunIsReplayable` | apps/api/app/agentic/nodes/tools.py:134-306 | after a pass without errors all its results can be read back from the cache alone |
| `ToolExecution.ReplaySurvivesGrowth` | apps/api/app/agentic/nodes/tools.py:134-158 | what can be read back stays so while the cache grows |
| `ToolExecution.PrefixComesFromCache` | apps/api/app/agentic/nodes/tools.py:134-198 | the pass over such a prefix gives the same results with no handler entry, no budget, no error and an unchanged cache |
| `ToolExecution.AppendedFitBudget` | apps/api/app/agentic/nodes/tools.py:134-255 | calls appended after such a prefix, no more than what is left of the budget, are never stopped by an exhausted tool budget |
| `PythonValues.TrueIsOne` | apps/api/app/agentic/planning/recovery.py:30-31 | true equals one and false zero in the comparison |
| `PythonValues.ListsEqual` | apps/api/app/agentic/planning/recovery.py:30-31 | lists are equal item by item |
| `PythonValues.DictionariesEqual` | apps/api/app/agentic/planning/recovery.py:30-31 | dictionaries are equal exactly when they have the same keys and equal values under each, in whatever order |
| `PythonValues.ResolveCanon` | apps/api/app/agentic/nodes/tools.py:340-362 | resolving arguments commutes with sorting their keys |
| `PythonValues.CanonResolves` | apps/api/app/agentic/nodes/tools.py:340-362 | whether arguments resolve does not depend on the order of keys |
| `PythonValues.ResolvingKeepsApart` | apps/api/app/agentic/nodes/tools.py:340-362 | values that differ only in true for one still differ after their references are resolved |
| `PythonValues.ResolvedAgreeExactly` | apps/api/app/agentic/nodes/tools.py:340-362 | of two values equal in Python the resolved canonical forms agree if and only if the unresolved ones do |
| `CacheSources.ContextPassKeeps` | apps/api/app/agentic/nodes/tools.py:258-262 | a pass over context tools adds entries of context tools only |
| `CacheSources.CleanPassMakes` | apps/api/app/agentic/nodes/tools.py:258-262 | a pass without errors adds entries of its own calls only |
| `CacheSources.SameArgsSameFingerprint` | apps/api/app/agentic/runtime/recovery.py:15-31 | arguments that differ in key order only resolve alike and have one fingerprint |
| `CacheSources.SameFingerprintSameArgs` | apps/api/app/agentic/runtime/recovery.py:15-31 | calls that are equal in Python share a fingerprint only if their arguments agree up to key order |
| `CacheSources.EntryIsOwn` | apps/api/app/agentic/nodes/tools.py:134-158 | an entry under a kept call's fingerprint and id was made for the call it repeats |
| `CacheSources.QuietPassReuses` | apps/api/app/agentic/nodes/tools.py:134-306 | a pass without errors that spends nothing reuses every call |
| `CacheSources.KeptCallsReplayExactly` | apps/api/app/agentic/nodes/tools.py:134-198 | kept calls go through without error or budget if and only if each has the arguments of the call it repeats up to key order, and then all are reused with the same results |
| `ToolPass.Pass.constructor` | apps/api/app/agentic/nodes/tools.py:45-56 | a pass starts from the run's cache, counters and errors |
| `ToolPass.Pass.Record` | apps/api/app/agentic/nodes/tools.py:79-89 | the lists, the result dictionary and the record grow together |
| `ToolPass.Pass.Stop` | apps/api/app/agentic/nodes/tools.py:230-255 | a runtime failure ends the pass and adds its message once |
| `ToolPass.Pass.Dispatch` | apps/api/app/agentic/nodes/tools.py:200-306 | gate, count, handler and cache exactly as specified |
| `ToolPass.Pass.RunOne` | apps/api/app/agentic/nodes/tools.py:58-306 | the loop body is the specified step for one call; what the step does is said by RunCallExactly |
| `ToolPass.Pass.RunAll` | apps/api/app/agentic/nodes/tools.py:57-306 | the loop is the specified pass |
| `ContextMessages.MergeMessages` | apps/api/app/agentic/graph.py:621-632 | the dictionary update and sort give the fold of all messages, existing ones first |
| `ContextMessages.MergeHoldsLatest` | apps/api/app/agentic/graph.py:621-632 | the merged list is in conversation order and holds exactly the latest message of every turn and role |
| `ContextMessages.MergeAgain` | apps/api/app/agentic/graph.py:621-632 | merging the same retrieved messages again changes nothing |
| `AgentState.OutcomeIsStable` | apps/api/app/agentic/runtime/summaries.py:15-96 | resolving the outcome again after it was written into the state gives the same outcome |
| `AgentState.SummariesExist` | apps/api/app/agentic/runtime/summaries.py:99-145 | with matching and unique records every call is summarised by its own record, in order, so the record builder never raises |
| `AgentSafety.InitSteps` | apps/api/app/agentic/nodes/run_init.py:10-35 | the first node makes the run ready for the controller |
| `AgentSafety.ControllerSteps` | apps/api/app/agentic/nodes/controller.py:10-85 | the controller node keeps the invariant: it ends the attempt or leaves an accepted decision, one call closer to the limit |
| `AgentSafety.DecisionValidateSteps` | apps/api/app/agentic/nodes/decision_validate.py:15-81 | checking the accepted decision again never rejects it and routes it to one of two nodes |
| `AgentSafety.ConversationAnswerSteps` | apps/api/app/agentic/nodes/conversation_answer.py:5-21 | a direct answer ends the attempt |
| `AgentSafety.ValidateSteps` | apps/api/app/agentic/nodes/validate.py:6-38 | the third look at an accepted plan never rejects it |
| `AgentSafety.PassFacts` | apps/api/app/agentic/nodes/tools.py:45-317 | what a pass over an accepted plan leaves: matching unique records, paid handlers, a grown cache, and without errors a replayable plan |
| `AgentSafety.BaselineSurvives` | apps/api/app/agentic/nodes/recovery.py:112-121 | a baseline that can be replayed stays so while the cache grows |
| `AgentSafety.ReplanIsNoContextPlan` | apps/api/app/agentic/graph.py:587-599 | an accepted replan is never a context plan, since it keeps the evidence calls of the first |
| `AgentSafety.ToolsStep` | apps/api/app/agentic/graph.py:327-371 | the tools node ends the attempt or routes by destination, keeping the invariant |
| `AgentSafety.ControllerContextSteps` | apps/api/app/agentic/graph.py:352-360 | context results return to the controller with everything of the pass cleared but cache, counters and messages |
| `AgentSafety.EvidenceSteps` | apps/api/app/agentic/nodes/evidence.py:6-23 | any evidence graph keeps the invariant |
| `AgentSafety.AnswerSteps` | apps/api/app/agentic/nodes/answer.py:12-57 | any answer keeps the invariant and its budget |
| `AgentSafety.CriticSteps` | apps/api/app/agentic/nodes/critic.py:5-19 | any review ends the attempt |
| `AgentSafety.FinalizeAttemptWrites` | apps/api/app/agentic/runtime/finalization.py:7-26 | exactly one record is appended, at the attempt's own index, with the resolved outcome, the decision, whether it is the recovered attempt, and a summary of every call by its result and record; the state takes the outcome and changes nowhere else |
| `AgentSafety.FinalizeAttemptSteps` | apps/api/app/agentic/runtime/finalization.py:7-26 | the contiguity assertion never fires |
| `AgentSafety.RecoveryChoices` | apps/api/app/agentic/nodes/recovery.py:18-136 | recovery ends the run unchanged, fails it on the deadline, exhausts the replan, or starts the one replan from the first attempt with a non-empty set of missing evidence |
| `AgentSafety.RecoverySteps` | apps/api/app/agentic/nodes/recovery.py:18-136 | no assertion of the recovery node fires; it leads to the end of the run or to the one replan |
| `AgentSafety.ResetSteps` | apps/api/app/agentic/nodes/attempt_reset.py:7-27 | the reset never finds anything to complain about; the second attempt starts with cache, budget and baseline intact |
| `AgentSafety.ResetStartsOver` | apps/api/app/agentic/runtime/reset.py:7-70 | the second attempt starts as a new request does, but for its index and what the run keeps: budget, attempt records, feedback, first plan, cache, context count and messages |
| `AgentSafety.FinalizeRunSteps` | apps/api/app/agentic/runtime/finalization.py:29-49 | the assertions on the final state never fire |
| `AgentSafety.ResponseSteps` | apps/api/app/agentic/nodes/response.py:16-86 | the preconditions of the response node always hold |
| `AgentSafety.EveryStep` | apps/api/app/agentic/graph.py:201-302 | from every reachable state, whatever the model, tools, evidence and clock do, a step trips no assertion, lands in a reachable state and lowers the measure (attempts left, controller calls left, node rank) |
| `AgentTheorems.NeverCrashes` | apps/api/app/agentic/graph.py:201-302 | over every run of a fresh request no runtime assertion ever fires, and every step uses up part of the bound |
| `AgentTheorems.EveryRunEnds` | apps/api/app/agentic/graph.py:76-152 | every fresh run ends within five nodes per allowed controller call and ten more, with one or two contiguous attempt records, every counter within its limit, and a told outcome: status Fine if and only if no controller or validation failure, no failed tool, no failed or insufficient answer, no runtime failure, nothing missing, no failed review and no clarification, missing context or boundary; each response type if and only if its own signals; the response shows exactly that; a second attempt exists only after a first that lacked evidence |
| `AgentOutcomes.EndedTells` | apps/api/app/agentic/runtime/summaries.py:15-96 | however an attempt ends, its outcome has the response type of its signals, the status, words and stages that go with it, and is Fine exactly when nothing went wrong |
| `AgentOutcomes.StepTells` | apps/api/app/agentic/graph.py:201-302 | every step keeps what is known about the outcome to come |
| `AgentOutcomes.StepRecords` | apps/api/app/agentic/runtime/finalization.py:7-26 | only a second attempt is a recovered one, and there is one only after a first that lacked evidence |
| `AgentOutcomes.ResponseTells` | apps/api/app/agentic/nodes/response.py:16-86 | the response is the told outcome: status and type, the code of a failure, after a failure of the controller nothing else, and otherwise the plan and every result |
| `AgentOutcomes.RecoveryDecides` | apps/api/app/agentic/nodes/recovery.py:18-136 | recovery ends the run, times out, gives up or starts the replan exactly when each is due: a replan if and only if the first attempt lacks evidence, the deadline has not passed, everything missing is recoverable, and some set of unused tools that produces it fits the tool budget and the plan's limit with a controller call left |
| `AgentOutcomes.ReplanFeedback` | apps/api/app/agentic/nodes/recovery.py:82-136 | a replan starts from the first plan and results and is told exactly what is missing, which calls were made, and the most calls both limits allow |
| `AgentSignals.SignalsWereSaid` | apps/api/app/agentic/graph.py:201-302 | over every run: whatever evidence, answer, verdict or decision the state holds was given by its collaborator at that node of this run, and it times out only if the deadline passed |
| `AgentSignals.RetrievedIsLatest` | apps/api/app/agentic/graph.py:602-654 | over every run the controller sees of all messages read so far the latest of every turn and role, in conversation order |
| `AgentSignals.BlockedNodesStop` | apps/api/app/agentic/graph.py:488-498 | a guarded node whose deadline has passed or whose budget is used up asks nobody: the attempt ends with the failure of its gate and nothing is spent |
| `AgentSignals.OpenNodesListen` | apps/api/app/agentic/graph.py:304-413 | a node that is not blocked takes what its collaborator says into the state and counts the call |
| `AgentSignals.ContextLimitExactly` | apps/api/app/agentic/graph.py:327-350 | in time the tools node makes the calls of the plan, taking over exactly what the pass leaves, unless they all read context and there are more of them than the run may still make: then the attempt ends there with nothing entered or spent |
| `AgentTheorems.HandlersRunOnce` | apps/api/app/agentic/tools/executor.py:45-75 | in every reachable state each fingerprint entered its handler at most once over both attempts and all context passes, the tool counter equals the handler entries, context executions stay within their limit, and a fresh run never waits at the checkpoint |
| `AgentTheorems.AcceptedPlansResolve` | apps/api/app/agentic/nodes/tools.py:57-306 | a pass in a reachable state meets no invalid reference or unavailable target, and its results and records are the same prefix of distinct call ids |
| `AgentTheorems.ReplanReplaysExactly` | apps/api/app/agentic/nodes/tools.py:134-255 | in every reachable state of a second attempt: the kept calls give the first attempt's results again, all from the cache, with no handler entry or budget, and no appended call is stopped by an exhausted tool budget, if and only if the kept calls have the arguments they had up to key order; and exactly then they go through without an error or any budget spent |
| `AgentTheorems.EveryToolsNode` | apps/api/app/agentic/graph.py:327-350 | both hold whenever any fresh run reaches its tools node, whatever was accepted |
| `AgentExample.AReplanReachesItsTools` | apps/api/app/agentic/nodes/recovery.py:82-136 | for every fresh request under one small catalogue there are runs in which a replan is accepted and the second attempt reaches the tools node, one with the same arguments and one with true written for 1 |
| `AgentExample.AnAcceptedReplanDoesNotReplay` | apps/api/app/agentic/planning/recovery.py:29-31 | in the second of them the kept call enters its handler again and the appended call is stopped by the tool budget: acceptance alone does not promise a replay |
| `AgentTheorems.ErrorsStayInside` | apps/api/app/agentic/nodes/response.py:16-86 | however a fresh run ends, its response holds no raw error text; a safe failure shows no plan, results or errors; otherwise nothing is dropped |
| `AgentRun.AgentRunner.constructor` | apps/api/app/agentic/graph.py:76-100 | a run starts from the request's fresh state |
| `AgentRun.AgentRunner.Guard` | apps/api/app/agentic/runtime/guards.py:11-26 | blocks exactly when the deadline has passed or the resource is exhausted, deadline first |
| `AgentRun.AgentRunner.ExecutePlan` | apps/api/app/agentic/nodes/tools.py:45-317 | runs the pass and writes its lists back |
| `AgentRun.AgentRunner.SummarizeCalls` | apps/api/app/agentic/runtime/summaries.py:99-145 | the loop summarises every call by its record, or reports the missing one |
| `AgentRun.AgentRunner.RunGuarded` | apps/api/app/agentic/graph.py:488-558 | a node behind its gate and the edge after it |
| `AgentRun.AgentRunner.StepOnce` | apps/api/app/agentic/graph.py:201-302 | one node and the edge after it are one step of the state machine |
| `AgentRun.AgentRunner.Run` | apps/api/app/agentic/graph.py:76-152 | the loop always terminates, never by an assertion, follows the state machine step by step, and unless a collaborator throws leaves a finished run |
| `SessionLedger.TokenEndsOnce` | apps/api/app/application/session_store.py:297-357 | over whole histories an owner token ends its request at most once, by completing it with its one turn or by failing it |
| `SessionLedger.SupersededTokenIsDead` | apps/api/app/application/session_store.py:278-287 | once a newer token was granted for a request, the older one can neither complete nor fail anything |
| `SessionLedger.ReplayWasCommitted` | apps/api/app/application/session_store.py:249-295 | a replay returns a response that an earlier completion of the same request with the same payload stored |
| `SessionLedger.LogIsNewestTurns` | apps/api/app/application/session_store.py:447-454 | the kept turns are the newest of all appended ones, as many as the limit allows, and all indexes are consecutive |
| `SessionLedger.KeptCount` | apps/api/app/application/session_store.py:447-454 | the number kept is the smaller of the limit and all turns; a limit of zero keeps all |
| `SessionLedger.ClaimsTell` | apps/api/app/application/session_store.py:249-357 | every claim in the table tells the truth about the history that led to it |
| `SessionLedger.TokensGrantedOnce` | apps/api/app/application/session_store.py:278-287 | fresh owner tokens are granted once |
| `MemorySession.PurgeExpired` | apps/api/app/application/session_store.py:456-464 | the loop over the records is the specified purge |
| `MemorySession.PurgeForgets` | apps/api/app/application/session_store.py:456-464 | exactly the expired finished records are forgotten, never one in progress |
| `MemorySession.TrimRecords` | apps/api/app/application/session_store.py:466-478 | the loop is the specified trim |
| `MemorySession.TrimForgets` | apps/api/app/application/session_store.py:466-478 | only finished records are forgotten, until the limit is kept or only records in progress are left |
| `MemorySession.FirstFinished` | apps/api/app/application/session_store.py:470-477 | finds the first finished record in the order, every earlier one being in progress, and none exactly when all are |
| `MemorySession.TrimTakesOldest` | apps/api/app/application/session_store.py:466-478 | the records trimmed are finished ones, each before every finished one that stays, and no more than had to go |
| `MemorySession.BeginRequest` | apps/api/app/application/session_store.py:249-295 | the branches of begin are the specified ones |
| `MemorySession.BeginAnswersExactly` | apps/api/app/application/session_store.py:249-295 | conflict, replay and grant exactly when each is due; a grant answers with the caller's token and says takeover exactly when a live record was there, and leaves that record in progress |
| `MemorySession.FailAnswersExactly` | apps/api/app/application/session_store.py:329-357 | a failure mark is answered already completed or marked exactly when each is due |
| `MemorySession.BeginTouchesLast` | apps/api/app/application/session_store.py:249-295 | whatever record a begin finds or writes is the newest then, the others keeping their order |
| `MemorySession.EndTouchesLast` | apps/api/app/application/session_store.py:297-357 | so is a record that was completed or marked failed, unless trimming took it |
| `MemorySession.BeginRefines` | apps/api/app/application/session_store.py:249-295 | begin is nothing but ledger events: what was forgotten, then a replay, a conflict, an in-progress answer, or one grant |
| `MemorySession.CompleteRefines` | apps/api/app/application/session_store.py:297-327 | an owner's completion is one completion event with its turn, then what trimming forgot |
| `MemorySession.FailRefines` | apps/api/app/application/session_store.py:329-357 | marks the record failed exactly for its owner in progress; otherwise nothing changes |
| `MemorySession.AppendRefines` | apps/api/app/application/session_store.py:447-454 | an append is one append event |
| `SessionLocks.ArriveKeeps` | apps/api/app/application/session_store.py:361-362 | entering keeps: lease count equals holders plus waiters, one shared lock object per session in use, one holder |
| `SessionLocks.AcquireKeeps` | apps/api/app/application/session_store.py:367-387 | acquiring keeps it |
| `SessionLocks.ReleaseKeeps` | apps/api/app/application/session_store.py:390-393 | releasing keeps it and the transaction no longer holds |
| `SessionLocks.DepartKeeps` | apps/api/app/application/session_store.py:394-401 | leaving keeps it: a lock object is dropped only when nobody is inside |
| `SessionLocks.ForgetKeeps` | apps/api/app/application/session_store.py:480-494 | dropping the lock object of a session nobody is inside of keeps it |
| `SessionLocks.MutualExclusion` | apps/api/app/application/session_store.py:360-402 | two transactions inside one session wait on the same lock object, and at most one of them holds |
| `MemoryStore.FirstIdle` | apps/api/app/application/session_store.py:480-494 | finds the first session in the order without a lease, every earlier one being leased, and none exactly when all are leased |
| `MemoryRecency.EvictsOldest` | apps/api/app/application/session_store.py:480-494 | eviction takes idle sessions only, each before every idle one that stays, no more than it has to, and keeps the order of the others |
| `MemoryRecency.OrderIsRecency` | apps/api/app/application/session_store.py:480-494 | over every run, of two stored sessions the one that comes first in the order was last used earlier, by a holder's operation or a read |
| `MemoryRecency.EvictedIsLeastRecent` | apps/api/app/application/session_store.py:480-494 | over every run, a session evicted was last used earlier than every idle session that stays |
| `MemoryRecency.StoredWasUsed` | apps/api/app/application/session_store.py:416-422 | over every run every stored session was used |
| `MemoryStore.EvictKeeps` | apps/api/app/application/session_store.py:480-494 | eviction ends within capacity or with everything leased, never touches a leased session or its lock, and keeps all histories true |
| `MemoryStore.GetOrCreateKeeps` | apps/api/app/application/session_store.py:416-422 | the session a holder asks for is there afterwards with the data it had |
| `MemoryStore.ArriveOpKeeps` | apps/api/app/application/session_store.py:361-362 | entering a transaction keeps the store good: locks safe, order complete, within capacity or all leased, every session the ledger of its history |
| `MemoryStore.AcquireOpKeeps` | apps/api/app/application/session_store.py:367-387 | acquiring keeps the store good |
| `MemoryStore.LeaveOpKeeps` | apps/api/app/application/session_store.py:389-402 | leaving, as a holder or a cancelled waiter, keeps the store good |
| `MemoryStore.BeginOpKeeps` | apps/api/app/application/session_store.py:249-295 | a begin with a fresh token keeps the store good and never finds a completed record without a response |
| `MemoryStore.CompleteOpKeeps` | apps/api/app/application/session_store.py:297-327 | a completion, granted or refused, keeps the store good |
| `MemoryStore.RefusedCompletionChangesExactly` | apps/api/app/application/session_store.py:297-327 | a completion is refused exactly for a non-holder or a claim not owned; it has then changed the sessions if and only if a holder's session was absent, and only by the empty session and the idle ones evicted for it |
| `MemoryStore.FailOpKeeps` | apps/api/app/application/session_store.py:329-357 | a failure mark keeps the store good |
| `MemoryStore.AppendOpKeeps` | apps/api/app/application/session_store.py:243-247 | an append keeps the store good |
| `MemoryStore.GetOpKeeps` | apps/api/app/application/session_store.py:233-241 | a read keeps the store good |
| `MemoryStore.ClearOpKeeps` | apps/api/app/application/session_store.py:443-445 | clearing the data of a held session keeps the store good |
| `MemoryStore.EverySessionIsALedger` | apps/api/app/application/session_store.py:165-494 | every stored session is the ledger its history leads to: its turns are the newest of all appended since it was created, its next index one more than their number |
| `MemoryStore.AppendAnswersExactly` | apps/api/app/application/session_store.py:243-247 | an append answers a holder with the turn it stored, the next of all; anybody else is refused and nothing changes |
| `MemoryStore.CompleteAnswersExactly` | apps/api/app/application/session_store.py:297-327 | a completion answers the owner of the claim in the same way |
| `MemoryStore.GetAnswersExactly` | apps/api/app/application/session_store.py:233-241 | a read answers with the newest turns, as many as are kept and asked for, and changes nothing but the order of use |
| `MemoryStore.ClearAnswersExactly` | apps/api/app/application/session_store.py:443-445 | clearing makes a held session new again and touches no other |
| `MemoryRuns.EveryRunIsGood` | apps/api/app/application/session_store.py:165-494 | over every run, with tasks entering, waiting, being cancelled and leaving in any order: locks safe, within capacity or everything stored leased, every session the ledger of its history |
| `MemoryRuns.CounterFallsExactly` | apps/api/app/application/session_store.py:385-401 | for every operation from a good store: a session's fencing counter disappears or goes down if and only if the last user leaves it while it has no data |
| `MemoryRuns.TokensIncreaseUnlessForgotten` | apps/api/app/application/session_store.py:385-387 | over every run two acquisitions of one session draw strictly increasing tokens unless it was forgotten between them |
| `MemoryRuns.TokensBelongToHolders` | apps/api/app/application/session_store.py:367-401 | over every run a session has a fencing token exactly while it is held, and it is the last its counter drew |
| `MemoryRuns.SameTokenTwice` | apps/api/app/application/session_store.py:394-401 | a session entered and left without data draws the same token twice |
| `InMemorySessionStore.Store.constructor` | apps/api/app/application/session_store.py:185-208 | starts empty |
| `InMemorySessionStore.Store.EnterTransaction` | apps/api/app/application/session_store.py:361-362 | the dictionaries updated in place are the specified step |
| `InMemorySessionStore.Store.AcquireLock` | apps/api/app/application/session_store.py:367-387 | the specified step, and the token drawn is one more than the session's last |
| `InMemorySessionStore.Store.ExitTransaction` | apps/api/app/application/session_store.py:389-402 | the specified step for holders and waiters |
| `InMemorySessionStore.Store.ReleaseLock` | apps/api/app/application/session_store.py:390-393 | exactly the specified release |
| `InMemorySessionStore.Store.DropLease` | apps/api/app/application/session_store.py:394-401 | exactly the specified departure |
| `InMemorySessionStore.Store.EvictSession` | apps/api/app/application/session_store.py:480-494 | one eviction drops data, order entry and lock object together |
| `InMemorySessionStore.Store.EvictToCapacity` | apps/api/app/application/session_store.py:480-494 | the loop terminates and is the specified eviction, whose victims are said by EvictsOldest and EvictedIsLeastRecent |
| `InMemorySessionStore.Store.GetOrCreateSession` | apps/api/app/application/session_store.py:416-422 | exactly the specified lookup or creation with eviction |
| `InMemorySessionStore.Store.HolderGets` | apps/api/app/application/session_store.py:408-422 | for a checked holder the session exists afterwards |
| `InMemorySessionStore.Store.Append` | apps/api/app/application/session_store.py:243-247 | the specified operation, refused for a non-holder |
| `InMemorySessionStore.Store.BeginRequest` | apps/api/app/application/session_store.py:249-295 | the specified operation; the missing-response error is unreachable |
| `InMemorySessionStore.Store.CompleteRequestWithTurn` | apps/api/app/application/session_store.py:297-327 | the specified operation; refused completions store no turn |
| `InMemorySessionStore.Store.FailRequest` | apps/api/app/application/session_store.py:329-357 | the specified operation |
| `InMemorySessionStore.Store.Get` | apps/api/app/application/session_store.py:233-241 | the specified read, moving the session to the recent end |
| `InMemorySessionStore.Store.ClearSessionData` | apps/api/app/application/session_store.py:443-445 | the specified clear |
| `Json.RoundTrip` | apps/api/app/application/redis_models.py:61-63 | reading canonical text gives back the value written, for every JSON value |
| `Json.CanonicalTextDetermines` | apps/api/app/application/redis_models.py:61-63 | two values share their canonical text exactly when they agree up to the order of keys |
| `RedisModels.TurnText` | apps/api/app/application/redis_models.py:66-80 | a serialized turn ends in its turn index and the schema tail, as the scripts' pattern expects |
| `RedisModels.RecordText` | apps/api/app/application/redis_models.py:117-122 | so does a serialized request record with a turn index |
| `RedisModels.FindMatch` | apps/api/app/application/redis_session_store.py:109-115 | the leftmost place where the pattern matches, or none |
| `RedisModels.RewriteIsReserialize` | apps/api/app/application/redis_session_store.py:109-115 | rewriting the index inside such a text gives the text with the new index, at exactly one place, whatever the text before it contains |
| `RedisModels.RewrittenTurn` | apps/api/app/application/redis_session_store.py:109-115 | for every turn the rewrite equals serializing the turn with the new index, so the branch on the number of changes is dead for it |
| `RedisModels.RewrittenRecord` | apps/api/app/application/redis_session_store.py:181-187 | the same for every completed record written with index zero |
| `RedisModels.SplitOfText` | apps/api/app/application/redis_session_store.py:109-115 | the index read back from such a text is the one written |
| `RedisDecoding.RecordRoundTrip` | apps/api/app/application/redis_models.py:117-130 | decoding a serialized request record gives it back, its response in canonical key order |
| `RedisDecoding.TurnRoundTrip` | apps/api/app/application/redis_models.py:66-97 | decoding a serialized turn gives it back, its context in canonical key order |
| `RedisScripts.MakeRoomKeeps` | apps/api/app/application/redis_session_store.py:139-144 | the capacity loop removes finished records only and changes nothing else |
| `RedisScripts.MakeRoomTakesOldest` | apps/api/app/application/redis_session_store.py:139-144 | what goes to make room expires no later than anything that stays, and no more goes than has to |
| `RedisScripts.AcquireExactly` | apps/api/app/application/redis_session_store.py:72-84 | refused for a foreign schema, busy while the lock is held, otherwise granted under a number above every one drawn before, the lock then being the caller's |
| `RedisScripts.ReleaseFrees` | apps/api/app/application/redis_session_store.py:95-98 | releasing frees the lock for its own value only and changes nothing else |
| `RedisScripts.TakeoverForgetsExactly` | apps/api/app/application/redis_session_store.py:126-158 | a takeover writes its claim and forgets exactly what had expired |
| `RedisScripts.NewForgetsExactly` | apps/api/app/application/redis_session_store.py:126-158 | a new claim writes its record and forgets what had expired and, of the other finished requests, only the oldest until it fits |
| `RedisScripts.InProgressSurvives` | apps/api/app/application/redis_session_store.py:131-151 | neither expiry nor capacity ever removes another request in progress |
| `RedisScripts.RefusedBeginChangesExactly` | apps/api/app/application/redis_session_store.py:126-149 | a begin answered data_invalid has changed the keys if and only if the schema was acceptable and was not written yet or a finished record had expired; it touches no claim in progress |
| `RedisSessions.AppendRefines` | apps/api/app/application/redis_session_store.py:370-385 | an append by anybody is an append event for the lock owner and nothing otherwise |
| `RedisSessions.BeginRefines` | apps/api/app/application/redis_session_store.py:388-464 | the read, plan and script of a begin, with the record changing in between, are ledger events only |
| `RedisSessions.CompleteRefines` | apps/api/app/application/redis_session_store.py:467-543 | a completion is one completion event for the lock owner who saw the current record, and nothing otherwise |
| `RedisSessions.FailRefines` | apps/api/app/application/redis_session_store.py:546-594 | the same for a failure mark |
| `RedisSessions.StepRefines` | apps/api/app/application/redis_session_store.py:72-218 | every step of any client, lease ends included, keeps the keys sound (every text decodes; the index holds exactly the finished records) and is exactly its ledger events |
| `RedisRuns.EveryRunIsGood` | apps/api/app/application/redis_session_store.py:72-218 | over every run, with leases expiring and being retaken at any point, the stored data is the ledger of the events so far and the index holds exactly the finished records |
| `RedisRuns.OnlyTheOwnerWrites` | apps/api/app/application/redis_session_store.py:100-218 | a step changes data only when it carries the current lock value |
| `RedisRuns.LostForever` | apps/api/app/application/redis_session_store.py:72-98 | a lock value that was set and lost never comes back |
| `RedisRuns.FencingStrictlyIncreases` | apps/api/app/application/redis_session_store.py:72-84 | over every run, of two acquisitions of one session the later draws the larger number, however the first lease ended |
| `RedisRuns.IndexTellsExpiry` | apps/api/app/application/redis_session_store.py:126-218 | over every run the index and the records agree on when each finished request expires |
| `RedisRuns.FreshBeginsSucceed` | apps/api/app/application/redis_session_store.py:388-464 | at any point of any run the lock owner who acts on the record as it is stored gets a conflict or a replay for a live claim only, exactly when each is due, and otherwise a claim, new exactly when nothing live is there, which the script then never refuses |
| `RedisRuns.FencedClient` | apps/api/app/application/redis_session_store.py:100-218 | so nothing its client still sends has an effect |
| `RedisRuns.CompleteIsAllOrNothing` | apps/api/app/application/redis_session_store.py:160-197 | a completion built from the client's record either takes effect in full or leaves every key alone |
| `RedisRuns.AppendIsAllOrNothing` | apps/api/app/application/redis_session_store.py:100-124 | the same for an append |
| `RedisRuns.ClaimReadsBack` | apps/api/app/application/redis_session_store.py:388-464 | a granted claim reads back as a new record of the request and payload, in progress under the caller's token |
| `RedisRuns.CompletionReadsBack` | apps/api/app/application/redis_session_store.py:467-543 | a completion reads back as the same claim, completed, with its run, its answer in canonical key order, its times and the index of the turn it stored, which reads back as the newest turn |
| `RedisRuns.FailureReadsBack` | apps/api/app/application/redis_session_store.py:546-594 | a failure mark reads back as the same claim, failed, without an answer of its own |
| `RedisRuns.AppendIsWholeExactly` | apps/api/app/application/redis_session_store.py:100-124 | for every text the script finishes or changes nothing if and only if lock or schema refuse or the text ends as the pattern wants; otherwise it answers data_invalid having counted a turn |
| `RedisRuns.CompleteIsWholeExactly` | apps/api/app/application/redis_session_store.py:160-197 | the same for the two texts of a completion; a pushed turn stays when only the record is refused |
| `RedisRuns.StaleReplayWasCommitted` | apps/api/app/application/redis_session_store.py:388-464 | a response replayed from a read of any age was stored by an earlier completion of the same request with the same payload |
| `RedisRuns.SessionKeys.constructor` | apps/api/app/application/redis_session_store.py:783-802 | no keys |
| `RedisRuns.SessionKeys.AcquireScript` | apps/api/app/application/redis_session_store.py:72-84 | the script's commands are the specified step |
| `RedisRuns.SessionKeys.ReleaseScript` | apps/api/app/application/redis_session_store.py:95-98 | deletes the lock exactly for its own value |
| `RedisRuns.SessionKeys.AppendScript` | apps/api/app/application/redis_session_store.py:100-124 | the script's commands in order are the specified step |
| `RedisRuns.SessionKeys.PurgeExpired` | apps/api/app/application/redis_session_store.py:131-135 | the loop over expired members removes exactly those |
| `RedisRuns.SessionKeys.MakeRoomFor` | apps/api/app/application/redis_session_store.py:139-144 | the loop removes the oldest finished records until the count fits or none is left |
| `RedisRuns.SessionKeys.BeginScript` | apps/api/app/application/redis_session_store.py:126-158 | the specified step, replies included |
| `RedisRuns.SessionKeys.CompleteScript` | apps/api/app/application/redis_session_store.py:160-197 | the specified step, checks in the script's order |
| `RedisRuns.SessionKeys.FailScript` | apps/api/app/application/redis_session_store.py:199-218 | the specified step |
| `DialogueWindow.Truncate` | apps/api/app/application/conversation_memory.py:14-21 | a text within the limit stays; a cut one has exactly the allowed length and is its own beginning followed by the marker, or as much of the marker as fits |
| `DialogueWindow.TruncatedTurnFits` | apps/api/app/application/conversation_memory.py:40-51 | an oversized turn is cut to fit exactly unless the budget is one character and both messages are non-empty |
| `DialogueWindow.BuildRecentDialogueWindow` | apps/api/app/application/conversation_memory.py:24-61 | the loop from the newest turn is the specified window, and a budget below one is refused |
| `DialogueWindow.WindowIsLongestSuffix` | apps/api/app/application/conversation_memory.py:24-61 | when the newest turn fits, the window is the longest suffix of whole turns within the budget, through the last index, and truncated_before says whether anything was left out |
| `DialogueWindow.WindowOfOversizedTurn` | apps/api/app/application/conversation_memory.py:24-61 | when the newest turn alone is too long the window is that turn alone, the question cut to a third and the answer to what is left, at least one character each |
| `DialogueWindow.SortingIsStable` | apps/api/app/application/conversation_memory.py:24-61 | the turns are taken by index, all of them, and turns of one index in their order |
| `DialogueWindow.WindowFits` | apps/api/app/application/conversation_memory.py:24-61 | for a budget of at least two the kept text never exceeds it, cut turns included |
| `DialogueWindow.OneCharacterIsExceeded` | apps/api/app/application/conversation_memory.py:40-51 | a budget of one is exceeded by a turn with two messages |
| `DialogueWindow.ExtensionAgreesWithRebuild` | apps/api/app/application/conversation_memory.py:120-146 | extending the window by the next turn gives the rebuilt turns and through index if and only if no cut older turn still fits beside the new one |
| `DialogueWindow.ExtensionCanDisagree` | apps/api/app/application/conversation_memory.py:120-146 | for every budget of at least four characters, turns for which the extension keeps a cut turn that a rebuild drops |
| `ConversationMemory.NoOversizedTurns` | apps/api/app/application/conversation_memory.py:120-146 | the exception cannot occur when no turn exceeds the budget |
| `ConversationMemory.CacheHoldsPrefixes` | apps/api/app/application/conversation_memory.py:97-146 | under any interleaving of commits, expiry, late rebuilds and late extensions, every value the cache ever held is the window of a prefix of the log |
| `ConversationMemory.EveryHitIsRebuild` | apps/api/app/application/conversation_memory.py:97-118 | a cached value read at any earlier time that covers the log as it is now is what a rebuild returns |
| `ConversationMemory.CutTurnMisleads` | apps/api/app/application/conversation_memory.py:120-146 | a cut turn that still fits beside the next one gives a possible history whose covering cached value is not the rebuild |
| `ConversationMemory.CacheIsRightExactly` | apps/api/app/application/conversation_memory.py:97-146 | the cache answers like a rebuild in every history of some turns if and only if no commit meets a cut turn whose remains still fit beside it |
| `ConversationMemory.MessagesOf` | apps/api/app/application/conversation_memory.py:64-80 | two messages per turn at its index, the question as the user's and then the answer as the assistant's |
| `ConversationMemory.ConversationMemoryService.constructor` | apps/api/app/application/conversation_memory.py:86-95 | starts without a cached window |
| `ConversationMemory.ConversationMemoryService.LoadRecentMessages` | apps/api/app/application/conversation_memory.py:97-118 | a covering window is returned as it is and kept; otherwise the rebuild is returned and stored when the store can; store failures never change the answer, which is always that of a rebuild |
| `ConversationMemory.ConversationMemoryService.RecordCommittedTurn` | apps/api/app/application/conversation_memory.py:120-146 | stores exactly the extension of the cached window, or drops it on a gap; a store failure leaves it alone and is reported |
| `RecipeGraph.OrderedHasNoCycle` | apps/api/app/integrations/valve/catalog.py:1256-1272 | a graph whose items can be listed children first has no directed cycle |
| `RecipeGraph.CycleCheck.Visit` | apps/api/app/integrations/valve/catalog.py:1256-1272 | the recursion over the two sets ends; failure means there is a cycle; success leaves the stack as it was with the item finished; no item is expanded twice |
| `RecipeGraph.CycleCheck.VisitChildren` | apps/api/app/integrations/valve/catalog.py:1256-1272 | the same for all children of an item on the stack |
| `RecipeGraph.CycleCheck.AssertAcyclic` | apps/api/app/integrations/valve/catalog.py:1256-1272 | raises exactly when the graph contains a directed cycle, and expands each item at most once |
| `ValueAliases.StoreStrict` | apps/api/app/integrations/valve/catalog.py:1001-1017 | fails exactly when the alias has another value; otherwise adds just that alias |
| `ValueAliases.StoreField` | apps/api/app/integrations/valve/catalog.py:979-998 | fails exactly when one of the field's unskipped aliases has another value |
| `ValueAliases.StorePass` | apps/api/app/integrations/valve/catalog.py:942-976 | a pass fails exactly when two claims of one unskipped alias disagree, and otherwise adds exactly the claimed aliases |
| `ValueAliases.UpgradeValueAliasMap` | apps/api/app/integrations/valve/catalog.py:942-1017 | fails exactly when two exact fields disagree on an alias, or two derived ones on an alias no exact field claims; on success returns the map the fields determine, exact aliases first |
| `ValueAliases.OrderDoesNotMatter` | apps/api/app/integrations/valve/catalog.py:942-1017 | neither failing nor the map depends on the order of the fields |
| `EventReplay.EventStream.constructor` | apps/api/app/application/redis_run_event_bus.py:43-62 | an empty stream |
| `EventReplay.EventStream.Append` | apps/api/app/application/redis_run_event_bus.py:22-34 | the counter and the entry stay together: sequences count up from one without a gap |
| `EventReplay.EventStream.ReadAfter` | apps/api/app/application/redis_run_event_bus.py:101-111 | exactly the oldest entries after the cursor, at most the batch size |
| `EventReplay.DeliverBatch` | apps/api/app/api/v1/chat_run_routes.py:281-288 | one batch is delivered in order without a gap, up to the first ending event, and in full otherwise |
| `EventReplay.StreamEvents` | apps/api/app/api/v1/chat_run_routes.py:269-309 | for any batch size the lines are exactly the consecutive events after the cursor up to the first ending event; the cursor is where the rounds read so far lead; recovery comes only after the read of the first round that saw the run terminal |
| `EventReplay.RecoveryIsCompleteExactly` | apps/api/app/api/v1/chat_run_routes.py:290-294 | recovery comes after everything the log held if and only if no more than one batch was left to read |
| `EventReplay.EarlyRecovery` | apps/api/app/api/v1/chat_run_routes.py:276-294 | for every batch size, a run that has ended with one event more left to read is reported ended before that event |
| `EventReplay.DeliversPrefix` | apps/api/app/api/v1/chat_run_routes.py:281-288 | what a client received before it dropped is itself a delivery |
| `EventReplay.StreamJoinsChain` | apps/api/app/api/v1/chat_run_routes.py:269-309 | a connection from the observer's cursor, of whose lines any number arrived, continues the chain whatever the log has become |
| `EventReplay.ChainLosesNothing` | apps/api/app/api/v1/chat_run_routes.py:269-309 | over any chain of reconnects at the last delivered sequence the observer has seen exactly the consecutive events after its first cursor, no gap and no repeat |

## Left out

- AgentRun.AgentRunner.Run: the runner keeps the run's state in one record-valued field that its methods rewrite field by field, so sharing of list objects between copies of the state is not captured; the methods for single nodes repeat the node functions of `AgentGraph` and have no rows; handlers, model and clock are arbitrary, and a collaborator that throws ends the run.
- Decisions.ValidateReplanDecision: states the set of reported faults, not their order or wording.
- ToolExecution.FingerprintIdentifies: is about the text that is hashed; SHA-256 is taken to be injective.
- ConversationMemory.EveryHitIsRebuild: covers turns and through index; `truncated_before` is recomputed from the kept turns only and differs.
- EventReplay.StreamEvents: covers ordinary events; recovery, heartbeat and error lines carry no sequence of their own and are excluded.
- MemoryStore.EverySessionIsALedger: counts from the session's creation; eviction and clearing start a new history.
- RedisDecoding.RecordRoundTrip: timestamps are texts and the response a dictionary of JSON values; model validation beyond key names and value types is not covered.
- AgentTheorems.ErrorsStayInside: the modelled response has status, type, plan, results and errors; reason, trace and evidence are left out of it.
- The session transaction around `execute`: executions of one worker on one session are not assumed to exclude each other, so the chat results hold without it.
- Resumed runs: the agent theorems are about fresh requests; a resumed state carries no decision, and reading or writing checkpoint snapshots is not modelled beyond being present or absent.
- The graph engine's own recursion limit.
- Model calls, prompts, the argument schemas of tools and the placeholder values they are checked with: replies are arbitrary and the schema check is an arbitrary predicate of the catalogue.
- Evidence graphs, answer synthesis, critic and completeness rounding: arbitrary results.
- Wording of errors beyond the kinds that decide something; the check for historical metrics in a query is a flag.
- Plan metadata, evidence source lists, traces, durations, summaries for failed or interrupted runs, metrics, log and stream events, observer payloads.
- `validate_registry_contracts` and the rendering of controller contracts and tools.
- Session deletion and its cascade, titles, pinning, visual entities, read-only queries, stored timestamps other than the heartbeat.
- Outside a transaction: `delete_session` of the in-memory store. In Redis: `clear_session_data`, `replace_recent_dialogue`, `invalidate_recent_dialogue` and the same cache writes in memory.
- Key lifetimes of Redis data: the lease may end at any moment, but a session whose data keys have expired, or that was cleared, starts over with its turn and fencing counters and is a new session here. Renewing the lock changes its lifetime only and is left out.
- Floats (so also 1.0 for 1, which Python takes as equal and whose text differs) and lone surrogates in JSON texts; the scripts match bytes, the model characters, and the pattern itself is ASCII.
- Owner tokens and identifiers are fresh by assumption, as UUIDs are.
- Parsing of stored event payloads, and bus errors other than ending the stream.
- The `sources` map of alias errors, and lower-casing of names outside ASCII.
- HTTP routing, the front end, provider adapters, image routes, settings.
