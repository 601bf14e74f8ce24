/** What each repository transaction does to the tables. A transaction is atomic: it answers and
    commits, or raises and leaves every row alone. */
module ChatTransactions {
  import opened Wrappers
  import opened ChatTables

  datatype ChatError =
    | NotFound | IdempotencyConflict | RunActive | FencingLost
    | StateError(code: string) | RunTerminal | CheckpointError(code: string) | Unavailable

  datatype Reply =
    | SessionCreated
    | Claimed(token: nat)
    | RunCreated(run: RunId)
    | RunReplayed(run: RunId)
    | RunSaved(row: RunRow)
    | AlreadyRequested
    | Swept(swept: set<RunId>)
    | TurnStored(index: nat, assistant: string)
    | TurnReplayed(index: nat, assistant: string)

  datatype Outcome = Outcome(db: Db, result: Result<Reply, ChatError>)

  function Raise(db: Db, error: ChatError): Outcome { Outcome(db, Failure(error)) }

  /** Flush and commit: a broken unique index rolls the whole transaction back. */
  function Commit(before: Db, after: Db, reply: Reply): Outcome {
    if UniqueIndexes(after) then Outcome(after, Success(reply)) else Raise(before, Unavailable)
  }

  function SaveRun(db: Db, run: RunId, row: RunRow): Outcome {
    Commit(db, db.(runs := db.runs[run := row]), RunSaved(row))
  }

  function CreateSession(db: Db, sid: SessionId, browser: string): Outcome {
    if sid in db.sessions then Raise(db, Unavailable)
    else Commit(db, db.(sessions := db.sessions[sid := SessionRow(browser, 1, 0)]), SessionCreated)
  }

  function ClaimFencing(db: Db, browser: string, sid: SessionId, requested: Option<nat>): Outcome {
    if !Owns(db, browser, sid) then Raise(db, NotFound) else
      var row := db.sessions[sid];
      if requested.Some? && requested.value <= row.activeToken then Raise(db, FencingLost) else
        var next := if requested.Some? then requested.value else row.activeToken + 1;
        Commit(db, db.(sessions := db.sessions[sid := row.(activeToken := next)]), Claimed(next))
  }

  ghost function CreateRun(db: Db, browser: string, sid: SessionId, request: RequestId,
                           payload: string, query: string, run: RunId, now: nat): Outcome
  {
    if !Owns(db, browser, sid) then Raise(db, NotFound)
    else if HasRunFor(db, sid, request) then
      var existing :| existing in db.runs && db.runs[existing].session == sid && db.runs[existing].request == request;
      if db.runs[existing].payload != payload then Raise(db, IdempotencyConflict)
      else Outcome(db, Success(RunReplayed(existing)))
    else if HasActiveRun(db, sid) then Raise(db, RunActive)
    else if run in db.runs then Raise(db, Unavailable)
    else
      var row := RunRow(sid, request, payload, query, Queued, None, None, None, None, None, now, None);
      Commit(db, db.(runs := db.runs[run := row]), RunCreated(run))
  }

  function MarkRunning(db: Db, browser: string, run: RunId, worker: string, token: nat, now: nat): Outcome {
    if !OwnsRun(db, browser, run) then Raise(db, NotFound) else
      var row := db.runs[run];
      match row.status
      case Queued =>
        SaveRun(db, run, row.(status := Running, worker := Some(worker), token := Some(token), heartbeatAt := Some(now)))
      case Running =>
        if row.worker != Some(worker) || row.token != Some(token)
        then Raise(db, StateError("run_owned_by_other_worker"))
        else Outcome(db, Success(RunSaved(row)))
      case CancelRequested => Raise(db, StateError("cancel_requested"))
      case _ => Raise(db, RunTerminal)
  }

  function MarkWaiting(db: Db, run: RunId, worker: string, token: nat, checkpoint: Checkpoint): Outcome {
    if run !in db.runs then Raise(db, NotFound) else
      var row := db.runs[run];
      if row.status != Running || row.worker != Some(worker) || row.token != Some(token)
      then Raise(db, StateError("run_owned_by_other_worker"))
      else SaveRun(db, run, row.(status := WaitingInput, checkpoint := Some(checkpoint),
                                 worker := None, token := None, heartbeatAt := None, errorCode := None))
  }

  function Resume(db: Db, browser: string, run: RunId, kind: string, option: string): Outcome {
    if !OwnsRun(db, browser, run) then Raise(db, NotFound) else
      var row := db.runs[run];
      if row.status != WaitingInput || row.checkpoint.None? then Raise(db, CheckpointError("checkpoint_not_waiting"))
      else if row.checkpoint.value.kind != kind then Raise(db, CheckpointError("checkpoint_type_mismatch"))
      else if option !in row.checkpoint.value.options then Raise(db, CheckpointError("checkpoint_option_invalid"))
      else
        var checkpoint := row.checkpoint.value.(selected := Some(option));
        SaveRun(db, run, row.(status := Queued, checkpoint := Some(checkpoint), errorCode := None, heartbeatAt := None))
  }

  function Heartbeat(db: Db, run: RunId, worker: string, now: nat): Outcome {
    if run !in db.runs then Raise(db, NotFound) else
      var row := db.runs[run];
      if row.worker != Some(worker) then Raise(db, StateError("run_owned_by_other_worker"))
      else if !Leased(row.status) then Raise(db, RunTerminal)
      else SaveRun(db, run, row.(heartbeatAt := Some(now)))
  }

  function RequestCancel(db: Db, browser: string, run: RunId, now: nat): Outcome {
    if !OwnsRun(db, browser, run) then Raise(db, NotFound) else
      var row := db.runs[run];
      if row.status == CancelRequested then Outcome(db, Success(AlreadyRequested))
      else if Terminal(row.status) then Raise(db, RunTerminal)
      else if row.status == WaitingInput
      then SaveRun(db, run, row.(status := Cancelled, heartbeatAt := None, checkpoint := None))
      else SaveRun(db, run, row.(status := CancelRequested, heartbeatAt := Some(now)))
  }

  /** The three terminal marks differ in the status they write and the statuses they accept. */
  datatype Mark = AsCancelled | AsFailed(code: string) | AsInterrupted(code: string) {
    function Status(): RunStatus {
      match this case AsCancelled => Cancelled case AsFailed(_) => Failed case AsInterrupted(_) => Interrupted
    }

    predicate Allows(s: RunStatus) {
      match this
      case AsCancelled => s == CancelRequested
      case AsFailed(_) => s in {Queued, Running}
      case AsInterrupted(_) => Recoverable(s)
    }

    function ErrorCode(): Option<string> {
      match this case AsCancelled => None case AsFailed(c) => Some(c) case AsInterrupted(c) => Some(c)
    }
  }

  function MarkTerminal(db: Db, run: RunId, mark: Mark, worker: Option<string>, now: nat): Outcome {
    if run !in db.runs then Raise(db, NotFound) else
      var row := db.runs[run];
      if worker.Some? && row.worker != worker then Raise(db, StateError("run_owned_by_other_worker"))
      else if !mark.Allows(row.status) then
        if row.status == mark.Status() then Outcome(db, Success(RunSaved(row))) else Raise(db, RunTerminal)
      else SaveRun(db, run, row.(status := mark.Status(), errorCode := mark.ErrorCode(),
                                 heartbeatAt := Some(now), checkpoint := None))
  }

  predicate Stale(row: RunRow, before: nat) {
    Recoverable(row.status) &&
    if row.heartbeatAt.Some? then row.heartbeatAt.value < before else row.createdAt < before
  }

  function SweptRow(row: RunRow, before: nat, code: string): RunRow {
    if Stale(row, before) then row.(status := Interrupted, errorCode := Some(code)) else row
  }

  function SweptRuns(runs: map<RunId, RunRow>, before: nat, code: string): map<RunId, RunRow> {
    map r | r in runs :: SweptRow(runs[r], before, code)
  }

  function StaleRuns(runs: map<RunId, RunRow>, before: nat): set<RunId> {
    set r | r in runs && Stale(runs[r], before)
  }

  /** The sweeper leaves the checkpoint of an interrupted run in place. */
  function SweepStale(db: Db, before: nat, code: string): Outcome {
    Commit(db, db.(runs := SweptRuns(db.runs, before, code)), Swept(StaleRuns(db.runs, before)))
  }

  /** Inserts the next turn of a session and moves its counter. */
  function StoreTurn(db: Db, sid: SessionId, turn: TurnId, request: RequestId, payload: string,
                     query: string, assistant: string): Db
    requires sid in db.sessions
  {
    var row := db.sessions[sid];
    db.(sessions := db.sessions[sid := row.(nextTurnIndex := row.nextTurnIndex + 1)],
        turns := db.turns[turn := TurnRow(sid, request, payload, row.nextTurnIndex, query, assistant)])
  }

  function CompleteWithTurn(db: Db, run: RunId, worker: string, token: nat, turn: TurnId,
                            assistant: string, expected: Option<nat>, now: nat): Outcome
  {
    if run !in db.runs then Raise(db, NotFound) else
      var row := db.runs[run];
      if row.worker != Some(worker) || row.token != Some(token) then Raise(db, FencingLost)
      else if row.status == Completed then Outcome(db, Success(RunSaved(row)))
      else if row.status == CancelRequested then Raise(db, StateError("cancel_requested"))
      else if row.status != Running then Raise(db, RunTerminal)
      else if row.session !in db.sessions then Raise(db, NotFound)
      else if db.sessions[row.session].activeToken != token then Raise(db, FencingLost)
      else if expected.Some? && expected.value != db.sessions[row.session].nextTurnIndex
      then Raise(db, StateError("stale_turn_index"))
      else if turn in db.turns then Raise(db, Unavailable)
      else
        var stored := StoreTurn(db, row.session, turn, row.request, row.payload, row.query, assistant);
        SaveCompleted(db, stored, run, row.(status := Completed, resultTurn := Some(turn),
                                            heartbeatAt := Some(now), errorCode := None, checkpoint := None))
  }

  function SaveCompleted(before: Db, stored: Db, run: RunId, row: RunRow): Outcome {
    Commit(before, stored.(runs := stored.runs[run := row]), RunSaved(row))
  }

  /** The product-chat path; its payload hash is the injective image of the query, here the query. */
  ghost function AppendDialogue(db: Db, browser: string, sid: SessionId, request: RequestId,
                                query: string, assistant: string, turn: TurnId): Outcome
  {
    if !Owns(db, browser, sid) then Raise(db, NotFound)
    else StoreOrReplay(db, sid, request, query, query, assistant, turn)
  }

  ghost function CommitTurn(db: Db, browser: string, sid: SessionId, request: RequestId, payload: string,
                            token: nat, query: string, assistant: string, turn: TurnId): Outcome
  {
    if !Owns(db, browser, sid) then Raise(db, NotFound)
    else if db.sessions[sid].activeToken != token then Raise(db, FencingLost)
    else StoreOrReplay(db, sid, request, payload, query, assistant, turn)
  }

  ghost function StoreOrReplay(db: Db, sid: SessionId, request: RequestId, payload: string,
                               query: string, assistant: string, turn: TurnId): Outcome
    requires sid in db.sessions
  {
    if HasTurnFor(db, sid, request) then
      var existing :| existing in db.turns && db.turns[existing].session == sid && db.turns[existing].request == request;
      if db.turns[existing].payload != payload then Raise(db, IdempotencyConflict)
      else Outcome(db, Success(TurnReplayed(db.turns[existing].index, db.turns[existing].assistant)))
    else if turn in db.turns then Raise(db, Unavailable)
    else Commit(db, StoreTurn(db, sid, turn, request, payload, query, assistant),
                TurnStored(db.sessions[sid].nextTurnIndex, assistant))
  }

  // ------------------------------------------------------------------ interleavings

  datatype Op =
    | OpCreateSession(sid: SessionId, browser: string)
    | OpClaim(browser: string, sid: SessionId, requested: Option<nat>)
    | OpCreateRun(browser: string, sid: SessionId, request: RequestId, payload: string, query: string, run: RunId, now: nat)
    | OpMarkRunning(browser: string, run: RunId, worker: string, token: nat, now: nat)
    | OpMarkWaiting(run: RunId, worker: string, token: nat, checkpoint: Checkpoint)
    | OpResume(browser: string, run: RunId, kind: string, option: string)
    | OpHeartbeat(run: RunId, worker: string, now: nat)
    | OpRequestCancel(browser: string, run: RunId, now: nat)
    | OpMarkTerminal(run: RunId, mark: Mark, holder: Option<string>, now: nat)
    | OpSweep(before: nat, code: string)
    | OpComplete(run: RunId, worker: string, token: nat, turn: TurnId, assistant: string, expected: Option<nat>, now: nat)
    | OpAppendDialogue(browser: string, sid: SessionId, request: RequestId, query: string, assistant: string, turn: TurnId)
    | OpCommitTurn(browser: string, sid: SessionId, request: RequestId, payload: string, token: nat, query: string, assistant: string, turn: TurnId)

  ghost function Apply(db: Db, op: Op): Outcome {
    match op
    case OpCreateSession(sid, browser) => CreateSession(db, sid, browser)
    case OpClaim(browser, sid, requested) => ClaimFencing(db, browser, sid, requested)
    case OpCreateRun(browser, sid, request, payload, query, run, now) =>
      CreateRun(db, browser, sid, request, payload, query, run, now)
    case OpMarkRunning(browser, run, worker, token, now) => MarkRunning(db, browser, run, worker, token, now)
    case OpMarkWaiting(run, worker, token, checkpoint) => MarkWaiting(db, run, worker, token, checkpoint)
    case OpResume(browser, run, kind, option) => Resume(db, browser, run, kind, option)
    case OpHeartbeat(run, worker, now) => Heartbeat(db, run, worker, now)
    case OpRequestCancel(browser, run, now) => RequestCancel(db, browser, run, now)
    case OpMarkTerminal(run, mark, holder, now) => MarkTerminal(db, run, mark, holder, now)
    case OpSweep(before, code) => SweepStale(db, before, code)
    case OpComplete(run, worker, token, turn, assistant, expected, now) =>
      CompleteWithTurn(db, run, worker, token, turn, assistant, expected, now)
    case OpAppendDialogue(browser, sid, request, query, assistant, turn) =>
      AppendDialogue(db, browser, sid, request, query, assistant, turn)
    case OpCommitTurn(browser, sid, request, payload, token, query, assistant, turn) =>
      CommitTurn(db, browser, sid, request, payload, token, query, assistant, turn)
  }

  /** Any number of workers interleave their transactions in any order; a transaction that fails in
      the infrastructure has no effect and is simply absent from the list. */
  ghost function Exec(db: Db, ops: seq<Op>): Db
    decreases |ops|
  {
    if ops == [] then db else Exec(Apply(db, ops[0]).db, ops[1..])
  }
}
