/** What the transactions leave behind: whose text a turn holds, what a run row tells of its past, and what
    the answers to repeated requests are. */
module ChatEffects {
  import opened Wrappers
  import opened ChatTables
  import opened ChatTransactions
  import opened ChatInvariants

  // ------------------------------------------------------------------ one more turn

  datatype Text = Text(session: SessionId, request: RequestId, payload: string, query: string, assistant: string)

  function TextOf(turn: TurnRow): Text { Text(turn.session, turn.request, turn.payload, turn.query, turn.assistant) }

  predicate TurnOp(op: Op) { op.OpComplete? || op.OpAppendDialogue? || op.OpCommitTurn? }

  /** The text a transaction brings: a commit brings the answer to what its run was asked. */
  function Presented(db: Db, op: Op): Option<Text> {
    match op
    case OpComplete(run, _, _, _, assistant, _, _) =>
      if run !in db.runs then None else
        Some(Text(db.runs[run].session, db.runs[run].request, db.runs[run].payload, db.runs[run].query, assistant))
    case OpAppendDialogue(_, sid, request, query, assistant, _) => Some(Text(sid, request, query, query, assistant))
    case OpCommitTurn(_, sid, request, payload, _, query, assistant, _) => Some(Text(sid, request, payload, query, assistant))
    case _ => None
  }

  /** The answer says that a turn was stored. */
  ghost predicate Stores(db: Db, op: Op) {
    match Apply(db, op).result
    case Success(TurnStored(_, _)) => true
    case Success(RunSaved(_)) => op.OpComplete? && op.run in db.runs && db.runs[op.run].status != Completed
    case _ => false
  }

  /** The session has one more turn, with this text and the session's next index; its counter moved by one, and
      every other turn and session is what it was. */
  ghost predicate OneTurnMore(before: Db, after: Db, turn: TurnId, text: Text) {
    && text.session in before.sessions && turn !in before.turns
    && after.turns.Keys == before.turns.Keys + {turn}
    && TextOf(after.turns[turn]) == text && after.turns[turn].index == before.sessions[text.session].nextTurnIndex
    && (forall t | t in before.turns :: after.turns[t] == before.turns[t])
    && after.sessions.Keys == before.sessions.Keys
    && (forall s | s in before.sessions && s != text.session :: after.sessions[s] == before.sessions[s])
    && after.sessions[text.session].nextTurnIndex == before.sessions[text.session].nextTurnIndex + 1
    && after.sessions[text.session].browser == before.sessions[text.session].browser
    && after.sessions[text.session].activeToken == before.sessions[text.session].activeToken
  }

  /** The run is finished by that turn and otherwise what it was. */
  ghost predicate FinishedBy(row: RunRow, after: RunRow, turn: TurnId, now: nat) {
    && after.status == Completed && after.resultTurn == Some(turn) && after.heartbeatAt == Some(now)
    && after.errorCode.None? && after.checkpoint.None?
    && after.worker == row.worker && after.token == row.token && after.createdAt == row.createdAt
    && after.session == row.session && after.request == row.request && after.payload == row.payload && after.query == row.query
  }

  lemma CompleteStores(db: Db, op: Op)
    requires op.OpComplete?
    ensures var after := Apply(db, op).db;
      if Stores(db, op) then
        && Presented(db, op).Some? && OneTurnMore(db, after, op.turn, Presented(db, op).value)
        && op.run in db.runs && op.run in after.runs && FinishedBy(db.runs[op.run], after.runs[op.run], op.turn, op.now)
        && after.runs.Keys == db.runs.Keys && (forall r | r in db.runs && r != op.run :: after.runs[r] == db.runs[r])
      else after == db
  {
    hide UniqueIndexes;
  }

  lemma DialogueStores(db: Db, op: Op)
    requires op.OpAppendDialogue? || op.OpCommitTurn?
    ensures var out := Apply(db, op);
      if Stores(db, op) then
        && Presented(db, op).Some? && OneTurnMore(db, out.db, op.turn, Presented(db, op).value) && out.db.runs == db.runs
        && out.result.value == TurnStored(db.sessions[op.sid].nextTurnIndex, op.assistant)
      else out.db == db
  {
    hide UniqueIndexes, HasTurnFor;
  }

  ghost predicate SameTurns(before: Db, after: Db) {
    && after.turns == before.turns
    && forall s | s in before.sessions ::
         s in after.sessions && after.sessions[s].nextTurnIndex == before.sessions[s].nextTurnIndex
         && after.sessions[s].browser == before.sessions[s].browser
  }

  lemma RowOpsKeepTurns(db: Db, op: Op)
    requires !TurnOp(op)
    ensures SameTurns(db, Apply(db, op).db) && !Stores(db, op)
  {
    hide UniqueIndexes, HasRunFor, HasActiveRun, SweptRuns;
  }

  /** Turns change exactly when the answer says so: then there is one more, with the text that was presented. */
  lemma TurnsChangeExactly(db: Db, op: Op)
    ensures var after := Apply(db, op).db;
      if Stores(db, op) then TurnOp(op) && Presented(db, op).Some? && OneTurnMore(db, after, op.turn, Presented(db, op).value)
      else SameTurns(db, after)
  {
    hide Apply, OneTurnMore, Presented, Stores;
    if op.OpComplete? {
      CompleteStores(db, op);
    } else if TurnOp(op) {
      DialogueStores(db, op);
    } else {
      RowOpsKeepTurns(db, op);
    }
  }

  // ------------------------------------------------------------------ over every history

  lemma {:induction false} ExecLast(db: Db, ops: seq<Op>)
    requires ops != []
    ensures Exec(db, ops) == Apply(Exec(db, ops[..|ops| - 1]), ops[|ops| - 1]).db
    decreases |ops|
  {
    hide Apply;
    if |ops| > 1 {
      ExecLast(Apply(db, ops[0]).db, ops[1..]);
      assert ops[1..][..|ops| - 2] == ops[..|ops| - 1][1..];
    } else {
      assert ops[..0] == [] && ops[1..] == [];
    }
  }

  /** The k-th transaction stored this row under this id, from the text it was given. */
  ghost predicate StoredBy(ops: seq<Op>, k: nat, turn: TurnId, row: TurnRow) {
    && k < |ops| && TurnOp(ops[k]) && ops[k].turn == turn
    && Stores(Exec(EMPTY_DB, ops[..k]), ops[k])
    && Presented(Exec(EMPTY_DB, ops[..k]), ops[k]) == Some(TextOf(row))
  }

  /** Every turn there ever is holds what one transaction presented, and still does. */
  lemma {:induction false} EveryTurnWasPresented(ops: seq<Op>, turn: TurnId)
    requires turn in Exec(EMPTY_DB, ops).turns
    ensures exists k: nat :: StoredBy(ops, k, turn, Exec(EMPTY_DB, ops).turns[turn])
    decreases |ops|
  {
    hide Apply, Presented, Stores;
    if ops != [] {
      var n := |ops| - 1;
      ExecLast(EMPTY_DB, ops);
      var before := Exec(EMPTY_DB, ops[..n]);
      TurnsChangeExactly(before, ops[n]);
      var row := Exec(EMPTY_DB, ops).turns[turn];
      if turn in before.turns {
        EveryTurnWasPresented(ops[..n], turn);
        var k: nat :| StoredBy(ops[..n], k, turn, row);
        assert ops[..n][..k] == ops[..k];
        assert StoredBy(ops, k, turn, row);
      } else {
        assert StoredBy(ops, n, turn, row);
      }
    }
  }

  // ------------------------------------------------------------------ what a run was asked

  /** What never changes about a run. */
  ghost predicate SameRequest(a: RunRow, b: RunRow) {
    a.session == b.session && a.request == b.request && a.payload == b.payload && a.query == b.query && a.createdAt == b.createdAt
  }

  ghost predicate Created(db: Db, op: Op, run: RunId, row: RunRow) {
    && op.OpCreateRun? && op.run == run && Apply(db, op).result == Success(RunCreated(run))
    && row.session == op.sid && row.request == op.request && row.payload == op.payload && row.query == op.query
    && row.createdAt == op.now
  }

  ghost predicate KeptOrCreated(db: Db, op: Op, run: RunId, row: RunRow) {
    if run in db.runs then SameRequest(db.runs[run], row)
    else Created(db, op, run, row) && row.status == Queued && row.resultTurn.None? && row.checkpoint.None?
  }

  ghost predicate RunsStay(before: Db, after: Db) {
    forall r | r in before.runs :: r in after.runs
  }

  lemma CreateKeepsRequests(db: Db, op: Op, run: RunId)
    requires op.OpCreateRun? && run in Apply(db, op).db.runs
    ensures KeptOrCreated(db, op, run, Apply(db, op).db.runs[run]) && RunsStay(db, Apply(db, op).db)
  {
    hide UniqueIndexes, HasRunFor, HasActiveRun;
  }

  lemma SweepKeepsRequests(db: Db, op: Op, run: RunId)
    requires op.OpSweep? && run in Apply(db, op).db.runs
    ensures KeptOrCreated(db, op, run, Apply(db, op).db.runs[run]) && RunsStay(db, Apply(db, op).db)
  {
    hide UniqueIndexes;
  }

  lemma TurnOpsKeepRequests(db: Db, op: Op, run: RunId)
    requires TurnOp(op) && run in Apply(db, op).db.runs
    ensures KeptOrCreated(db, op, run, Apply(db, op).db.runs[run]) && RunsStay(db, Apply(db, op).db)
  {
    hide Apply, OneTurnMore, Presented, Stores;
    if op.OpComplete? { CompleteStores(db, op); } else { DialogueStores(db, op); }
  }

  lemma RowOpsKeepRequests(db: Db, op: Op, run: RunId)
    requires !TurnOp(op) && !op.OpCreateRun? && !op.OpSweep? && run in Apply(db, op).db.runs
    ensures KeptOrCreated(db, op, run, Apply(db, op).db.runs[run]) && RunsStay(db, Apply(db, op).db)
  {
    hide UniqueIndexes;
  }

  lemma RunsKeepTheirRequest(db: Db, op: Op, run: RunId)
    requires run in Apply(db, op).db.runs
    ensures KeptOrCreated(db, op, run, Apply(db, op).db.runs[run])
  {
    hide Apply, KeptOrCreated;
    if op.OpCreateRun? {
      CreateKeepsRequests(db, op, run);
    } else if op.OpSweep? {
      SweepKeepsRequests(db, op, run);
    } else if TurnOp(op) {
      TurnOpsKeepRequests(db, op, run);
    } else {
      RowOpsKeepRequests(db, op, run);
    }
  }

  ghost predicate CreatedBy(ops: seq<Op>, k: nat, run: RunId, row: RunRow) {
    k < |ops| && Created(Exec(EMPTY_DB, ops[..k]), ops[k], run, row)
  }

  /** Every run there ever is was created by one transaction, and is still asked what that one asked. */
  lemma {:induction false} EveryRunWasAsked(ops: seq<Op>, run: RunId)
    requires run in Exec(EMPTY_DB, ops).runs
    ensures exists k: nat :: CreatedBy(ops, k, run, Exec(EMPTY_DB, ops).runs[run])
    decreases |ops|
  {
    hide Apply;
    if ops != [] {
      var n := |ops| - 1;
      ExecLast(EMPTY_DB, ops);
      var before := Exec(EMPTY_DB, ops[..n]);
      RunsKeepTheirRequest(before, ops[n], run);
      var row := Exec(EMPTY_DB, ops).runs[run];
      if run in before.runs {
        EveryRunWasAsked(ops[..n], run);
        var k: nat :| CreatedBy(ops[..n], k, run, before.runs[run]);
        assert ops[..n][..k] == ops[..k];
        assert CreatedBy(ops, k, run, row);
      } else {
        assert CreatedBy(ops, n, run, row);
      }
    }
  }

  // ------------------------------------------------------------------ what a run row tells

  ghost predicate Answered(checkpoint: Checkpoint) {
    checkpoint.selected.Some? && checkpoint.selected.value in checkpoint.options
  }

  /** An error code exactly for failed and interrupted runs; a heartbeat exactly while leased and at the ends a
      worker wrote; no checkpoint without its answer while the run is on its way again. */
  ghost predicate RowTells(row: RunRow) {
    && (row.errorCode.Some? <==> row.status in {Failed, Interrupted})
    && (row.status in {Queued, WaitingInput} ==> row.heartbeatAt.None?)
    && (row.status in {Running, CancelRequested, Completed, Failed} ==> row.heartbeatAt.Some?)
    && (row.status in {Completed, Failed, Cancelled} ==> row.checkpoint.None?)
    && (row.status in {Queued, Running, CancelRequested} && row.checkpoint.Some? ==> Answered(row.checkpoint.value))
  }

  ghost predicate RowsTell(db: Db) { forall r | r in db.runs :: RowTells(db.runs[r]) }

  lemma SaveTells(db: Db, run: RunId, row: RunRow)
    requires RowsTell(db) && RowTells(row)
    ensures RowsTell(SaveRun(db, run, row).db)
  {
    hide UniqueIndexes, RowTells;
  }

  lemma RowOpsTell(db: Db, op: Op)
    requires RowsTell(db) && !TurnOp(op) && !op.OpCreateRun? && !op.OpSweep?
    ensures RowsTell(Apply(db, op).db)
  {
    hide UniqueIndexes;
  }

  lemma CreateAndSweepTell(db: Db, op: Op)
    requires RowsTell(db) && (op.OpCreateRun? || op.OpSweep?)
    ensures RowsTell(Apply(db, op).db)
  {
    hide UniqueIndexes, HasRunFor, HasActiveRun;
  }

  lemma FinishedTells(row: RunRow, after: RunRow, turn: TurnId, now: nat)
    requires FinishedBy(row, after, turn, now)
    ensures RowTells(after)
  {}

  lemma StepTells(db: Db, op: Op)
    requires RowsTell(db)
    ensures RowsTell(Apply(db, op).db)
  {
    hide Apply, OneTurnMore, Presented, Stores, RowTells;
    if op.OpComplete? {
      CompleteStores(db, op);
      if Stores(db, op) { FinishedTells(db.runs[op.run], Apply(db, op).db.runs[op.run], op.turn, op.now); }
    } else if TurnOp(op) {
      DialogueStores(db, op);
    } else if op.OpCreateRun? || op.OpSweep? {
      CreateAndSweepTell(db, op);
    } else {
      RowOpsTell(db, op);
    }
  }

  lemma {:induction false} EveryRowTells(ops: seq<Op>)
    ensures RowsTell(Exec(EMPTY_DB, ops))
    decreases |ops|
  {
    hide Apply, RowTells;
    if ops != [] {
      ExecLast(EMPTY_DB, ops);
      EveryRowTells(ops[..|ops| - 1]);
      StepTells(Exec(EMPTY_DB, ops[..|ops| - 1]), ops[|ops| - 1]);
    }
  }

  // ------------------------------------------------------------------ the life of a run

  /** Which status a transaction moves a run to, and when. */
  ghost predicate Moves(db: Db, op: Op, run: RunId, to: RunStatus)
    requires run in db.runs
  {
    var row := db.runs[run];
    match op
    case OpMarkRunning(browser, r, _, _, _) => r == run && OwnsRun(db, browser, run) && row.status == Queued && to == Running
    case OpMarkWaiting(r, worker, token, _) =>
      r == run && row.status == Running && row.worker == Some(worker) && row.token == Some(token) && to == WaitingInput
    case OpResume(browser, r, kind, option) =>
      r == run && OwnsRun(db, browser, run) && row.status == WaitingInput && row.checkpoint.Some?
      && row.checkpoint.value.kind == kind && option in row.checkpoint.value.options && to == Queued
    case OpRequestCancel(browser, r, _) =>
      r == run && OwnsRun(db, browser, run)
      && ((row.status in {Queued, Running} && to == CancelRequested) || (row.status == WaitingInput && to == Cancelled))
    case OpMarkTerminal(r, mark, holder, _) =>
      r == run && (holder.None? || row.worker == holder)
      && ((mark.AsCancelled? && row.status == CancelRequested && to == Cancelled)
          || (mark.AsFailed? && row.status in {Queued, Running} && to == Failed)
          || (mark.AsInterrupted? && row.status in {Queued, Running, CancelRequested} && to == Interrupted))
    case OpSweep(before, _) =>
      row.status in {Queued, Running, CancelRequested} && to == Interrupted
      && (if row.heartbeatAt.Some? then row.heartbeatAt.value else row.createdAt) < before
    case OpComplete(r, worker, token, turn, _, expected, _) =>
      r == run && row.status == Running && row.worker == Some(worker) && row.token == Some(token)
      && row.session in db.sessions && db.sessions[row.session].activeToken == token
      && (expected.None? || expected.value == db.sessions[row.session].nextTurnIndex)
      && turn !in db.turns && !HasTurnFor(db, row.session, row.request) && to == Completed
    case _ => false
  }

  ghost predicate MovesOnly(db: Db, op: Op, run: RunId)
    requires run in db.runs
  {
    && run in Apply(db, op).db.runs
    && forall to: RunStatus :: Moves(db, op, run, to) <==> db.runs[run].status != to && Apply(db, op).db.runs[run].status == to
  }

  lemma SweepMoves(db: Db, op: Op, run: RunId)
    requires Inv(db) && run in db.runs && op.OpSweep?
    ensures MovesOnly(db, op, run)
  {
    SweepKeeps(db, op.before, op.code);
    hide Inv, UniqueIndexes;
  }

  /** What the unique indexes make of a commit. */
  ghost predicate CommitMeetsIndexes(db: Db, op: Op)
    requires op.OpComplete?
  {
    && (Apply(db, op).result == Failure(Unavailable) && op.turn !in db.turns ==>
          op.run in db.runs && HasTurnFor(db, db.runs[op.run].session, db.runs[op.run].request))
    && (op.run in db.runs && db.runs[op.run].session in db.sessions && op.turn !in db.turns
        && HasTurnFor(db, db.runs[op.run].session, db.runs[op.run].request) ==>
          var row := db.runs[op.run];
          !UniqueIndexes(StoreTurn(db, row.session, op.turn, row.request, row.payload, row.query, op.assistant).(runs := db.runs[op.run := Finished(row, op.turn, op.now)])))
  }

  lemma BreaksIndexes(db: Db)
    requires !TurnRequestUnique(db.turns)
    ensures !UniqueIndexes(db)
  {}

  lemma CommitIndexes(db: Db, op: Op)
    requires Inv(db) && op.OpComplete?
    ensures CommitMeetsIndexes(db, op)
  {
    hide Inv, HasTurnFor, CompleteWithTurn, UniqueIndexes, TurnRequestUnique, StoreTurn;
    CompleteKeeps(db, op.run, op.worker, op.token, op.turn, op.assistant, op.expected, op.now);
    if op.run in db.runs && db.runs[op.run].session in db.sessions && HasTurnFor(db, db.runs[op.run].session, db.runs[op.run].request) && op.turn !in db.turns {
      var row := db.runs[op.run];
      CommitRejected(db, row, op.turn, op.assistant);
      BreaksIndexes(StoreTurn(db, row.session, op.turn, row.request, row.payload, row.query, op.assistant).(runs := db.runs[op.run := Finished(row, op.turn, op.now)]));
    }
  }

  lemma CompleteMoves(db: Db, op: Op, run: RunId)
    requires run in db.runs && op.OpComplete? && CommitMeetsIndexes(db, op)
    ensures MovesOnly(db, op, run)
  {
    hide HasTurnFor, UniqueIndexes;
  }

  lemma RowOpMoves(db: Db, op: Op, run: RunId)
    requires run in db.runs && (op.OpMarkRunning? || op.OpMarkWaiting? || op.OpResume? || op.OpHeartbeat? || op.OpRequestCancel? || op.OpMarkTerminal?)
    requires Apply(db, op).result != Failure(Unavailable)
    ensures MovesOnly(db, op, run)
  {
    hide UniqueIndexes;
  }

  lemma OtherOpsMoveNothing(db: Db, op: Op, run: RunId)
    requires run in db.runs && (op.OpCreateSession? || op.OpClaim? || op.OpCreateRun? || op.OpAppendDialogue? || op.OpCommitTurn?)
    ensures MovesOnly(db, op, run)
  {
    hide UniqueIndexes, HasRunFor, HasActiveRun, HasTurnFor;
  }

  /** The life of a run: every transaction moves it exactly as the table says, and nothing else moves it. */
  lemma StatusMovesExactly(db: Db, op: Op, run: RunId)
    requires Inv(db) && run in db.runs
    ensures MovesOnly(db, op, run)
  {
    hide Inv, MovesOnly, CommitMeetsIndexes, Apply;
    if op.OpSweep? {
      SweepMoves(db, op, run);
    } else if op.OpComplete? {
      CommitIndexes(db, op);
      CompleteMoves(db, op, run);
    } else if op.OpCreateSession? || op.OpClaim? || op.OpCreateRun? || op.OpAppendDialogue? || op.OpCommitTurn? {
      OtherOpsMoveNothing(db, op, run);
    } else {
      StepKeeps(db, op);
      RowOpMoves(db, op, run);
    }
  }

  // ------------------------------------------------------------------ what is refused

  predicate HeldBy(row: RunRow, worker: string, token: nat) { row.worker == Some(worker) && row.token == Some(token) }

  predicate Ended(row: RunRow) { row.status in {Completed, Failed, Cancelled, Interrupted} }

  /** A mark neither applies to this status nor wrote it. */
  predicate NotFor(mark: Mark, status: RunStatus) {
    match mark
    case AsCancelled => status !in {CancelRequested, Cancelled}
    case AsFailed(_) => status !in {Queued, Running, Failed}
    case AsInterrupted(_) => status !in {Queued, Running, CancelRequested, Interrupted}
  }

  /** Which error a transaction on a run draws, and when. */
  ghost predicate Refuses(db: Db, op: Op, e: ChatError) {
    match op
    case OpMarkRunning(browser, run, worker, token, _) =>
      if !OwnsRun(db, browser, run) then e == NotFound else
        var row := db.runs[run];
        || (e == StateError("run_owned_by_other_worker") && row.status == Running && !HeldBy(row, worker, token))
        || (e == StateError("cancel_requested") && row.status == CancelRequested)
        || (e == RunTerminal && (row.status == WaitingInput || Ended(row)))
    case OpMarkWaiting(run, worker, token, _) =>
      if run !in db.runs then e == NotFound
      else e == StateError("run_owned_by_other_worker") && !(db.runs[run].status == Running && HeldBy(db.runs[run], worker, token))
    case OpResume(browser, run, kind, option) =>
      if !OwnsRun(db, browser, run) then e == NotFound else
        var row := db.runs[run];
        if row.status != WaitingInput then e == CheckpointError("checkpoint_not_waiting")
        else if row.checkpoint.Some? && row.checkpoint.value.kind != kind then e == CheckpointError("checkpoint_type_mismatch")
        else e == CheckpointError("checkpoint_option_invalid") && row.checkpoint.Some? && option !in row.checkpoint.value.options
    case OpHeartbeat(run, worker, _) =>
      if run !in db.runs then e == NotFound
      else if db.runs[run].worker != Some(worker) then e == StateError("run_owned_by_other_worker")
      else e == RunTerminal && db.runs[run].status !in {Running, CancelRequested}
    case OpRequestCancel(browser, run, _) =>
      if !OwnsRun(db, browser, run) then e == NotFound else e == RunTerminal && Ended(db.runs[run])
    case OpMarkTerminal(run, mark, holder, _) =>
      if run !in db.runs then e == NotFound
      else if holder.Some? && db.runs[run].worker != holder then e == StateError("run_owned_by_other_worker")
      else e == RunTerminal && NotFor(mark, db.runs[run].status)
    case OpComplete(run, worker, token, turn, _, expected, _) =>
      if run !in db.runs then e == NotFound else
        var row := db.runs[run];
        if !HeldBy(row, worker, token) then e == FencingLost
        else if row.status == CancelRequested then e == StateError("cancel_requested")
        else if row.status != Running then e == RunTerminal && row.status != Completed
        else if row.session !in db.sessions then e == NotFound
        else if db.sessions[row.session].activeToken != token then e == FencingLost
        else if expected.Some? && expected.value != db.sessions[row.session].nextTurnIndex then e == StateError("stale_turn_index")
        else e == Unavailable && (turn in db.turns || HasTurnFor(db, row.session, row.request))
    case _ => false
  }

  ghost predicate RefusesExactly(db: Db, op: Op) {
    && (forall e :: Apply(db, op).result == Failure(e) <==> Refuses(db, op, e))
    && (Apply(db, op).result.Failure? ==> Apply(db, op).db == db)
  }

  predicate OnARun(op: Op) {
    op.OpMarkRunning? || op.OpMarkWaiting? || op.OpResume? || op.OpHeartbeat? || op.OpRequestCancel? || op.OpMarkTerminal? || op.OpComplete?
  }

  ghost predicate WaitingRunsAsk(db: Db) { forall r | r in db.runs && db.runs[r].status == WaitingInput :: db.runs[r].checkpoint.Some? }

  lemma RowOpRefuses(db: Db, op: Op)
    requires OnARun(op) && !op.OpComplete? && Apply(db, op).result != Failure(Unavailable) && WaitingRunsAsk(db)
    ensures RefusesExactly(db, op)
  {
    hide UniqueIndexes;
  }

  lemma CompleteRefuses(db: Db, op: Op)
    requires op.OpComplete? && CommitMeetsIndexes(db, op)
    ensures RefusesExactly(db, op)
  {
    hide HasTurnFor, UniqueIndexes;
  }

  lemma RowOpAtHand(db: Db, op: Op)
    requires Inv(db) && OnARun(op) && !op.OpComplete?
    ensures WaitingRunsAsk(db) && Apply(db, op).result != Failure(Unavailable)
  {
    assert WaitingRunsAsk(db);
    hide Inv, Apply, WaitingRunsAsk;
    StepKeeps(db, op);
  }

  /** A transaction on a run is refused with an error exactly when that error is due, and then nothing changes. */
  lemma RunOpsRefuseExactly(db: Db, op: Op)
    requires Inv(db) && OnARun(op)
    ensures RefusesExactly(db, op)
  {
    hide Inv, Apply, RefusesExactly, CommitMeetsIndexes, WaitingRunsAsk;
    if op.OpComplete? {
      CommitIndexes(db, op);
      CompleteRefuses(db, op);
    } else {
      RowOpAtHand(db, op);
      RowOpRefuses(db, op);
    }
  }

  /** What a run that was moved now carries: the lease it was given, the question it waits with, the option that
      was chosen, the code it ended with. */
  ghost predicate CarriesWhatWasSaid(op: Op, row: RunRow, after: RunRow) {
    match op
    case OpMarkRunning(_, _, worker, token, now) =>
      after.worker == Some(worker) && after.token == Some(token) && after.heartbeatAt == Some(now)
    case OpMarkWaiting(_, _, _, checkpoint) => after.checkpoint == Some(checkpoint) && after.worker.None? && after.token.None?
    case OpResume(_, _, kind, option) =>
      row.checkpoint.Some? && after.checkpoint == Some(Checkpoint(kind, row.checkpoint.value.options, Some(option)))
    case OpRequestCancel(_, _, now) => after.status == CancelRequested ==> after.heartbeatAt == Some(now)
    case OpMarkTerminal(_, mark, _, now) =>
      after.heartbeatAt == Some(now)
      && (match mark case AsCancelled => after.errorCode.None? case AsFailed(code) => after.errorCode == Some(code)
                     case AsInterrupted(code) => after.errorCode == Some(code))
    case OpSweep(_, code) => after.errorCode == Some(code) && after.heartbeatAt == row.heartbeatAt
    case OpComplete(_, _, _, turn, _, _, now) => after.resultTurn == Some(turn) && after.heartbeatAt == Some(now)
    case _ => false
  }

  lemma MovedRowsCarry(db: Db, op: Op, run: RunId)
    requires run in db.runs && run in Apply(db, op).db.runs && Apply(db, op).db.runs[run].status != db.runs[run].status
    ensures CarriesWhatWasSaid(op, db.runs[run], Apply(db, op).db.runs[run])
  {
    hide UniqueIndexes, HasRunFor, HasActiveRun, HasTurnFor;
  }

  /** A heartbeat is written exactly for the worker of a leased run, and only the heartbeat. */
  lemma HeartbeatWritesExactly(db: Db, op: Op)
    requires Inv(db) && op.OpHeartbeat? && op.run in db.runs
    ensures var row := db.runs[op.run];
      if row.worker == Some(op.worker) && row.status in {Running, CancelRequested}
      then Apply(db, op).db == db.(runs := db.runs[op.run := row.(heartbeatAt := Some(op.now))]) && Apply(db, op).result.Success?
      else Apply(db, op).db == db && Apply(db, op).result.Failure?
  {
    HeartbeatKeeps(db, op.run, op.worker, op.now);
    hide Inv, UniqueIndexes;
  }

  /** The sweeper answers with exactly the runs it interrupted. */
  lemma SweepAnswersExactly(db: Db, op: Op)
    requires Inv(db) && op.OpSweep?
    ensures var out := Apply(db, op);
      && out.db.runs.Keys == db.runs.Keys && out.result.Success? && out.result.value.Swept?
      && forall r :: r in out.result.value.swept <==> r in db.runs && out.db.runs[r].status != db.runs[r].status
  {
    hide Inv, UniqueIndexes, SweepStale, SweptRow, Stale;
    SweepKeeps(db, op.before, op.code);
    SweepSucceeds(db, op.before, op.code);
    forall r | r in db.runs ensures Stale(db.runs[r], op.before) <==> SweptRow(db.runs[r], op.before, op.code).status != db.runs[r].status {
      SweptChanges(db.runs[r], op.before, op.code);
    }
  }

  lemma SweepSucceeds(db: Db, before: nat, code: string)
    requires SweepStale(db, before, code).result.Success?
    ensures SweepStale(db, before, code).db.runs == SweptRuns(db.runs, before, code)
    ensures SweepStale(db, before, code).result == Success(Swept(StaleRuns(db.runs, before)))
  {
    hide UniqueIndexes, SweptRuns, StaleRuns;
  }

  lemma SweptChanges(row: RunRow, before: nat, code: string)
    ensures Stale(row, before) <==> SweptRow(row, before, code).status != row.status
  {}

  /** A session is created once, with no turn yet, for the browser that asked; nothing about it but its counter
      and its token ever changes. */
  lemma SessionsBelong(db: Db, op: Op, sid: SessionId)
    requires Inv(db)
    ensures var after := Apply(db, op).db;
      && (sid in db.sessions ==> sid in after.sessions && after.sessions[sid].browser == db.sessions[sid].browser)
      && (sid !in db.sessions && sid in after.sessions <==>
            op.OpCreateSession? && op.sid == sid && sid !in db.sessions && Apply(db, op).result == Success(SessionCreated))
      && (sid !in db.sessions && sid in after.sessions ==>
            after.sessions[sid].browser == op.browser && after.sessions[sid].nextTurnIndex == 1)
  {
    hide Inv, UniqueIndexes, HasRunFor, HasActiveRun, HasTurnFor, Presented, SweptRuns;
  }

  /** A claim is answered with a token above the session's, the one asked for or the next, which is then the
      session's; and refused exactly when the one asked for is not above it. */
  lemma ClaimAnswersExactly(db: Db, op: Op)
    requires Inv(db) && op.OpClaim? && Owns(db, op.browser, op.sid)
    ensures var out, active := Apply(db, op), db.sessions[op.sid].activeToken;
      && (out.result == Failure(FencingLost) <==> op.requested.Some? && op.requested.value <= active)
      && (out.result.Success? <==> out.result != Failure(FencingLost))
      && (forall n :: out.result == Success(Claimed(n)) ==>
            && active < n == out.db.sessions[op.sid].activeToken
            && (if op.requested.Some? then n == op.requested.value else n == active + 1))
      && out.db.runs == db.runs && out.db.turns == db.turns
  {
    ClaimKeeps(db, op.browser, op.sid, op.requested);
    hide Inv, UniqueIndexes;
  }

  // ------------------------------------------------------------------ answers to what was asked before

  /** A run request is answered from the run it named before, refused for another payload, refused while a run
      is active, or leads to a new run: exactly one of these for an owned session. */
  lemma CreateAnswersExactly(db: Db, op: Op)
    requires Inv(db) && op.OpCreateRun? && Owns(db, op.browser, op.sid) && op.run !in db.runs
    ensures var result := Apply(db, op).result;
      && (forall r :: result == Success(RunReplayed(r)) <==>
            r in db.runs && db.runs[r].session == op.sid && db.runs[r].request == op.request && db.runs[r].payload == op.payload)
      && (result == Failure(IdempotencyConflict) <==>
            exists r :: r in db.runs && db.runs[r].session == op.sid && db.runs[r].request == op.request && db.runs[r].payload != op.payload)
      && (result == Failure(RunActive) <==> !HasRunFor(db, op.sid, op.request) && HasActiveRun(db, op.sid))
      && (result == Success(RunCreated(op.run)) <==> !HasRunFor(db, op.sid, op.request) && !HasActiveRun(db, op.sid))
  {
    CreateRunKeeps(db, op.browser, op.sid, op.request, op.payload, op.query, op.run, op.now);
    assert RunRequestUnique(db.runs);
    hide Inv, UniqueIndexes, HasActiveRun;
  }

  /** A dialogue turn is answered from the turn its request has, with the text stored then, or refused for
      another payload, or stored. */
  lemma DialogueAnswersExactly(db: Db, op: Op)
    requires Inv(db) && op.OpAppendDialogue? && Owns(db, op.browser, op.sid) && op.turn !in db.turns
    ensures AnswersExactly(db, op.sid, op.request, op.query, op.assistant, Apply(db, op).result)
  {
    hide Inv, AnswersExactly, StoreOrReplay;
    ReplayAnswers(db, op.sid, op.request, op.query, op.query, op.assistant, op.turn);
  }

  /** The fenced commit does the same for the holder of the session's active token, and nothing for anybody else. */
  lemma CommitAnswersExactly(db: Db, op: Op)
    requires Inv(db) && op.OpCommitTurn? && Owns(db, op.browser, op.sid) && op.turn !in db.turns
    ensures if op.token == db.sessions[op.sid].activeToken
            then AnswersExactly(db, op.sid, op.request, op.payload, op.assistant, Apply(db, op).result)
            else Apply(db, op) == Outcome(db, Failure(FencingLost))
  {
    hide Inv, AnswersExactly, StoreOrReplay;
    ReplayAnswers(db, op.sid, op.request, op.payload, op.query, op.assistant, op.turn);
  }

  ghost predicate IsTurnFor(turns: map<TurnId, TurnRow>, t: TurnId, sid: SessionId, request: RequestId) {
    t in turns && turns[t].session == sid && turns[t].request == request
  }

  ghost predicate AnswersExactly(db: Db, sid: SessionId, request: RequestId, payload: string, assistant: string, result: Result<Reply, ChatError>)
    requires sid in db.sessions
  {
    && (forall i, text :: result == Success(TurnReplayed(i, text)) <==>
          exists t :: IsTurnFor(db.turns, t, sid, request) && db.turns[t].payload == payload
                      && db.turns[t].index == i && db.turns[t].assistant == text)
    && (result == Failure(IdempotencyConflict) <==> exists t :: IsTurnFor(db.turns, t, sid, request) && db.turns[t].payload != payload)
    && (result == Success(TurnStored(db.sessions[sid].nextTurnIndex, assistant)) <==> !exists t :: IsTurnFor(db.turns, t, sid, request))
  }

  lemma ReplayAnswers(db: Db, sid: SessionId, request: RequestId, payload: string, query: string, assistant: string, turn: TurnId)
    requires Inv(db) && sid in db.sessions && turn !in db.turns
    ensures AnswersExactly(db, sid, request, payload, assistant, StoreOrReplay(db, sid, request, payload, query, assistant, turn).result)
  {
    StoreOrReplayKeeps(db, sid, request, payload, query, assistant, turn);
    assert TurnRequestUnique(db.turns);
    hide Inv, UniqueIndexes, StoreTurn;
    assert forall t :: IsTurnFor(db.turns, t, sid, request) ==> HasTurnFor(db, sid, request);
    if HasTurnFor(db, sid, request) {
      var t :| t in db.turns && db.turns[t].session == sid && db.turns[t].request == request;
      assert IsTurnFor(db.turns, t, sid, request);
    }
  }
}
