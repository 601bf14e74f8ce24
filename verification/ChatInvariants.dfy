/** What every interleaving of the repository transactions keeps. */
module ChatInvariants {
  import opened Wrappers
  import opened ChatTables
  import opened ChatTransactions

  ghost predicate IndexTaken(turns: map<TurnId, TurnRow>, sid: SessionId, i: nat) {
    exists t | t in turns :: turns[t].session == sid && turns[t].index == i
  }

  /** The turns of a session carry exactly the indexes 1 .. nextTurnIndex - 1. */
  ghost predicate Numbered(sessions: map<SessionId, SessionRow>, turns: map<TurnId, TurnRow>) {
    && (forall s | s in sessions :: 1 <= sessions[s].nextTurnIndex)
    && (forall t | t in turns ::
          turns[t].session in sessions && 1 <= turns[t].index < sessions[turns[t].session].nextTurnIndex)
    && (forall s, i | s in sessions && 1 <= i < sessions[s].nextTurnIndex :: IndexTaken(turns, s, i))
  }

  /** A run is completed exactly when it owns a turn, one of its own session, request and payload. */
  ghost predicate OwnsItsTurn(turns: map<TurnId, TurnRow>, row: RunRow) {
    && (row.status == Completed <==> row.resultTurn.Some?)
    && (row.resultTurn.Some? ==>
          && row.resultTurn.value in turns
          && var turn := turns[row.resultTurn.value];
             turn.session == row.session && turn.request == row.request && turn.payload == row.payload)
  }

  ghost predicate LeaseFields(sessions: map<SessionId, SessionRow>, row: RunRow) {
    && row.session in sessions
    && (row.status in {Queued, WaitingInput} ==> row.token.None? && row.worker.None?)
    && (row.status == WaitingInput ==> row.checkpoint.Some?)
    && (row.status in {Running, Completed} ==> row.token.Some? && row.worker.Some?)
    && (row.status == Completed ==> row.token.value <= sessions[row.session].activeToken)
  }

  ghost predicate RowsOk(db: Db, runs: map<RunId, RunRow>) {
    forall r | r in runs :: OwnsItsTurn(db.turns, runs[r]) && LeaseFields(db.sessions, runs[r])
  }

  ghost predicate CommittedBefore(turns: map<TurnId, TurnRow>, a: RunRow, b: RunRow) {
    && a.session == b.session
    && a.resultTurn.Some? && a.resultTurn.value in turns
    && b.resultTurn.Some? && b.resultTurn.value in turns
    && turns[a.resultTurn.value].index < turns[b.resultTurn.value].index
  }

  ghost predicate TokensInOrder(a: RunRow, b: RunRow) {
    a.token.Some? && b.token.Some? && a.token.value <= b.token.value
  }

  /** Later turns were committed under tokens that are no smaller. */
  ghost predicate TokensFollowTurns(turns: map<TurnId, TurnRow>, runs: map<RunId, RunRow>) {
    forall a, b | a in runs && b in runs && CommittedBefore(turns, runs[a], runs[b]) ::
      TokensInOrder(runs[a], runs[b])
  }

  ghost predicate RunsUnique(runs: map<RunId, RunRow>) {
    RunRequestUnique(runs) && OneActiveRun(runs) && ResultTurnUnique(runs)
  }

  ghost predicate Inv(db: Db) {
    && TurnRequestUnique(db.turns) && TurnIndexUnique(db.turns)
    && RunsUnique(db.runs)
    && Numbered(db.sessions, db.turns)
    && RowsOk(db, db.runs)
    && TokensFollowTurns(db.turns, db.runs)
  }

  // ------------------------------------------------------------------ one run row changes

  /** The row changes a status transition may make without touching any other row. */
  ghost predicate QuietChange(row: RunRow, row': RunRow) {
    && row'.session == row.session && row'.request == row.request && row'.payload == row.payload
    && row'.resultTurn == row.resultTurn
    && (Active(row'.status) ==> Active(row.status))
    && (row'.status == Completed <==> row.status == Completed)
    && (row.status == Completed ==> row'.token == row.token)
  }

  lemma QuietUnique(runs: map<RunId, RunRow>, run: RunId, row': RunRow)
    requires RunsUnique(runs) && run in runs && QuietChange(runs[run], row')
    ensures RunsUnique(runs[run := row'])
  {}

  lemma QuietTokens(turns: map<TurnId, TurnRow>, runs: map<RunId, RunRow>, run: RunId, row': RunRow)
    requires TokensFollowTurns(turns, runs) && run in runs && QuietChange(runs[run], row')
    requires OwnsItsTurn(turns, runs[run])
    ensures TokensFollowTurns(turns, runs[run := row'])
  {
    var after := runs[run := row'];
    forall a, b | a in after && b in after && CommittedBefore(turns, after[a], after[b])
      ensures TokensInOrder(after[a], after[b])
    {
      assert CommittedBefore(turns, runs[a], runs[b]);
    }
  }

  /** A status transition saves its row, keeps the invariant and meets no unique index. */
  lemma SaveQuietly(db: Db, run: RunId, row': RunRow)
    requires Inv(db) && run in db.runs
    requires QuietChange(db.runs[run], row') && LeaseFields(db.sessions, row')
    ensures SaveRun(db, run, row').result == Success(RunSaved(row'))
    ensures Inv(SaveRun(db, run, row').db)
  {
    QuietUnique(db.runs, run, row');
    QuietTokens(db.turns, db.runs, run, row');
    assert OwnsItsTurn(db.turns, db.runs[run]) && OwnsItsTurn(db.turns, row');
    assert RowsOk(db, db.runs[run := row']);
  }

  // ------------------------------------------------------------------ one turn is stored

  lemma StoreTurnNumbers(db: Db, sid: SessionId, turn: TurnId, request: RequestId, payload: string,
                         query: string, assistant: string)
    requires TurnRequestUnique(db.turns) && TurnIndexUnique(db.turns) && Numbered(db.sessions, db.turns)
    requires sid in db.sessions && turn !in db.turns && !HasTurnFor(db, sid, request)
    ensures var after := StoreTurn(db, sid, turn, request, payload, query, assistant);
            && TurnRequestUnique(after.turns) && TurnIndexUnique(after.turns)
            && Numbered(after.sessions, after.turns)
  {
    var after := StoreTurn(db, sid, turn, request, payload, query, assistant);
    forall s, i | s in after.sessions && 1 <= i < after.sessions[s].nextTurnIndex
      ensures IndexTaken(after.turns, s, i)
    {
      if s == sid && i == db.sessions[sid].nextTurnIndex {
        assert turn in after.turns;
      } else {
        assert IndexTaken(db.turns, s, i);
        var t :| t in db.turns && db.turns[t].session == s && db.turns[t].index == i;
        assert t in after.turns && after.turns[t] == db.turns[t];
      }
    }
  }

  lemma StoreTurnRuns(db: Db, after: Db, runs: map<RunId, RunRow>)
    requires RowsOk(db, runs) && TokensFollowTurns(db.turns, runs)
    requires forall t | t in db.turns :: t in after.turns && after.turns[t] == db.turns[t]
    requires forall s | s in db.sessions :: s in after.sessions && after.sessions[s].activeToken >= db.sessions[s].activeToken
    ensures RowsOk(after, runs) && TokensFollowTurns(after.turns, runs)
  {
    forall r | r in runs ensures OwnsItsTurn(after.turns, runs[r]) && LeaseFields(after.sessions, runs[r]) {
      assert OwnsItsTurn(db.turns, runs[r]) && LeaseFields(db.sessions, runs[r]);
    }
    forall a, b | a in runs && b in runs && CommittedBefore(after.turns, runs[a], runs[b])
      ensures TokensInOrder(runs[a], runs[b])
    {
      assert OwnsItsTurn(db.turns, runs[a]) && OwnsItsTurn(db.turns, runs[b]);
      assert CommittedBefore(db.turns, runs[a], runs[b]);
    }
  }

  lemma StoreTurnKeeps(db: Db, sid: SessionId, turn: TurnId, request: RequestId, payload: string,
                       query: string, assistant: string)
    requires Inv(db) && sid in db.sessions && turn !in db.turns && !HasTurnFor(db, sid, request)
    ensures Inv(StoreTurn(db, sid, turn, request, payload, query, assistant))
  {
    var after := StoreTurn(db, sid, turn, request, payload, query, assistant);
    StoreTurnNumbers(db, sid, turn, request, payload, query, assistant);
    StoreTurnRuns(db, after, db.runs);
  }

  lemma StoreOrReplayKeeps(db: Db, sid: SessionId, request: RequestId, payload: string,
                           query: string, assistant: string, turn: TurnId)
    requires Inv(db) && sid in db.sessions
    ensures var out := StoreOrReplay(db, sid, request, payload, query, assistant, turn);
            Inv(out.db) && (out.result == Failure(Unavailable) ==> turn in db.turns)
  {
    if !HasTurnFor(db, sid, request) && turn !in db.turns {
      StoreTurnKeeps(db, sid, turn, request, payload, query, assistant);
    }
  }

  // ------------------------------------------------------------------ the commit transaction

  function Finished(row: RunRow, turn: TurnId, now: nat): RunRow {
    row.(status := Completed, resultTurn := Some(turn), heartbeatAt := Some(now), errorCode := None, checkpoint := None)
  }

  ghost predicate MayCommit(db: Db, run: RunId, row: RunRow, turn: TurnId) {
    && run in db.runs && db.runs[run] == row && row.status == Running
    && row.session in db.sessions && row.token == Some(db.sessions[row.session].activeToken)
    && turn !in db.turns
  }

  lemma FinishedUnique(db: Db, run: RunId, row: RunRow, turn: TurnId, now: nat)
    requires RunsUnique(db.runs) && RowsOk(db, db.runs) && MayCommit(db, run, row, turn)
    ensures RunsUnique(db.runs[run := Finished(row, turn, now)])
  {
    var after := db.runs[run := Finished(row, turn, now)];
    forall a, b | a in after && b in after && a != b && after[a].resultTurn.Some?
      ensures after[a].resultTurn != after[b].resultTurn
    {
      assert OwnsItsTurn(db.turns, db.runs[a]) && OwnsItsTurn(db.turns, db.runs[b]);
    }
  }

  /** The new turn has the largest index, and its token is the session's active one, which no
      completed run exceeds. */
  lemma FinishedTokens(db: Db, stored: Db, run: RunId, row: RunRow, turn: TurnId, now: nat)
    requires RowsOk(db, db.runs) && Numbered(stored.sessions, stored.turns) && MayCommit(db, run, row, turn)
    requires TokensFollowTurns(stored.turns, db.runs)
    requires turn in stored.turns && stored.turns[turn].session == row.session && row.session in stored.sessions
    requires stored.turns[turn].index == stored.sessions[row.session].nextTurnIndex - 1
    requires forall t | t in db.turns :: t in stored.turns && stored.turns[t] == db.turns[t]
    ensures TokensFollowTurns(stored.turns, db.runs[run := Finished(row, turn, now)])
  {
    var after := db.runs[run := Finished(row, turn, now)];
    forall a, b | a in after && b in after && CommittedBefore(stored.turns, after[a], after[b])
      ensures TokensInOrder(after[a], after[b])
    {
      assert a in db.runs && OwnsItsTurn(db.turns, db.runs[a]) && LeaseFields(db.sessions, db.runs[a]);
      assert b in db.runs && OwnsItsTurn(db.turns, db.runs[b]);
      if a != run && b != run {
        assert CommittedBefore(stored.turns, db.runs[a], db.runs[b]);
      }
    }
  }

  lemma CommitKeeps(db: Db, run: RunId, row: RunRow, turn: TurnId, assistant: string, now: nat)
    requires Inv(db) && MayCommit(db, run, row, turn) && !HasTurnFor(db, row.session, row.request)
    ensures var stored := StoreTurn(db, row.session, turn, row.request, row.payload, row.query, assistant);
            Inv(stored.(runs := stored.runs[run := Finished(row, turn, now)]))
  {
    var stored := StoreTurn(db, row.session, turn, row.request, row.payload, row.query, assistant);
    StoreTurnKeeps(db, row.session, turn, row.request, row.payload, row.query, assistant);
    FinishedUnique(db, run, row, turn, now);
    FinishedTokens(db, stored, run, row, turn, now);
    assert OwnsItsTurn(stored.turns, Finished(row, turn, now));
    assert LeaseFields(stored.sessions, Finished(row, turn, now)) by {
      assert LeaseFields(stored.sessions, row);
    }
    assert RowsOk(stored, stored.runs[run := Finished(row, turn, now)]);
  }

  /** The only way the commit transaction meets a unique index: the request already has a turn. */
  lemma CommitRejected(db: Db, row: RunRow, turn: TurnId, assistant: string)
    requires row.session in db.sessions && turn !in db.turns && HasTurnFor(db, row.session, row.request)
    ensures !TurnRequestUnique(StoreTurn(db, row.session, turn, row.request, row.payload, row.query, assistant).turns)
  {
    var stored := StoreTurn(db, row.session, turn, row.request, row.payload, row.query, assistant);
    var t :| t in db.turns && db.turns[t].session == row.session && db.turns[t].request == row.request;
    assert t in stored.turns && turn in stored.turns && t != turn;
  }

  lemma CompleteKeeps(db: Db, run: RunId, worker: string, token: nat, turn: TurnId,
                      assistant: string, expected: Option<nat>, now: nat)
    requires Inv(db)
    ensures var out := CompleteWithTurn(db, run, worker, token, turn, assistant, expected, now);
            && Inv(out.db)
            && (out.result == Failure(Unavailable) && turn !in db.turns ==>
                  run in db.runs && HasTurnFor(db, db.runs[run].session, db.runs[run].request))
  {
    if run in db.runs {
      var row := db.runs[run];
      if row.token == Some(token) && row.session in db.sessions && MayCommit(db, run, row, turn) {
        if HasTurnFor(db, row.session, row.request) {
          CommitRejected(db, row, turn, assistant);
        } else {
          CommitKeeps(db, run, row, turn, assistant, now);
        }
      }
    }
  }

  // ------------------------------------------------------------------ the other table changes

  lemma CreateRunKeeps(db: Db, browser: string, sid: SessionId, request: RequestId,
                       payload: string, query: string, run: RunId, now: nat)
    requires Inv(db)
    ensures var out := CreateRun(db, browser, sid, request, payload, query, run, now);
            Inv(out.db) && (out.result == Failure(Unavailable) ==> run in db.runs)
  {
    if Owns(db, browser, sid) && !HasRunFor(db, sid, request) && !HasActiveRun(db, sid) && run !in db.runs {
      var row := RunRow(sid, request, payload, query, Queued, None, None, None, None, None, now, None);
      var runs' := db.runs[run := row];
      assert RunsUnique(runs');
      assert RowsOk(db, runs');
      forall a, b | a in runs' && b in runs' && CommittedBefore(db.turns, runs'[a], runs'[b])
        ensures TokensInOrder(runs'[a], runs'[b])
      {
        assert CommittedBefore(db.turns, db.runs[a], db.runs[b]);
      }
    }
  }

  lemma SessionChangeKeeps(db: Db, sid: SessionId, row: SessionRow)
    requires Inv(db)
    requires if sid in db.sessions
             then row.nextTurnIndex == db.sessions[sid].nextTurnIndex && row.activeToken >= db.sessions[sid].activeToken
             else row.nextTurnIndex == 1
    ensures Inv(db.(sessions := db.sessions[sid := row]))
  {
    var after := db.(sessions := db.sessions[sid := row]);
    forall s, i | s in after.sessions && 1 <= i < after.sessions[s].nextTurnIndex
      ensures IndexTaken(after.turns, s, i)
    {
      assert IndexTaken(db.turns, s, i);
    }
    StoreTurnRuns(db, after, db.runs);
  }

  lemma SweepTokens(db: Db, before: nat, code: string)
    requires RowsOk(db, db.runs) && TokensFollowTurns(db.turns, db.runs)
    ensures RowsOk(db, SweptRuns(db.runs, before, code))
    ensures TokensFollowTurns(db.turns, SweptRuns(db.runs, before, code))
  {
    var after := SweptRuns(db.runs, before, code);
    forall r | r in after ensures OwnsItsTurn(db.turns, after[r]) && LeaseFields(db.sessions, after[r]) {
      assert OwnsItsTurn(db.turns, db.runs[r]) && LeaseFields(db.sessions, db.runs[r]);
    }
    forall a, b | a in after && b in after && CommittedBefore(db.turns, after[a], after[b])
      ensures TokensInOrder(after[a], after[b])
    {
      assert OwnsItsTurn(db.turns, db.runs[a]) && OwnsItsTurn(db.turns, db.runs[b]);
      assert CommittedBefore(db.turns, db.runs[a], db.runs[b]);
    }
  }

  lemma SweepUnique(runs: map<RunId, RunRow>, before: nat, code: string)
    requires RunsUnique(runs)
    ensures RunsUnique(SweptRuns(runs, before, code))
  {}

  lemma SweepKeeps(db: Db, before: nat, code: string)
    requires Inv(db)
    ensures Inv(SweepStale(db, before, code).db) && SweepStale(db, before, code).result.Success?
  {
    SweepUnique(db.runs, before, code);
    SweepTokens(db, before, code);
    hide RowsOk, TokensFollowTurns, Numbered, RunRequestUnique, OneActiveRun, ResultTurnUnique, SweptRuns;
  }

  lemma MarkRunningKeeps(db: Db, browser: string, run: RunId, worker: string, token: nat, now: nat)
    requires Inv(db)
    ensures var out := MarkRunning(db, browser, run, worker, token, now);
            Inv(out.db) && out.result != Failure(Unavailable)
  {
    if run in db.runs && db.runs[run].status == Queued {
      var row := db.runs[run];
      assert OwnsItsTurn(db.turns, row) && LeaseFields(db.sessions, row);
      SaveQuietly(db, run, row.(status := Running, worker := Some(worker), token := Some(token), heartbeatAt := Some(now)));
    }
  }

  lemma MarkWaitingKeeps(db: Db, run: RunId, worker: string, token: nat, checkpoint: Checkpoint)
    requires Inv(db)
    ensures var out := MarkWaiting(db, run, worker, token, checkpoint);
            Inv(out.db) && out.result != Failure(Unavailable)
  {
    if run in db.runs && db.runs[run].status == Running {
      var row := db.runs[run];
      assert OwnsItsTurn(db.turns, row) && LeaseFields(db.sessions, row);
      SaveQuietly(db, run, row.(status := WaitingInput, checkpoint := Some(checkpoint),
                                worker := None, token := None, heartbeatAt := None, errorCode := None));
    }
  }

  lemma ResumeKeeps(db: Db, browser: string, run: RunId, kind: string, option: string)
    requires Inv(db)
    ensures var out := Resume(db, browser, run, kind, option);
            Inv(out.db) && out.result != Failure(Unavailable)
  {
    if run in db.runs && db.runs[run].status == WaitingInput {
      var row := db.runs[run];
      assert OwnsItsTurn(db.turns, row) && LeaseFields(db.sessions, row);
      var checkpoint := row.checkpoint.value.(selected := Some(option));
      SaveQuietly(db, run, row.(status := Queued, checkpoint := Some(checkpoint), errorCode := None, heartbeatAt := None));
    }
  }

  lemma HeartbeatKeeps(db: Db, run: RunId, worker: string, now: nat)
    requires Inv(db)
    ensures var out := Heartbeat(db, run, worker, now); Inv(out.db) && out.result != Failure(Unavailable)
  {
    if run in db.runs {
      var row := db.runs[run];
      assert OwnsItsTurn(db.turns, row) && LeaseFields(db.sessions, row);
      SaveQuietly(db, run, row.(heartbeatAt := Some(now)));
    }
  }

  lemma RequestCancelKeeps(db: Db, browser: string, run: RunId, now: nat)
    requires Inv(db)
    ensures var out := RequestCancel(db, browser, run, now); Inv(out.db) && out.result != Failure(Unavailable)
  {
    if run in db.runs && Active(db.runs[run].status) {
      var row := db.runs[run];
      assert OwnsItsTurn(db.turns, row) && LeaseFields(db.sessions, row);
      if row.status == WaitingInput {
        SaveQuietly(db, run, row.(status := Cancelled, heartbeatAt := None, checkpoint := None));
      } else {
        SaveQuietly(db, run, row.(status := CancelRequested, heartbeatAt := Some(now)));
      }
    }
  }

  lemma MarkTerminalKeeps(db: Db, run: RunId, mark: Mark, worker: Option<string>, now: nat)
    requires Inv(db)
    ensures var out := MarkTerminal(db, run, mark, worker, now); Inv(out.db) && out.result != Failure(Unavailable)
  {
    if run in db.runs && mark.Allows(db.runs[run].status) {
      var row := db.runs[run];
      assert OwnsItsTurn(db.turns, row) && LeaseFields(db.sessions, row);
      SaveQuietly(db, run, row.(status := mark.Status(), errorCode := mark.ErrorCode(),
                                heartbeatAt := Some(now), checkpoint := None));
    }
  }

  lemma CreateSessionKeeps(db: Db, sid: SessionId, browser: string)
    requires Inv(db)
    ensures var out := CreateSession(db, sid, browser);
            Inv(out.db) && (out.result == Failure(Unavailable) ==> sid in db.sessions)
  {
    if sid !in db.sessions { SessionChangeKeeps(db, sid, SessionRow(browser, 1, 0)); }
  }

  lemma ClaimKeeps(db: Db, browser: string, sid: SessionId, requested: Option<nat>)
    requires Inv(db)
    ensures var out := ClaimFencing(db, browser, sid, requested); Inv(out.db) && out.result != Failure(Unavailable)
  {
    if Owns(db, browser, sid) {
      var row := db.sessions[sid];
      var next := if requested.Some? then requested.value else row.activeToken + 1;
      if next > row.activeToken { SessionChangeKeeps(db, sid, row.(activeToken := next)); }
    }
  }

  // ------------------------------------------------------------------ every history

  predicate FreshIds(db: Db, op: Op) {
    match op
    case OpCreateSession(sid, _) => sid !in db.sessions
    case OpCreateRun(_, _, _, _, _, run, _) => run !in db.runs
    case OpComplete(_, _, _, turn, _, _, _) => turn !in db.turns
    case OpAppendDialogue(_, _, _, _, _, turn) => turn !in db.turns
    case OpCommitTurn(_, _, _, _, _, _, _, turn) => turn !in db.turns
    case _ => true
  }

  /** A commit for a request that already has a turn, stored by the product-chat path. */
  predicate RequestTaken(db: Db, op: Op) {
    op.OpComplete? && op.run in db.runs && HasTurnFor(db, db.runs[op.run].session, db.runs[op.run].request)
  }

  /** Every transaction keeps the invariant; and with fresh identifiers no unique index ever rejects
      one, except a commit whose request id already has a turn. */
  lemma StepKeeps(db: Db, op: Op)
    requires Inv(db)
    ensures Inv(Apply(db, op).db)
    ensures FreshIds(db, op) && Apply(db, op).result == Failure(Unavailable) ==> RequestTaken(db, op)
  {
    hide Inv, UniqueIndexes, HasTurnFor, Commit, StoreTurn, CreateSession, ClaimFencing, CreateRun, MarkRunning,
      MarkWaiting, Resume, Heartbeat, RequestCancel, MarkTerminal, SweepStale, CompleteWithTurn, StoreOrReplay;
    match op
    case OpCreateSession(sid, browser) =>
      CreateSessionKeeps(db, sid, browser);
    case OpClaim(browser, sid, requested) => ClaimKeeps(db, browser, sid, requested);
    case OpCreateRun(browser, sid, request, payload, query, run, now) =>
      CreateRunKeeps(db, browser, sid, request, payload, query, run, now);
    case OpMarkRunning(browser, run, worker, token, now) => MarkRunningKeeps(db, browser, run, worker, token, now);
    case OpMarkWaiting(run, worker, token, checkpoint) => MarkWaitingKeeps(db, run, worker, token, checkpoint);
    case OpResume(browser, run, kind, option) => ResumeKeeps(db, browser, run, kind, option);
    case OpHeartbeat(run, worker, now) => HeartbeatKeeps(db, run, worker, now);
    case OpRequestCancel(browser, run, now) => RequestCancelKeeps(db, browser, run, now);
    case OpMarkTerminal(run, mark, holder, now) => MarkTerminalKeeps(db, run, mark, holder, now);
    case OpSweep(before, code) => SweepKeeps(db, before, code);
    case OpComplete(run, worker, token, turn, assistant, expected, now) =>
      CompleteKeeps(db, run, worker, token, turn, assistant, expected, now);
    case OpAppendDialogue(browser, sid, request, query, assistant, turn) =>
      if Owns(db, browser, sid) { StoreOrReplayKeeps(db, sid, request, query, query, assistant, turn); }
    case OpCommitTurn(browser, sid, request, payload, token, query, assistant, turn) =>
      if Owns(db, browser, sid) { StoreOrReplayKeeps(db, sid, request, payload, query, assistant, turn); }
  }

  /** Safety over whole histories: from the empty database, under any interleaving. */
  lemma {:induction false} ExecKeeps(db: Db, ops: seq<Op>)
    requires Inv(db)
    ensures Inv(Exec(db, ops))
    decreases |ops|
  {
    if ops != [] {
      StepKeeps(db, ops[0]);
      ExecKeeps(Apply(db, ops[0]).db, ops[1..]);
    }
  }

  /** The exception is real: product chat takes the request id of a running run, and the commit of
      that run is then rolled back by the index on (session, request). */
  lemma CommitRejectedByProductChat(db: Db, run: RunId, query: string, first: TurnId, turn: TurnId, assistant: string, now: nat)
    requires Inv(db) && run in db.runs && db.runs[run].status == Running
    requires db.runs[run].token == Some(db.sessions[db.runs[run].session].activeToken)
    requires !HasTurnFor(db, db.runs[run].session, db.runs[run].request) && first !in db.turns && turn !in db.turns && turn != first
    ensures var row := db.runs[run];
            var after := AppendDialogue(db, db.sessions[row.session].browser, row.session, row.request, query, "", first).db;
            && Inv(after)
            && CompleteWithTurn(after, run, row.worker.value, row.token.value, turn, assistant, None, now).result
               == Failure(Unavailable)
  {
    var row := db.runs[run];
    assert LeaseFields(db.sessions, row);
    var after := AppendDialogue(db, db.sessions[row.session].browser, row.session, row.request, query, "", first).db;
    StoreTurnKeeps(db, row.session, first, row.request, query, query, "");
    assert first in after.turns && HasTurnFor(after, row.session, row.request);
    CommitRejected(after, row, turn, assistant);
  }

  ghost predicate Ended(db: Db, op: Op, run: RunId) {
    && run in db.runs && Active(db.runs[run].status)
    && run in Apply(db, op).db.runs && Terminal(Apply(db, op).db.runs[run].status)
  }

  lemma TurnOpsEnd(db: Db, op: Op, run: RunId)
    requires Ended(db, op, run) && (op.OpComplete? || op.OpAppendDialogue? || op.OpCommitTurn?)
    ensures Apply(db, op).db.runs[run].checkpoint.None?
  {
    hide UniqueIndexes, HasTurnFor;
  }

  lemma SweepEnds(db: Db, op: Op, run: RunId)
    requires Ended(db, op, run) && op.OpSweep?
    ensures Apply(db, op).db.runs[run].checkpoint == db.runs[run].checkpoint
  {
    hide UniqueIndexes;
  }

  lemma MarksEnd(db: Db, op: Op, run: RunId)
    requires Ended(db, op, run) && (op.OpMarkTerminal? || op.OpRequestCancel?)
    ensures Apply(db, op).db.runs[run].checkpoint.None?
  {
    hide UniqueIndexes;
  }

  lemma CreationsEndNothing(db: Db, op: Op, run: RunId)
    requires op.OpCreateSession? || op.OpClaim? || op.OpCreateRun?
    ensures !Ended(db, op, run)
  {
    hide UniqueIndexes, HasRunFor, HasActiveRun;
  }

  ghost predicate StaysActive(after: Db, run: RunId) { run in after.runs && Active(after.runs[run].status) }

  lemma SavesEndNothing(db: Db, r: RunId, run: RunId)
    requires StaysActive(db, run)
    ensures forall row: RunRow | Active(row.status) :: StaysActive(SaveRun(db, r, row).db, run)
  {
    hide UniqueIndexes;
  }

  lemma TransitionsEndNothing(db: Db, op: Op, run: RunId)
    requires (op.OpMarkRunning? || op.OpMarkWaiting? || op.OpResume? || op.OpHeartbeat?) && StaysActive(db, run)
    ensures StaysActive(Apply(db, op).db, run)
  {
    hide SaveRun, StaysActive;
    SavesEndNothing(db, op.run, run);
  }

  /** A run that ends keeps a checkpoint exactly when the sweeper ended it and it had one. */
  lemma CheckpointOutlivesExactly(db: Db, op: Op, run: RunId)
    requires Ended(db, op, run)
    ensures Apply(db, op).db.runs[run].checkpoint.Some? <==> op.OpSweep? && db.runs[run].checkpoint.Some?
  {
    hide Apply;
    if op.OpComplete? || op.OpAppendDialogue? || op.OpCommitTurn? {
      TurnOpsEnd(db, op, run);
    } else if op.OpSweep? {
      SweepEnds(db, op, run);
    } else if op.OpMarkTerminal? || op.OpRequestCancel? {
      MarksEnd(db, op, run);
    } else {
      if op.OpCreateSession? || op.OpClaim? || op.OpCreateRun? { CreationsEndNothing(db, op, run); } else { TransitionsEndNothing(db, op, run); }
    }
  }
}
