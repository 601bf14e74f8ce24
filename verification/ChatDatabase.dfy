/** The chat repositories as they run: each method is one transaction on the tables. */
module ChatDatabase {
  import opened Wrappers
  import opened ChatTables
  import opened ChatTransactions
  import T = ChatTransactions

  class Database {
    var sessions: map<SessionId, SessionRow>
    var runs: map<RunId, RunRow>
    var turns: map<TurnId, TurnRow>

    function View(): Db
      reads this
    {
      Db(sessions, runs, turns)
    }

    constructor ()
      ensures View() == EMPTY_DB
    {
      sessions, runs, turns := map[], map[], map[];
    }

    /** Ends a transaction: keeps its rows, or restores the rows it started from. */
    method Flush(before: Db, reply: Reply) returns (r: Result<Reply, ChatError>)
      modifies this
      ensures Outcome(View(), r) == Commit(before, old(View()), reply)
    {
      if UniqueIndexes(View()) {
        r := Success(reply);
      } else {
        sessions, runs, turns := before.sessions, before.runs, before.turns;
        r := Failure(Unavailable);
      }
    }

    method Save(run: RunId, row: RunRow) returns (r: Result<Reply, ChatError>)
      modifies this
      ensures Outcome(View(), r) == SaveRun(old(View()), run, row)
    {
      var before := View();
      runs := runs[run := row];
      r := Flush(before, RunSaved(row));
    }

    method CreateSession(sid: SessionId, browser: string) returns (r: Result<Reply, ChatError>)
      modifies this
      ensures Outcome(View(), r) == T.CreateSession(old(View()), sid, browser)
    {
      var before := View();
      if sid in sessions { return Failure(Unavailable); }
      sessions := sessions[sid := SessionRow(browser, 1, 0)];
      r := Flush(before, SessionCreated);
    }

    method ClaimFencing(browser: string, sid: SessionId, requested: Option<nat>) returns (r: Result<Reply, ChatError>)
      modifies this
      ensures Outcome(View(), r) == T.ClaimFencing(old(View()), browser, sid, requested)
    {
      var before := View();
      if !Owns(before, browser, sid) { return Failure(NotFound); }
      var row := sessions[sid];
      var next := row.activeToken + 1;
      if requested.Some? {
        if requested.value <= row.activeToken { return Failure(FencingLost); }
        next := requested.value;
      }
      row := row.(activeToken := next);
      sessions := sessions[sid := row];
      r := Flush(before, Claimed(next));
    }

    method CreateRun(browser: string, sid: SessionId, request: RequestId, payload: string, query: string,
                     run: RunId, now: nat)
      returns (r: Result<Reply, ChatError>)
      requires RunRequestUnique(runs)
      modifies this
      ensures Outcome(View(), r) == T.CreateRun(old(View()), browser, sid, request, payload, query, run, now)
    {
      var before := View();
      if !Owns(before, browser, sid) { return Failure(NotFound); }
      if HasRunFor(before, sid, request) {
        var existing :| existing in runs && runs[existing].session == sid && runs[existing].request == request;
        if runs[existing].payload != payload { return Failure(IdempotencyConflict); }
        return Success(RunReplayed(existing));
      }
      if HasActiveRun(before, sid) { return Failure(RunActive); }
      if run in runs { return Failure(Unavailable); }
      runs := runs[run := RunRow(sid, request, payload, query, Queued, None, None, None, None, None, now, None)];
      r := Flush(before, RunCreated(run));
    }

    method MarkRunning(browser: string, run: RunId, worker: string, token: nat, now: nat)
      returns (r: Result<Reply, ChatError>)
      modifies this
      ensures Outcome(View(), r) == T.MarkRunning(old(View()), browser, run, worker, token, now)
    {
      if !OwnsRun(View(), browser, run) { return Failure(NotFound); }
      var row := runs[run];
      if row.status == Queued {
        row := row.(status := Running);
        row := row.(worker := Some(worker));
        row := row.(token := Some(token));
        row := row.(heartbeatAt := Some(now));
        r := Save(run, row);
      } else if row.status == Running {
        if row.worker != Some(worker) || row.token != Some(token) {
          return Failure(StateError("run_owned_by_other_worker"));
        }
        r := Success(RunSaved(row));
      } else if row.status == CancelRequested {
        r := Failure(StateError("cancel_requested"));
      } else {
        r := Failure(RunTerminal);
      }
    }

    method MarkWaiting(run: RunId, worker: string, token: nat, checkpoint: Checkpoint)
      returns (r: Result<Reply, ChatError>)
      modifies this
      ensures Outcome(View(), r) == T.MarkWaiting(old(View()), run, worker, token, checkpoint)
    {
      if run !in runs { return Failure(NotFound); }
      var row := runs[run];
      if row.status != Running || row.worker != Some(worker) || row.token != Some(token) {
        return Failure(StateError("run_owned_by_other_worker"));
      }
      row := row.(checkpoint := Some(checkpoint));
      row := row.(status := WaitingInput);
      row := row.(worker := None, token := None);
      row := row.(heartbeatAt := None, errorCode := None);
      r := Save(run, row);
    }

    method Resume(browser: string, run: RunId, kind: string, option: string) returns (r: Result<Reply, ChatError>)
      modifies this
      ensures Outcome(View(), r) == T.Resume(old(View()), browser, run, kind, option)
    {
      if !OwnsRun(View(), browser, run) { return Failure(NotFound); }
      var row := runs[run];
      if row.status != WaitingInput || row.checkpoint.None? { return Failure(CheckpointError("checkpoint_not_waiting")); }
      var checkpoint := row.checkpoint.value;
      if checkpoint.kind != kind { return Failure(CheckpointError("checkpoint_type_mismatch")); }
      if option !in checkpoint.options { return Failure(CheckpointError("checkpoint_option_invalid")); }
      checkpoint := checkpoint.(selected := Some(option));
      row := row.(checkpoint := Some(checkpoint));
      row := row.(status := Queued, errorCode := None, heartbeatAt := None);
      r := Save(run, row);
    }

    method Heartbeat(run: RunId, worker: string, now: nat) returns (r: Result<Reply, ChatError>)
      modifies this
      ensures Outcome(View(), r) == T.Heartbeat(old(View()), run, worker, now)
    {
      if run !in runs { return Failure(NotFound); }
      var row := runs[run];
      if row.worker != Some(worker) { return Failure(StateError("run_owned_by_other_worker")); }
      if !Leased(row.status) { return Failure(RunTerminal); }
      row := row.(heartbeatAt := Some(now));
      r := Save(run, row);
    }

    method RequestCancel(browser: string, run: RunId, now: nat) returns (r: Result<Reply, ChatError>)
      modifies this
      ensures Outcome(View(), r) == T.RequestCancel(old(View()), browser, run, now)
    {
      if !OwnsRun(View(), browser, run) { return Failure(NotFound); }
      var row := runs[run];
      if row.status == CancelRequested { return Success(AlreadyRequested); }
      if Terminal(row.status) { return Failure(RunTerminal); }
      if row.status == WaitingInput {
        row := row.(status := Cancelled);
        row := row.(heartbeatAt := None, checkpoint := None);
      } else {
        row := row.(status := CancelRequested);
        row := row.(heartbeatAt := Some(now));
      }
      r := Save(run, row);
    }

    method MarkTerminal(run: RunId, mark: Mark, worker: Option<string>, now: nat) returns (r: Result<Reply, ChatError>)
      modifies this
      ensures Outcome(View(), r) == T.MarkTerminal(old(View()), run, mark, worker, now)
    {
      if run !in runs { return Failure(NotFound); }
      var row := runs[run];
      if worker.Some? && row.worker != worker { return Failure(StateError("run_owned_by_other_worker")); }
      if !mark.Allows(row.status) {
        if row.status == mark.Status() { return Success(RunSaved(row)); }
        return Failure(RunTerminal);
      }
      row := row.(status := mark.Status());
      row := row.(errorCode := mark.ErrorCode());
      row := row.(heartbeatAt := Some(now), checkpoint := None);
      r := Save(run, row);
    }

    method SweepStale(before: nat, code: string) returns (r: Result<Reply, ChatError>)
      modifies this
      ensures Outcome(View(), r) == T.SweepStale(old(View()), before, code)
    {
      var start := View();
      var pending, swept := runs.Keys, {};
      while pending != {}
        invariant sessions == start.sessions && turns == start.turns
        invariant pending <= runs.Keys == start.runs.Keys
        invariant forall x | x in start.runs ::
                    runs[x] == if x in pending then start.runs[x] else SweptRow(start.runs[x], before, code)
        invariant swept == set x | x in start.runs && x !in pending && Stale(start.runs[x], before)
      {
        var run :| run in pending;
        var row := runs[run];
        if Stale(row, before) {
          row := row.(status := Interrupted);
          row := row.(errorCode := Some(code));
          runs := runs[run := row];
          swept := swept + {run};
        }
        pending := pending - {run};
      }
      assert runs == SweptRuns(start.runs, before, code);
      assert swept == StaleRuns(start.runs, before);
      r := Flush(start, Swept(swept));
    }

    method CompleteWithTurn(run: RunId, worker: string, token: nat, turn: TurnId, assistant: string,
                            expected: Option<nat>, now: nat)
      returns (r: Result<Reply, ChatError>)
      modifies this
      ensures Outcome(View(), r) == T.CompleteWithTurn(old(View()), run, worker, token, turn, assistant, expected, now)
    {
      var before := View();
      if run !in runs { return Failure(NotFound); }
      var row := runs[run];
      if row.worker != Some(worker) || row.token != Some(token) { return Failure(FencingLost); }
      if row.status == Completed { return Success(RunSaved(row)); }
      if row.status == CancelRequested { return Failure(StateError("cancel_requested")); }
      if row.status != Running { return Failure(RunTerminal); }
      if row.session !in sessions { return Failure(NotFound); }
      var owner := sessions[row.session];
      if owner.activeToken != token { return Failure(FencingLost); }
      if expected.Some? && owner.nextTurnIndex != expected.value { return Failure(StateError("stale_turn_index")); }
      if turn in turns { return Failure(Unavailable); }
      AddTurn(row.session, turn, row.request, row.payload, row.query, assistant);
      row := row.(status := Completed);
      row := row.(resultTurn := Some(turn));
      row := row.(heartbeatAt := Some(now), errorCode := None, checkpoint := None);
      runs := runs[run := row];
      r := Flush(before, RunSaved(row));
    }

    method AddTurn(sid: SessionId, turn: TurnId, request: RequestId, payload: string, query: string, assistant: string)
      requires sid in sessions
      modifies this
      ensures View() == StoreTurn(old(View()), sid, turn, request, payload, query, assistant)
    {
      var index := sessions[sid].nextTurnIndex;
      turns := turns[turn := TurnRow(sid, request, payload, index, query, assistant)];
      sessions := sessions[sid := sessions[sid].(nextTurnIndex := index + 1)];
    }

    method AppendOrReplay(sid: SessionId, request: RequestId, payload: string, query: string, assistant: string, turn: TurnId)
      returns (r: Result<Reply, ChatError>)
      requires sid in sessions && TurnRequestUnique(turns)
      modifies this
      ensures Outcome(View(), r) == StoreOrReplay(old(View()), sid, request, payload, query, assistant, turn)
    {
      var before := View();
      if HasTurnFor(before, sid, request) {
        var existing :| existing in turns && turns[existing].session == sid && turns[existing].request == request;
        if turns[existing].payload != payload { return Failure(IdempotencyConflict); }
        return Success(TurnReplayed(turns[existing].index, turns[existing].assistant));
      }
      if turn in turns { return Failure(Unavailable); }
      var index := sessions[sid].nextTurnIndex;
      AddTurn(sid, turn, request, payload, query, assistant);
      r := Flush(before, TurnStored(index, assistant));
    }

    method AppendDialogue(browser: string, sid: SessionId, request: RequestId, query: string, assistant: string, turn: TurnId)
      returns (r: Result<Reply, ChatError>)
      requires TurnRequestUnique(turns)
      modifies this
      ensures Outcome(View(), r) == T.AppendDialogue(old(View()), browser, sid, request, query, assistant, turn)
    {
      if !Owns(View(), browser, sid) { return Failure(NotFound); }
      r := AppendOrReplay(sid, request, query, query, assistant, turn);
    }

    method CommitTurn(browser: string, sid: SessionId, request: RequestId, payload: string, token: nat,
                      query: string, assistant: string, turn: TurnId)
      returns (r: Result<Reply, ChatError>)
      requires TurnRequestUnique(turns)
      modifies this
      ensures Outcome(View(), r) == T.CommitTurn(old(View()), browser, sid, request, payload, token, query, assistant, turn)
    {
      if !Owns(View(), browser, sid) { return Failure(NotFound); }
      if sessions[sid].activeToken != token { return Failure(FencingLost); }
      r := AppendOrReplay(sid, request, payload, query, assistant, turn);
    }

    /** The transaction somebody asked for, whoever it is. */
    method Perform(op: Op) returns (r: Result<Reply, ChatError>)
      requires RunRequestUnique(runs) && TurnRequestUnique(turns)
      modifies this
      ensures Outcome(View(), r) == Apply(old(View()), op)
    {
      match op
      case OpCreateSession(sid, browser) => r := CreateSession(sid, browser);
      case OpClaim(browser, sid, requested) => r := ClaimFencing(browser, sid, requested);
      case OpCreateRun(browser, sid, request, payload, query, run, now) =>
        r := CreateRun(browser, sid, request, payload, query, run, now);
      case OpMarkRunning(browser, run, worker, token, now) => r := MarkRunning(browser, run, worker, token, now);
      case OpMarkWaiting(run, worker, token, checkpoint) => r := MarkWaiting(run, worker, token, checkpoint);
      case OpResume(browser, run, kind, option) => r := Resume(browser, run, kind, option);
      case OpHeartbeat(run, worker, now) => r := Heartbeat(run, worker, now);
      case OpRequestCancel(browser, run, now) => r := RequestCancel(browser, run, now);
      case OpMarkTerminal(run, mark, holder, now) => r := MarkTerminal(run, mark, holder, now);
      case OpSweep(before, code) => r := SweepStale(before, code);
      case OpComplete(run, worker, token, turn, assistant, expected, now) =>
        r := CompleteWithTurn(run, worker, token, turn, assistant, expected, now);
      case OpAppendDialogue(browser, sid, request, query, assistant, turn) =>
        r := AppendDialogue(browser, sid, request, query, assistant, turn);
      case OpCommitTurn(browser, sid, request, payload, token, query, assistant, turn) =>
        r := CommitTurn(browser, sid, request, payload, token, query, assistant, turn);
    }
  }
}
