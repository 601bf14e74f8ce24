/** The chat tables: rows, status sets and the unique indexes the database enforces. */
module ChatTables {
  import opened Wrappers

  type SessionId = nat
  type RunId = nat
  type TurnId = nat
  type RequestId = nat

  datatype RunStatus =
    | Queued | Running | WaitingInput | CancelRequested
    | Completed | Failed | Cancelled | Interrupted

  predicate Active(s: RunStatus) { s in {Queued, Running, WaitingInput, CancelRequested} }

  predicate Leased(s: RunStatus) { s in {Running, CancelRequested} }

  predicate Recoverable(s: RunStatus) { s in {Queued, Running, CancelRequested} }

  predicate Terminal(s: RunStatus) { s in {Completed, Failed, Cancelled, Interrupted} }

  /** A persisted pause point; `selected` is the option the user picked. */
  datatype Checkpoint = Checkpoint(kind: string, options: seq<string>, selected: Option<string>)

  datatype SessionRow = SessionRow(browser: string, nextTurnIndex: nat, activeToken: nat)

  datatype TurnRow = TurnRow(
    session: SessionId, request: RequestId, payload: string,
    index: nat, query: string, assistant: string)

  datatype RunRow = RunRow(
    session: SessionId, request: RequestId, payload: string, query: string,
    status: RunStatus, token: Option<nat>, worker: Option<string>,
    checkpoint: Option<Checkpoint>, resultTurn: Option<TurnId>,
    errorCode: Option<string>, createdAt: nat, heartbeatAt: Option<nat>)

  datatype Db = Db(
    sessions: map<SessionId, SessionRow>,
    runs: map<RunId, RunRow>,
    turns: map<TurnId, TurnRow>)

  const EMPTY_DB := Db(map[], map[], map[])

  // The five unique indexes of the schema. A transaction that would break one is rolled back.

  predicate TurnRequestUnique(turns: map<TurnId, TurnRow>) {
    forall a, b | a in turns && b in turns && a != b ::
      !(turns[a].session == turns[b].session && turns[a].request == turns[b].request)
  }

  predicate TurnIndexUnique(turns: map<TurnId, TurnRow>) {
    forall a, b | a in turns && b in turns && a != b ::
      !(turns[a].session == turns[b].session && turns[a].index == turns[b].index)
  }

  predicate RunRequestUnique(runs: map<RunId, RunRow>) {
    forall a, b | a in runs && b in runs && a != b ::
      !(runs[a].session == runs[b].session && runs[a].request == runs[b].request)
  }

  predicate OneActiveRun(runs: map<RunId, RunRow>) {
    forall a, b | a in runs && b in runs && a != b && Active(runs[a].status) && Active(runs[b].status) ::
      runs[a].session != runs[b].session
  }

  predicate ResultTurnUnique(runs: map<RunId, RunRow>) {
    forall a, b | a in runs && b in runs && a != b && runs[a].resultTurn.Some? ::
      runs[a].resultTurn != runs[b].resultTurn
  }

  predicate UniqueIndexes(db: Db) {
    && TurnRequestUnique(db.turns)
    && TurnIndexUnique(db.turns)
    && RunRequestUnique(db.runs)
    && OneActiveRun(db.runs)
    && ResultTurnUnique(db.runs)
  }

  predicate Owns(db: Db, browser: string, sid: SessionId) {
    sid in db.sessions && db.sessions[sid].browser == browser
  }

  predicate OwnsRun(db: Db, browser: string, run: RunId) {
    run in db.runs && Owns(db, browser, db.runs[run].session)
  }

  predicate HasTurnFor(db: Db, sid: SessionId, request: RequestId) {
    exists t | t in db.turns :: db.turns[t].session == sid && db.turns[t].request == request
  }

  predicate HasRunFor(db: Db, sid: SessionId, request: RequestId) {
    exists r | r in db.runs :: db.runs[r].session == sid && db.runs[r].request == request
  }

  predicate HasActiveRun(db: Db, sid: SessionId) {
    exists r | r in db.runs :: db.runs[r].session == sid && Active(db.runs[r].status)
  }
}
