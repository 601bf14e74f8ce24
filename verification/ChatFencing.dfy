/** Cancellation and fencing over whole histories, and the discipline of the run executors. */
module ChatFencing {
  import opened Wrappers
  import opened ChatTables
  import opened ChatTransactions
  import opened ChatInvariants

  // ------------------------------------------------------------------ cancellation wins

  ghost predicate CancelWon(db: Db, run: RunId) {
    run in db.runs && db.runs[run].status in {CancelRequested, Cancelled, Interrupted}
  }

  /** A cancel is answered exactly for an owned run that has not ended, and then it has won. */
  lemma CancelAnswered(db: Db, browser: string, run: RunId, now: nat)
    requires Inv(db)
    ensures var out := RequestCancel(db, browser, run, now);
            && (out.result.Success? <==> OwnsRun(db, browser, run) && !Terminal(db.runs[run].status))
            && (out.result.Success? ==> CancelWon(out.db, run))
  {
    hide UniqueIndexes, Inv;
    RequestCancelKeeps(db, browser, run, now);
  }

  lemma CancelStep(db: Db, op: Op, run: RunId)
    requires CancelWon(db, run)
    ensures CancelWon(Apply(db, op).db, run)
  {
    hide UniqueIndexes, HasTurnFor;
  }

  /** After a cancel has won, in every continuation the run stays cancel-requested, cancelled or
      interrupted, and no commit, by any worker with any token, stores a turn for it. */
  lemma {:induction false} CancelForever(db: Db, ops: seq<Op>, run: RunId, worker: string, token: nat,
                                         turn: TurnId, assistant: string, expected: Option<nat>, now: nat)
    requires Inv(db) && CancelWon(db, run)
    ensures CancelWon(Exec(db, ops), run) && Exec(db, ops).runs[run].resultTurn.None?
    ensures var out := CompleteWithTurn(Exec(db, ops), run, worker, token, turn, assistant, expected, now);
            out.db == Exec(db, ops) && out.result.Failure?
    decreases |ops|
  {
    if ops == [] {
      assert OwnsItsTurn(db.turns, db.runs[run]);
    } else {
      CancelStep(db, ops[0], run);
      StepKeeps(db, ops[0]);
      CancelForever(Apply(db, ops[0]).db, ops[1..], run, worker, token, turn, assistant, expected, now);
    }
  }

  // ------------------------------------------------------------------ a newer token shuts out older ones

  ghost predicate Superseded(db: Db, sid: SessionId, token: nat) {
    sid in db.sessions && token < db.sessions[sid].activeToken
  }

  lemma SupersededStep(db: Db, op: Op, sid: SessionId, token: nat)
    requires Superseded(db, sid, token)
    ensures Superseded(Apply(db, op).db, sid, token)
  {
    hide UniqueIndexes, HasTurnFor;
  }

  /** Once a session has a newer token, no later transaction that presents an older one stores a
      turn, through either commit path. */
  lemma {:induction false} FencedForever(db: Db, ops: seq<Op>, sid: SessionId, token: nat, op: Op)
    requires Superseded(db, sid, token)
    requires (op.OpComplete? || op.OpCommitTurn?) && op.token == token
    requires op.OpComplete? ==> op.run in Exec(db, ops).runs && Exec(db, ops).runs[op.run].session == sid
    requires op.OpCommitTurn? ==> op.sid == sid
    ensures Apply(Exec(db, ops), op).db == Exec(db, ops)
    ensures op.OpCommitTurn? ==> Apply(Exec(db, ops), op).result.Failure?
    decreases |ops|
  {
    if ops == [] {
      hide UniqueIndexes, StoreOrReplay;
    } else {
      SupersededStep(db, ops[0], sid, token);
      FencedForever(Apply(db, ops[0]).db, ops[1..], sid, token, op);
    }
  }

  // ------------------------------------------------------------------ executors

  type ExecId = nat

  /** An execution allocates one token, marks its run running once, and may then try to pause,
      commit or end the run as often as it likes, also long after it was replaced. */
  datatype Phase = Started | Allocated | Working | Refused

  datatype Execution = Execution(
    run: RunId, session: SessionId, browser: string, worker: string, token: Option<nat>, phase: Phase)

  datatype System = System(db: Db, executions: map<ExecId, Execution>)

  datatype Action =
    | Outside(op: Op)
    | Start(id: ExecId, run: RunId, browser: string, worker: string)
    | Allocate(id: ExecId)
    | Run(id: ExecId, now: nat)
    | Pause(id: ExecId, checkpoint: Checkpoint)
    | CommitRun(id: ExecId, turn: TurnId, assistant: string, expected: Option<nat>, now: nat)

  /** Everything but the three transactions that only an executor issues. */
  predicate OutsideOp(op: Op) { !op.OpMarkRunning? && !op.OpMarkWaiting? && !op.OpComplete? }

  predicate Enabled(s: System, a: Action) {
    match a
    case Outside(op) => OutsideOp(op)
    case Start(id, run, _, _) => id !in s.executions && run in s.db.runs
    case Allocate(id) => id in s.executions && s.executions[id].phase == Started
    case Run(id, _) => id in s.executions && s.executions[id].phase == Allocated
    case Pause(id, _) => id in s.executions && s.executions[id].phase == Working
    case CommitRun(id, _, _, _, _) => id in s.executions && s.executions[id].phase == Working
  }

  ghost function TokenOf(s: System, id: ExecId): nat
    requires id in s.executions
  {
    if s.executions[id].token.Some? then s.executions[id].token.value else 0
  }

  /** The transaction an action issues. */
  ghost function Issued(s: System, a: Action): Op
    requires Enabled(s, a) && !a.Start?
  {
    match a
    case Outside(op) => op
    case Allocate(id) => OpClaim(s.executions[id].browser, s.executions[id].session, None)
    case Run(id, now) =>
      OpMarkRunning(s.executions[id].browser, s.executions[id].run, s.executions[id].worker, TokenOf(s, id), now)
    case Pause(id, checkpoint) =>
      OpMarkWaiting(s.executions[id].run, s.executions[id].worker, TokenOf(s, id), checkpoint)
    case CommitRun(id, turn, assistant, expected, now) =>
      OpComplete(s.executions[id].run, s.executions[id].worker, TokenOf(s, id), turn, assistant, expected, now)
  }

  ghost function Act(s: System, a: Action): System {
    if !Enabled(s, a) then s
    else if a.Start? then
      s.(executions := s.executions[a.id := Execution(a.run, s.db.runs[a.run].session, a.browser, a.worker, None, Started)])
    else
      var out := Apply(s.db, Issued(s, a));
      match a
      case Allocate(id) =>
        if out.result.Success? && out.result.value.Claimed?
        then System(out.db, s.executions[id := s.executions[id].(token := Some(out.result.value.token), phase := Allocated)])
        else s
      case Run(id, _) =>
        // A refused mark ends the execution; it then never works on the run.
        System(out.db, s.executions[id := s.executions[id].(phase := if out.result.Success? then Working else Refused)])
      case _ => s.(db := out.db)
  }

  ghost function History(s: System, actions: seq<Action>): System
    decreases |actions|
  {
    if actions == [] then s else History(Act(s, actions[0]), actions[1..])
  }

  ghost predicate Holds(executions: map<ExecId, Execution>, run: RunId, token: nat) {
    exists id | id in executions :: executions[id].run == run && executions[id].token == Some(token)
  }

  ghost predicate ExecutionOk(db: Db, e: Execution) {
    && e.run in db.runs && e.session == db.runs[e.run].session && e.session in db.sessions
    && (e.phase == Started <==> e.token.None?)
    && (e.token.Some? ==> e.token.value <= db.sessions[e.session].activeToken)
    && (e.phase == Allocated ==> db.runs[e.run].token != e.token)
  }

  ghost predicate TokensDistinct(executions: map<ExecId, Execution>) {
    forall a, b | a in executions && b in executions && a != b && executions[a].session == executions[b].session
                  && executions[a].token.Some? :: executions[a].token != executions[b].token
  }

  ghost predicate RunTokensHeld(s: System) {
    forall r | r in s.db.runs && s.db.runs[r].token.Some? :: Holds(s.executions, r, s.db.runs[r].token.value)
  }

  ghost predicate SystemInv(s: System) {
    && Inv(s.db)
    && (forall id | id in s.executions :: ExecutionOk(s.db, s.executions[id]))
    && TokensDistinct(s.executions)
    && RunTokensHeld(s)
  }

  /** What a transaction other than a mark-running leaves of the facts executions rely on. */
  ghost predicate TokensOnlyCleared(db: Db, db': Db) {
    && (forall r | r in db.runs :: r in db'.runs && db'.runs[r].session == db.runs[r].session
          && (db'.runs[r].token == db.runs[r].token || db'.runs[r].token.None?))
    && (forall r | r in db'.runs && r !in db.runs :: db'.runs[r].token.None?)
    && (forall s | s in db.sessions :: s in db'.sessions && db'.sessions[s].activeToken >= db.sessions[s].activeToken)
  }

  lemma SessionOpsKeepTokens(db: Db, op: Op)
    requires op.OpClaim? || op.OpCreateSession?
    ensures TokensOnlyCleared(db, Apply(db, op).db)
  {
    hide UniqueIndexes;
  }

  lemma TurnOpsKeepTokens(db: Db, op: Op)
    requires op.OpComplete? || op.OpAppendDialogue? || op.OpCommitTurn?
    ensures TokensOnlyCleared(db, Apply(db, op).db)
  {
    hide UniqueIndexes, HasTurnFor;
  }

  lemma CreateRunKeepsTokens(db: Db, op: Op)
    requires op.OpCreateRun?
    ensures TokensOnlyCleared(db, Apply(db, op).db)
  {
    hide UniqueIndexes, HasRunFor, HasActiveRun;
  }

  lemma SaveKeepsTokens(db: Db, run: RunId, row: RunRow)
    requires run in db.runs && row.session == db.runs[run].session
    requires row.token == db.runs[run].token || row.token.None?
    ensures TokensOnlyCleared(db, SaveRun(db, run, row).db)
  {
    hide UniqueIndexes;
  }

  lemma RunOpsKeepTokens(db: Db, op: Op)
    requires op.OpMarkWaiting? || op.OpResume? || op.OpHeartbeat? || op.OpRequestCancel? || op.OpMarkTerminal?
    ensures TokensOnlyCleared(db, Apply(db, op).db)
  {
    var out := Apply(db, op);
    if op.run in db.runs && out.db != db {
      var row := out.db.runs[op.run];
      SaveKeepsTokens(db, op.run, row);
      hide UniqueIndexes;
      assert out.db == SaveRun(db, op.run, row).db;
    }
  }

  lemma SweepKeepsTokens(db: Db, op: Op)
    requires op.OpSweep?
    ensures TokensOnlyCleared(db, Apply(db, op).db)
  {
    hide UniqueIndexes;
  }

  lemma OtherOpsKeepTokens(db: Db, op: Op)
    requires !op.OpMarkRunning?
    ensures TokensOnlyCleared(db, Apply(db, op).db)
  {
    hide Apply, TokensOnlyCleared;
    if op.OpClaim? || op.OpCreateSession? {
      SessionOpsKeepTokens(db, op);
    } else if op.OpComplete? || op.OpAppendDialogue? || op.OpCommitTurn? {
      TurnOpsKeepTokens(db, op);
    } else if op.OpCreateRun? {
      CreateRunKeepsTokens(db, op);
    } else if op.OpSweep? {
      SweepKeepsTokens(db, op);
    } else {
      RunOpsKeepTokens(db, op);
    }
  }

  lemma QuietOpKeeps(s: System, op: Op)
    requires SystemInv(s) && !op.OpMarkRunning?
    ensures SystemInv(s.(db := Apply(s.db, op).db))
  {
    hide UniqueIndexes, Inv, Apply;
    StepKeeps(s.db, op);
    OtherOpsKeepTokens(s.db, op);
  }

  lemma AllocateKeeps(s: System, id: ExecId)
    requires SystemInv(s) && Enabled(s, Allocate(id))
    ensures SystemInv(Act(s, Allocate(id)))
  {
    hide UniqueIndexes, Inv;
    var e := s.executions[id];
    var op := OpClaim(e.browser, e.session, None);
    QuietOpKeeps(s, op);
    var out := ClaimFencing(s.db, e.browser, e.session, None);
    if out.result.Success? {
      var after := Act(s, Allocate(id));
      assert after.db.sessions[e.session].activeToken == s.db.sessions[e.session].activeToken + 1;
      assert after.db.runs == s.db.runs;
      forall r | r in after.db.runs && after.db.runs[r].token.Some?
        ensures Holds(after.executions, r, after.db.runs[r].token.value)
      {
        var h :| h in s.executions && s.executions[h].run == r && s.executions[h].token == s.db.runs[r].token;
        assert h != id && after.executions[h] == s.executions[h];
      }
      assert ExecutionOk(after.db, after.executions[id]) by {
        if s.db.runs[e.run].token.Some? {
          var h :| h in s.executions && s.executions[h].run == e.run && s.executions[h].token == s.db.runs[e.run].token;
          assert ExecutionOk(s.db, s.executions[h]);
        }
      }
      forall x | x in after.executions ensures ExecutionOk(after.db, after.executions[x]) {
        assert x != id ==> ExecutionOk(s.db, s.executions[x]);
      }
    }
  }

  /** A mark-running changes at most the token of its own run, to its own token. */
  lemma MarkRunningTokens(db: Db, op: Op)
    requires op.OpMarkRunning?
    ensures var db' := Apply(db, op).db;
            && db'.sessions == db.sessions && db'.runs.Keys == db.runs.Keys
            && (forall r | r in db.runs :: db'.runs[r].session == db.runs[r].session
                  && (db'.runs[r].token == db.runs[r].token || (r == op.run && db'.runs[r].token == Some(op.token))))
  {
    hide UniqueIndexes;
  }

  ghost function RunOp(s: System, id: ExecId, now: nat): Op
    requires id in s.executions
  {
    var e := s.executions[id]; OpMarkRunning(e.browser, e.run, e.worker, TokenOf(s, id), now)
  }

  lemma RunStep(s: System, id: ExecId, now: nat)
    requires Enabled(s, Run(id, now))
    ensures var after := Act(s, Run(id, now));
            && after.db == Apply(s.db, RunOp(s, id, now)).db
            && exists p: Phase :: p in {Working, Refused} && after.executions == s.executions[id := s.executions[id].(phase := p)]
  {
    hide Apply;
    var p := if Apply(s.db, RunOp(s, id, now)).result.Success? then Working else Refused;
    assert p in {Working, Refused};
  }

  lemma RunExecution(s: System, id: ExecId, now: nat, x: ExecId)
    requires SystemInv(s) && Enabled(s, Run(id, now)) && x in s.executions
    ensures var after := Act(s, Run(id, now)); x in after.executions && ExecutionOk(after.db, after.executions[x])
  {
    assert ExecutionOk(s.db, s.executions[id]) && ExecutionOk(s.db, s.executions[x]);
    hide UniqueIndexes, Inv, Apply, RunTokensHeld, Act;
    MarkRunningTokens(s.db, RunOp(s, id, now));
    RunStep(s, id, now);
  }

  lemma RunTokens(s: System, id: ExecId, now: nat)
    requires SystemInv(s) && Enabled(s, Run(id, now))
    ensures var after := Act(s, Run(id, now)); RunTokensHeld(after) && TokensDistinct(after.executions)
  {
    assert ExecutionOk(s.db, s.executions[id]);
    hide UniqueIndexes, Inv, Apply, ExecutionOk, Act;
    MarkRunningTokens(s.db, RunOp(s, id, now));
    RunStep(s, id, now);
    var after := Act(s, Run(id, now));
    forall r | r in after.db.runs && after.db.runs[r].token.Some?
      ensures Holds(after.executions, r, after.db.runs[r].token.value)
    {
      if after.db.runs[r].token == s.db.runs[r].token {
        var h :| h in s.executions && s.executions[h].run == r && s.executions[h].token == s.db.runs[r].token;
        assert after.executions[h].run == r && after.executions[h].token == s.db.runs[r].token;
      } else {
        assert after.executions[id].run == r && after.executions[id].token == after.db.runs[r].token;
      }
    }
  }

  lemma RunKeeps(s: System, id: ExecId, now: nat)
    requires SystemInv(s) && Enabled(s, Run(id, now))
    ensures SystemInv(Act(s, Run(id, now)))
  {
    forall x | x in s.executions { RunExecution(s, id, now, x); }
    RunTokens(s, id, now);
    RunStep(s, id, now);
    hide UniqueIndexes, Inv, Apply, RunTokensHeld, ExecutionOk, TokensDistinct, Act, FreshIds, RequestTaken;
    StepKeeps(s.db, RunOp(s, id, now));
  }

  lemma ActKeeps(s: System, a: Action)
    requires SystemInv(s)
    ensures SystemInv(Act(s, a))
  {
    hide UniqueIndexes, Inv, Apply;
    if Enabled(s, a) {
      match a
      case Start(id, run, browser, worker) =>
        StartKeeps(s, a);
      case Allocate(id) => AllocateKeeps(s, id);
      case Run(id, now) => RunKeeps(s, id, now);
      case _ => QuietOpKeeps(s, Issued(s, a));
    }
  }

  lemma StartHeld(s: System, a: Action)
    requires RunTokensHeld(s) && a.Start? && Enabled(s, a)
    ensures RunTokensHeld(Act(s, a))
  {
    hide Apply;
    var after := Act(s, a);
    forall r | r in after.db.runs && after.db.runs[r].token.Some?
      ensures Holds(after.executions, r, after.db.runs[r].token.value)
    {
      var h :| h in s.executions && s.executions[h].run == r && s.executions[h].token == s.db.runs[r].token;
      assert h in after.executions && after.executions[h] == s.executions[h];
    }
  }

  lemma StartKeeps(s: System, a: Action)
    requires SystemInv(s) && a.Start? && Enabled(s, a)
    ensures SystemInv(Act(s, a))
  {
    assert LeaseFields(s.db.sessions, s.db.runs[a.run]);
    StartHeld(s, a);
    hide UniqueIndexes, Inv, Apply, RunTokensHeld;
  }

  lemma {:induction false} HistoryKeeps(s: System, actions: seq<Action>)
    requires SystemInv(s)
    ensures SystemInv(History(s, actions))
    decreases |actions|
  {
    if actions != [] {
      ActKeeps(s, actions[0]);
      HistoryKeeps(Act(s, actions[0]), actions[1..]);
    }
  }

  lemma CommitTokensDiffer(s: System, a: RunId, b: RunId)
    requires SystemInv(s) && a in s.db.runs && b in s.db.runs
    requires CommittedBefore(s.db.turns, s.db.runs[a], s.db.runs[b])
    ensures TokensInOrder(s.db.runs[a], s.db.runs[b]) && s.db.runs[a].token != s.db.runs[b].token
  {
    assert TokensInOrder(s.db.runs[a], s.db.runs[b]);
    hide UniqueIndexes, Inv, CommittedBefore;
    assert Holds(s.executions, a, s.db.runs[a].token.value) && Holds(s.executions, b, s.db.runs[b].token.value);
    var x :| x in s.executions && s.executions[x].run == a && s.executions[x].token == s.db.runs[a].token;
    var y :| y in s.executions && s.executions[y].run == b && s.executions[y].token == s.db.runs[b].token;
    assert ExecutionOk(s.db, s.executions[x]) && ExecutionOk(s.db, s.executions[y]);
    assert a != b && s.db.runs[a].session == s.db.runs[b].session by { CommittedApart(s.db.turns, s.db.runs[a], s.db.runs[b]); }
  }

  lemma CommittedApart(turns: map<TurnId, TurnRow>, a: RunRow, b: RunRow)
    requires CommittedBefore(turns, a, b)
    ensures a != b && a.session == b.session
  {}

  lemma EmptySystemInv()
    ensures SystemInv(System(EMPTY_DB, map[]))
  {}

  /** In every history of the executors, of two completed runs of one session the one with the later
      turn was committed under the strictly larger token. */
  lemma TokensStrictlyIncrease(actions: seq<Action>, a: RunId, b: RunId)
    requires var db := History(System(EMPTY_DB, map[]), actions).db;
             a in db.runs && b in db.runs && CommittedBefore(db.turns, db.runs[a], db.runs[b])
    ensures var db := History(System(EMPTY_DB, map[]), actions).db;
            && db.runs[a].token.Some? && db.runs[b].token.Some?
            && db.runs[a].token.value < db.runs[b].token.value
  {
    hide SystemInv, CommittedBefore, History;
    EmptySystemInv();
    HistoryKeeps(System(EMPTY_DB, map[]), actions);
    CommitTokensDiffer(History(System(EMPTY_DB, map[]), actions), a, b);
  }

  /** A working execution whose run no longer carries its token: it paused, or was replaced. */
  ghost predicate Barred(s: System, id: ExecId) {
    && id in s.executions && s.executions[id].phase == Working
    && s.executions[id].run in s.db.runs && s.db.runs[s.executions[id].run].token != s.executions[id].token
  }

  lemma PauseBars(s: System, id: ExecId, checkpoint: Checkpoint)
    requires SystemInv(s) && Enabled(s, Pause(id, checkpoint))
    requires Apply(s.db, Issued(s, Pause(id, checkpoint))).result.Success?
    ensures Barred(Act(s, Pause(id, checkpoint)), id)
  {
    assert ExecutionOk(s.db, s.executions[id]);
    hide UniqueIndexes, Inv;
  }

  lemma BarredStep(s: System, id: ExecId, a: Action)
    requires SystemInv(s) && Barred(s, id)
    ensures Barred(Act(s, a), id)
  {
    assert ExecutionOk(s.db, s.executions[id]);
    hide UniqueIndexes, Inv, Apply, RunTokensHeld;
    if Enabled(s, a) && !a.Start? {
      var op := Issued(s, a);
      if a.Run? {
        assert ExecutionOk(s.db, s.executions[a.id]);
        MarkRunningTokens(s.db, op);
      } else {
        hide ExecutionOk;
        OtherOpsKeepTokens(s.db, op);
      }
    }
  }

  /** An execution that paused can never commit, before or after the run is resumed, whoever resumes it. */
  lemma {:induction false} BarredForever(s: System, id: ExecId, actions: seq<Action>,
                                         turn: TurnId, assistant: string, expected: Option<nat>, now: nat)
    requires SystemInv(s) && Barred(s, id)
    ensures var s' := History(s, actions);
            Barred(s', id) && Act(s', CommitRun(id, turn, assistant, expected, now)) == s'
    decreases |actions|
  {
    if actions == [] {
      assert ExecutionOk(s.db, s.executions[id]);
      hide UniqueIndexes, Inv;
    } else {
      BarredStep(s, id, actions[0]);
      ActKeeps(s, actions[0]);
      BarredForever(Act(s, actions[0]), id, actions[1..], turn, assistant, expected, now);
    }
  }
}
