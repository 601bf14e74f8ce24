/** One execution of a run: pause or commit, the exception paths with their two flags, calls that break
    before or after they took effect, and whatever other workers do in between. */
module ChatRunExecutor {
  import opened Wrappers
  import opened ChatTables
  import opened ChatTransactions
  import opened ChatInvariants
  import opened ChatDatabase

  /** How the graph ends. `BeforeTry`: the execution stopped, by an exception or a cancelled task, after the
      row became running but before the statement whose handlers write marks. `Raised` is an ordinary
      exception inside it, also of the response builders. */
  datatype GraphEnd = BeforeTry | Answered | Paused(checkpoint: Option<Checkpoint>) | Raised | EventBusFailed | TaskCancelled

  /** What happens to the events after the durable step. */
  datatype Aftermath = Delivered | LateRaise | LateEventBusFailure | LateCancel

  datatype Fault = RepositoryFault | TaskCancel | OtherFault

  /** A call to the repository is answered, or breaks: before its transaction took effect, or after. */
  datatype Fate = Answers | Breaks(effect: bool, how: Fault)

  datatype Handler = NoHandler | OnCancel | OnEventBusError | OnException

  /** What one execution presents to the repository. */
  datatype Claim = Claim(run: RunId, worker: string, token: nat, turn: TurnId, assistant: string, expected: nat, now: nat)

  /** Everything outside the execution: how the graph and its events end, how each of the three calls fares,
      and the transactions of others before the first mark and between the two marks of a cancelled task. */
  datatype Course = Course(end: GraphEnd, durable: Fate, late: Aftermath, between: seq<Op>, mark: Fate,
                           betweenMarks: seq<Op>, second: Fate)

  /** The last mark the execution sent, and the tables it met. */
  datatype LastMark = NoMark | Sent(before: Db, mark: Mark, fate: Fate)

  datatype Ending = Ending(db: Db, committed: bool, paused: bool, handler: Handler, last: LastMark)

  predicate TakesEffect(fate: Fate) { fate.Answers? || fate.effect }

  /** The tables after a call, and the exception its caller sees. */
  function Call(before: Db, out: Outcome, fate: Fate): (Db, Option<Fault>) {
    match fate
    case Answers => (out.db, if out.result.Success? then None else Some(RepositoryFault))
    case Breaks(effect, how) => (if effect then out.db else before, Some(how))
  }

  function HandlerOf(fault: Fault): Handler { if fault.TaskCancel? then OnCancel else OnException }

  function LateHandler(late: Aftermath): Handler {
    match late
    case Delivered => NoHandler
    case LateRaise => OnException
    case LateEventBusFailure => OnEventBusError
    case LateCancel => OnCancel
  }

  function Commits(db: Db, c: Claim): Outcome {
    CompleteWithTurn(db, c.run, c.worker, c.token, c.turn, c.assistant, Some(c.expected), c.now)
  }

  /** The durable step: a pause, a commit, or the exception that takes its place. */
  function Persist(db: Db, c: Claim, x: Course): Ending {
    match x.end
    case BeforeTry => Ending(db, false, false, NoHandler, NoMark)
    case TaskCancelled => Ending(db, false, false, OnCancel, NoMark)
    case EventBusFailed => Ending(db, false, false, OnEventBusError, NoMark)
    case Raised => Ending(db, false, false, OnException, NoMark)
    case Paused(checkpoint) =>
      if checkpoint.None? then Ending(db, false, false, OnException, NoMark) else
        var (after, fault) := Call(db, MarkWaiting(db, c.run, c.worker, c.token, checkpoint.value), x.durable);
        if fault.None? then Ending(after, false, true, LateHandler(x.late), NoMark)
        else Ending(after, false, false, HandlerOf(fault.value), NoMark)
    case Answered =>
      var (after, fault) := Call(db, Commits(db, c), x.durable);
      if fault.None? then Ending(after, true, false, LateHandler(x.late), NoMark)
      else Ending(after, false, false, HandlerOf(fault.value), NoMark)
  }

  function Marks(db: Db, c: Claim, mark: Mark): Outcome { MarkTerminal(db, c.run, mark, Some(c.worker), c.now) }

  const CANCELLED: Mark := AsCancelled
  const INTERRUPTED: Mark := AsInterrupted("worker_cancelled")
  const FAILED: Mark := AsFailed("execution_error")

  predicate SendsMarks(p: Ending) {
    match p.handler
    case NoHandler => false
    case OnCancel => !p.committed
    case _ => !p.committed && !p.paused
  }

  /** A cancelled task asks for the cancelled mark, and for the interrupted one when the repository refuses
      or loses the first. Any other fault of the first ends the execution there. */
  ghost function MarkCancelled(p: Ending, m: Db, c: Claim, x: Course): Ending {
    var (after, fault) := Call(m, Marks(m, c, CANCELLED), x.mark);
    if fault != Some(RepositoryFault) then p.(db := after, last := Sent(m, CANCELLED, x.mark))
    else
      var n := Exec(after, x.betweenMarks);
      p.(db := Call(n, Marks(n, c, INTERRUPTED), x.second).0, last := Sent(n, INTERRUPTED, x.second))
  }

  ghost function Execute(db: Db, c: Claim, x: Course): Ending {
    var p := Persist(db, c, x);
    if !SendsMarks(p) then p
    else
      var m := Exec(p.db, x.between);
      if p.handler == OnCancel then MarkCancelled(p, m, c, x)
      else p.(db := Call(m, Marks(m, c, FAILED), x.mark).0, last := Sent(m, FAILED, x.mark))
  }

  // ------------------------------------------------------------------ one mark

  /** The row still names this execution. */
  predicate Ours(db: Db, c: Claim) {
    c.run in db.runs && db.runs[c.run].worker == Some(c.worker) && db.runs[c.run].token == Some(c.token)
  }

  predicate StillActive(db: Db, c: Claim) { Ours(db, c) && Active(db.runs[c.run].status) }

  /** A mark that its own worker issues takes effect exactly on the statuses it allows. */
  lemma MarkLands(db: Db, c: Claim, mark: Mark)
    requires Inv(db) && Ours(db, c)
    ensures var db' := Marks(db, c, mark).db;
            && Inv(db') && Ours(db', c)
            && db'.runs[c.run].status ==
                 (if mark.Allows(db.runs[c.run].status) then mark.Status() else db.runs[c.run].status)
  {
    MarkTerminalKeeps(db, c.run, mark, Some(c.worker), c.now);
    hide Inv, UniqueIndexes;
  }

  lemma MarkKeepsOwner(db: Db, c: Claim, mark: Mark)
    ensures Ours(Marks(db, c, mark).db, c) <==> Ours(db, c)
  {
    hide UniqueIndexes;
  }

  /** A row that names another worker, or none because it was paused, is out of reach of every mark. */
  lemma MarkMisses(db: Db, c: Claim, mark: Mark)
    requires c.run in db.runs && db.runs[c.run].worker != Some(c.worker)
    ensures Marks(db, c, mark) == Raise(db, StateError("run_owned_by_other_worker"))
  {}

  lemma OursIsLeased(db: Db, c: Claim)
    requires Inv(db) && Ours(db, c)
    ensures db.runs[c.run].status !in {Queued, WaitingInput}
  {
    assert LeaseFields(db.sessions, db.runs[c.run]);
  }

  lemma MarkLeavesActive(db: Db, c: Claim, mark: Mark, fate: Fate)
    requires Inv(db)
    ensures var after := Call(db, Marks(db, c, mark), fate).0;
            && Inv(after)
            && (StillActive(after, c) <==>
                  StillActive(db, c) && !(TakesEffect(fate) && mark.Allows(db.runs[c.run].status)))
  {
    hide Inv, UniqueIndexes, MarkTerminal;
    MarkTerminalKeeps(db, c.run, mark, Some(c.worker), c.now);
    MarkKeepsOwner(db, c, mark);
    if Ours(db, c) { MarkLands(db, c, mark); }
  }

  // ------------------------------------------------------------------ the durable step

  lemma PauseFacts(db: Db, c: Claim, checkpoint: Checkpoint)
    requires Inv(db)
    ensures var out := MarkWaiting(db, c.run, c.worker, c.token, checkpoint);
            && Inv(out.db)
            && (out.result.Success? ==> c.run in out.db.runs && out.db.runs[c.run].status == WaitingInput && out.db.runs[c.run].worker.None?)
            && (out.result.Failure? ==> out.db == db)
  {
    hide Inv, UniqueIndexes;
    MarkWaitingKeeps(db, c.run, c.worker, c.token, checkpoint);
  }

  lemma CommitFacts(db: Db, c: Claim)
    requires Inv(db)
    ensures var out := Commits(db, c);
            && Inv(out.db)
            && (out.result.Success? ==> Ours(out.db, c) && out.db.runs[c.run].status == Completed)
            && (out.result.Failure? ==> out.db == db)
  {
    hide Inv, UniqueIndexes;
    CompleteKeeps(db, c.run, c.worker, c.token, c.turn, c.assistant, Some(c.expected), c.now);
  }

  ghost predicate PersistedWell(db: Db, c: Claim, x: Course) {
    var p := Persist(db, c, x);
    && Inv(p.db) && !(p.committed && p.paused) && p.last.NoMark?
    && (p.committed ==> (x.end.Answered? && Ours(p.db, c) && p.db.runs[c.run].status == Completed))
    && (p.paused ==> (x.end.Paused? && c.run in p.db.runs && p.db.runs[c.run].status == WaitingInput && p.db.runs[c.run].worker.None?))
    && (!p.committed && !p.paused ==> (p.db == db || x.durable.Breaks?))
    && (!p.committed && !p.paused && p.handler == NoHandler <==> x.end == BeforeTry)
    && (x.end == BeforeTry ==> p.db == db)
  }

  /** A flag that is set tells the truth about the row; without one the tables are as they were, unless the
      call broke after its transaction took effect. */
  lemma PersistFacts(db: Db, c: Claim, x: Course)
    requires Inv(db)
    ensures PersistedWell(db, c, x)
  {
    hide UniqueIndexes, Inv, MarkWaiting, CompleteWithTurn;
    match x.end {
      case Paused(checkpoint) => if checkpoint.Some? { PauseFacts(db, c, checkpoint.value); }
      case Answered => CommitFacts(db, c);
      case _ =>
    }
  }

  // ------------------------------------------------------------------ the whole execution

  /** When the last mark leaves a row as active as it met it. */
  ghost predicate LastMarkMissed(last: LastMark, c: Claim)
    requires last.Sent? && c.run in last.before.runs
  {
    || !TakesEffect(last.fate)
    || (last.mark == FAILED && last.before.runs[c.run].status == CancelRequested)
    || (last.mark == CANCELLED && last.before.runs[c.run].status == Running)
  }

  /** A run that still names the execution is left active exactly when the execution stopped before its
      try, or its last mark met the row active and missed it. What was committed or paused keeps its row:
      no mark follows a commit, and none but a cancelled task's follows a pause. */
  ghost predicate EndedWell(db: Db, c: Claim, x: Course) {
    var p, e := Persist(db, c, x), Execute(db, c, x);
    && Inv(e.db) && e.committed == p.committed && e.paused == p.paused && e.handler == p.handler
    && (e.last.NoMark? ==> e.db == p.db)
    && (e.committed ==> e.last.NoMark?)
    && (e.paused && e.handler != OnCancel ==> e.last.NoMark?)
    && (StillActive(e.db, c) <==>
          if e.last.NoMark? then x.end == BeforeTry && StillActive(db, c)
          else StillActive(e.last.before, c) && LastMarkMissed(e.last, c))
  }

  lemma MarkCancelledEnds(p: Ending, m: Db, c: Claim, x: Course)
    requires Inv(m)
    ensures var e := MarkCancelled(p, m, c, x);
            && Inv(e.db) && e.last.Sent? && e.committed == p.committed && e.paused == p.paused && e.handler == p.handler
            && (StillActive(e.db, c) <==> StillActive(e.last.before, c) && LastMarkMissed(e.last, c))
  {
    hide Inv, UniqueIndexes, MarkTerminal, Exec;
    MarkLeavesActive(m, c, CANCELLED, x.mark);
    var (after, fault) := Call(m, Marks(m, c, CANCELLED), x.mark);
    if StillActive(m, c) { OursIsLeased(m, c); }
    if fault == Some(RepositoryFault) {
      ExecKeeps(after, x.betweenMarks);
      var n := Exec(after, x.betweenMarks);
      MarkLeavesActive(n, c, INTERRUPTED, x.second);
      if StillActive(n, c) { OursIsLeased(n, c); }
    } else if StillActive(m, c) && x.mark.Answers? {
      AnsweredCancelLanded(m, c);
    }
  }

  lemma AnsweredCancelLanded(m: Db, c: Claim)
    requires Inv(m) && StillActive(m, c) && Marks(m, c, CANCELLED).result.Success?
    ensures m.runs[c.run].status == CancelRequested
  {
    hide Inv, UniqueIndexes;
  }

  lemma LeftActiveExactly(db: Db, c: Claim, x: Course)
    requires Inv(db)
    ensures EndedWell(db, c, x)
  {
    hide Inv, UniqueIndexes, Persist, MarkCancelled, MarkTerminal, Exec;
    PersistFacts(db, c, x);
    var p := Persist(db, c, x);
    if SendsMarks(p) {
      ExecKeeps(p.db, x.between);
      var m := Exec(p.db, x.between);
      if p.handler == OnCancel {
        MarkCancelledEnds(p, m, c, x);
      } else {
        MarkLeavesActive(m, c, FAILED, x.mark);
        if StillActive(m, c) { OursIsLeased(m, c); }
      }
    }
  }

  // ------------------------------------------------------------------ each way to stay active exists

  /** Nothing marks a row whose execution stopped before its try, whether or not a cancel was requested. */
  lemma StoppedBeforeTry(db: Db, c: Claim, x: Course)
    requires x.end == BeforeTry
    ensures Execute(db, c, x) == Ending(db, false, false, NoHandler, NoMark)
  {}

  lemma NothingBetween(db: Db)
    ensures Exec(db, []) == db
  {}

  /** A running row stays running when the failed mark is lost in the repository. */
  lemma FailedMarkLost(db: Db, c: Claim, x: Course)
    requires StillActive(db, c) && x.end == Raised && x.between == [] && x.mark.Breaks? && !x.mark.effect
    ensures Execute(db, c, x).db == db
  {
    NothingBetween(db);
  }

  /** A running row whose commit fails, and which is asked to cancel before the failed mark, stays
      cancel-requested: the cancel was not there yet at the durable step. */
  lemma CancelBeforeFailedMark(db: Db, c: Claim, x: Course, browser: string, now: nat)
    requires Inv(db) && Ours(db, c) && db.runs[c.run].status == Running && OwnsRun(db, browser, c.run)
    requires x.end == Answered && x.durable == Breaks(false, RepositoryFault) && x.between == [OpRequestCancel(browser, c.run, now)]
    ensures StillActive(Execute(db, c, x).db, c) && Execute(db, c, x).db.runs[c.run].status == CancelRequested
  {
    hide Inv, UniqueIndexes;
    var asked := Apply(db, x.between[0]).db;
    RequestCancelKeeps(db, browser, c.run, now);
    assert Exec(db, x.between) == asked by {
      assert x.between[1..] == [];
      NothingBetween(asked);
    }
    MarkLeavesActive(asked, c, FAILED, x.mark);
    RefusedFailedMark(asked, c);
  }

  lemma RefusedFailedMark(db: Db, c: Claim)
    requires Ours(db, c) && db.runs[c.run].status == CancelRequested
    ensures Marks(db, c, FAILED) == Raise(db, RunTerminal)
  {}

  /** A cancelled task leaves a running row behind when both its marks are lost, ... */
  lemma BothMarksLost(db: Db, c: Claim, x: Course)
    requires StillActive(db, c) && x.end == TaskCancelled && x.between == x.betweenMarks == []
    requires x.mark == Breaks(false, RepositoryFault) && x.second.Breaks? && !x.second.effect
    ensures Execute(db, c, x).db == db
  {
    NothingBetween(db);
  }

  /** ... and also when a second cancel breaks off the first, which was about to be refused. */
  lemma CancelledTwice(db: Db, c: Claim, x: Course)
    requires Ours(db, c) && db.runs[c.run].status == Running && x.end == TaskCancelled && x.between == []
    requires x.mark.Breaks? && x.mark.how == TaskCancel
    ensures Execute(db, c, x).db == db
  {
    NothingBetween(db);
  }

  const BROWSER := "browser"
  const HOLDER := Claim(0, "worker", 1, 0, "answer", 1, 0)
  const TO_RUNNING: seq<Op> := [
    OpCreateSession(0, BROWSER), OpCreateRun(BROWSER, 0, 0, "payload", "query", 0, 0),
    OpClaim(BROWSER, 0, None), OpMarkRunning(BROWSER, 0, "worker", 1, 0)]

  /** The rows all of this is about exist: four transactions lead to one. */
  lemma ARowIsRunning()
    ensures var db := Exec(EMPTY_DB, TO_RUNNING);
            && Inv(db) && Ours(db, HOLDER) && OwnsRun(db, BROWSER, HOLDER.run)
            && db.runs[HOLDER.run].status == Running
  {
    hide Inv, Apply;
    EmptyInv();
    ExecKeeps(EMPTY_DB, TO_RUNNING);
    FourSteps(EMPTY_DB, TO_RUNNING);
    FirstSteps();
    LastSteps();
  }

  lemma EmptyInv()
    ensures Inv(EMPTY_DB)
  {}

  const QUEUED := RunRow(0, 0, "payload", "query", Queued, None, None, None, None, None, 0, None)

  lemma FirstSteps()
    ensures Apply(Apply(EMPTY_DB, TO_RUNNING[0]).db, TO_RUNNING[1]).db == Db(map[0 := SessionRow(BROWSER, 1, 0)], map[0 := QUEUED], map[])
  {
    var db := Db(map[0 := SessionRow(BROWSER, 1, 0)], map[], map[]);
    assert CreateSession(EMPTY_DB, 0, BROWSER).db == db;
    assert !HasRunFor(db, 0, 0) && !HasActiveRun(db, 0);
  }

  lemma LastSteps()
    ensures var db := Apply(Apply(Db(map[0 := SessionRow(BROWSER, 1, 0)], map[0 := QUEUED], map[]), TO_RUNNING[2]).db, TO_RUNNING[3]).db;
            Ours(db, HOLDER) && OwnsRun(db, BROWSER, 0) && db.runs[0].status == Running
  {
    var db := Db(map[0 := SessionRow(BROWSER, 1, 0)], map[0 := QUEUED], map[]);
    assert ClaimFencing(db, BROWSER, 0, None).db == db.(sessions := map[0 := SessionRow(BROWSER, 1, 1)]);
  }

  lemma FourSteps(db: Db, ops: seq<Op>)
    requires |ops| == 4
    ensures Exec(db, ops) == Apply(Apply(Apply(Apply(db, ops[0]).db, ops[1]).db, ops[2]).db, ops[3]).db
  {
    hide Apply;
    var db1 := Apply(db, ops[0]).db;
    var db2 := Apply(db1, ops[1]).db;
    var db3 := Apply(db2, ops[2]).db;
    NothingBetween(Apply(db3, ops[3]).db);
    assert ops[1..][1..] == ops[2..] && ops[2..][1..] == ops[3..] && ops[3..][1..] == [];
    assert Exec(db3, ops[3..]) == Apply(db3, ops[3]).db;
    assert Exec(db2, ops[2..]) == Exec(db3, ops[3..]);
    assert Exec(db1, ops[1..]) == Exec(db2, ops[2..]);
  }

  /** A row left active is ended by a sweep that finds its heartbeat old. */
  lemma SweepEndsIt(db: Db, c: Claim, before: nat, code: string)
    requires Inv(db) && StillActive(db, c) && Stale(db.runs[c.run], before)
    ensures SweepStale(db, before, code).db.runs[c.run].status == Interrupted
  {
    hide Inv, UniqueIndexes;
    SweepKeeps(db, before, code);
  }

  // ------------------------------------------------------------------ a cancelled task after its pause

  /** The mark takes effect on the row: it names this worker, whatever its token, in a status the mark allows. */
  predicate Hits(db: Db, c: Claim, mark: Mark, fate: Fate) {
    TakesEffect(fate) && c.run in db.runs && db.runs[c.run].worker == Some(c.worker) && mark.Allows(db.runs[c.run].status)
  }

  predicate EndedAs(db: Db, run: RunId, status: RunStatus, token: Option<nat>) {
    run in db.runs && db.runs[run].status == status && db.runs[run].token == token
  }

  /** A mark changes the tables exactly when it hits, and then it ends the row whoever owns its token. */
  lemma MarkHitsExactly(db: Db, c: Claim, mark: Mark, fate: Fate)
    requires Inv(db)
    ensures var after := Call(db, Marks(db, c, mark), fate).0;
            && Inv(after)
            && (after == db <==> !Hits(db, c, mark, fate))
            && (Hits(db, c, mark, fate) ==>
                  && c.run in after.runs && after.runs[c.run].status == mark.Status()
                  && after.runs[c.run].token == db.runs[c.run].token)
  {
    hide Inv, UniqueIndexes;
    MarkTerminalKeeps(db, c.run, mark, Some(c.worker), c.now);
  }

  /** The tables a late cancel meets: before its first mark, after it, and before the second one if it is sent. */
  ghost function FirstMet(db: Db, c: Claim, x: Course): Db { Exec(Persist(db, c, x).db, x.between) }

  ghost function FirstMark(db: Db, c: Claim, x: Course): (Db, Option<Fault>) {
    Call(FirstMet(db, c, x), Marks(FirstMet(db, c, x), c, CANCELLED), x.mark)
  }

  ghost function SecondMet(db: Db, c: Claim, x: Course): Db { Exec(FirstMark(db, c, x).0, x.betweenMarks) }

  /** The late marks of a paused execution change the tables exactly when they hit. */
  ghost predicate LateMarksHitExactly(db: Db, c: Claim, x: Course) {
    var (after, fault) := FirstMark(db, c, x);
    var end := Execute(db, c, x).db;
    && (after == FirstMet(db, c, x) <==> !Hits(FirstMet(db, c, x), c, CANCELLED, x.mark))
    && if fault == Some(RepositoryFault) then end == SecondMet(db, c, x) <==> !Hits(SecondMet(db, c, x), c, INTERRUPTED, x.second)
       else end == after
  }

  lemma LateMarksExactly(db: Db, c: Claim, x: Course)
    requires Inv(db) && Execute(db, c, x).paused && x.late == LateCancel
    ensures LateMarksHitExactly(db, c, x)
  {
    hide Inv, UniqueIndexes, Persist, Marks, Exec, Hits;
    PausedIsHandled(db, c, x);
    ExecKeeps(Persist(db, c, x).db, x.between);
    MarkHitsExactly(FirstMet(db, c, x), c, CANCELLED, x.mark);
    ExecKeeps(FirstMark(db, c, x).0, x.betweenMarks);
    MarkHitsExactly(SecondMet(db, c, x), c, INTERRUPTED, x.second);
  }

  lemma PausedIsHandled(db: Db, c: Claim, x: Course)
    requires Inv(db) && Execute(db, c, x).paused && x.late == LateCancel
    ensures var p := Persist(db, c, x);
            Inv(p.db) && p.paused && !p.committed && p.handler == OnCancel
            && c.run in p.db.runs && p.db.runs[c.run].worker.None?
  {
    hide Inv, MarkTerminal, Exec, UniqueIndexes, MarkWaiting, CompleteWithTurn;
    PersistFacts(db, c, x);
  }

  /** The owner of the token a hit row carries, if that is another execution, has lost its run. */
  lemma LateCancelHitsSuccessor(db: Db, c: Claim, x: Course)
    requires Inv(db) && Execute(db, c, x).paused && x.late == LateCancel
    ensures var m, n := FirstMet(db, c, x), SecondMet(db, c, x);
      && (Hits(m, c, CANCELLED, x.mark) ==> EndedAs(FirstMark(db, c, x).0, c.run, Cancelled, m.runs[c.run].token))
      && (FirstMark(db, c, x).1 == Some(RepositoryFault) && Hits(n, c, INTERRUPTED, x.second) ==>
            EndedAs(Execute(db, c, x).db, c.run, Interrupted, n.runs[c.run].token))
  {
    hide Inv, UniqueIndexes, Persist, Marks, Exec;
    PausedIsHandled(db, c, x);
    ExecKeeps(Persist(db, c, x).db, x.between);
    MarkHitsExactly(FirstMet(db, c, x), c, CANCELLED, x.mark);
    ExecKeeps(FirstMark(db, c, x).0, x.betweenMarks);
    MarkHitsExactly(SecondMet(db, c, x), c, INTERRUPTED, x.second);
  }

  // When nobody starts the run on this worker while the marks are due, they miss.

  predicate Starts(op: Op, run: RunId, worker: string) { op.OpMarkRunning? && op.run == run && op.worker == worker }

  predicate Elsewhere(db: Db, run: RunId, worker: string) { run in db.runs && db.runs[run].worker != Some(worker) }

  lemma StaysElsewhereStep(db: Db, op: Op, run: RunId, worker: string)
    requires Elsewhere(db, run, worker) && !Starts(op, run, worker)
    ensures Elsewhere(Apply(db, op).db, run, worker)
  {
    hide UniqueIndexes, HasTurnFor;
  }

  lemma {:induction false} StaysElsewhere(db: Db, ops: seq<Op>, run: RunId, worker: string)
    requires Elsewhere(db, run, worker) && forall op | op in ops :: !Starts(op, run, worker)
    ensures Elsewhere(Exec(db, ops), run, worker)
    decreases |ops|
  {
    hide Apply, Elsewhere, Starts;
    if ops != [] {
      StaysElsewhereStep(db, ops[0], run, worker);
      StaysElsewhere(Apply(db, ops[0]).db, ops[1..], run, worker);
    }
  }

  /** As long as this worker does not start the run again before the marks are through, they change nothing. */
  lemma PausedMarksMiss(db: Db, c: Claim, x: Course)
    requires Inv(db) && Execute(db, c, x).paused && x.late == LateCancel
    requires forall op | op in x.between + x.betweenMarks :: !Starts(op, c.run, c.worker)
    ensures Execute(db, c, x).db == if FirstMark(db, c, x).1 == Some(RepositoryFault) then SecondMet(db, c, x) else FirstMet(db, c, x)
    ensures FirstMark(db, c, x).0 == FirstMet(db, c, x)
  {
    hide Inv, UniqueIndexes, Persist, Marks, Exec, Starts;
    PausedIsHandled(db, c, x);
    assert forall op | op in x.between :: op in x.between + x.betweenMarks;
    assert forall op | op in x.betweenMarks :: op in x.between + x.betweenMarks;
    StaysElsewhere(Persist(db, c, x).db, x.between, c.run, c.worker);
    LateMarksExactly(db, c, x);
    StaysElsewhere(FirstMark(db, c, x).0, x.betweenMarks, c.run, c.worker);
  }

  // Each kind of hit exists: on a running successor, on one asked to cancel, and on one that starts between the marks.

  lemma RunningSuccessorIsHit(db: Db, c: Claim, x: Course)
    requires Inv(db) && Execute(db, c, x).paused && x.late == LateCancel && x.mark == x.second == Answers && x.betweenMarks == []
    requires var m := FirstMet(db, c, x);
             c.run in m.runs && m.runs[c.run].status == Running && m.runs[c.run].worker == Some(c.worker)
    ensures EndedAs(Execute(db, c, x).db, c.run, Interrupted, FirstMet(db, c, x).runs[c.run].token)
  {
    hide Inv, UniqueIndexes, Persist, Exec, MarkTerminal;
    RunningIsNotCancelled(FirstMet(db, c, x), c);
    assert Exec(FirstMet(db, c, x), []) == FirstMet(db, c, x) by { NothingBetween(FirstMet(db, c, x)); }
    LateCancelHitsSuccessor(db, c, x);
  }

  lemma RunningIsNotCancelled(m: Db, c: Claim)
    requires c.run in m.runs && m.runs[c.run].status == Running && m.runs[c.run].worker == Some(c.worker)
    ensures Marks(m, c, CANCELLED) == Raise(m, RunTerminal)
  {}

  lemma CancellingSuccessorIsHit(db: Db, c: Claim, x: Course)
    requires Inv(db) && Execute(db, c, x).paused && x.late == LateCancel && x.mark == Answers
    requires var m := FirstMet(db, c, x);
             c.run in m.runs && m.runs[c.run].status == CancelRequested && m.runs[c.run].worker == Some(c.worker)
    ensures EndedAs(Execute(db, c, x).db, c.run, Cancelled, FirstMet(db, c, x).runs[c.run].token)
  {
    hide Inv, UniqueIndexes, Persist, Exec;
    PausedIsHandled(db, c, x);
    ExecKeeps(Persist(db, c, x).db, x.between);
    MarkTerminalKeeps(FirstMet(db, c, x), c.run, CANCELLED, Some(c.worker), c.now);
    LateCancelHitsSuccessor(db, c, x);
  }

  /** The first mark is refused because the row names nobody; by the second the worker has it again. */
  lemma StartedBetweenMarksIsHit(db: Db, c: Claim, x: Course)
    requires Inv(db) && Execute(db, c, x).paused && x.late == LateCancel && x.mark == x.second == Answers
    requires Elsewhere(FirstMet(db, c, x), c.run, c.worker)
    requires var n := SecondMet(db, c, x);
             c.run in n.runs && n.runs[c.run].status == Running && n.runs[c.run].worker == Some(c.worker)
    ensures EndedAs(Execute(db, c, x).db, c.run, Interrupted, SecondMet(db, c, x).runs[c.run].token)
  {
    hide Inv, UniqueIndexes, Persist, Exec, MarkTerminal;
    MarkMisses(FirstMet(db, c, x), c, CANCELLED);
    LateCancelHitsSuccessor(db, c, x);
  }

  /** What resumes, starts again, and asks to cancel the run of a pausing execution. */
  ghost predicate Resumable(db: Db, c: Claim, x: Course, browser: string, option: string) {
    && Inv(db) && Ours(db, c) && db.runs[c.run].status == Running && OwnsRun(db, browser, c.run)
    && x.end.Paused? && x.end.checkpoint.Some? && option in x.end.checkpoint.value.options && x.durable == Answers
  }

  function ResumeOf(c: Claim, x: Course, browser: string, option: string): Op
    requires x.end.Paused? && x.end.checkpoint.Some?
  {
    OpResume(browser, c.run, x.end.checkpoint.value.kind, option)
  }

  lemma ResumedIsQueued(db: Db, c: Claim, x: Course, browser: string, option: string)
    requires Resumable(db, c, x, browser, option)
    ensures Persist(db, c, x).paused
    ensures var queued := Apply(Persist(db, c, x).db, ResumeOf(c, x, browser, option)).db;
            && Inv(queued) && OwnsRun(queued, browser, c.run)
            && queued.runs[c.run].status == Queued && queued.runs[c.run].worker.None?
  {
    hide Inv, UniqueIndexes;
    var checkpoint := x.end.checkpoint.value;
    MarkWaitingKeeps(db, c.run, c.worker, c.token, checkpoint);
    var waiting := MarkWaiting(db, c.run, c.worker, c.token, checkpoint).db;
    ResumeKeeps(waiting, browser, c.run, checkpoint.kind, option);
  }

  lemma QueuedStarts(db: Db, c: Claim, browser: string, next: nat)
    requires Inv(db) && OwnsRun(db, browser, c.run) && db.runs[c.run].status == Queued
    ensures var running := Apply(db, OpMarkRunning(browser, c.run, c.worker, next, c.now)).db;
            && Inv(running) && OwnsRun(running, browser, c.run) && running.runs[c.run].status == Running
            && running.runs[c.run].worker == Some(c.worker) && running.runs[c.run].token == Some(next)
  {
    hide Inv, UniqueIndexes;
    MarkRunningKeeps(db, browser, c.run, c.worker, next, c.now);
  }

  /** A resume and a second start on the same worker lead to a running successor, ... */
  lemma SameWorkerResumes(db: Db, c: Claim, x: Course, browser: string, option: string, next: nat)
    requires Resumable(db, c, x, browser, option)
    requires x.between == [ResumeOf(c, x, browser, option), OpMarkRunning(browser, c.run, c.worker, next, c.now)]
    ensures Persist(db, c, x).paused
    ensures var m := FirstMet(db, c, x);
            && c.run in m.runs && m.runs[c.run].status == Running
            && m.runs[c.run].worker == Some(c.worker) && m.runs[c.run].token == Some(next)
  {
    hide Inv, UniqueIndexes, Exec, Persist, Apply;
    ResumedIsQueued(db, c, x, browser, option);
    var queued := Apply(Persist(db, c, x).db, x.between[0]).db;
    QueuedStarts(queued, c, browser, next);
    TwoSteps(Persist(db, c, x).db, x.between);
  }

  /** ... with a cancel request besides, to one that is asked to cancel, ... */
  lemma SameWorkerResumesAndCancels(db: Db, c: Claim, x: Course, browser: string, option: string, next: nat, now: nat)
    requires Resumable(db, c, x, browser, option)
    requires x.between == [ResumeOf(c, x, browser, option), OpMarkRunning(browser, c.run, c.worker, next, c.now)] + [OpRequestCancel(browser, c.run, now)]
    ensures Persist(db, c, x).paused
    ensures var m := FirstMet(db, c, x);
            && c.run in m.runs && m.runs[c.run].status == CancelRequested
            && m.runs[c.run].worker == Some(c.worker) && m.runs[c.run].token == Some(next)
  {
    hide Inv, UniqueIndexes, Exec, Persist, Apply;
    ResumedIsQueued(db, c, x, browser, option);
    var queued := Apply(Persist(db, c, x).db, x.between[0]).db;
    QueuedStarts(queued, c, browser, next);
    var running := Apply(queued, x.between[1]).db;
    AskedToCancel(running, c, browser, now);
    assert x.between[1..][1..] == [x.between[2]];
    ThreeSteps(Persist(db, c, x).db, x.between);
  }

  lemma AskedToCancel(db: Db, c: Claim, browser: string, now: nat)
    requires Inv(db) && OwnsRun(db, browser, c.run) && db.runs[c.run].status == Running
    ensures var asked := Apply(db, OpRequestCancel(browser, c.run, now)).db;
            && c.run in asked.runs && asked.runs[c.run].status == CancelRequested
            && asked.runs[c.run].worker == db.runs[c.run].worker && asked.runs[c.run].token == db.runs[c.run].token
  {
    hide Inv, UniqueIndexes;
    RequestCancelKeeps(db, browser, c.run, now);
  }

  /** ... and a start between the marks to one that only the second mark meets. */
  lemma SameWorkerStartsBetween(db: Db, c: Claim, x: Course, browser: string, option: string, next: nat)
    requires Resumable(db, c, x, browser, option) && x.mark == Answers
    requires x.between == [ResumeOf(c, x, browser, option)] && x.betweenMarks == [OpMarkRunning(browser, c.run, c.worker, next, c.now)]
    ensures Persist(db, c, x).paused && Elsewhere(FirstMet(db, c, x), c.run, c.worker)
    ensures var n := SecondMet(db, c, x);
            && c.run in n.runs && n.runs[c.run].status == Running
            && n.runs[c.run].worker == Some(c.worker) && n.runs[c.run].token == Some(next)
  {
    hide Inv, UniqueIndexes, Exec, Persist, Apply, MarkTerminal;
    ResumedIsQueued(db, c, x, browser, option);
    var queued := Apply(Persist(db, c, x).db, x.between[0]).db;
    OneStep(Persist(db, c, x).db, x.between);
    MarkMisses(queued, c, CANCELLED);
    QueuedStarts(queued, c, browser, next);
    OneStep(queued, x.betweenMarks);
  }

  lemma OneStep(db: Db, ops: seq<Op>)
    requires |ops| == 1
    ensures Exec(db, ops) == Apply(db, ops[0]).db
  {
    hide Apply;
    NothingBetween(Apply(db, ops[0]).db);
    assert ops[1..] == [];
  }

  lemma ThreeSteps(db: Db, ops: seq<Op>)
    requires |ops| == 3
    ensures Exec(db, ops) == Apply(Apply(Apply(db, ops[0]).db, ops[1]).db, ops[2]).db
  {
    hide Apply;
    TwoSteps(Apply(db, ops[0]).db, ops[1..]);
  }

  lemma TwoSteps(db: Db, ops: seq<Op>)
    requires |ops| == 2
    ensures Exec(db, ops) == Apply(Apply(db, ops[0]).db, ops[1]).db
  {
    hide Apply;
    var db1 := Apply(db, ops[0]).db;
    NothingBetween(Apply(db1, ops[1]).db);
    assert ops[1..][1..] == [];
    assert Exec(db1, ops[1..]) == Apply(db1, ops[1]).db;
  }

  // ------------------------------------------------------------------ as code

  class Executor {
    const db: Database
    const worker: string

    constructor (db: Database, worker: string)
      ensures this.db == db && this.worker == worker
    {
      this.db := db;
      this.worker := worker;
    }

    /** What others do to the tables while the execution waits. */
    method Others(ops: seq<Op>)
      requires Inv(db.View())
      modifies db
      ensures db.View() == Exec(old(db.View()), ops) && Inv(db.View())
    {
      hide Inv, UniqueIndexes, Apply;
      ghost var start := db.View();
      for i := 0 to |ops|
        invariant Inv(db.View()) && Exec(start, ops) == Exec(db.View(), ops[i..])
      {
        InvHasIndexes(db.View());
        StepKeeps(db.View(), ops[i]);
        assert ops[i..][1..] == ops[i + 1..];
        var _ := db.Perform(ops[i]);
      }
      assert ops[|ops|..] == [];
    }

    /** A mark with this worker's name; the fault its caller sees, if any. */
    method SendMark(c: Claim, mark: Mark, fate: Fate) returns (fault: Option<Fault>)
      requires c.worker == worker && Inv(db.View())
      modifies db
      ensures (db.View(), fault) == Call(old(db.View()), Marks(old(db.View()), c, mark), fate) && Inv(db.View())
    {
      MarkTerminalKeeps(db.View(), c.run, mark, Some(c.worker), c.now);
      hide Inv, UniqueIndexes;
      match fate
      case Answers =>
        var r := db.MarkTerminal(c.run, mark, Some(worker), c.now);
        fault := if r.Success? then None else Some(RepositoryFault);
      case Breaks(effect, how) =>
        if effect { var _ := db.MarkTerminal(c.run, mark, Some(worker), c.now); }
        fault := Some(how);
    }

    method MarkFailed(c: Claim, fate: Fate)
      requires c.worker == worker && Inv(db.View())
      modifies db
      ensures db.View() == Call(old(db.View()), Marks(old(db.View()), c, FAILED), fate).0
    {
      var _ := SendMark(c, FAILED, fate);
    }

    method MarkCancelledOrInterrupted(c: Claim, x: Course, ghost p: Ending)
      requires c.worker == worker && Inv(db.View())
      modifies db
      ensures db.View() == MarkCancelled(p, old(db.View()), c, x).db
    {
      hide Inv, UniqueIndexes, MarkTerminal, Exec;
      var fault := SendMark(c, CANCELLED, x.mark);
      if fault == Some(RepositoryFault) {
        Others(x.betweenMarks);
        var _ := SendMark(c, INTERRUPTED, x.second);
      }
    }

    method Pause(c: Claim, checkpoint: Checkpoint, fate: Fate) returns (fault: Option<Fault>)
      requires c.worker == worker
      modifies db
      ensures (db.View(), fault) == Call(old(db.View()), MarkWaiting(old(db.View()), c.run, c.worker, c.token, checkpoint), fate)
    {
      hide MarkWaiting;
      match fate
      case Answers =>
        var r := db.MarkWaiting(c.run, worker, c.token, checkpoint);
        fault := if r.Success? then None else Some(RepositoryFault);
      case Breaks(effect, how) =>
        if effect { var _ := db.MarkWaiting(c.run, worker, c.token, checkpoint); }
        fault := Some(how);
    }

    method Complete(c: Claim, fate: Fate) returns (fault: Option<Fault>)
      requires c.worker == worker
      modifies db
      ensures (db.View(), fault) == Call(old(db.View()), Commits(old(db.View()), c), fate)
    {
      hide CompleteWithTurn;
      match fate
      case Answers =>
        var r := db.CompleteWithTurn(c.run, worker, c.token, c.turn, c.assistant, Some(c.expected), c.now);
        fault := if r.Success? then None else Some(RepositoryFault);
      case Breaks(effect, how) =>
        if effect { var _ := db.CompleteWithTurn(c.run, worker, c.token, c.turn, c.assistant, Some(c.expected), c.now); }
        fault := Some(how);
    }

    /** The durable step, with the flag it sets and the handler its exception or the events lead to. */
    method PersistOutcome(c: Claim, x: Course) returns (committed: bool, paused: bool, handler: Handler)
      requires c.worker == worker && Inv(db.View())
      modifies db
      ensures Ending(db.View(), committed, paused, handler, NoMark) == Persist(old(db.View()), c, x) && Inv(db.View())
    {
      hide Inv, UniqueIndexes, MarkWaiting, CompleteWithTurn, Commits, Call;
      PersistFacts(db.View(), c, x);
      committed, paused, handler := false, false, OnException;
      match x.end {
        case BeforeTry => handler := NoHandler;
        case TaskCancelled => handler := OnCancel;
        case EventBusFailed => handler := OnEventBusError;
        case Raised =>
        case Paused(checkpoint) =>
          if checkpoint.Some? {
            var fault := Pause(c, checkpoint.value, x.durable);
            paused := fault.None?;
            handler := if paused then LateHandler(x.late) else HandlerOf(fault.value);
          }
        case Answered =>
          var fault := Complete(c, x.durable);
          committed := fault.None?;
          handler := if committed then LateHandler(x.late) else HandlerOf(fault.value);
      }
    }

    method ExecuteRunning(c: Claim, x: Course) returns (committed: bool, paused: bool, handler: Handler)
      requires c.worker == worker && Inv(db.View())
      modifies db
      ensures var e := Execute(old(db.View()), c, x);
        db.View() == e.db && committed == e.committed && paused == e.paused && handler == e.handler
    {
      hide Inv, UniqueIndexes, Persist, MarkTerminal, Exec;
      ghost var p := Persist(db.View(), c, x);
      committed, paused, handler := PersistOutcome(c, x);
      match handler {
        case NoHandler =>
        case OnCancel =>
          if !committed {
            Others(x.between);
            MarkCancelledOrInterrupted(c, x, p);
          }
        case OnEventBusError =>
          if !committed && !paused {
            Others(x.between);
            MarkFailed(c, x.mark);
          }
        case OnException =>
          if !committed && !paused {
            Others(x.between);
            MarkFailed(c, x.mark);
          }
      }
    }
  }

  lemma InvHasIndexes(db: Db)
    requires Inv(db)
    ensures RunRequestUnique(db.runs) && TurnRequestUnique(db.turns)
  {}
}
