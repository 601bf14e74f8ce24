/** Whole runs of the Redis store, and the scripts as code over one session's keys. */
module RedisRuns {
  import opened Wrappers
  import opened RedisModels
  import opened RedisDecoding
  import opened RedisScripts
  import opened RedisSessions
  import Json
  import L = SessionLedger

  /** `issued` and `history` are history: every lock value ever set, every ledger event so far. */
  datatype System = System(keys: Keys, issued: set<LockValue>, history: seq<L.Event>)

  const START := System(NO_KEYS, {}, [])

  /** Owner tokens are new: a lock owner's when it acquires, a request owner's when it is granted. */
  predicate Possible(s: System, op: Op) {
    match op
    case AcquireOp(owner) => forall v | v in s.issued :: v.owner != owner
    case BeginOp(_, r, payload, token, _, _, _, _) => L.FreshIn(s.history, L.Granted(r, payload, token))
    case _ => true
  }

  ghost function Next(s: System, op: Op, limits: Limits): System {
    var k := Step(s.keys, op, limits);
    System(k, if k.lock.Some? then s.issued + {k.lock.value} else s.issued, s.history + Events(s.keys, op, limits))
  }

  ghost function Run(ops: seq<Op>, limits: Limits): Option<System> {
    if ops == [] then Some(START) else
      var before := Run(ops[..|ops| - 1], limits);
      if before.None? || !Possible(before.value, ops[|ops| - 1]) then None else Some(Next(before.value, ops[|ops| - 1], limits))
  }

  ghost predicate Good(s: System, limits: Limits) {
    && Sound(s.keys)
    && L.LedgerOf(s.history, limits.maxTurns) == Some(Abs(s.keys))
    && (s.keys.lock.Some? ==> s.keys.lock.value in s.issued)
  }

  lemma NothingStored(limits: Limits)
    ensures Good(START, limits)
  {
    assert AbsTurns([]) == [] && AbsClaims(map[]) == map[];
  }

  lemma EventsGrantOnce(k: Keys, op: Op, history: seq<L.Event>, limits: Limits)
    requires op.BeginOp? ==> L.FreshIn(history, L.Granted(op.request, op.payload, op.token))
    ensures L.OneGrant(history, Events(k, op, limits))
  {
    hide Purge, MakeRoom, BodyOf, PlanBegin, Owned, Gone;
  }

  lemma StepIsGood(s: System, op: Op, limits: Limits)
    requires Good(s, limits) && Possible(s, op)
    ensures Good(Next(s, op, limits), limits)
  {
    hide Sound, Abs, Events, Step, L.LedgerOf, L.RunEvents, L.OneGrant, L.FreshIn;
    StepRefines(s.keys, op, limits);
    EventsGrantOnce(s.keys, op, s.history, limits);
    L.OneGrantIsFresh(s.history, Events(s.keys, op, limits));
    L.HistoryExtends(s.history, Events(s.keys, op, limits), Abs(s.keys), limits.maxTurns);
  }

  /** Over every run, with leases running out and being retaken at any point: the stored data is the ledger
      of the events so far, and the index holds exactly the finished records. */
  lemma {:induction false} EveryRunIsGood(ops: seq<Op>, limits: Limits)
    requires Run(ops, limits).Some?
    ensures Good(Run(ops, limits).value, limits)
  {
    hide Good, Next, Possible;
    if ops == [] {
      NothingStored(limits);
    } else {
      EveryRunIsGood(ops[..|ops| - 1], limits);
      StepIsGood(Run(ops[..|ops| - 1], limits).value, ops[|ops| - 1], limits);
    }
  }

  // ------------------------------------------------------------------ fencing

  predicate SameData(a: Keys, b: Keys) {
    a.turnCounter == b.turnCounter && a.turns == b.turns && a.requests == b.requests && a.gc == b.gc
  }

  /** The lock value a writing step carries. */
  function Carried(op: Op): Option<LockValue> {
    match op
    case AppendOp(v, _) => Some(v)
    case BeginOp(v, _, _, _, _, _, _, _) => Some(v)
    case CompleteOp(v, _, _, _, _, _, _, _, _) => Some(v)
    case FailOp(v, _, _, _, _, _) => Some(v)
    case _ => None
  }

  /** A step changes data only when it carries the current lock value. */
  lemma OnlyTheOwnerWrites(k: Keys, op: Op, limits: Limits)
    ensures SameData(k, Step(k, op, limits)) || (Carried(op).Some? && k.lock == Carried(op))
  {
    hide RewriteIndex, RewriteZero, DeserializeRecord, SerializeRecord, SerializeTurn, MakeRoom, Purge;
  }

  lemma {:induction false} RoomKeepsLock(k: Keys, limit: nat)
    ensures MakeRoom(k, limit).lock == k.lock
    decreases |k.gc|
  {
    if !(|k.gc| < limit || k.gc.Keys == {}) {
      RemoveShrinks(k, Oldest(k.gc));
      RoomKeepsLock(Remove(k, {Oldest(k.gc)}), limit);
    }
  }

  /** Only acquiring sets the lock; nothing but a release or the end of a lease clears it. */
  lemma WritesKeepLock(k: Keys, op: Op, limits: Limits)
    requires Carried(op).Some?
    ensures Step(k, op, limits).lock == k.lock
  {
    hide RewriteIndex, RewriteZero, DeserializeRecord, SerializeRecord, SerializeTurn, MakeRoom;
    if op.BeginOp? { RoomKeepsLock(Purge(k.(schema := Some(TURN_VERSION)), op.now), limits.maxRecords); }
  }

  lemma LostStaysLost(s: System, op: Op, v: LockValue, limits: Limits)
    requires Possible(s, op) && v in s.issued && s.keys.lock != Some(v)
    ensures var t := Next(s, op, limits); v in t.issued && t.keys.lock != Some(v)
  {
    hide Append, Begin, Complete, RedisScripts.Fail, Events, PlanBegin, Owned;
    if Carried(op).Some? { WritesKeepLock(s.keys, op, limits); }
  }

  lemma {:induction false} RunPrefix(ops: seq<Op>, n: nat, limits: Limits)
    requires Run(ops, limits).Some? && n <= |ops|
    ensures Run(ops[..n], limits).Some?
    decreases |ops|
  {
    hide Next, Possible;
    if n == |ops| {
      assert ops[..n] == ops;
    } else {
      assert ops[..|ops| - 1][..n] == ops[..n];
      RunPrefix(ops[..|ops| - 1], n, limits);
    }
  }

  /** A lock value that was set and lost never comes back, so nothing its client still sends has an effect. */
  lemma {:induction false} LostForever(ops: seq<Op>, n: nat, v: LockValue, limits: Limits)
    requires Run(ops, limits).Some? && n <= |ops|
    requires Run(ops[..n], limits).Some? && v in Run(ops[..n], limits).value.issued && Run(ops[..n], limits).value.keys.lock != Some(v)
    ensures v in Run(ops, limits).value.issued && Run(ops, limits).value.keys.lock != Some(v)
    decreases |ops|
  {
    hide Next, Possible;
    if n == |ops| {
      assert ops[..n] == ops;
    } else {
      var m := |ops| - 1;
      assert ops[..m][..n] == ops[..n];
      LostForever(ops[..m], n, v, limits);
      LostStaysLost(Run(ops[..m], limits).value, ops[m], v, limits);
    }
  }

  lemma FencedClient(ops: seq<Op>, n: nat, v: LockValue, op: Op, limits: Limits)
    requires Run(ops, limits).Some? && n <= |ops| && Carried(op) == Some(v)
    requires Run(ops[..n], limits).Some? && v in Run(ops[..n], limits).value.issued && Run(ops[..n], limits).value.keys.lock != Some(v)
    ensures SameData(Run(ops, limits).value.keys, Step(Run(ops, limits).value.keys, op, limits))
  {
    hide Step, Run, SameData;
    LostForever(ops, n, v, limits);
    OnlyTheOwnerWrites(Run(ops, limits).value.keys, op, limits);
  }

  // ------------------------------------------------------------------ fencing numbers

  lemma RoomKeepsFencing(k: Keys, limit: nat)
    ensures MakeRoom(k, limit).fencing == k.fencing
  {
    RoomKeepsRest(k, limit);
  }

  /** A fencing number is drawn by acquiring and by nothing else. */
  lemma FencingGrows(k: Keys, op: Op, limits: Limits)
    ensures k.fencing <= Step(k, op, limits).fencing
  {
    hide RewriteIndex, RewriteZero, DeserializeRecord, SerializeRecord, SerializeTurn, MakeRoom;
    if op.BeginOp? { RoomKeepsFencing(Purge(k.(schema := Some(TURN_VERSION)), op.now), limits.maxRecords); }
  }

  lemma {:induction false} FencingGrowsOver(ops: seq<Op>, n: nat, limits: Limits)
    requires Run(ops, limits).Some? && n <= |ops| && Run(ops[..n], limits).Some?
    ensures Run(ops[..n], limits).value.keys.fencing <= Run(ops, limits).value.keys.fencing
    decreases |ops|
  {
    hide Possible, Events, Step;
    if n == |ops| {
      assert ops[..n] == ops;
    } else {
      assert ops[..|ops| - 1][..n] == ops[..n];
      FencingGrowsOver(ops[..|ops| - 1], n, limits);
      FencingGrows(Run(ops[..|ops| - 1], limits).value.keys, ops[|ops| - 1], limits);
    }
  }

  /** Of two acquisitions of one session the later draws the larger number, however the first one's lease ended. */
  lemma FencingStrictlyIncreases(ops: seq<Op>, i: nat, first: Token, second: Token, limits: Limits)
    requires Run(ops, limits).Some? && i < |ops| && ops[i] == AcquireOp(first) && Run(ops[..i], limits).Some?
    requires Acquire(Run(ops[..i], limits).value.keys, first).1.Granted?
    requires Acquire(Run(ops, limits).value.keys, second).1.Granted?
    ensures Acquire(Run(ops[..i], limits).value.keys, first).1.value.fencing < Acquire(Run(ops, limits).value.keys, second).1.value.fencing
  {
    hide Possible, Events, Acquire;
    RunPrefix(ops, i + 1, limits);
    assert ops[..i + 1][..i] == ops[..i] && ops[..i + 1][i] == ops[i];
    FencingGrowsOver(ops, i + 1, limits);
    AcquireExactly(Run(ops[..i], limits).value.keys, first);
    AcquireExactly(Run(ops, limits).value.keys, second);
  }

  // ------------------------------------------------------------------ expiry

  function ExpiryIn(text: string): Option<nat> {
    var record := DeserializeRecord(text);
    if record.None? then None else Some(record.value.expires)
  }

  /** The index has every finished request under the expiry its own record names. */
  ghost predicate Dated(k: Keys) {
    forall r | r in k.gc :: r in k.requests && ExpiryIn(k.requests[r]) == Some(k.gc[r])
  }

  lemma SerializedIsDated(record: StoredRecord)
    ensures ExpiryIn(SerializeRecord(record)) == Some(record.expires)
  {
    hide DeserializeRecord, SerializeRecord;
    RecordRoundTrip(record);
  }

  lemma RemoveKeepsDated(k: Keys, rs: set<Request>)
    requires Dated(k)
    ensures Dated(Remove(k, rs))
  {
    hide ExpiryIn;
  }

  lemma {:induction false} RoomKeepsDated(k: Keys, limit: nat)
    requires Dated(k)
    ensures Dated(MakeRoom(k, limit))
    decreases |k.gc|
  {
    hide Dated;
    if !(|k.gc| < limit || k.gc.Keys == {}) {
      RemoveShrinks(k, Oldest(k.gc));
      RemoveKeepsDated(k, {Oldest(k.gc)});
      RoomKeepsDated(Remove(k, {Oldest(k.gc)}), limit);
    }
  }

  lemma BeginKeepsDated(k: Keys, v: LockValue, r: Request, text: string, now: nat, limit: nat, mode: Mode)
    requires Dated(k)
    ensures Dated(Begin(k, v, r, text, now, limit, mode).0)
  {
    hide MakeRoom, Purge, ExpiryIn;
    var purged := Purge(k.(schema := Some(TURN_VERSION)), now);
    PurgeKeepsDated(k, now);
    RoomKeepsDated(purged, limit);
  }

  lemma PurgeKeepsDated(k: Keys, now: nat)
    requires Dated(k)
    ensures Dated(Purge(k.(schema := Some(TURN_VERSION)), now))
  {
    hide ExpiryIn;
  }

  lemma FinishKeepsDated(k: Keys, k': Keys, r: Request, text: string, score: nat)
    requires Dated(k) && k'.requests == k.requests[r := text] && k'.gc == k.gc[r := score] && ExpiryIn(text) == Some(score)
    ensures Dated(k')
  {
    hide ExpiryIn;
  }

  lemma SameKeepsDated(k: Keys, k': Keys)
    requires Dated(k) && k'.requests == k.requests && k'.gc == k.gc
    ensures Dated(k')
  {
    hide ExpiryIn;
  }

  lemma StepKeepsDated(k: Keys, op: Op, limits: Limits)
    requires Dated(k)
    ensures Dated(Step(k, op, limits))
  {
    hide Dated, Begin, Complete, RedisScripts.Fail, Append, Acquire, Release, SerializeRecord, SerializeTurn, ExpiryIn, PlanBegin, DeserializeRecord;
    match op
    case BeginOp(v, r, payload, token, started, now, expires, seen) =>
      var plan := PlanBegin(seen, r, payload, now);
      if plan.Claim? {
        BeginKeepsDated(k, v, r, SerializeRecord(NewRecord(r, payload, token, started, expires)), now, limits.maxRecords, plan.mode);
      }
    case CompleteOp(v, r, owner, turn, run, response, finished, expires, seen) =>
      if Owned(seen, r, owner).Some? {
        var record := Owned(seen, r, owner).value;
        CompleteKeepsDated(k, v, r, owner, turn, record, run, response, finished, expires, seen.value, limits.maxTurns);
      }
    case FailOp(v, r, owner, finished, expires, seen) =>
      if Owned(seen, r, owner).Some? { FailKeepsDated(k, v, r, owner, Owned(seen, r, owner).value, finished, expires, seen.value); }
    case _ =>
      LockStepsKeepIndex(k, op, limits);
      SameKeepsDated(k, Step(k, op, limits));
  }

  lemma LockStepsKeepIndex(k: Keys, op: Op, limits: Limits)
    requires op.AcquireOp? || op.LeaseRunsOut? || op.ReleaseOp? || op.AppendOp?
    ensures Step(k, op, limits).requests == k.requests && Step(k, op, limits).gc == k.gc
  {
    hide RewriteIndex, SerializeTurn, TrimTexts;
  }

  lemma CompleteKeepsDated(k: Keys, v: LockValue, r: Request, owner: Token, turn: StoredTurn, record: StoredRecord, run: string,
                           response: seq<Json.Field>, finished: string, expires: nat, expected: string, maxTurns: nat)
    requires Dated(k)
    ensures var completed := CompletedRecord(record, run, response, finished, expires);
      Dated(Complete(k, v, r, owner, SerializeTurn(turn), maxTurns, expected, SerializeRecord(completed), expires).0)
  {
    hide Dated, Complete, SerializeTurn, SerializeRecord, TrimTexts, ExpiryIn;
    var completed := CompletedRecord(record, run, response, finished, expires);
    var (k', reply) := Complete(k, v, r, owner, SerializeTurn(turn), maxTurns, expected, SerializeRecord(completed), expires);
    CompleteIsAllOrNothing(k, v, r, owner, turn, record, run, response, finished, expires, expected, maxTurns);
    if reply == Ok {
      var stored := completed.(turnIndex := Some(k.turnCounter + 1));
      SerializedIsDated(stored);
      FinishKeepsDated(k, k', r, SerializeRecord(stored), expires);
    }
  }

  lemma FailKeepsDated(k: Keys, v: LockValue, r: Request, owner: Token, record: StoredRecord, finished: string, expires: nat, expected: string)
    requires Dated(k)
    ensures Dated(RedisScripts.Fail(k, v, r, owner, expected, SerializeRecord(FailedRecord(record, finished, expires)), expires).0)
  {
    hide Dated, SerializeRecord, ExpiryIn, OwnedInProgress;
    var text := SerializeRecord(FailedRecord(record, finished, expires));
    SerializedIsDated(FailedRecord(record, finished, expires));
    FinishKeepsDated(k, k.(requests := k.requests[r := text], gc := k.gc[r := expires]), r, text, expires);
  }

  /** Over every run the index and the records agree on when each finished request expires. */
  lemma {:induction false} IndexTellsExpiry(ops: seq<Op>, limits: Limits)
    requires Run(ops, limits).Some?
    ensures Dated(Run(ops, limits).value.keys)
  {
    hide Possible, Events, Step;
    if ops != [] {
      IndexTellsExpiry(ops[..|ops| - 1], limits);
      hide Dated;
      StepKeepsDated(Run(ops[..|ops| - 1], limits).value.keys, ops[|ops| - 1], limits);
    }
  }

  // ------------------------------------------------------------------ a begin on what is there now

  /** The claim a begin finds: stored, and in progress or not yet expired. */
  ghost predicate Live(k: Keys, r: Request, now: nat, record: StoredRecord) {
    r in k.requests && DeserializeRecord(k.requests[r]) == Some(record) && (record.status == InProgress || record.expires > now)
  }

  ghost predicate Free(k: Keys, r: Request, now: nat) { forall record :: !Live(k, r, now, record) }

  /** What the lock owner is answered who read the record as it is: conflict and replay for a live claim only, and
      otherwise a claim, a takeover exactly of a live one, which the script then never refuses. */
  ghost predicate AnswersFresh(k: Keys, v: LockValue, r: Request, payload: string, token: Token, started: string, now: nat,
                               expires: nat, limit: nat)
  {
    var plan := PlanBegin(if r in k.requests then Some(k.requests[r]) else None, r, payload, now);
    && !plan.Unreadable?
    && (forall existing :: plan == Conflict(existing) <==> exists record :: Live(k, r, now, record) && record.payload == existing != payload)
    && (forall response :: plan == Replay(response) <==>
          exists record :: Live(k, r, now, record) && record.payload == payload && record.status == Completed && record.response == Some(response))
    && (plan == BeginPlan.Claim(New) <==> Free(k, r, now))
    && (plan.Claim? ==> Begin(k, v, r, SerializeRecord(NewRecord(r, payload, token, started, expires)), now, limit, plan.mode).1 == Ok)
  }

  lemma FreshBeginAnswers(k: Keys, v: LockValue, r: Request, payload: string, token: Token, started: string, now: nat, expires: nat,
                          limit: nat)
    requires Sound(k) && Dated(k) && k.lock == Some(v)
    ensures AnswersFresh(k, v, r, payload, token, started, now, expires, limit)
  {
    hide DeserializeRecord, SerializeRecord, SplitText, MakeRoom;
    if r in k.requests {
      assert GoodRecord(r, k.requests[r]);
      var record := DeserializeRecord(k.requests[r]).value;
      assert r in k.gc ==> k.gc[r] == record.expires;
      assert record.status == InProgress || record.expires > now ==> Live(k, r, now, record);
    }
  }

  /** So every begin of the lock owner that acts on what is stored now is answered, at any point of any run. */
  lemma FreshBeginsSucceed(ops: seq<Op>, v: LockValue, r: Request, payload: string, token: Token, started: string, now: nat,
                           expires: nat, limits: Limits)
    requires Run(ops, limits).Some? && Run(ops, limits).value.keys.lock == Some(v)
    ensures AnswersFresh(Run(ops, limits).value.keys, v, r, payload, token, started, now, expires, limits.maxRecords)
  {
    hide Run, Dated, Sound, AnswersFresh;
    EveryRunIsGood(ops, limits);
    IndexTellsExpiry(ops, limits);
    FreshBeginAnswers(Run(ops, limits).value.keys, v, r, payload, token, started, now, expires, limits.maxRecords);
  }

  // ------------------------------------------------------------------ answers from an old read

  lemma {:induction false} HistoryGrows(ops: seq<Op>, n: nat, limits: Limits)
    requires Run(ops, limits).Some? && n <= |ops| && Run(ops[..n], limits).Some?
    ensures Run(ops[..n], limits).value.history <= Run(ops, limits).value.history
    decreases |ops|
  {
    hide Possible, Events, Step;
    if n == |ops| {
      assert ops[..n] == ops;
    } else {
      assert ops[..|ops| - 1][..n] == ops[..n];
      HistoryGrows(ops[..|ops| - 1], n, limits);
    }
  }

  /** The completion behind a replayed response, before the given point of the history. */
  ghost predicate WasCommitted(history: seq<L.Event>, r: Request, payload: string, response: string) {
    exists i, k :: 0 <= i < k < |history| && L.CommittedBy(history, i, k, L.Replayed(r, payload, response))
  }

  lemma CurrentReplay(s: System, r: Request, payload: string, now: nat, limits: Limits)
    requires Good(s, limits) && r in s.keys.requests && PlanBegin(Some(s.keys.requests[r]), r, payload, now).Replay?
    ensures WasCommitted(s.history, r, payload, Json.Print(Json.Obj(PlanBegin(Some(s.keys.requests[r]), r, payload, now).response)))
  {
    hide Sound, Abs, PlanBegin, L.LedgerOf, L.RunEvents, L.CommittedBy;
    var seen := Some(s.keys.requests[r]);
    var event := L.Replayed(r, payload, Json.Print(Json.Obj(PlanBegin(seen, r, payload, now).response)));
    AnswerRefines(s.keys, r, payload, seen, now, limits.maxTurns);
    L.HistoryExtends(s.history, [event], Abs(s.keys), limits.maxTurns);
    var longer := s.history + [event];
    L.ReplayWasCommitted(longer, limits.maxTurns, |s.history|);
    var i, k :| 0 <= i < k < |s.history| && L.CommittedBy(longer, i, k, event);
    assert L.CommittedBy(s.history, i, k, event) by { SameCommit(s.history, event, i, k); }
  }

  lemma SameCommit(history: seq<L.Event>, event: L.Event, i: nat, k: nat)
    requires i < |history| && k < |history| && event.Replayed? && L.CommittedBy(history + [event], i, k, event)
    ensures L.CommittedBy(history, i, k, event)
  {}

  /** Whatever a client read, and however long ago: a response it replays was stored by an earlier completion
      of the same request with the same payload. */
  lemma StaleReplayWasCommitted(ops: seq<Op>, n: nat, r: Request, payload: string, now: nat, limits: Limits)
    requires Run(ops, limits).Some? && n <= |ops| && Run(ops[..n], limits).Some?
    requires r in Run(ops[..n], limits).value.keys.requests
    requires PlanBegin(Some(Run(ops[..n], limits).value.keys.requests[r]), r, payload, now).Replay?
    ensures var read := Run(ops[..n], limits).value;
      var response := Json.Print(Json.Obj(PlanBegin(Some(read.keys.requests[r]), r, payload, now).response));
      read.history <= Run(ops, limits).value.history && WasCommitted(read.history, r, payload, response)
  {
    hide Run, Good, PlanBegin, WasCommitted;
    EveryRunIsGood(ops[..n], limits);
    HistoryGrows(ops, n, limits);
    CurrentReplay(Run(ops[..n], limits).value, r, payload, now, limits);
  }

  // ------------------------------------------------------------------ all or nothing

  /** A completion built from a record the client owns either takes effect in full or not at all: the
      branches after a failed rewrite are never taken. */
  lemma CompleteIsAllOrNothing(k: Keys, v: LockValue, r: Request, owner: Token, turn: StoredTurn, record: StoredRecord, run: string,
                               response: seq<Json.Field>, finished: string, expires: nat, expected: string, maxTurns: nat)
    ensures var completed := CompletedRecord(record, run, response, finished, expires);
      var (k', reply) := Complete(k, v, r, owner, SerializeTurn(turn), maxTurns, expected, SerializeRecord(completed), expires);
      && (reply != Ok ==> k' == k)
      && (reply == Ok ==>
            var index := k.turnCounter + 1;
            k' == k.(turnCounter := index, schema := Some(TURN_VERSION),
                     turns := TrimTexts(k.turns + [SerializeTurn(turn.(index := index))], maxTurns),
                     requests := k.requests[r := SerializeRecord(completed.(turnIndex := Some(index)))],
                     gc := k.gc[r := expires]))
  {
    hide RewriteIndex, RewriteZero, SerializeTurn, SerializeRecord, OwnedInProgress, TrimTexts;
    RewrittenTurn(turn, k.turnCounter + 1);
    RewrittenRecord(CompletedRecord(record, run, response, finished, expires), k.turnCounter + 1);
  }

  // ------------------------------------------------------------------ what was stored reads back

  /** A granted claim reads back as a new record of the request, in progress under the caller's token. */
  lemma ClaimReadsBack(k: Keys, v: LockValue, r: Request, payload: string, token: Token, started: string, now: nat, expires: nat,
                       limit: nat, mode: Mode)
    requires Begin(k, v, r, SerializeRecord(NewRecord(r, payload, token, started, expires)), now, limit, mode).1 == Ok
    ensures var k' := Begin(k, v, r, SerializeRecord(NewRecord(r, payload, token, started, expires)), now, limit, mode).0;
      r in k'.requests
      && DeserializeRecord(k'.requests[r]) == Some(StoredRecord(r, payload, InProgress, token, None, None, None, started, None, expires))
  {
    hide DeserializeRecord, SerializeRecord, MakeRoom, Purge;
    RecordRoundTrip(NewRecord(r, payload, token, started, expires));
  }

  /** What an ended record keeps of its claim. */
  predicate EndsClaim(claim: StoredRecord, ended: StoredRecord, finished: string, expires: nat) {
    && ended.request == claim.request && ended.payload == claim.payload && ended.owner == claim.owner && ended.started == claim.started
    && ended.completed == Some(finished) && ended.expires == expires
  }

  ghost predicate CompletedReads(k: Keys, k': Keys, r: Request, claim: StoredRecord, turn: StoredTurn, run: string, response: seq<Json.Field>,
                                 finished: string, expires: nat)
  {
    && k'.turnCounter == k.turnCounter + 1
    && k'.turns != []
    && (turn.status in TURN_STATUSES ==>
          DeserializeTurn(k'.turns[|k'.turns| - 1])
            == Some(turn.(index := k'.turnCounter, contextScope := Json.SortFields(Json.CanonFields(turn.contextScope)))))
    && r in k'.requests && DeserializeRecord(k'.requests[r]).Some?
    && var done := DeserializeRecord(k'.requests[r]).value;
       && EndsClaim(claim, done, finished, expires) && done.status == Completed && done.run == Some(run) && done.turnIndex == Some(k'.turnCounter)
       && done.response == Some(Json.SortFields(Json.CanonFields(response)))
  }

  lemma NewestTurnStays(turns: seq<string>, text: string, limit: nat)
    ensures var kept := TrimTexts(turns + [text], limit); kept != [] && kept[|kept| - 1] == text
  {}

  /** A completion reads back with its answer, its run and the index of the turn it stored, which reads back too. */
  lemma CompletionReadsBack(k: Keys, v: LockValue, r: Request, owner: Token, turn: StoredTurn, run: string, response: seq<Json.Field>,
                            finished: string, expires: nat, limits: Limits)
    requires r in k.requests && CanFinish(k, v, r, owner, Some(k.requests[r]))
    ensures CompletedReads(k, Step(k, CompleteOp(v, r, owner, turn, run, response, finished, expires, Some(k.requests[r])), limits),
                           r, DeserializeRecord(k.requests[r]).value, turn, run, response, finished, expires)
  {
    hide DeserializeRecord, SerializeRecord, SerializeTurn, DeserializeTurn, TrimTexts, RewriteIndex, RewriteZero;
    var record, index := DeserializeRecord(k.requests[r]).value, k.turnCounter + 1;
    var completed := CompletedRecord(record, run, response, finished, expires);
    CompleteIsAllOrNothing(k, v, r, owner, turn, record, run, response, finished, expires, k.requests[r], limits.maxTurns);
    RewrittenTurn(turn, index);
    RewrittenRecord(completed, index);
    RecordRoundTrip(completed.(turnIndex := Some(index)));
    if turn.status in TURN_STATUSES { TurnRoundTrip(turn.(index := index)); }
    NewestTurnStays(k.turns, SerializeTurn(turn.(index := index)), limits.maxTurns);
  }

  /** A failure mark reads back as the same claim, failed, without run, answer or turn. */
  lemma FailureReadsBack(k: Keys, v: LockValue, r: Request, owner: Token, finished: string, expires: nat, limits: Limits)
    requires r in k.requests && CanFinish(k, v, r, owner, Some(k.requests[r]))
    ensures var k' := Step(k, FailOp(v, r, owner, finished, expires, Some(k.requests[r])), limits);
      && r in k'.requests && DeserializeRecord(k'.requests[r]).Some?
      && var claim, failed := DeserializeRecord(k.requests[r]).value, DeserializeRecord(k'.requests[r]).value;
         EndsClaim(claim, failed, finished, expires) && failed.status == RecordStatus.Failed && failed.run == claim.run && failed.turnIndex == claim.turnIndex
         && (claim.response.None? ==> failed.response.None?)
  {
    hide DeserializeRecord, SerializeRecord;
    RecordRoundTrip(FailedRecord(DeserializeRecord(k.requests[r]).value, finished, expires));
  }

  lemma AppendIsAllOrNothing(k: Keys, v: LockValue, turn: StoredTurn, maxTurns: nat)
    ensures var (k', reply) := Append(k, v, SerializeTurn(turn), maxTurns);
      && (reply != Ok ==> k' == k)
      && (reply == Ok ==> k'.turns == TrimTexts(k.turns + [SerializeTurn(turn.(index := k.turnCounter + 1))], maxTurns)
                          && k'.turnCounter == k.turnCounter + 1 && k'.requests == k.requests && k'.gc == k.gc)
  {
    hide RewriteIndex, SerializeTurn, TrimTexts;
    RewrittenTurn(turn, k.turnCounter + 1);
  }

  predicate AppendRefused(k: Keys, v: LockValue) { k.lock != Some(v) || BadSchema(k) }

  /** For every text: the append script changes nothing it does not finish exactly when lock or schema refuse
      or the text ends as the pattern wants. Otherwise it answers data_invalid but has counted a turn. */
  lemma AppendIsWholeExactly(k: Keys, v: LockValue, text: string, maxTurns: nat)
    ensures var (k', reply) := Append(k, v, text, maxTurns);
      && ((reply == Ok || k' == k) <==> AppendRefused(k, v) || FindMatch(text, 0, Tail(TURN_VERSION)).Some?)
      && (reply == Ok <==> !AppendRefused(k, v) && FindMatch(text, 0, Tail(TURN_VERSION)).Some?)
      && (reply != Ok && k' != k ==> reply == DataInvalid && k' == k.(schema := Some(TURN_VERSION), turnCounter := k.turnCounter + 1))
  {
    hide TrimTexts, Tail, FindMatch;
  }

  predicate CompleteRefused(k: Keys, v: LockValue, r: Request, owner: Token, expected: string) {
    k.lock != Some(v) || BadSchema(k) || r !in k.requests || k.requests[r] != expected || !OwnedInProgress(expected, owner)
  }

  predicate EndsInZero(text: string) {
    var zero := INDEX_KEY + "0" + Tail(RECORD_VERSION);
    |text| >= |zero| && text[|text| - |zero|..] == zero
  }

  /** The same for the complete script, which has two texts to rewrite: a turn that was pushed stays when the
      record is then refused. */
  lemma CompleteIsWholeExactly(k: Keys, v: LockValue, r: Request, owner: Token, turnText: string, maxTurns: nat, expected: string,
                               completedText: string, score: nat)
    ensures var (k', reply) := Complete(k, v, r, owner, turnText, maxTurns, expected, completedText, score);
      var turnFits := FindMatch(turnText, 0, Tail(TURN_VERSION)).Some?;
      && ((reply == Ok || k' == k) <==> CompleteRefused(k, v, r, owner, expected) || (turnFits && EndsInZero(completedText)))
      && (reply != Ok && k' != k ==> reply == DataInvalid && k'.turnCounter == k.turnCounter + 1 && k'.requests == k.requests)
      && (reply != Ok && k' != k && !turnFits ==> k'.turns == k.turns)
  {
    hide TrimTexts, Tail, FindMatch, OwnedInProgress;
  }

  // ------------------------------------------------------------------ the scripts as code

  class SessionKeys {
    var lock: Option<LockValue>
    var schema: Option<nat>
    var fencing: nat
    var turnCounter: nat
    var turns: seq<string>
    var requests: map<Request, string>
    var gc: map<Request, nat>

    function View(): Keys reads this { Keys(lock, schema, fencing, turnCounter, turns, requests, gc) }

    constructor ()
      ensures View() == NO_KEYS
    {
      lock, schema, fencing, turnCounter, turns, requests, gc := None, None, 0, 0, [], map[], map[];
    }

    method AcquireScript(owner: Token) returns (result: Acquired)
      modifies this`fencing, this`schema, this`lock
      ensures (View(), result) == Acquire(old(View()), owner)
    {
      if schema.Some? && schema.value != TURN_VERSION { return Refused; }
      if lock.Some? { return Busy; }
      fencing := fencing + 1;
      schema := Some(TURN_VERSION);
      lock := Some(LockValue(owner, fencing));
      return Granted(lock.value);
    }

    method ReleaseScript(v: LockValue)
      modifies this`lock
      ensures View() == Release(old(View()), v)
    {
      if lock != Some(v) { return; }
      lock := None;
    }

    method AppendScript(v: LockValue, text: string, maxTurns: nat) returns (reply: Reply)
      modifies this`schema, this`turnCounter, this`turns
      ensures (View(), reply) == Append(old(View()), v, text, maxTurns)
    {
      hide RewriteIndex;
      if lock != Some(v) { return LockLost; }
      if schema.Some? && schema.value != TURN_VERSION { return DataInvalid; }
      schema := Some(TURN_VERSION);
      turnCounter := turnCounter + 1;
      var (stored, changed) := RewriteIndex(text, turnCounter, TURN_VERSION);
      if changed != 1 { return DataInvalid; }
      turns := turns + [stored];
      if maxTurns > 0 && |turns| > maxTurns { turns := turns[|turns| - maxTurns..]; }
      return Ok;
    }

    method DropMember(member: Request)
      modifies this`requests, this`gc
      ensures View() == Remove(old(View()), {member})
    {
      requests := requests - {member};
      gc := gc - {member};
    }

    /** The expired members, dropped one by one. */
    method PurgeExpired(now: nat)
      modifies this`requests, this`gc
      ensures View() == Purge(old(View()), now)
    {
      hide Remove;
      NothingRemoved(View());
      var expired := Expired(gc, now);
      ghost var done: set<Request> := {};
      ghost var all := expired;
      while expired != {}
        invariant all == done + expired && done !! expired
        invariant View() == Remove(old(View()), done)
        decreases |expired|
      {
        SomeMember(expired);
        var member: Request :| member in expired;
        DropMember(member);
        RemoveMore(old(View()), done, member);
        expired, done := expired - {member}, done + {member};
      }
      assert done == all;
    }

    /** The member with the lowest score, ties by name. */
    method FindOldest() returns (oldest: Request)
      requires gc.Keys != {}
      ensures oldest == Oldest(gc)
    {
      var rest := gc.Keys;
      SomeMember(rest);
      oldest :| oldest in rest;
      rest := rest - {oldest};
      while rest != {}
        invariant oldest in gc && rest <= gc.Keys
        invariant forall q | q in gc && q !in rest :: Before(gc, oldest, q)
        decreases |rest|
      {
        SomeMember(rest);
        var next: Request :| next in rest;
        if !Before(gc, oldest, next) { oldest := next; }
        rest := rest - {next};
      }
      OldestIsOne(gc, oldest);
    }

    method MakeRoomFor(limit: nat)
      modifies this`requests, this`gc
      ensures View() == MakeRoom(old(View()), limit)
    {
      while |gc| >= limit && gc.Keys != {}
        invariant MakeRoom(View(), limit) == MakeRoom(old(View()), limit)
        invariant View() == old(View()).(requests := requests, gc := gc)
        decreases |gc|
      {
        var oldest := FindOldest();
        RemoveShrinks(View(), oldest);
        requests := requests - {oldest};
        gc := gc - {oldest};
      }
    }

    method BeginScript(v: LockValue, r: Request, text: string, now: nat, limit: nat, mode: Mode) returns (reply: Reply)
      modifies this`schema, this`requests, this`gc
      ensures (View(), reply) == Begin(old(View()), v, r, text, now, limit, mode)
    {
      if lock != Some(v) { return LockLost; }
      if schema.Some? && schema.value != TURN_VERSION { return DataInvalid; }
      schema := Some(TURN_VERSION);
      PurgeExpired(now);
      match mode {
        case New =>
          if r in requests { return DataInvalid; }
          MakeRoomFor(limit);
        case Takeover(expected) =>
          if r !in requests || requests[r] != expected { return DataInvalid; }
      }
      requests := requests[r := text];
      gc := gc - {r};
      return Ok;
    }

    method CompleteScript(v: LockValue, r: Request, owner: Token, turnText: string, maxTurns: nat, expected: string,
                          completedText: string, score: nat) returns (reply: Reply)
      modifies this`schema, this`turnCounter, this`turns, this`requests, this`gc
      ensures (View(), reply) == Complete(old(View()), v, r, owner, turnText, maxTurns, expected, completedText, score)
    {
      hide RewriteIndex, RewriteZero, OwnedInProgress;
      if lock != Some(v) { return LockLost; }
      if schema.Some? && schema.value != TURN_VERSION { return DataInvalid; }
      if r !in requests || requests[r] != expected { return LockLost; }
      if !OwnedInProgress(expected, owner) { return LockLost; }
      turnCounter := turnCounter + 1;
      var (turn, changed) := RewriteIndex(turnText, turnCounter, TURN_VERSION);
      if changed != 1 { return DataInvalid; }
      turns := turns + [turn];
      if maxTurns > 0 && |turns| > maxTurns { turns := turns[|turns| - maxTurns..]; }
      var (completed, completedChanged) := RewriteZero(completedText, turnCounter);
      if completedChanged != 1 { return DataInvalid; }
      requests := requests[r := completed];
      gc := gc[r := score];
      schema := Some(TURN_VERSION);
      return Ok;
    }

    method FailScript(v: LockValue, r: Request, owner: Token, expected: string, failedText: string, score: nat) returns (reply: Reply)
      modifies this`requests, this`gc
      ensures (View(), reply) == Fail(old(View()), v, r, owner, expected, failedText, score)
    {
      hide OwnedInProgress;
      if lock != Some(v) { return LockLost; }
      if schema.Some? && schema.value != TURN_VERSION { return DataInvalid; }
      if r !in requests { return Noop; }
      if requests[r] != expected { return LockLost; }
      if !OwnedInProgress(expected, owner) { return Noop; }
      requests := requests[r := failedText];
      gc := gc[r := score];
      return Ok;
    }
  }

  lemma NothingRemoved(k: Keys)
    ensures Remove(k, {}) == k
  {}

  lemma RemoveMore(k: Keys, done: set<Request>, member: Request)
    ensures Remove(Remove(k, done), {member}) == Remove(k, done + {member})
  {}

  lemma SomeMember(s: set<Request>)
    requires s != {}
    ensures exists x :: x in s
  {
    assert (forall x :: x !in s) ==> s == {};
  }
}
