/** What clients do with the scripts, any number of them, with leases that may run out at any moment: the
    data of a session is a ledger, and only the current lock owner changes it. */
module RedisSessions {
  import opened Wrappers
  import opened RedisModels
  import opened RedisDecoding
  import opened RedisScripts
  import Json
  import L = SessionLedger

  datatype Limits = Limits(maxTurns: nat, maxRecords: nat)

  // ------------------------------------------------------------------ what a client makes of a record it read

  datatype BeginPlan = Unreadable | Conflict(existing: string) | Replay(response: seq<Json.Field>) | Claim(mode: Mode)

  function PlanBegin(seen: Option<string>, r: Request, payload: string, now: nat): BeginPlan {
    if seen.None? then Claim(New) else
      var record := DeserializeRecord(seen.value);
      if record.None? || record.value.request != r then Unreadable
      else if record.value.status != InProgress && record.value.expires <= now then Claim(New)
      else if record.value.payload != payload then Conflict(record.value.payload)
      else if record.value.status == Completed then
        if record.value.response.None? then Unreadable else Replay(record.value.response.value)
      else Claim(Takeover(seen.value))
  }

  function NewRecord(r: Request, payload: string, token: Token, started: string, expires: nat): StoredRecord {
    StoredRecord(r, payload, InProgress, token, None, None, None, started, None, expires)
  }

  /** The record a client may finish: readable, of this request, in progress and its own. */
  function Owned(seen: Option<string>, r: Request, owner: Token): Option<StoredRecord> {
    if seen.None? then None else
      var record := DeserializeRecord(seen.value);
      if record.None? || record.value.request != r || record.value.status != InProgress || record.value.owner != owner then None
      else record
  }

  function CompletedRecord(record: StoredRecord, run: string, response: seq<Json.Field>, finished: string, expires: nat): StoredRecord {
    record.(status := Completed, run := Some(run), response := Some(response), turnIndex := Some(0), completed := Some(finished), expires := expires)
  }

  function FailedRecord(record: StoredRecord, finished: string, expires: nat): StoredRecord {
    record.(status := Failed, completed := Some(finished), expires := expires)
  }

  // ------------------------------------------------------------------ steps

  /** `seen` is whatever the client read, at any earlier time. */
  datatype Op =
    | AcquireOp(owner: Token)
    | LeaseRunsOut
    | ReleaseOp(value: LockValue)
    | AppendOp(value: LockValue, turn: StoredTurn)
    | BeginOp(value: LockValue, request: Request, payload: string, token: Token, started: string, now: nat, expires: nat, seen: Option<string>)
    | CompleteOp(value: LockValue, request: Request, owner: Token, turn: StoredTurn, run: string, response: seq<Json.Field>,
                 finished: string, expires: nat, seen: Option<string>)
    | FailOp(value: LockValue, request: Request, owner: Token, finished: string, expires: nat, seen: Option<string>)

  ghost function Step(k: Keys, op: Op, limits: Limits): Keys {
    match op
    case AcquireOp(owner) => Acquire(k, owner).0
    case LeaseRunsOut => k.(lock := None)
    case ReleaseOp(v) => Release(k, v)
    case AppendOp(v, turn) => Append(k, v, SerializeTurn(turn), limits.maxTurns).0
    case BeginOp(v, r, payload, token, started, now, expires, seen) =>
      var plan := PlanBegin(seen, r, payload, now);
      if !plan.Claim? then k
      else Begin(k, v, r, SerializeRecord(NewRecord(r, payload, token, started, expires)), now, limits.maxRecords, plan.mode).0
    case CompleteOp(v, r, owner, turn, run, response, finished, expires, seen) =>
      var record := Owned(seen, r, owner);
      if record.None? then k
      else Complete(k, v, r, owner, SerializeTurn(turn), limits.maxTurns, seen.value,
                    SerializeRecord(CompletedRecord(record.value, run, response, finished, expires)), expires).0
    case FailOp(v, r, owner, finished, expires, seen) =>
      var record := Owned(seen, r, owner);
      if record.None? then k
      else Fail(k, v, r, owner, seen.value, SerializeRecord(FailedRecord(record.value, finished, expires)), expires).0
  }

  // ------------------------------------------------------------------ the ledger behind the keys

  function AbsTurn(text: string): L.Turn {
    var s := SplitText(text, TURN_VERSION);
    if s.None? then L.Turn(0, "") else L.Turn(s.value.1, s.value.0)
  }

  function AbsTurns(turns: seq<string>): seq<L.Turn> { seq(|turns|, i requires 0 <= i < |turns| => AbsTurn(turns[i])) }

  function AbsStatus(s: RecordStatus): L.ClaimStatus {
    match s case InProgress => L.InProgress case Completed => L.Completed case Failed => L.Failed
  }

  function ResponseText(response: Option<seq<Json.Field>>): Option<string> {
    if response.None? then None else Some(Json.Print(Json.Obj(response.value)))
  }

  function AbsRecord(r: StoredRecord): L.Claim { L.Claim(r.payload, AbsStatus(r.status), r.owner, ResponseText(r.response)) }

  function AbsClaim(text: string): L.Claim {
    var record := DeserializeRecord(text);
    if record.None? then L.Claim("", L.InProgress, 0, None) else AbsRecord(record.value)
  }

  function AbsClaims(requests: map<Request, string>): map<Request, L.Claim> { map r | r in requests :: AbsClaim(requests[r]) }

  function Abs(k: Keys): L.Ledger { L.Ledger(AbsTurns(k.turns), k.turnCounter + 1, AbsClaims(k.requests)) }

  function BodyOf(t: StoredTurn): string { Head(TurnBody(t)) }

  /** The events of a step; none when it had no effect on the data. */
  ghost function Events(k: Keys, op: Op, limits: Limits): seq<L.Event> {
    match op
    case AppendOp(v, turn) => if k.lock == Some(v) && !BadSchema(k) then [L.Appended(BodyOf(turn))] else []
    case BeginOp(v, r, payload, token, started, now, expires, seen) =>
      var plan := PlanBegin(seen, r, payload, now);
      if plan.Replay? || plan.Conflict? then AnswerEvents(k, r, payload, seen, plan)
      else if !plan.Claim? || k.lock != Some(v) || BadSchema(k) then []
      else
        var purged := Purge(k.(schema := Some(TURN_VERSION)), now);
        [L.Forgot(Gone(k, purged))] + ClaimEvents(purged, r, payload, token, limits.maxRecords, plan.mode)
    case CompleteOp(v, r, owner, turn, run, response, finished, expires, seen) =>
      if CanFinish(k, v, r, owner, seen) then [L.Finished(r, owner, BodyOf(turn), Json.CanonicalJson(Json.Obj(response)))] else []
    case FailOp(v, r, owner, finished, expires, seen) =>
      if CanFinish(k, v, r, owner, seen) then [L.GaveUp(r, owner)] else []
    case _ => []
  }

  predicate CanFinish(k: Keys, v: LockValue, r: Request, owner: Token, seen: Option<string>) {
    k.lock == Some(v) && !BadSchema(k) && Owned(seen, r, owner).Some? && r in k.requests && seen == Some(k.requests[r])
  }

  function Gone(k: Keys, m: Keys): set<Request> { k.requests.Keys - m.requests.Keys }

  /** An answer given from a record that is still the stored one. */
  function AnswerEvents(k: Keys, r: Request, payload: string, seen: Option<string>, plan: BeginPlan): seq<L.Event> {
    if r !in k.requests || seen != Some(k.requests[r]) then []
    else match plan
      case Replay(response) => [L.Replayed(r, payload, Json.Print(Json.Obj(response)))]
      case Conflict(_) => [L.Refused(r, payload)]
      case _ => []
  }

  ghost function ClaimEvents(purged: Keys, r: Request, payload: string, token: Token, limit: nat, mode: Mode): seq<L.Event> {
    match mode
    case New => if r in purged.requests then [] else [L.Forgot(Gone(purged, MakeRoom(purged, limit))), L.Granted(r, payload, token)]
    case Takeover(expected) =>
      if r in purged.requests && purged.requests[r] == expected then [L.Granted(r, payload, token)] else []
  }

  // ------------------------------------------------------------------ each step is its events

  lemma RecordIsGood(record: StoredRecord)
    requires record.status == Completed <==> record.response.Some?
    ensures GoodRecord(record.request, SerializeRecord(record))
    ensures StatusIn(SerializeRecord(record)) == Some(record.status)
    ensures AbsClaim(SerializeRecord(record)) ==
      L.Claim(record.payload, AbsStatus(record.status), record.owner,
              if record.response.None? then None else Some(Json.CanonicalJson(Json.Obj(record.response.value))))
  {
    hide DeserializeRecord, SerializeRecord, Json.Print;
    RecordRoundTrip(record);
  }

  lemma AbsTrim(turns: seq<string>, limit: nat)
    ensures AbsTurns(TrimTexts(turns, limit)) == L.Trim(AbsTurns(turns), limit)
  {
    hide AbsTurn;
  }

  lemma AbsPush(turns: seq<string>, text: string)
    ensures AbsTurns(turns + [text]) == AbsTurns(turns) + [AbsTurn(text)]
  {
    hide AbsTurn;
  }

  /** Pushing a serialized turn through the script's rewrite. */
  lemma PushedTurn(k: Keys, turn: StoredTurn, maxTurns: nat)
    ensures var index := k.turnCounter + 1;
      var stored := SerializeTurn(turn.(index := index));
      && RewriteIndex(SerializeTurn(turn), index, TURN_VERSION) == (stored, 1)
      && SplitText(stored, TURN_VERSION).Some?
      && AbsTurns(TrimTexts(k.turns + [stored], maxTurns)) == L.Trim(AbsTurns(k.turns) + [L.Turn(index, BodyOf(turn))], maxTurns)
  {
    hide RewriteIndex, SerializeTurn, SplitText, AbsTurns, TextOf, Head;
    var index := k.turnCounter + 1;
    var stored := SerializeTurn(turn.(index := index));
    RewrittenTurn(turn, index);
    TurnText(turn.(index := index));
    assert TurnBody(turn.(index := index)) == TurnBody(turn);
    SplitOfText(BodyOf(turn), index, TURN_VERSION);
    AbsPush(k.turns, stored);
    AbsTrim(k.turns + [stored], maxTurns);
  }

  lemma TrimmedTextsSound(turns: seq<string>, stored: string, maxTurns: nat)
    requires SplitText(stored, TURN_VERSION).Some? && forall i | 0 <= i < |turns| :: SplitText(turns[i], TURN_VERSION).Some?
    ensures var kept := TrimTexts(turns + [stored], maxTurns); forall i | 0 <= i < |kept| :: SplitText(kept[i], TURN_VERSION).Some?
  {
    hide SplitText;
  }

  lemma NoEvents(l: L.Ledger, maxTurns: nat)
    ensures L.RunEvents(l, [], maxTurns) == Some(l)
  {}

  lemma AppendRefines(k: Keys, v: LockValue, turn: StoredTurn, limits: Limits)
    requires Sound(k)
    ensures var op := AppendOp(v, turn);
      Sound(Step(k, op, limits)) && L.RunEvents(Abs(k), Events(k, op, limits), limits.maxTurns) == Some(Abs(Step(k, op, limits)))
  {
    hide RewriteIndex, SerializeTurn, SplitText, AbsTurns, AbsClaims, GoodRecord, StatusIn, BodyOf, L.RunEvents, TrimTexts;
    NoEvents(Abs(k), limits.maxTurns);
    if k.lock == Some(v) {
      PushedTurn(k, turn, limits.maxTurns);
      TrimmedTextsSound(k.turns, SerializeTurn(turn.(index := k.turnCounter + 1)), limits.maxTurns);
      L.TwoEvents(Abs(k), L.Appended(BodyOf(turn)), L.Dropped, limits.maxTurns);
    }
  }

  lemma OwnedClaim(k: Keys, r: Request, owner: Token, seen: Option<string>)
    requires Sound(k) && r in k.requests && seen == Some(k.requests[r]) && Owned(seen, r, owner).Some?
    ensures OwnedInProgress(seen.value, owner)
    ensures AbsClaims(k.requests)[r] == L.Claim(Owned(seen, r, owner).value.payload, L.InProgress, owner, ResponseText(Owned(seen, r, owner).value.response))
    ensures L.Enabled(Abs(k), L.GaveUp(r, owner)) && forall body, response :: L.Enabled(Abs(k), L.Finished(r, owner, body, response))
  {
    hide DeserializeRecord, SplitText, AbsTurns;
  }

  lemma PutClaim(requests: map<Request, string>, r: Request, text: string)
    ensures AbsClaims(requests[r := text]) == AbsClaims(requests)[r := AbsClaim(text)]
  {
    hide AbsClaim;
  }

  lemma PutSound(k: Keys, r: Request, text: string, score: nat)
    requires Sound(k) && GoodRecord(r, text)
    ensures StatusIn(text) != Some(InProgress) ==> Sound(k.(requests := k.requests[r := text], gc := k.gc[r := score]))
    ensures StatusIn(text) == Some(InProgress) ==> Sound(k.(requests := k.requests[r := text], gc := k.gc - {r}))
  {
    hide GoodRecord, StatusIn, SplitText;
  }

  lemma FailRefines(k: Keys, v: LockValue, r: Request, owner: Token, finished: string, expires: nat, seen: Option<string>, limits: Limits)
    requires Sound(k)
    ensures var op := FailOp(v, r, owner, finished, expires, seen);
      Sound(Step(k, op, limits)) && L.RunEvents(Abs(k), Events(k, op, limits), limits.maxTurns) == Some(Abs(Step(k, op, limits)))
  {
    hide DeserializeRecord, SerializeRecord, AbsTurns, AbsClaims, GoodRecord, StatusIn, SplitText, L.RunEvents, Owned, OwnedInProgress, AbsClaim;
    NoEvents(Abs(k), limits.maxTurns);
    if CanFinish(k, v, r, owner, seen) {
      OwnedClaim(k, r, owner, seen);
      var record := Owned(seen, r, owner).value;
      OwnedIsRecord(seen, r, owner);
      var failed := FailedRecord(record, finished, expires);
      NoResponseYet(k, r, record);
      RecordIsGood(failed);
      PutSound(k, r, SerializeRecord(failed), expires);
      PutClaim(k.requests, r, SerializeRecord(failed));
      L.TwoEvents(Abs(k), L.GaveUp(r, owner), L.Dropped, limits.maxTurns);
    } else {
      CannotFail(k, v, r, owner, finished, expires, seen, limits);
    }
  }

  lemma NoResponseYet(k: Keys, r: Request, record: StoredRecord)
    requires Sound(k) && r in k.requests && DeserializeRecord(k.requests[r]) == Some(record) && record.status == InProgress
    ensures record.response.None?
  {
    hide DeserializeRecord, SplitText;
  }

  lemma OwnedIsRecord(seen: Option<string>, r: Request, owner: Token)
    requires Owned(seen, r, owner).Some?
    ensures var record := Owned(seen, r, owner).value;
      record.request == r && record.status == InProgress && record.owner == owner
      && seen.Some? && DeserializeRecord(seen.value) == Some(record)
  {
    hide DeserializeRecord;
  }

  lemma CannotFail(k: Keys, v: LockValue, r: Request, owner: Token, finished: string, expires: nat, seen: Option<string>, limits: Limits)
    requires Sound(k) && !CanFinish(k, v, r, owner, seen)
    ensures Step(k, FailOp(v, r, owner, finished, expires, seen), limits) == k
  {
    hide DeserializeRecord, SerializeRecord, SplitText, GoodRecord, StatusIn;
  }

  lemma CompleteRefines(k: Keys, v: LockValue, r: Request, owner: Token, turn: StoredTurn, run: string, response: seq<Json.Field>,
                        finished: string, expires: nat, seen: Option<string>, limits: Limits)
    requires Sound(k)
    ensures var op := CompleteOp(v, r, owner, turn, run, response, finished, expires, seen);
      Sound(Step(k, op, limits)) && L.RunEvents(Abs(k), Events(k, op, limits), limits.maxTurns) == Some(Abs(Step(k, op, limits)))
  {
    hide DeserializeRecord, SerializeRecord, SerializeTurn, AbsTurns, AbsClaims, GoodRecord, StatusIn, SplitText, L.RunEvents, Owned,
         OwnedInProgress, AbsClaim, RewriteIndex, RewriteZero, TrimTexts, BodyOf, L.Trim;
    var op := CompleteOp(v, r, owner, turn, run, response, finished, expires, seen);
    NoEvents(Abs(k), limits.maxTurns);
    if CanFinish(k, v, r, owner, seen) {
      OwnedClaim(k, r, owner, seen);
      OwnedIsRecord(seen, r, owner);
      var index := k.turnCounter + 1;
      var completed := CompletedRecord(Owned(seen, r, owner).value, run, response, finished, expires);
      var final := SerializeRecord(completed.(turnIndex := Some(index)));
      PushedTurn(k, turn, limits.maxTurns);
      RewrittenRecord(completed, index);
      RecordIsGood(completed.(turnIndex := Some(index)));
      TrimmedTextsSound(k.turns, SerializeTurn(turn.(index := index)), limits.maxTurns);
      PushKeepsSound(k, TrimTexts(k.turns + [SerializeTurn(turn.(index := index))], limits.maxTurns));
      var pushed := k.(turnCounter := index, schema := Some(TURN_VERSION), turns := TrimTexts(k.turns + [SerializeTurn(turn.(index := index))], limits.maxTurns));
      PutSound(pushed, r, final, expires);
      PutClaim(k.requests, r, final);
      assert Step(k, op, limits) == pushed.(requests := k.requests[r := final], gc := k.gc[r := expires]);
      L.TwoEvents(Abs(k), L.Finished(r, owner, BodyOf(turn), Json.CanonicalJson(Json.Obj(response))), L.Dropped, limits.maxTurns);
    } else {
      CannotComplete(k, v, r, owner, turn, run, response, finished, expires, seen, limits);
    }
  }

  lemma PushKeepsSound(k: Keys, turns: seq<string>)
    requires Sound(k) && forall i | 0 <= i < |turns| :: SplitText(turns[i], TURN_VERSION).Some?
    ensures Sound(k.(turnCounter := k.turnCounter + 1, schema := Some(TURN_VERSION), turns := turns))
  {
    hide GoodRecord, StatusIn, SplitText;
  }

  lemma CannotComplete(k: Keys, v: LockValue, r: Request, owner: Token, turn: StoredTurn, run: string, response: seq<Json.Field>,
                       finished: string, expires: nat, seen: Option<string>, limits: Limits)
    requires Sound(k) && !CanFinish(k, v, r, owner, seen)
    ensures Step(k, CompleteOp(v, r, owner, turn, run, response, finished, expires, seen), limits) == k
  {
    hide DeserializeRecord, SerializeRecord, SerializeTurn, SplitText, GoodRecord, StatusIn, RewriteIndex, RewriteZero;
  }

  // ------------------------------------------------------------------ beginning a request

  lemma ForgetRefines(k: Keys, m: Keys, maxTurns: nat)
    requires Sound(k) && m.turns == k.turns && m.turnCounter == k.turnCounter
    requires forall r | r in m.requests :: r in k.requests && m.requests[r] == k.requests[r]
    requires forall r | r in k.requests && r !in m.requests :: r in k.gc
    ensures L.Enabled(Abs(k), L.Forgot(Gone(k, m))) && L.Apply(Abs(k), L.Forgot(Gone(k, m)), maxTurns) == Abs(m)
  {
    hide DeserializeRecord, SplitText, AbsTurns;
    FinishedClaims(k);
    assert AbsClaims(k.requests) - Gone(k, m) == AbsClaims(m.requests);
  }

  lemma FinishedClaims(k: Keys)
    requires Sound(k)
    ensures forall r | r in k.gc :: r in AbsClaims(k.requests) && AbsClaims(k.requests)[r].status != L.InProgress
  {
    hide DeserializeRecord, SplitText;
    forall r | r in k.gc ensures r in AbsClaims(k.requests) && AbsClaims(k.requests)[r].status != L.InProgress {
      assert GoodRecord(r, k.requests[r]);
    }
  }

  lemma GrantRefines(k: Keys, r: Request, payload: string, token: Token, started: string, expires: nat, maxTurns: nat)
    requires Sound(k)
    requires r in k.requests ==> AbsClaims(k.requests)[r].payload == payload && AbsClaims(k.requests)[r].status != L.Completed
    ensures var text := SerializeRecord(NewRecord(r, payload, token, started, expires));
      var m := k.(requests := k.requests[r := text], gc := k.gc - {r});
      Sound(m) && L.Enabled(Abs(k), L.Granted(r, payload, token)) && L.Apply(Abs(k), L.Granted(r, payload, token), maxTurns) == Abs(m)
  {
    hide DeserializeRecord, SerializeRecord, AbsTurns, AbsClaim, GoodRecord, StatusIn, SplitText;
    var text := SerializeRecord(NewRecord(r, payload, token, started, expires));
    RecordIsGood(NewRecord(r, payload, token, started, expires));
    PutSound(k, r, text, 0);
    PutClaim(k.requests, r, text);
  }

  lemma PurgeRefines(k: Keys, now: nat, maxTurns: nat)
    requires Sound(k)
    ensures var purged := Purge(k.(schema := Some(TURN_VERSION)), now);
      Sound(purged) && L.Enabled(Abs(k), L.Forgot(Gone(k, purged))) && L.Apply(Abs(k), L.Forgot(Gone(k, purged)), maxTurns) == Abs(purged)
  {
    hide GoodRecord, StatusIn, SplitText, Abs, AbsClaims;
    var marked := k.(schema := Some(TURN_VERSION));
    RemoveKeepsSound(marked, Expired(k.gc, now));
    ForgetRefines(k, Purge(marked, now), maxTurns);
  }

  /** The claim part of a begin, on purged keys. */
  lemma ClaimRefines(purged: Keys, v: LockValue, r: Request, payload: string, token: Token, started: string, expires: nat, limit: nat,
                     mode: Mode, maxTurns: nat)
    requires Sound(purged)
    requires mode.Takeover? && r in purged.requests && purged.requests[r] == mode.expected ==>
      AbsClaims(purged.requests)[r].payload == payload && AbsClaims(purged.requests)[r].status != L.Completed
    ensures var text := SerializeRecord(NewRecord(r, payload, token, started, expires));
      var m := Claimed(purged, r, text, limit, mode);
      Sound(m) && L.RunEvents(Abs(purged), ClaimEvents(purged, r, payload, token, limit, mode), maxTurns) == Some(Abs(m))
  {
    hide GoodRecord, StatusIn, SplitText, Abs, AbsClaims, L.RunEvents, L.Apply, L.Enabled, SerializeRecord, MakeRoom;
    NoEvents(Abs(purged), maxTurns);
    match mode
    case New =>
      if r !in purged.requests {
        var room := MakeRoom(purged, limit);
        MakeRoomKeeps(purged, limit);
        ForgetRefines(purged, room, maxTurns);
        GrantRefines(room, r, payload, token, started, expires, maxTurns);
        L.TwoEvents(Abs(purged), L.Forgot(Gone(purged, room)), L.Granted(r, payload, token), maxTurns);
      }
    case Takeover(expected) =>
      if r in purged.requests && purged.requests[r] == expected {
        GrantRefines(purged, r, payload, token, started, expires, maxTurns);
        L.TwoEvents(Abs(purged), L.Granted(r, payload, token), L.Dropped, maxTurns);
      }
  }

  ghost function Claimed(k: Keys, r: Request, text: string, limit: nat, mode: Mode): Keys {
    match mode
    case New =>
      if r in k.requests then k else
        var room := MakeRoom(k, limit);
        room.(requests := room.requests[r := text], gc := room.gc - {r})
    case Takeover(expected) =>
      if r !in k.requests || k.requests[r] != expected then k else k.(requests := k.requests[r := text], gc := k.gc - {r})
  }

  lemma TakeoverClaim(k: Keys, r: Request, payload: string, seen: string, now: nat)
    requires r in k.requests && k.requests[r] == seen && PlanBegin(Some(seen), r, payload, now) == Claim(Takeover(seen))
    ensures AbsClaims(k.requests)[r].payload == payload && AbsClaims(k.requests)[r].status != L.Completed
  {
    hide DeserializeRecord;
  }

  lemma AnswerRefines(k: Keys, r: Request, payload: string, seen: Option<string>, now: nat, maxTurns: nat)
    requires var plan := PlanBegin(seen, r, payload, now); plan.Replay? || plan.Conflict?
    ensures L.RunEvents(Abs(k), AnswerEvents(k, r, payload, seen, PlanBegin(seen, r, payload, now)), maxTurns) == Some(Abs(k))
  {
    hide DeserializeRecord, AbsTurns, L.RunEvents;
    NoEvents(Abs(k), maxTurns);
    var plan := PlanBegin(seen, r, payload, now);
    if r in k.requests && seen == Some(k.requests[r]) {
      var answer := if plan.Replay? then L.Replayed(r, payload, Json.Print(Json.Obj(plan.response))) else L.Refused(r, payload);
      L.TwoEvents(Abs(k), answer, L.Dropped, maxTurns);
    }
  }

  lemma BeginRefines(k: Keys, v: LockValue, r: Request, payload: string, token: Token, started: string, now: nat, expires: nat,
                     seen: Option<string>, limits: Limits)
    requires Sound(k)
    ensures var op := BeginOp(v, r, payload, token, started, now, expires, seen);
      Sound(Step(k, op, limits)) && L.RunEvents(Abs(k), Events(k, op, limits), limits.maxTurns) == Some(Abs(Step(k, op, limits)))
  {
    hide Sound, GoodRecord, StatusIn, SplitText, Abs, AbsClaims, L.RunEvents, SerializeRecord, DeserializeRecord, MakeRoom, ClaimEvents, Gone, Purge;
    NoEvents(Abs(k), limits.maxTurns);
    var op := BeginOp(v, r, payload, token, started, now, expires, seen);
    var plan := PlanBegin(seen, r, payload, now);
    if plan.Replay? || plan.Conflict? {
      AnswerRefines(k, r, payload, seen, now, limits.maxTurns);
    } else if plan.Claim? && k.lock == Some(v) && !BadSchema(k) {
      var purged := Purge(k.(schema := Some(TURN_VERSION)), now);
      var text := SerializeRecord(NewRecord(r, payload, token, started, expires));
      PurgeRefines(k, now, limits.maxTurns);
      if plan.mode.Takeover? && r in purged.requests && purged.requests[r] == plan.mode.expected {
        TakeoverClaim(purged, r, payload, plan.mode.expected, now);
      }
      ClaimRefines(purged, v, r, payload, token, started, expires, limits.maxRecords, plan.mode, limits.maxTurns);
      assert Step(k, op, limits) == Claimed(purged, r, text, limits.maxRecords, plan.mode);
      L.TwoEvents(Abs(k), L.Forgot(Gone(k, purged)), L.Dropped, limits.maxTurns);
      L.RunConcat(Abs(k), [L.Forgot(Gone(k, purged))], ClaimEvents(purged, r, payload, token, limits.maxRecords, plan.mode), limits.maxTurns);
    }
  }

  /** Whatever a client does, the keys stay sound and the step is exactly its ledger events. */
  lemma StepRefines(k: Keys, op: Op, limits: Limits)
    requires Sound(k)
    ensures Sound(Step(k, op, limits)) && L.RunEvents(Abs(k), Events(k, op, limits), limits.maxTurns) == Some(Abs(Step(k, op, limits)))
  {
    hide Abs, L.RunEvents;
    NoEvents(Abs(k), limits.maxTurns);
    match op
    case AppendOp(v, turn) => AppendRefines(k, v, turn, limits);
    case BeginOp(v, r, payload, token, started, now, expires, seen) => BeginRefines(k, v, r, payload, token, started, now, expires, seen, limits);
    case CompleteOp(v, r, owner, turn, run, response, finished, expires, seen) =>
      CompleteRefines(k, v, r, owner, turn, run, response, finished, expires, seen, limits);
    case FailOp(v, r, owner, finished, expires, seen) => FailRefines(k, v, r, owner, finished, expires, seen, limits);
    case _ => LockStepsKeep(k, op, limits);
  }

  lemma LockStepsKeep(k: Keys, op: Op, limits: Limits)
    requires Sound(k) && (op.AcquireOp? || op.LeaseRunsOut? || op.ReleaseOp?)
    ensures Sound(Step(k, op, limits)) && Abs(Step(k, op, limits)) == Abs(k)
  {
    hide GoodRecord, StatusIn, SplitText, AbsTurns, AbsClaims;
  }
}
