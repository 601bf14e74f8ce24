/** The Lua scripts of the Redis store as atomic steps over one session's keys. */
module RedisScripts {
  import opened Wrappers
  import opened RedisModels
  import opened RedisDecoding
  import L = SessionLedger

  type Request = L.Request
  type Token = L.Token

  /** The JSON value of the lock key; equal texts are equal values. */
  datatype LockValue = LockValue(owner: Token, fencing: nat)

  /** `gc` is the sorted set of finished requests with their expiry times as scores. */
  datatype Keys = Keys(
    lock: Option<LockValue>,
    schema: Option<nat>,
    fencing: nat,
    turnCounter: nat,
    turns: seq<string>,
    requests: map<Request, string>,
    gc: map<Request, nat>)

  const NO_KEYS := Keys(None, None, 0, 0, [], map[], map[])

  datatype Reply = Ok | LockLost | DataInvalid | Noop

  predicate BadSchema(k: Keys) { k.schema.Some? && k.schema.value != TURN_VERSION }

  // ------------------------------------------------------------------ the lock

  datatype Acquired = Granted(value: LockValue) | Busy | Refused

  function Acquire(k: Keys, owner: Token): (Keys, Acquired) {
    if BadSchema(k) then (k, Refused)
    else if k.lock.Some? then (k, Busy)
    else
      var value := LockValue(owner, k.fencing + 1);
      (k.(fencing := k.fencing + 1, schema := Some(TURN_VERSION), lock := Some(value)), Granted(value))
  }

  function Release(k: Keys, v: LockValue): Keys { if k.lock == Some(v) then k.(lock := None) else k }

  // ------------------------------------------------------------------ append

  function Append(k: Keys, v: LockValue, text: string, maxTurns: nat): (Keys, Reply) {
    if k.lock != Some(v) then (k, LockLost)
    else if BadSchema(k) then (k, DataInvalid)
    else
      var counted := k.(schema := Some(TURN_VERSION), turnCounter := k.turnCounter + 1);
      var (stored, changed) := RewriteIndex(text, k.turnCounter + 1, TURN_VERSION);
      if changed != 1 then (counted, DataInvalid)
      else (counted.(turns := TrimTexts(k.turns + [stored], maxTurns)), Ok)
  }

  /** LTRIM from minus the limit: a limit of zero keeps everything. */
  function TrimTexts(turns: seq<string>, limit: nat): seq<string> {
    if limit == 0 || |turns| <= limit then turns else turns[|turns| - limit..]
  }

  // ------------------------------------------------------------------ begin

  function Expired(gc: map<Request, nat>, now: nat): set<Request> { set r | r in gc && gc[r] <= now }

  function Purge(k: Keys, now: nat): Keys { Remove(k, Expired(k.gc, now)) }

  function Remove(k: Keys, rs: set<Request>): Keys { k.(requests := k.requests - rs, gc := k.gc - rs) }

  /** Lowest score first, equal scores by member. */
  predicate Before(gc: map<Request, nat>, a: Request, b: Request)
    requires a in gc && b in gc
  {
    gc[a] < gc[b] || (gc[a] == gc[b] && a <= b)
  }

  ghost predicate IsOldest(gc: map<Request, nat>, r: Request) { r in gc && forall q | q in gc :: Before(gc, r, q) }

  lemma {:induction false} OldestExists(gc: map<Request, nat>, among: set<Request>)
    requires among != {} && among <= gc.Keys
    ensures exists r :: r in among && forall q | q in among :: Before(gc, r, q)
  {
    var x :| x in among;
    if among == {x} {
      assert Before(gc, x, x);
    } else {
      var rest := among - {x};
      assert among == rest + {x};
      OldestExists(gc, rest);
      var r :| r in rest && forall q | q in rest :: Before(gc, r, q);
      if Before(gc, r, x) {
        assert r in among && forall q | q in among :: Before(gc, r, q);
      } else {
        assert x in among && forall q | q in among :: Before(gc, x, q);
      }
    }
  }

  lemma SomeOldest(gc: map<Request, nat>)
    requires gc.Keys != {}
    ensures exists r :: IsOldest(gc, r)
  {
    OldestExists(gc, gc.Keys);
    var r :| r in gc.Keys && forall q | q in gc.Keys :: Before(gc, r, q);
    assert IsOldest(gc, r);
  }

  ghost function Oldest(gc: map<Request, nat>): (r: Request)
    requires gc.Keys != {}
    ensures IsOldest(gc, r)
  {
    SomeOldest(gc);
    var r :| IsOldest(gc, r); r
  }

  lemma OldestIsOne(gc: map<Request, nat>, r: Request)
    requires IsOldest(gc, r)
    ensures r == Oldest(gc)
  {
    assert Before(gc, r, Oldest(gc)) && Before(gc, Oldest(gc), r);
  }

  lemma RemoveShrinks(k: Keys, r: Request)
    requires r in k.gc
    ensures |Remove(k, {r}).gc| < |k.gc|
  {
    var m := k.gc - {r};
    assert m.Keys == k.gc.Keys - {r};
    assert |k.gc.Keys| == |k.gc| && |m.Keys| == |m|;
  }

  /** Finished requests leave, oldest first, until a new one fits. */
  ghost function MakeRoom(k: Keys, limit: nat): Keys
    decreases |k.gc|
  {
    if |k.gc| < limit || k.gc.Keys == {} then k else
      RemoveShrinks(k, Oldest(k.gc));
      MakeRoom(Remove(k, {Oldest(k.gc)}), limit)
  }

  datatype Mode = New | Takeover(expected: string)

  /** Schema and purge take effect even when the claim is then refused. */
  ghost function Begin(k0: Keys, v: LockValue, r: Request, text: string, now: nat, limit: nat, mode: Mode): (Keys, Reply) {
    if k0.lock != Some(v) then (k0, LockLost)
    else if BadSchema(k0) then (k0, DataInvalid)
    else
      var k := Purge(k0.(schema := Some(TURN_VERSION)), now);
      match mode
      case New =>
        if r in k.requests then (k, DataInvalid)
        else
          var room := MakeRoom(k, limit);
          (room.(requests := room.requests[r := text], gc := room.gc - {r}), Ok)
      case Takeover(expected) =>
        if r !in k.requests || k.requests[r] != expected then (k, DataInvalid)
        else (k.(requests := k.requests[r := text], gc := k.gc - {r}), Ok)
  }

  // ------------------------------------------------------------------ complete and fail

  /** The stored record, in progress and owned by the caller. */
  predicate OwnedInProgress(text: string, owner: Token) {
    var record := DeserializeRecord(text);
    record.Some? && record.value.status == InProgress && record.value.owner == owner
  }

  function Complete(k: Keys, v: LockValue, r: Request, owner: Token, turnText: string, maxTurns: nat, expected: string,
                    completedText: string, score: nat): (Keys, Reply)
  {
    if k.lock != Some(v) then (k, LockLost)
    else if BadSchema(k) then (k, DataInvalid)
    else if r !in k.requests || k.requests[r] != expected then (k, LockLost)
    else if !OwnedInProgress(expected, owner) then (k, LockLost)
    else
      var index := k.turnCounter + 1;
      var counted := k.(turnCounter := index);
      var (turn, changed) := RewriteIndex(turnText, index, TURN_VERSION);
      if changed != 1 then (counted, DataInvalid)
      else
        var pushed := counted.(turns := TrimTexts(k.turns + [turn], maxTurns));
        var (completed, completedChanged) := RewriteZero(completedText, index);
        if completedChanged != 1 then (pushed, DataInvalid)
        else (pushed.(requests := k.requests[r := completed], gc := k.gc[r := score], schema := Some(TURN_VERSION)), Ok)
  }

  function Fail(k: Keys, v: LockValue, r: Request, owner: Token, expected: string, failedText: string, score: nat): (Keys, Reply) {
    if k.lock != Some(v) then (k, LockLost)
    else if BadSchema(k) then (k, DataInvalid)
    else if r !in k.requests then (k, Noop)
    else if k.requests[r] != expected then (k, LockLost)
    else if !OwnedInProgress(expected, owner) then (k, Noop)
    else (k.(requests := k.requests[r := failedText], gc := k.gc[r := score]), Ok)
  }

  // ------------------------------------------------------------------ the invariant

  function StatusIn(text: string): Option<RecordStatus> {
    var record := DeserializeRecord(text);
    if record.None? then None else Some(record.value.status)
  }

  /** Readable, filed under its own id, and with a response exactly when completed. */
  ghost predicate GoodRecord(r: Request, text: string) {
    var record := DeserializeRecord(text);
    record.Some? && record.value.request == r && (record.value.status == Completed <==> record.value.response.Some?)
  }

  /** The index holds exactly the finished request records, and every text is one the store can read. */
  ghost predicate Sound(k: Keys) {
    && !BadSchema(k)
    && (forall i | 0 <= i < |k.turns| :: SplitText(k.turns[i], TURN_VERSION).Some?)
    && (forall r | r in k.requests :: GoodRecord(r, k.requests[r]))
    && (forall r :: r in k.gc <==> r in k.requests && StatusIn(k.requests[r]) != Some(InProgress))
  }

  lemma RemoveKeepsSound(k: Keys, rs: set<Request>)
    requires Sound(k) && forall r | r in rs :: r in k.gc
    ensures Sound(Remove(k, rs))
  {}

  lemma {:induction false} MakeRoomKeeps(k: Keys, limit: nat)
    requires Sound(k)
    ensures var m := MakeRoom(k, limit);
      && Sound(m) && m.(requests := k.requests, gc := k.gc) == k
      && (forall r | r in m.requests :: r in k.requests && m.requests[r] == k.requests[r])
      && (forall r | r in k.requests && r !in m.requests :: r in k.gc)
    decreases |k.gc|
  {
    hide GoodRecord, StatusIn, SplitText;
    if !(|k.gc| < limit || k.gc.Keys == {}) {
      var r := Oldest(k.gc);
      RemoveShrinks(k, r);
      RemoveKeepsSound(k, {r});
      MakeRoomKeeps(Remove(k, {r}), limit);
    }
  }

  /** Acquiring: refused for a foreign schema, busy while the lock is held, and otherwise granted under a number
      above every one drawn before; then, and only then, the lock is the caller's. */
  lemma AcquireExactly(k: Keys, owner: Token)
    ensures var (k', a) := Acquire(k, owner);
      && (a.Refused? <==> BadSchema(k)) && (a.Busy? <==> !BadSchema(k) && k.lock.Some?)
      && (a.Granted? ==> a.value.owner == owner && k.fencing < a.value.fencing == k'.fencing && k'.lock == Some(a.value) && !BadSchema(k'))
      && (!a.Granted? ==> k' == k)
      && k'.turnCounter == k.turnCounter && k'.turns == k.turns && k'.requests == k.requests && k'.gc == k.gc
  {}

  /** Releasing frees the lock for the next one, for its owner only, and changes nothing else. */
  lemma ReleaseFrees(k: Keys, v: LockValue, owner: Token)
    ensures k.lock == Some(v) && !BadSchema(k) ==> Acquire(Release(k, v), owner).1.Granted?
    ensures k.lock != Some(v) ==> Release(k, v) == k
    ensures Release(k, v).(lock := k.lock) == k
  {}

  /** The members that left are older than every one that stays, and no more left than had to. */
  ghost predicate OldestLeft(k: Keys, m: Keys, limit: nat) {
    && (forall p | p in m.gc :: p in k.gc && m.gc[p] == k.gc[p])
    && (forall q, p | q in k.gc && q !in m.gc && p in m.gc :: Before(k.gc, q, p))
    && (forall r :: r in m.requests <==> r in k.requests && (r in k.gc ==> r in m.gc))
    && (m.gc != k.gc ==> |m.gc| + 1 >= limit)
    && (|m.gc| < limit || m.gc == map[])
  }

  lemma {:induction false} MakeRoomTakesOldest(k: Keys, limit: nat)
    ensures OldestLeft(k, MakeRoom(k, limit), limit)
    decreases |k.gc|
  {
    if |k.gc| < limit || k.gc.Keys == {} {
      assert k.gc.Keys == {} ==> k.gc == map[];
    } else {
      var r := Oldest(k.gc);
      var next := Remove(k, {r});
      RemoveShrinks(k, r);
      MakeRoomTakesOldest(next, limit);
      RemovesOne(k, r);
      var m := MakeRoom(k, limit);
      forall q, p | q in k.gc && q !in m.gc && p in m.gc ensures Before(k.gc, q, p) {
        if q != r { assert q in next.gc && Before(next.gc, q, p); }
      }
    }
  }

  lemma RemovesOne(k: Keys, r: Request)
    requires r in k.gc
    ensures |Remove(k, {r}).gc| == |k.gc| - 1
  {
    var m := k.gc - {r};
    assert m.Keys == k.gc.Keys - {r};
    assert |k.gc.Keys| == |k.gc| && |m.Keys| == |m|;
  }

  /** The claim's record is the text given, in no index, and nothing else was written. */
  ghost predicate Claims(k: Keys, k': Keys, r: Request, text: string) {
    && r in k'.requests && k'.requests[r] == text && r !in k'.gc && k'.schema == Some(TURN_VERSION)
    && (forall q | q in k'.requests && q != r :: q in k.requests && k'.requests[q] == k.requests[q])
    && (forall q | q in k'.gc :: q in k.gc && k'.gc[q] == k.gc[q])
    && k'.turns == k.turns && k'.turnCounter == k.turnCounter && k'.lock == k.lock && k'.fencing == k.fencing
  }

  predicate ExpiredBy(k: Keys, q: Request, now: nat) { q in k.gc && k.gc[q] <= now }

  /** A takeover forgets exactly what had expired. */
  lemma TakeoverForgetsExactly(k: Keys, v: LockValue, r: Request, text: string, now: nat, limit: nat, mode: Mode)
    requires mode.Takeover? && Begin(k, v, r, text, now, limit, mode).1 == Ok
    ensures var k' := Begin(k, v, r, text, now, limit, mode).0;
      Claims(k, k', r, text) && forall q | q in k.requests && q != r :: q in k'.requests <==> !ExpiredBy(k, q, now)
  {}

  lemma NewIs(k: Keys, v: LockValue, r: Request, text: string, now: nat, limit: nat, mode: Mode)
    requires mode.New? && Begin(k, v, r, text, now, limit, mode).1 == Ok
    ensures var purged := Purge(k.(schema := Some(TURN_VERSION)), now);
      var room := MakeRoom(purged, limit);
      && r !in purged.requests
      && Begin(k, v, r, text, now, limit, mode).0 == room.(requests := room.requests[r := text], gc := room.gc - {r})
  {
    hide MakeRoom, Purge;
  }

  /** What went to make room, seen from before. */
  ghost predicate WentForRoom(k: Keys, k': Keys, q: Request, limit: nat) {
    q in k.gc && |k'.gc| + 1 >= limit && forall p | p in k'.gc :: p in k.gc && Before(k.gc, q, p)
  }

  lemma RoomForNew(purged: Keys, room: Keys, r: Request, text: string, limit: nat)
    requires OldestLeft(purged, room, limit) && r !in purged.requests && r !in room.gc
    requires room.(requests := purged.requests, gc := purged.gc) == purged && purged.schema == Some(TURN_VERSION)
    requires forall q | q in room.requests :: q in purged.requests && room.requests[q] == purged.requests[q]
    ensures var k' := room.(requests := room.requests[r := text], gc := room.gc - {r});
      Claims(purged, k', r, text) && forall q | q in purged.requests && q !in k'.requests :: WentForRoom(purged, k', q, limit)
  {
    assert room.gc - {r} == room.gc;
    hide Before;
  }

  /** A new claim forgets what had expired, and of the other finished requests only the oldest, until it fits. */
  lemma NewForgetsExactly(k: Keys, v: LockValue, r: Request, text: string, now: nat, limit: nat, mode: Mode)
    requires mode.New? && Begin(k, v, r, text, now, limit, mode).1 == Ok && Sound(k)
    ensures var k' := Begin(k, v, r, text, now, limit, mode).0;
      && Claims(k, k', r, text)
      && (forall q | q in k.requests && q != r && ExpiredBy(k, q, now) :: q !in k'.requests)
      && (forall q | q in k.requests && !ExpiredBy(k, q, now) && q !in k'.requests :: WentForRoom(k, k', q, limit))
  {
    hide MakeRoom, Sound, Purge, Begin, OldestLeft;
    var purged := Purge(k.(schema := Some(TURN_VERSION)), now);
    NewIs(k, v, r, text, now, limit, mode);
    PurgedKeys(k, now);
    MakeRoomTakesOldest(purged, limit);
    RoomKeepsRest(purged, limit);
    NotIndexed(k, r, now);
    RoomIndex(purged, limit);
    RoomForNew(purged, MakeRoom(purged, limit), r, text, limit);
  }

  lemma RoomIndex(k: Keys, limit: nat)
    ensures forall p | p in MakeRoom(k, limit).gc :: p in k.gc
  {
    hide MakeRoom;
    MakeRoomTakesOldest(k, limit);
  }

  lemma PurgedKeys(k: Keys, now: nat)
    ensures var p := Purge(k.(schema := Some(TURN_VERSION)), now);
      && p.(requests := k.requests, gc := k.gc, schema := k.schema) == k && p.schema == Some(TURN_VERSION)
      && (forall q :: q in p.requests <==> q in k.requests && !ExpiredBy(k, q, now))
      && (forall q :: q in p.gc <==> q in k.gc && !ExpiredBy(k, q, now))
      && (forall q | q in p.requests :: p.requests[q] == k.requests[q]) && (forall q | q in p.gc :: p.gc[q] == k.gc[q])
  {}

  lemma NotIndexed(k: Keys, r: Request, now: nat)
    requires Sound(k)
    ensures var p := Purge(k.(schema := Some(TURN_VERSION)), now); r !in p.requests ==> r !in p.gc
  {
    hide GoodRecord, StatusIn, SplitText;
  }

  lemma {:induction false} RoomKeepsRest(k: Keys, limit: nat)
    ensures var m := MakeRoom(k, limit);
      m.(requests := k.requests, gc := k.gc) == k && forall q | q in m.requests :: q in k.requests && m.requests[q] == k.requests[q]
    decreases |k.gc|
  {
    if !(|k.gc| < limit || k.gc.Keys == {}) {
      RemoveShrinks(k, Oldest(k.gc));
      RoomKeepsRest(Remove(k, {Oldest(k.gc)}), limit);
    }
  }

  /** Neither expiry nor making room ever takes a request in progress. */
  lemma InProgressSurvives(k: Keys, v: LockValue, r: Request, text: string, now: nat, limit: nat, mode: Mode)
    requires Sound(k)
    ensures var k' := Begin(k, v, r, text, now, limit, mode).0;
      forall q | q in k.requests && q != r && StatusIn(k.requests[q]) == Some(InProgress) ::
        q in k'.requests && k'.requests[q] == k.requests[q]
  {
    hide GoodRecord, StatusIn, SplitText, MakeRoom;
    var purged := Purge(k.(schema := Some(TURN_VERSION)), now);
    if k.lock == Some(v) {
      RemoveKeepsSound(k.(schema := Some(TURN_VERSION)), Expired(k.gc, now));
      MakeRoomKeeps(purged, limit);
    }
  }

  /** A begin that is refused as data_invalid has changed the keys exactly when the schema was acceptable and
      either not written yet or a finished record had expired; it never touches a claim in progress. */
  lemma RefusedBeginChangesExactly(k: Keys, v: LockValue, r: Request, text: string, now: nat, limit: nat, mode: Mode)
    requires Begin(k, v, r, text, now, limit, mode).1 == DataInvalid
    ensures var k' := Begin(k, v, r, text, now, limit, mode).0;
      && (k' != k <==> !BadSchema(k) && (k.schema.None? || Expired(k.gc, now) != {}))
      && (Sound(k) ==> forall q | q in k.requests && StatusIn(k.requests[q]) == Some(InProgress) ::
            q in k'.requests && k'.requests[q] == k.requests[q])
  {
    hide GoodRecord, StatusIn, SplitText, MakeRoom;
    var expired := Expired(k.gc, now);
    if expired != {} {
      var x :| x in expired;
      assert x in k.gc && x !in k.gc - expired;
    } else {
      assert k.gc - expired == k.gc && k.requests - expired == k.requests;
    }
  }
}
