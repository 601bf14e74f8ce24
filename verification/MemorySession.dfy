/** One session of the in-memory store: turns, counter and the ordered dictionary of request records.
    Every operation is a few ledger events and nothing else. */
module MemorySession {
  import opened Wrappers
  import opened SessionLedger

  datatype Record = Record(claim: Claim, expires: nat)

  /** `order` is the insertion order of the dictionary, oldest first. */
  datatype Data = Data(turns: seq<Turn>, next: nat, records: map<Request, Record>, order: seq<Request>)

  const EMPTY := Data([], 1, map[], [])

  ghost predicate NoRepeats(order: seq<Request>) { forall i, j | 0 <= i < j < |order| :: order[i] != order[j] }

  ghost predicate Sound(d: Data) {
    && NoRepeats(d.order)
    && (forall r :: r in d.order <==> r in d.records)
    && (forall r | r in d.records && d.records[r].claim.status == Completed :: d.records[r].claim.response.Some?)
  }

  function Claims(records: map<Request, Record>): map<Request, Claim> { map r | r in records :: records[r].claim }

  function Abs(d: Data): Ledger { Ledger(d.turns, d.next, Claims(d.records)) }

  function Without(order: seq<Request>, r: Request): (rest: seq<Request>)
    ensures forall q :: q in rest <==> q in order && q != r
  {
    if order == [] then [] else
      var last := order[|order| - 1];
      var before := Without(order[..|order| - 1], r);
      assert order == order[..|order| - 1] + [last];
      if last == r then before else before + [last]
  }

  lemma NoRepeatsSnoc(order: seq<Request>, r: Request)
    requires NoRepeats(order) && r !in order
    ensures NoRepeats(order + [r])
  {}

  lemma {:induction false} WithoutKeepsDistinct(order: seq<Request>, r: Request)
    requires NoRepeats(order)
    ensures NoRepeats(Without(order, r))
  {
    if order != [] {
      var before, last := order[..|order| - 1], order[|order| - 1];
      assert last !in before;
      WithoutKeepsDistinct(before, r);
      NoRepeatsSnoc(Without(before, r), last);
    }
  }

  // ------------------------------------------------------------------ what the order remembers

  ghost predicate Before(order: seq<Request>, a: Request, b: Request) {
    exists i, j | 0 <= i < j < |order| :: order[i] == a && order[j] == b
  }

  lemma BeforeSnoc(order: seq<Request>, last: Request, a: Request, b: Request)
    ensures Before(order + [last], a, b) <==> Before(order, a, b) || (a in order && b == last)
  {
    var longer := order + [last];
    if Before(longer, a, b) {
      var i, j :| 0 <= i < j < |longer| && longer[i] == a && longer[j] == b;
      if j < |order| { assert order[i] == a && order[j] == b; } else { assert order[i] == a; }
    }
    if Before(order, a, b) {
      var i, j :| 0 <= i < j < |order| && order[i] == a && order[j] == b;
      assert longer[i] == a && longer[j] == b;
    }
    if a in order && b == last {
      var i :| 0 <= i < |order| && order[i] == a;
      assert longer[i] == a && longer[|order|] == b;
    }
  }

  /** Taking one out keeps the order of the others. */
  lemma {:induction false} WithoutKeepsBefore(order: seq<Request>, r: Request, a: Request, b: Request)
    ensures Before(Without(order, r), a, b) <==> Before(order, a, b) && a != r && b != r
  {
    if order != [] {
      var before, last := order[..|order| - 1], order[|order| - 1];
      assert order == before + [last];
      WithoutKeepsBefore(before, r, a, b);
      BeforeSnoc(before, last, a, b);
      if last != r { BeforeSnoc(Without(before, r), last, a, b); }
    }
  }

  lemma BeforeAreMembers(order: seq<Request>, a: Request, b: Request)
    requires Before(order, a, b)
    ensures a in order && b in order
    ensures NoRepeats(order) ==> a != b
  {}

  function Pop(d: Data, r: Request): Data { d.(records := d.records - {r}, order := Without(d.order, r)) }

  /** Assignment and move_to_end. */
  function Put(d: Data, r: Request, record: Record): Data {
    d.(records := d.records[r := record], order := Without(d.order, r) + [r])
  }

  function Touch(d: Data, r: Request): Data
    requires r in d.records
  {
    Put(d, r, d.records[r])
  }

  lemma PopKeepsSound(d: Data, r: Request)
    requires Sound(d)
    ensures Sound(Pop(d, r))
  {
    WithoutKeepsDistinct(d.order, r);
  }

  lemma PutKeepsSound(d: Data, r: Request, record: Record)
    requires Sound(d) && (record.claim.status == Completed ==> record.claim.response.Some?)
    ensures Sound(Put(d, r, record))
  {
    WithoutKeepsDistinct(d.order, r);
    NoRepeatsSnoc(Without(d.order, r), r);
  }

  // ------------------------------------------------------------------ purging and trimming

  predicate Expired(record: Record, now: nat) { record.claim.status != InProgress && record.expires <= now }

  function Purge(d: Data, now: nat): Data { PurgeKeys(d, d.order, now) }

  /** The keys in turn, each dropped when its record has expired. */
  function PurgeKeys(d: Data, keys: seq<Request>, now: nat): Data {
    if keys == [] then d else
      var before := PurgeKeys(d, keys[..|keys| - 1], now);
      var key := keys[|keys| - 1];
      if key in d.records && Expired(d.records[key], now) then Pop(before, key) else before
  }

  method PurgeExpired(d: Data, now: nat) returns (r: Data)
    ensures r == Purge(d, now)
  {
    r := d;
    for i := 0 to |d.order|
      invariant r == PurgeKeys(d, d.order[..i], now)
    {
      assert d.order[..i + 1][..i] == d.order[..i];
      var key := d.order[i];
      if key in d.records && Expired(d.records[key], now) { r := Pop(r, key); }
    }
    assert d.order[..|d.order|] == d.order;
  }

  predicate FinishedIn(records: map<Request, Record>, r: Request) { r in records && records[r].claim.status != InProgress }

  /** The request is finished, and nothing before it in the order is. */
  ghost predicate FirstFinishedOf(order: seq<Request>, records: map<Request, Record>, r: Request) {
    exists k | 0 <= k < |order| :: order[k] == r && FinishedIn(records, r) && forall j | 0 <= j < k :: !FinishedIn(records, order[j])
  }

  function FirstFinished(order: seq<Request>, records: map<Request, Record>): (r: Option<Request>)
    ensures r.Some? ==> r.value in order && r.value in records && FirstFinishedOf(order, records, r.value)
    ensures r.None? ==> forall q | q in order && q in records :: records[q].claim.status == InProgress
  {
    if order == [] then None
    else if order[0] in records && records[order[0]].claim.status != InProgress then Some(order[0])
    else
      assert forall r | FirstFinishedOf(order[1..], records, r) :: FirstFinishedOf(order, records, r) by { LaterIsFirst(order, records); }
      FirstFinished(order[1..], records)
  }

  lemma LaterIsFirst(order: seq<Request>, records: map<Request, Record>)
    requires order != [] && !FinishedIn(records, order[0])
    ensures forall r | FirstFinishedOf(order[1..], records, r) :: FirstFinishedOf(order, records, r)
  {
    forall r | FirstFinishedOf(order[1..], records, r) ensures FirstFinishedOf(order, records, r) {
      var k :| 0 <= k < |order[1..]| && order[1..][k] == r && forall j | 0 <= j < k :: !FinishedIn(records, order[1..][j]);
      forall j | 0 <= j < k + 1 ensures !FinishedIn(records, order[j]) {
        if j > 0 { assert order[j] == order[1..][j - 1]; }
      }
      assert order[k + 1] == r;
    }
  }

  lemma FirstFinishedIsBefore(order: seq<Request>, records: map<Request, Record>, victim: Request, p: Request)
    requires FirstFinishedOf(order, records, victim) && p in order && p != victim && FinishedIn(records, p)
    ensures Before(order, victim, p)
  {
    var k :| 0 <= k < |order| && order[k] == victim && forall j | 0 <= j < k :: !FinishedIn(records, order[j]);
    var j :| 0 <= j < |order| && order[j] == p;
    assert k < j;
  }

  function TrimTo(d: Data, limit: nat): Data
    decreases |d.records|
  {
    if |d.records| <= limit then d else
      var victim := FirstFinished(d.order, d.records);
      if victim.None? then d else
        PopShrinks(d, victim.value);
        TrimTo(Pop(d, victim.value), limit)
  }

  lemma PopShrinks(d: Data, r: Request)
    requires r in d.records
    ensures |Pop(d, r).records| < |d.records|
  {
    var m := d.records - {r};
    assert m.Keys == d.records.Keys - {r};
    assert |d.records.Keys| == |d.records| && |m.Keys| == |m|;
  }

  method TrimRecords(d: Data, limit: nat) returns (r: Data)
    ensures r == TrimTo(d, limit)
  {
    r := d;
    while |r.records| > limit
      invariant TrimTo(d, limit) == TrimTo(r, limit)
      decreases |r.records|
    {
      var victim := FirstFinished(r.order, r.records);
      if victim.None? { return; }
      PopShrinks(r, victim.value);
      r := Pop(r, victim.value);
    }
  }

  /** What was dropped: finished records only, and nothing else changed. */
  ghost predicate OnlyForgot(d: Data, e: Data) {
    && e.turns == d.turns && e.next == d.next
    && (forall r | r in e.records :: r in d.records && e.records[r] == d.records[r])
    && (forall r | r in d.records && r !in e.records :: d.records[r].claim.status != InProgress)
  }

  lemma {:induction false} PurgeForgets(d: Data, keys: seq<Request>, now: nat)
    requires Sound(d)
    ensures Sound(PurgeKeys(d, keys, now)) && OnlyForgot(d, PurgeKeys(d, keys, now))
    ensures forall r | r in d.records && r in keys && Expired(d.records[r], now) :: r !in PurgeKeys(d, keys, now).records
    ensures forall r | r in d.records && r !in PurgeKeys(d, keys, now).records :: Expired(d.records[r], now)
  {
    if keys != [] {
      var before := PurgeKeys(d, keys[..|keys| - 1], now);
      PurgeForgets(d, keys[..|keys| - 1], now);
      PopKeepsSound(before, keys[|keys| - 1]);
      assert keys == keys[..|keys| - 1] + [keys[|keys| - 1]];
    }
  }

  lemma PopForgets(d: Data, r: Request)
    requires r in d.records && d.records[r].claim.status != InProgress
    ensures OnlyForgot(d, Pop(d, r))
  {
    hide Without;
  }

  lemma ForgotTwice(d: Data, e: Data, f: Data)
    requires OnlyForgot(d, e) && OnlyForgot(e, f)
    ensures OnlyForgot(d, f)
  {}

  lemma {:induction false} TrimForgets(d: Data, limit: nat)
    requires Sound(d)
    ensures Sound(TrimTo(d, limit)) && OnlyForgot(d, TrimTo(d, limit))
    ensures |TrimTo(d, limit).records| <= limit || forall r | r in TrimTo(d, limit).records :: TrimTo(d, limit).records[r].claim.status == InProgress
    decreases |d.records|
  {
    assert forall r | r in d.records :: r in d.order;
    assert OnlyForgot(d, d);
    hide Sound, OnlyForgot, Pop, FirstFinished;
    if |d.records| > limit {
      var victim := FirstFinished(d.order, d.records);
      if victim.Some? {
        PopShrinks(d, victim.value);
        PopKeepsSound(d, victim.value);
        PopForgets(d, victim.value);
        TrimForgets(Pop(d, victim.value), limit);
        ForgotTwice(d, Pop(d, victim.value), TrimTo(d, limit));
      }
    }
  }

  lemma PopsOne(d: Data, r: Request)
    requires r in d.records
    ensures |Pop(d, r).records| == |d.records| - 1
  {
    var m := d.records - {r};
    assert m.Keys == d.records.Keys - {r};
    assert |d.records.Keys| == |d.records| && |m.Keys| == |m|;
  }

  lemma {:induction false} TrimTakesOldest(d: Data, limit: nat)
    requires Sound(d)
    ensures OldestTrimmed(d, TrimTo(d, limit), limit)
    decreases |d.records|
  {
    hide Before, Sound, OldestTrimmed, Pop, FirstFinishedOf;
    if |d.records| > limit {
      var victim := FirstFinished(d.order, d.records);
      if victim.Some? {
        PopShrinks(d, victim.value);
        PopKeepsSound(d, victim.value);
        TrimTakesOldest(Pop(d, victim.value), limit);
        TrimForgets(Pop(d, victim.value), limit);
        PopIs(d, victim.value);
        StayedFinished(d, victim.value, TrimTo(d, limit));
        OneMoreTrimmed(d, victim.value, Pop(d, victim.value), TrimTo(d, limit), limit);
      } else {
        NothingTrimmed(d, limit);
      }
    } else {
      NothingTrimmed(d, limit);
    }
  }

  /** What was trimmed is finished and came before every finished record that stays; no more went than had to, and
      the others keep their order. */
  ghost predicate OldestTrimmed(d: Data, e: Data, limit: nat) {
    && (forall a, b | Before(e.order, a, b) :: Before(d.order, a, b))
    && (forall q, p | q in d.records && q !in e.records && FinishedIn(e.records, p) :: FinishedIn(d.records, q) && Before(d.order, q, p))
    && (e.records != d.records ==> limit <= |e.records| && limit < |d.records|)
  }

  lemma NothingTrimmed(d: Data, limit: nat)
    ensures OldestTrimmed(d, d, limit)
  {
    hide Before;
  }

  lemma OneMoreTrimmed(d: Data, v: Request, next: Data, e: Data, limit: nat)
    requires |d.records| > limit && FirstFinishedOf(d.order, d.records, v) && |next.records| == |d.records| - 1
    requires next.records == d.records - {v} && forall a, b | Before(next.order, a, b) :: Before(d.order, a, b)
    requires forall p | FinishedIn(e.records, p) :: p != v && p in d.order && FinishedIn(d.records, p)
    requires OldestTrimmed(next, e, limit)
    ensures OldestTrimmed(d, e, limit)
  {
    hide Before, FirstFinishedOf;
    FirstFinishedIsFinished(d.order, d.records, v);
    forall q, p | q in d.records && q !in e.records && FinishedIn(e.records, p) ensures FinishedIn(d.records, q) && Before(d.order, q, p) {
      if q == v {
        FirstFinishedIsBefore(d.order, d.records, v, p);
      } else {
        assert q in next.records && FinishedIn(next.records, q);
      }
    }
    if e.records == next.records { assert |e.records| == |next.records|; }
  }

  lemma PopIs(d: Data, v: Request)
    requires v in d.records
    ensures var next := Pop(d, v); next.records == d.records - {v} && |next.records| == |d.records| - 1
    ensures forall a, b | Before(Pop(d, v).order, a, b) :: Before(d.order, a, b)
  {
    PopsOne(d, v);
    hide Before, Without;
    forall a, b | Before(Pop(d, v).order, a, b) ensures Before(d.order, a, b) { WithoutKeepsBefore(d.order, v, a, b); }
  }

  lemma StayedFinished(d: Data, v: Request, e: Data)
    requires Sound(d) && OnlyForgot(Pop(d, v), e)
    ensures forall p | FinishedIn(e.records, p) :: p != v && p in d.order && FinishedIn(d.records, p)
  {
    hide NoRepeats, Without;
  }

  lemma FirstFinishedIsFinished(order: seq<Request>, records: map<Request, Record>, r: Request)
    requires FirstFinishedOf(order, records, r)
    ensures FinishedIn(records, r)
  {}

  /** Writing a record moves it to the end; the others keep their order. */
  lemma PutRefreshes(d: Data, r: Request, record: Record, a: Request, b: Request)
    ensures Before(Put(d, r, record).order, a, b) <==> a != r && if b == r then a in d.order else Before(d.order, a, b)
  {
    WithoutKeepsBefore(d.order, r, a, b);
    BeforeSnoc(Without(d.order, r), r, a, b);
    if Before(d.order, a, b) { BeforeAreMembers(d.order, a, b); }
  }

  // ------------------------------------------------------------------ the operations

  datatype Begun = Execute(takeover: bool, token: Token) | Replay(response: string) | Conflict(existing: string) | Broken

  function InProgressRecord(payload: string, token: Token, expires: nat): Record {
    Record(Claim(payload, InProgress, token, None), expires)
  }

  /** Broken: a completed record without its response. */
  function Begin(d0: Data, r: Request, payload: string, token: Token, now: nat, ttl: nat, limit: nat): (Data, Begun) {
    var d := Purge(d0, now);
    var found := r in d.records;
    var touched := if found then Touch(d, r) else d;
    if found && d.records[r].claim.payload != payload then (touched, Conflict(d.records[r].claim.payload))
    else if found && d.records[r].claim.status == Completed then
      (touched, if d.records[r].claim.response.None? then Broken else Replay(d.records[r].claim.response.value))
    else (TrimTo(Put(touched, r, InProgressRecord(payload, token, now + ttl)), limit), Execute(found, token))
  }

  method BeginRequest(d0: Data, r: Request, payload: string, token: Token, now: nat, ttl: nat, limit: nat)
    returns (d: Data, begun: Begun)
    ensures (d, begun) == Begin(d0, r, payload, token, now, ttl, limit)
  {
    d := PurgeExpired(d0, now);
    var takeover := r in d.records;
    if takeover {
      var existing := d.records[r];
      d := Touch(d, r);
      if existing.claim.payload != payload { return d, Conflict(existing.claim.payload); }
      if existing.claim.status == Completed {
        if existing.claim.response.None? { return d, Broken; }
        return d, Replay(existing.claim.response.value);
      }
    }
    d := Put(d, r, InProgressRecord(payload, token, now + ttl));
    d := TrimRecords(d, limit);
    begun := Execute(takeover, token);
  }

  function AppendTurn(d: Data, body: string, maxTurns: nat): Data {
    d.(turns := Trim(d.turns + [Turn(d.next, body)], maxTurns), next := d.next + 1)
  }

  predicate Owns(d: Data, r: Request, token: Token) {
    r in d.records && d.records[r].claim.status == InProgress && d.records[r].claim.owner == token
  }

  /** None: the caller does not own the request. */
  function Complete(d: Data, r: Request, token: Token, body: string, response: string, maxTurns: nat, limit: nat): Option<Data> {
    if !Owns(d, r, token) then None else
      var record := d.records[r];
      var completed := record.(claim := record.claim.(status := Completed, response := Some(response)));
      Some(TrimTo(Put(AppendTurn(d, body, maxTurns), r, completed), limit))
  }

  datatype FailAction = MarkedFailed | AlreadyCompleted | Noop

  function Fail(d: Data, r: Request, token: Token, limit: nat): (Data, FailAction) {
    if r !in d.records then (d, Noop)
    else if d.records[r].claim.status == Completed then (d, AlreadyCompleted)
    else if !Owns(d, r, token) then (d, Noop)
    else
      var record := d.records[r];
      (TrimTo(Put(d, r, record.(claim := record.claim.(status := Failed))), limit), MarkedFailed)
  }

  /** The record a begin finds: stored, and in progress or not yet expired. */
  predicate Live(d: Data, r: Request, now: nat) { r in d.records && (d.records[r].claim.status == InProgress || d.records[r].expires > now) }

  /** Every answer of a begin and exactly when it is given; a claim leaves its own record, in progress. */
  lemma BeginAnswersExactly(d: Data, r: Request, payload: string, token: Token, now: nat, ttl: nat, limit: nat)
    requires Sound(d)
    ensures var (e, begun) := Begin(d, r, payload, token, now, ttl, limit);
      && (forall existing :: begun == Conflict(existing) <==> Live(d, r, now) && d.records[r].claim.payload == existing != payload)
      && (forall response :: begun == Replay(response) <==>
            Live(d, r, now) && d.records[r].claim.payload == payload && d.records[r].claim.status == Completed
            && d.records[r].claim.response == Some(response))
      && (forall takeover, t :: begun == Execute(takeover, t) <==>
            && t == token && (takeover <==> Live(d, r, now))
            && (Live(d, r, now) ==> d.records[r].claim.payload == payload && d.records[r].claim.status != Completed))
      && (begun.Execute? ==> r in e.records && e.records[r] == Record(Claim(payload, InProgress, token, None), now + ttl))
  {
    hide PurgeKeys, TrimTo;
    var p := Purge(d, now);
    PurgeForgets(d, d.order, now);
    ResponseIsThere(d, r);
    assert r in p.records <==> Live(d, r, now);
    if Begin(d, r, payload, token, now, ttl, limit).1.Execute? {
      var touched := if r in p.records then Touch(p, r) else p;
      if r in p.records { PutKeepsSound(p, r, p.records[r]); }
      PutKeepsSound(touched, r, InProgressRecord(payload, token, now + ttl));
      TrimForgets(Put(touched, r, InProgressRecord(payload, token, now + ttl)), limit);
    }
  }

  /** A failure mark is answered by what it found, and takes effect for the owner of a claim in progress only. */
  lemma FailAnswersExactly(d: Data, r: Request, token: Token, limit: nat)
    ensures var action := Fail(d, r, token, limit).1;
      && (action == AlreadyCompleted <==> r in d.records && d.records[r].claim.status == Completed)
      && (action == MarkedFailed <==> r in d.records && d.records[r].claim.status == InProgress && d.records[r].claim.owner == token)
  {}

  // ------------------------------------------------------------------ the order of the records

  /** The request's record is the last of all, and the others keep their order. */
  ghost predicate TouchedLast(d: Data, e: Data, r: Request) {
    r in e.records && forall a, b | Before(e.order, a, b) :: a != r && (b == r || Before(d.order, a, b))
  }

  lemma {:induction false} PurgeKeepsOrder(d: Data, keys: seq<Request>, now: nat, a: Request, b: Request)
    requires Before(PurgeKeys(d, keys, now).order, a, b)
    ensures Before(d.order, a, b)
  {
    hide Before;
    if keys != [] {
      var before, key := PurgeKeys(d, keys[..|keys| - 1], now), keys[|keys| - 1];
      WithoutKeepsBefore(before.order, key, a, b);
      PurgeKeepsOrder(d, keys[..|keys| - 1], now, a, b);
    }
  }

  lemma PutTouches(d: Data, r: Request, record: Record)
    ensures TouchedLast(d, Put(d, r, record), r)
  {
    hide Before, Without;
    forall a, b | Before(Put(d, r, record).order, a, b) ensures a != r && (b == r || Before(d.order, a, b)) { PutRefreshes(d, r, record, a, b); }
  }

  lemma PutTrimmedTouches(d: Data, r: Request, record: Record, limit: nat)
    requires Sound(d) && (record.claim.status == Completed ==> record.claim.response.Some?)
    requires r in TrimTo(Put(d, r, record), limit).records
    ensures TouchedLast(d, TrimTo(Put(d, r, record), limit), r)
  {
    hide Before, TrimTo, Put, Sound;
    PutKeepsSound(d, r, record);
    PutTouches(d, r, record);
    TrimTakesOldest(Put(d, r, record), limit);
  }

  /** Whatever a begin finds or writes is the newest record then. */
  lemma BeginTouchesLast(d: Data, r: Request, payload: string, token: Token, now: nat, ttl: nat, limit: nat)
    requires Sound(d)
    ensures TouchedLast(d, Begin(d, r, payload, token, now, ttl, limit).0, r)
  {
    hide Before, TrimTo, PurgeKeys, Put, Expired, Live;
    var p := Purge(d, now);
    BeginAnswersExactly(d, r, payload, token, now, ttl, limit);
    PurgeForgets(d, d.order, now);
    forall a, b | Before(p.order, a, b) ensures Before(d.order, a, b) { PurgeKeepsOrder(d, d.order, now, a, b); }
    if r in p.records {
      PutKeepsSound(p, r, p.records[r]);
      PutTouches(p, r, p.records[r]);
    }
    var touched := if r in p.records then Touch(p, r) else p;
    if Begin(d, r, payload, token, now, ttl, limit).1.Execute? { PutTrimmedTouches(touched, r, InProgressRecord(payload, token, now + ttl), limit); }
  }

  /** So is a record that was completed or marked failed, unless it had to go at once. */
  lemma EndTouchesLast(d: Data, r: Request, token: Token, body: string, response: string, maxTurns: nat, limit: nat)
    requires Sound(d)
    ensures var c := Complete(d, r, token, body, response, maxTurns, limit); c.Some? && r in c.value.records ==> TouchedLast(d, c.value, r)
    ensures var (e, action) := Fail(d, r, token, limit); action.MarkedFailed? && r in e.records ==> TouchedLast(d, e, r)
  {
    hide Before, TrimTo, Put, TouchedLast, Trim;
    if Owns(d, r, token) {
      var record := d.records[r];
      var failed := record.(claim := record.claim.(status := Failed));
      var completed := record.(claim := record.claim.(status := Completed, response := Some(response)));
      var appended := AppendTurn(d, body, maxTurns);
      if r in TrimTo(Put(d, r, failed), limit).records { PutTrimmedTouches(d, r, failed, limit); }
      if r in TrimTo(Put(appended, r, completed), limit).records {
        PutTrimmedTouches(appended, r, completed, limit);
        SameOrderTouched(d, appended, TrimTo(Put(appended, r, completed), limit), r);
      }
    }
  }

  lemma SameOrderTouched(d: Data, same: Data, e: Data, r: Request)
    requires same.order == d.order && TouchedLast(same, e, r)
    ensures TouchedLast(d, e, r)
  {
    hide Before;
  }

  // ------------------------------------------------------------------ every operation is ledger events

  function Gone(d: Data, e: Data): set<Request> { d.records.Keys - e.records.Keys }

  lemma ForgetStep(d: Data, e: Data, maxTurns: nat)
    requires OnlyForgot(d, e)
    ensures Enabled(Abs(d), Forgot(Gone(d, e))) && Apply(Abs(d), Forgot(Gone(d, e)), maxTurns) == Abs(e)
  {
    assert Claims(d.records) - Gone(d, e) == Claims(e.records);
  }

  lemma TouchIsNothing(d: Data, r: Request)
    requires Sound(d) && r in d.records
    ensures Abs(Touch(d, r)) == Abs(d) && Sound(Touch(d, r))
  {
    PutKeepsSound(d, r, d.records[r]);
    assert Claims(d.records[r := d.records[r]]) == Claims(d.records);
  }

  lemma PutClaims(d: Data, r: Request, record: Record)
    ensures Claims(Put(d, r, record).records) == Claims(d.records)[r := record.claim]
  {}

  /** An operation that ends by trimming: its own event, then what was trimmed. */
  lemma TrimmedRefines(l: Ledger, e: Event, stored: Data, limit: nat, maxTurns: nat)
    requires Sound(stored) && Enabled(l, e) && Apply(l, e, maxTurns) == Abs(stored)
    ensures var d := TrimTo(stored, limit);
      Sound(d) && RunEvents(l, [e, Forgot(Gone(stored, d))], maxTurns) == Some(Abs(d))
  {
    hide TrimTo, RunEvents, Sound;
    TrimForgets(stored, limit);
    ForgetStep(stored, TrimTo(stored, limit), maxTurns);
    TwoEvents(l, e, Forgot(Gone(stored, TrimTo(stored, limit))), maxTurns);
  }

  /** The events of a begin: what was purged, the answer, what was trimmed. */
  function BeginEvents(d0: Data, r: Request, payload: string, token: Token, now: nat, ttl: nat, limit: nat): seq<Event> {
    var d := Purge(d0, now);
    var result := Begin(d0, r, payload, token, now, ttl, limit);
    [Forgot(Gone(d0, d))] +
    match result.1
    case Execute(_, _) =>
      var granted := Put(if r in d.records then Touch(d, r) else d, r, InProgressRecord(payload, token, now + ttl));
      [Granted(r, payload, token), Forgot(Gone(granted, result.0))]
    case Replay(response) => [Replayed(r, payload, response)]
    case Conflict(_) => [Refused(r, payload)]
    case Broken => []
  }

  lemma BeginRefines(d: Data, r: Request, payload: string, token: Token, now: nat, ttl: nat, limit: nat, maxTurns: nat)
    requires Sound(d)
    ensures var result := Begin(d, r, payload, token, now, ttl, limit);
      && result.1 != Broken && Sound(result.0)
      && RunEvents(Abs(d), BeginEvents(d, r, payload, token, now, ttl, limit), maxTurns) == Some(Abs(result.0))
  {
    hide PurgeKeys, TrimTo, RunEvents, Sound, Claims;
    var p := Purge(d, now);
    var (e, begun) := Begin(d, r, payload, token, now, ttl, limit);
    PurgeForgets(d, d.order, now);
    ForgetStep(d, p, maxTurns);
    TwoEvents(Abs(d), Forgot(Gone(d, p)), Dropped, maxTurns);
    if r in p.records { TouchIsNothing(p, r); }
    ResponseIsThere(p, r);
    if begun.Execute? {
      var touched := if r in p.records then Touch(p, r) else p;
      var granted := Put(touched, r, InProgressRecord(payload, token, now + ttl));
      GrantRefines(p, r, payload, token, now + ttl, limit, maxTurns);
      RunConcat(Abs(d), [Forgot(Gone(d, p))], [Granted(r, payload, token), Forgot(Gone(granted, e))], maxTurns);
    } else {
      var answer := if begun.Replay? then Replayed(r, payload, begun.response) else Refused(r, payload);
      AnswerIsEnabled(p, r, payload);
      TwoEvents(Abs(p), answer, Dropped, maxTurns);
      RunConcat(Abs(d), [Forgot(Gone(d, p))], [answer], maxTurns);
    }
  }

  lemma ResponseIsThere(d: Data, r: Request)
    requires Sound(d)
    ensures r in d.records && d.records[r].claim.status == Completed ==> d.records[r].claim.response.Some?
  {}

  lemma AnswerIsEnabled(d: Data, r: Request, payload: string)
    ensures r in d.records ==> r in Claims(d.records) && Claims(d.records)[r] == d.records[r].claim
  {}

  lemma GrantRefines(p: Data, r: Request, payload: string, token: Token, expires: nat, limit: nat, maxTurns: nat)
    requires Sound(p) && (r in p.records ==> p.records[r].claim.payload == payload && p.records[r].claim.status != Completed)
    ensures var touched := if r in p.records then Touch(p, r) else p;
      var granted := Put(touched, r, InProgressRecord(payload, token, expires));
      var e := TrimTo(granted, limit);
      Sound(e) && RunEvents(Abs(p), [Granted(r, payload, token), Forgot(Gone(granted, e))], maxTurns) == Some(Abs(e))
  {
    hide TrimTo, RunEvents, Sound;
    if r in p.records { TouchIsNothing(p, r); }
    var touched := if r in p.records then Touch(p, r) else p;
    PutKeepsSound(touched, r, InProgressRecord(payload, token, expires));
    PutClaims(touched, r, InProgressRecord(payload, token, expires));
    TrimmedRefines(Abs(p), Granted(r, payload, token), Put(touched, r, InProgressRecord(payload, token, expires)), limit, maxTurns);
  }

  lemma AppendRefines(d: Data, body: string, maxTurns: nat)
    requires Sound(d)
    ensures Sound(AppendTurn(d, body, maxTurns))
    ensures RunEvents(Abs(d), [Appended(body)], maxTurns) == Some(Abs(AppendTurn(d, body, maxTurns)))
  {
    TwoEvents(Abs(d), Appended(body), Dropped, maxTurns);
  }

  lemma CompleteRefines(d: Data, r: Request, token: Token, body: string, response: string, maxTurns: nat, limit: nat)
    requires Sound(d) && Owns(d, r, token)
    ensures var e := Complete(d, r, token, body, response, maxTurns, limit).value;
      var record := d.records[r].(claim := d.records[r].claim.(status := Completed, response := Some(response)));
      var stored := Put(AppendTurn(d, body, maxTurns), r, record);
      && Sound(e)
      && RunEvents(Abs(d), [Finished(r, token, body, response), Forgot(Gone(stored, e))], maxTurns) == Some(Abs(e))
  {
    hide TrimTo, RunEvents, Sound;
    var record := d.records[r].(claim := d.records[r].claim.(status := Completed, response := Some(response)));
    var appended := AppendTurn(d, body, maxTurns);
    AppendRefines(d, body, maxTurns);
    PutKeepsSound(appended, r, record);
    PutClaims(appended, r, record);
    TrimmedRefines(Abs(d), Finished(r, token, body, response), Put(appended, r, record), limit, maxTurns);
  }

  lemma FailRefines(d: Data, r: Request, token: Token, limit: nat, maxTurns: nat)
    requires Sound(d)
    ensures var (e, action) := Fail(d, r, token, limit);
      && Sound(e)
      && (action == MarkedFailed <==> Owns(d, r, token))
      && (action != MarkedFailed ==> e == d)
      && (action == MarkedFailed ==>
            var stored := Put(d, r, d.records[r].(claim := d.records[r].claim.(status := Failed)));
            RunEvents(Abs(d), [GaveUp(r, token), Forgot(Gone(stored, e))], maxTurns) == Some(Abs(e)))
  {
    hide TrimTo, RunEvents, Sound;
    if Owns(d, r, token) {
      var record := d.records[r].(claim := d.records[r].claim.(status := Failed));
      PutKeepsSound(d, r, record);
      PutClaims(d, r, record);
      TrimmedRefines(Abs(d), GaveUp(r, token), Put(d, r, record), limit, maxTurns);
    }
  }
}
