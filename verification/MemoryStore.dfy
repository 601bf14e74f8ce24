/** The whole in-memory store: sessions in least-recently-used order behind the transaction gate, each with
    the history of its ledger events. */
module MemoryStore {
  import opened Wrappers
  import opened SessionLedger
  import opened SessionLocks
  import opened MemorySession

  datatype Limits = Limits(maxSessions: nat, maxTurns: nat, ttl: nat, maxRecords: nat)

  /** `order` is the least-recently-used order, idlest first; `histories` is history. */
  datatype Store = Store(sessions: map<Sid, Data>, order: seq<Sid>, gate: Gate, histories: map<Sid, seq<Event>>)

  const NEW_STORE := Store(map[], [], OPEN, map[])

  function HistoryOf(s: Store, sid: Sid): seq<Event> { if sid in s.histories then s.histories[sid] else [] }

  function DataOf(s: Store, sid: Sid): Data { if sid in s.sessions then s.sessions[sid] else EMPTY }

  function Log(s: Store, sid: Sid, events: seq<Event>): Store {
    s.(histories := s.histories[sid := HistoryOf(s, sid) + events])
  }

  // ------------------------------------------------------------------ capacity

  /** The session is idle, and everything before it in the order is leased. */
  ghost predicate FirstIdleOf(order: seq<Sid>, leases: map<Sid, nat>, sid: Sid) {
    exists k | 0 <= k < |order| :: order[k] == sid && Lease(leases, sid) == 0 && forall j | 0 <= j < k :: Lease(leases, order[j]) > 0
  }

  function FirstIdle(order: seq<Sid>, leases: map<Sid, nat>): (r: Option<Sid>)
    ensures r.Some? ==> r.value in order && Lease(leases, r.value) == 0 && FirstIdleOf(order, leases, r.value)
    ensures r.None? ==> forall sid | sid in order :: Lease(leases, sid) > 0
  {
    if order == [] then None
    else if Lease(leases, order[0]) == 0 then Some(order[0])
    else
      assert forall sid | FirstIdleOf(order[1..], leases, sid) :: FirstIdleOf(order, leases, sid) by { LaterIsFirst(order, leases); }
      FirstIdle(order[1..], leases)
  }

  lemma LaterIsFirst(order: seq<Sid>, leases: map<Sid, nat>)
    requires order != [] && Lease(leases, order[0]) > 0
    ensures forall sid | FirstIdleOf(order[1..], leases, sid) :: FirstIdleOf(order, leases, sid)
  {
    forall sid | FirstIdleOf(order[1..], leases, sid) ensures FirstIdleOf(order, leases, sid) {
      var k :| 0 <= k < |order[1..]| && order[1..][k] == sid && forall j | 0 <= j < k :: Lease(leases, order[1..][j]) > 0;
      forall j | 0 <= j < k + 1 ensures Lease(leases, order[j]) > 0 {
        if j > 0 { assert order[j] == order[1..][j - 1]; }
      }
      assert order[k + 1] == sid;
    }
  }

  function Drop(s: Store, sid: Sid): Store {
    Log(s.(sessions := s.sessions - {sid}, order := Without(s.order, sid)), sid, [Dropped])
  }

  function EvictOne(s: Store, sid: Sid): Store { Drop(s, sid).(gate := Forget(s.gate, sid)) }

  lemma DropShrinks(s: Store, sid: Sid)
    requires sid in s.sessions
    ensures |Drop(s, sid).sessions| < |s.sessions|
  {
    var m := s.sessions - {sid};
    assert m.Keys == s.sessions.Keys - {sid};
    assert |s.sessions.Keys| == |s.sessions| && |m.Keys| == |m|;
  }

  /** Idle sessions go, least recently used first, until the rest fits or everyone left is leased. */
  function Evict(s: Store, maxSessions: nat): Store
    decreases |s.sessions|
  {
    if |s.sessions| <= maxSessions then s else
      var victim := FirstIdle(s.order, s.gate.leases);
      if victim.None? || victim.value !in s.sessions then s else
        DropShrinks(s, victim.value);
        Evict(EvictOne(s, victim.value), maxSessions)
  }

  function MoveToEnd(s: Store, sid: Sid): Store { s.(order := Without(s.order, sid) + [sid]) }

  function GetOrCreate(s: Store, sid: Sid, maxSessions: nat): Store {
    var there := if sid in s.sessions then s else
      Evict(s.(sessions := s.sessions[sid := EMPTY], order := s.order + [sid]), maxSessions);
    MoveToEnd(there, sid)
  }

  // ------------------------------------------------------------------ operations

  predicate IsHolder(s: Store, task: Task, sid: Sid) { sid in s.gate.holders && s.gate.holders[sid] == task }

  function Write(s: Store, sid: Sid, d: Data, events: seq<Event>): Store {
    Log(s.(sessions := s.sessions[sid := d]), sid, events)
  }

  function ArriveOp(s: Store, txn: TxnId, task: Task, sid: Sid): Store { s.(gate := Arrive(s.gate, txn, task, sid)) }

  function AcquireOp(s: Store, txn: TxnId): Store
    requires txn in s.gate.txns
  {
    s.(gate := Acquire(s.gate, txn))
  }

  function LeaveOp(s: Store, txn: TxnId, cfg: Limits): Store
    requires txn in s.gate.txns
  {
    var sid := s.gate.txns[txn].sid;
    Evict(s.(gate := Depart(Release(s.gate, txn), txn, sid in s.sessions)), cfg.maxSessions)
  }

  /** None: refused, the caller does not hold the session. */
  function BeginOp(s: Store, task: Task, sid: Sid, r: Request, payload: string, token: Token, now: nat, cfg: Limits)
    : (Store, Option<Begun>)
  {
    if !IsHolder(s, task, sid) then (s, None) else
      var t := GetOrCreate(s, sid, cfg.maxSessions);
      var d := DataOf(t, sid);
      var (e, begun) := Begin(d, r, payload, token, now, cfg.ttl, cfg.maxRecords);
      (Write(t, sid, e, BeginEvents(d, r, payload, token, now, cfg.ttl, cfg.maxRecords)), Some(begun))
  }

  function CompleteEvents(d: Data, r: Request, token: Token, body: string, response: string, cfg: Limits): seq<Event>
    requires Owns(d, r, token)
  {
    var record := d.records[r].(claim := d.records[r].claim.(status := Completed, response := Some(response)));
    [Finished(r, token, body, response),
     Forgot(Gone(Put(AppendTurn(d, body, cfg.maxTurns), r, record), Complete(d, r, token, body, response, cfg.maxTurns, cfg.maxRecords).value))]
  }

  /** The session is created even when the completion is then refused for want of ownership. */
  function CompleteOp(s: Store, task: Task, sid: Sid, r: Request, token: Token, body: string, response: string, cfg: Limits)
    : (Store, Option<Turn>)
  {
    if !IsHolder(s, task, sid) then (s, None) else
      var t := GetOrCreate(s, sid, cfg.maxSessions);
      var d := DataOf(t, sid);
      var e := Complete(d, r, token, body, response, cfg.maxTurns, cfg.maxRecords);
      if e.None? then (t, None)
      else (Write(t, sid, e.value, CompleteEvents(d, r, token, body, response, cfg)), Some(Turn(d.next, body)))
  }

  function FailEvents(d: Data, r: Request, token: Token, cfg: Limits): seq<Event> {
    if !Owns(d, r, token) then [] else
      [GaveUp(r, token), Forgot(Gone(Put(d, r, d.records[r].(claim := d.records[r].claim.(status := Failed))), Fail(d, r, token, cfg.maxRecords).0))]
  }

  function FailOp(s: Store, task: Task, sid: Sid, r: Request, token: Token, cfg: Limits): (Store, Option<FailAction>) {
    if !IsHolder(s, task, sid) then (s, None)
    else if sid !in s.sessions then (s, Some(Noop))
    else
      var d := s.sessions[sid];
      var (e, action) := Fail(d, r, token, cfg.maxRecords);
      (Write(s, sid, e, FailEvents(d, r, token, cfg)), Some(action))
  }

  function AppendOp(s: Store, task: Task, sid: Sid, body: string, cfg: Limits): (Store, Option<Turn>) {
    if !IsHolder(s, task, sid) then (s, None) else
      var t := GetOrCreate(s, sid, cfg.maxSessions);
      var d := DataOf(t, sid);
      (Write(t, sid, AppendTurn(d, body, cfg.maxTurns), [Appended(body)]), Some(Turn(d.next, body)))
  }

  /** Reading refreshes the session; a limit of zero slices everything. */
  function GetOp(s: Store, sid: Sid, limit: nat): (Store, seq<Turn>) {
    if sid !in s.sessions then (s, []) else (MoveToEnd(s, sid), Trim(s.sessions[sid].turns, limit))
  }

  function ClearOp(s: Store, task: Task, sid: Sid): (Store, bool) {
    if !IsHolder(s, task, sid) then (s, false)
    else if sid in s.sessions then (Drop(s, sid), true)
    else (s, true)
  }

  // ------------------------------------------------------------------ the invariant

  ghost predicate InOrder(sessions: map<Sid, Data>, order: seq<Sid>) {
    NoRepeats(order) && forall sid :: sid in order <==> sid in sessions
  }

  /** Within capacity, or everything stored is in use. */
  ghost predicate WithinCapacity(sessions: map<Sid, Data>, leases: map<Sid, nat>, maxSessions: nat) {
    |sessions| <= maxSessions || forall sid | sid in sessions :: sid in leases
  }

  ghost predicate Tells(history: seq<Event>, d: Data, maxTurns: nat) {
    LedgerOf(history, maxTurns) == Some(Abs(d)) && Sound(d)
  }

  ghost predicate Told(s: Store, maxTurns: nat) { forall sid :: Tells(HistoryOf(s, sid), DataOf(s, sid), maxTurns) }

  ghost predicate Good(s: Store, cfg: Limits) {
    && Safe(s.gate) && InOrder(s.sessions, s.order)
    && WithinCapacity(s.sessions, s.gate.leases, cfg.maxSessions)
    && Told(s, cfg.maxTurns)
  }

  lemma NewStoreIsGood(cfg: Limits)
    ensures Good(NEW_STORE, cfg)
  {
    NobodyInside();
  }

  // ------------------------------------------------------------------ histories

  /** Writing a session together with the events that lead to its new data keeps every history true. */
  lemma WriteTells(s: Store, sid: Sid, d: Data, events: seq<Event>, maxTurns: nat)
    requires Told(s, maxTurns) && Sound(d)
    requires RunEvents(Abs(DataOf(s, sid)), events, maxTurns) == Some(Abs(d)) && OneGrant(HistoryOf(s, sid), events)
    ensures Told(Write(s, sid, d, events), maxTurns)
  {
    hide LedgerOf, RunEvents, Sound, OneGrant, Abs;
    assert Tells(HistoryOf(s, sid), DataOf(s, sid), maxTurns);
    OneGrantIsFresh(HistoryOf(s, sid), events);
    HistoryExtends(HistoryOf(s, sid), events, Abs(DataOf(s, sid)), maxTurns);
    var t := Write(s, sid, d, events);
    forall q ensures Tells(HistoryOf(t, q), DataOf(t, q), maxTurns) {
      assert Tells(HistoryOf(s, q), DataOf(s, q), maxTurns);
    }
  }

  lemma DropTells(s: Store, sid: Sid, maxTurns: nat)
    requires Told(s, maxTurns)
    ensures Told(Drop(s, sid), maxTurns)
  {
    assert Tells(HistoryOf(s, sid), DataOf(s, sid), maxTurns);
    DroppedIsNew(HistoryOf(s, sid), maxTurns);
    hide LedgerOf, Sound, Abs;
    var t := Drop(s, sid);
    forall q ensures Tells(HistoryOf(t, q), DataOf(t, q), maxTurns) {
      assert Tells(HistoryOf(s, q), DataOf(s, q), maxTurns);
    }
  }

  lemma DroppedIsNew(h: seq<Event>, maxTurns: nat)
    requires LedgerOf(h, maxTurns).Some?
    ensures Tells(h + [Dropped], EMPTY, maxTurns)
  {
    assert (h + [Dropped])[..|h|] == h;
  }

  // ------------------------------------------------------------------ capacity is kept

  lemma DropKeepsOrder(s: Store, sid: Sid)
    requires InOrder(s.sessions, s.order)
    ensures InOrder(Drop(s, sid).sessions, Drop(s, sid).order)
  {
    WithoutKeepsDistinct(s.order, sid);
  }

  lemma MoveKeepsOrder(s: Store, sid: Sid)
    requires InOrder(s.sessions, s.order) && sid in s.sessions
    ensures InOrder(MoveToEnd(s, sid).sessions, MoveToEnd(s, sid).order)
  {
    WithoutKeepsDistinct(s.order, sid);
    NoRepeatsSnoc(Without(s.order, sid), sid);
  }

  /** Leases name positive counts only. */
  lemma LeasedMeansCounted(g: Gate, sid: Sid)
    requires Safe(g)
    ensures sid in g.leases <==> Lease(g.leases, sid) > 0
  {
    if sid in g.leases {
      assert Inside(g.txns, sid) != {};
    }
  }

  /** Eviction ends within capacity or with everything leased, never touches a leased session, and keeps
      the gate safe and the histories true. */
  lemma {:induction false} EvictKeeps(s: Store, cfg: Limits)
    requires Safe(s.gate) && InOrder(s.sessions, s.order) && Told(s, cfg.maxTurns)
    ensures Good(Evict(s, cfg.maxSessions), cfg)
    ensures var t := Evict(s, cfg.maxSessions);
      && t.gate.leases == s.gate.leases && t.gate.txns == s.gate.txns && t.gate.holders == s.gate.holders
      && forall sid | sid in s.gate.leases ::
           (sid in t.sessions <==> sid in s.sessions) && DataOf(t, sid) == DataOf(s, sid) && HistoryOf(t, sid) == HistoryOf(s, sid)
           && (sid in s.gate.locks ==> sid in t.gate.locks && t.gate.locks[sid] == s.gate.locks[sid])
    decreases |s.sessions|
  {
    hide Safe, Told, NoRepeats, FirstIdleOf;
    if |s.sessions| > cfg.maxSessions {
      var victim := FirstIdle(s.order, s.gate.leases);
      if victim.Some? {
        LeasedMeansCounted(s.gate, victim.value);
        DropShrinks(s, victim.value);
        DropKeepsOrder(s, victim.value);
        ForgetKeeps(s.gate, victim.value);
        DropTells(s, victim.value, cfg.maxTurns);
        ToldIgnoresGate(Drop(s, victim.value), Forget(s.gate, victim.value), cfg.maxTurns);
        EvictKeeps(EvictOne(s, victim.value), cfg);
      } else {
        forall sid | sid in s.sessions ensures sid in s.gate.leases { LeasedMeansCounted(s.gate, sid); }
      }
    }
  }

  lemma ToldIgnoresGate(s: Store, g: Gate, maxTurns: nat)
    requires Told(s, maxTurns)
    ensures Told(s.(gate := g), maxTurns)
  {
    forall q ensures Tells(HistoryOf(s.(gate := g), q), DataOf(s.(gate := g), q), maxTurns) {
      assert Tells(HistoryOf(s, q), DataOf(s, q), maxTurns);
    }
  }

  lemma HolderIsLeased(s: Store, task: Task, sid: Sid)
    requires Safe(s.gate) && IsHolder(s, task, sid)
    ensures sid in s.gate.leases
  {
    var t :| Holds(s.gate.txns, t) && s.gate.txns[t].sid == sid;
    assert t in Inside(s.gate.txns, sid);
  }

  lemma CreatedTells(s: Store, sid: Sid, maxTurns: nat)
    requires Told(s, maxTurns) && sid !in s.sessions
    ensures Told(s.(sessions := s.sessions[sid := EMPTY], order := s.order + [sid]), maxTurns)
  {
    var t := s.(sessions := s.sessions[sid := EMPTY], order := s.order + [sid]);
    forall q ensures Tells(HistoryOf(t, q), DataOf(t, q), maxTurns) {
      assert Tells(HistoryOf(s, q), DataOf(s, q), maxTurns);
    }
  }

  lemma MovedTells(s: Store, sid: Sid, maxTurns: nat)
    requires Told(s, maxTurns)
    ensures Told(MoveToEnd(s, sid), maxTurns)
  {
    var t := MoveToEnd(s, sid);
    forall q ensures Tells(HistoryOf(t, q), DataOf(t, q), maxTurns) {
      assert Tells(HistoryOf(s, q), DataOf(s, q), maxTurns);
    }
  }

  lemma CreateKeeps(s: Store, sid: Sid, cfg: Limits)
    requires Good(s, cfg) && sid in s.gate.leases && sid !in s.sessions
    ensures var t := Evict(s.(sessions := s.sessions[sid := EMPTY], order := s.order + [sid]), cfg.maxSessions);
      && Good(t, cfg) && sid in t.sessions && t.sessions[sid] == EMPTY && HistoryOf(t, sid) == HistoryOf(s, sid)
      && t.gate.holders == s.gate.holders
  {
    hide Safe, Told, NoRepeats, Evict;
    var created := s.(sessions := s.sessions[sid := EMPTY], order := s.order + [sid]);
    NoRepeatsSnoc(s.order, sid);
    CreatedTells(s, sid, cfg.maxTurns);
    EvictKeeps(created, cfg);
  }

  /** The session a holder asks for is there afterwards, with the data it had. */
  lemma GetOrCreateKeeps(s: Store, task: Task, sid: Sid, cfg: Limits)
    requires Good(s, cfg) && IsHolder(s, task, sid)
    ensures var t := GetOrCreate(s, sid, cfg.maxSessions);
      && Good(t, cfg) && sid in t.sessions && DataOf(t, sid) == DataOf(s, sid) && HistoryOf(t, sid) == HistoryOf(s, sid)
      && IsHolder(t, task, sid)
  {
    hide Safe, Told, NoRepeats, Evict;
    HolderIsLeased(s, task, sid);
    var there := s;
    if sid !in s.sessions {
      CreateKeeps(s, sid, cfg);
      there := Evict(s.(sessions := s.sessions[sid := EMPTY], order := s.order + [sid]), cfg.maxSessions);
    }
    MoveKeepsOrder(there, sid);
    MovedTells(there, sid, cfg.maxTurns);
  }

  lemma WriteKeeps(s: Store, sid: Sid, d: Data, events: seq<Event>, cfg: Limits)
    requires Good(s, cfg) && sid in s.sessions && Sound(d)
    requires RunEvents(Abs(DataOf(s, sid)), events, cfg.maxTurns) == Some(Abs(d)) && OneGrant(HistoryOf(s, sid), events)
    ensures Good(Write(s, sid, d, events), cfg)
  {
    hide Safe, Told, NoRepeats, Sound, RunEvents, OneGrant;
    WriteTells(s, sid, d, events, cfg.maxTurns);
    assert s.sessions[sid := d].Keys == s.sessions.Keys;
    assert |s.sessions[sid := d]| == |s.sessions[sid := d].Keys| && |s.sessions| == |s.sessions.Keys|;
  }

  // ------------------------------------------------------------------ every operation

  lemma ArriveOpKeeps(s: Store, txn: TxnId, task: Task, sid: Sid, cfg: Limits)
    requires Good(s, cfg) && txn !in s.gate.txns
    ensures Good(ArriveOp(s, txn, task, sid), cfg)
  {
    hide Safe, Told;
    ArriveKeeps(s.gate, txn, task, sid);
    ToldIgnoresGate(s, Arrive(s.gate, txn, task, sid), cfg.maxTurns);
  }

  lemma AcquireOpKeeps(s: Store, txn: TxnId, cfg: Limits)
    requires Good(s, cfg) && CanAcquire(s.gate, txn)
    ensures Good(AcquireOp(s, txn), cfg)
  {
    hide Safe, Told;
    AcquireKeeps(s.gate, txn);
    ToldIgnoresGate(s, Acquire(s.gate, txn), cfg.maxTurns);
  }

  lemma LeaveOpKeeps(s: Store, txn: TxnId, cfg: Limits)
    requires Good(s, cfg) && txn in s.gate.txns
    ensures Good(LeaveOp(s, txn, cfg), cfg)
  {
    hide Safe, Told, Evict, Depart;
    var sid := s.gate.txns[txn].sid;
    ReleaseKeeps(s.gate, txn);
    DepartKeeps(Release(s.gate, txn), txn, sid in s.sessions);
    var g := Depart(Release(s.gate, txn), txn, sid in s.sessions);
    ToldIgnoresGate(s, g, cfg.maxTurns);
    EvictKeeps(s.(gate := g), cfg);
  }

  lemma BeginOpKeeps(s: Store, task: Task, sid: Sid, r: Request, payload: string, token: Token, now: nat, cfg: Limits)
    requires Good(s, cfg) && FreshIn(HistoryOf(s, sid), Granted(r, payload, token))
    ensures var (t, begun) := BeginOp(s, task, sid, r, payload, token, now, cfg); Good(t, cfg) && begun != Some(Broken)
  {
    hide Good, GetOrCreate, Begin, RunEvents, Write;
    if IsHolder(s, task, sid) {
      GetOrCreateKeeps(s, task, sid, cfg);
      var t := GetOrCreate(s, sid, cfg.maxSessions);
      var d := DataOf(t, sid);
      DataIsSound(t, sid, cfg);
      BeginRefines(d, r, payload, token, now, cfg.ttl, cfg.maxRecords, cfg.maxTurns);
      var events := BeginEvents(d, r, payload, token, now, cfg.ttl, cfg.maxRecords);
      assert OneGrant(HistoryOf(t, sid), events);
      WriteKeeps(t, sid, Begin(d, r, payload, token, now, cfg.ttl, cfg.maxRecords).0, events, cfg);
    }
  }

  lemma DataIsSound(s: Store, sid: Sid, cfg: Limits)
    requires Good(s, cfg)
    ensures Sound(DataOf(s, sid)) && Tells(HistoryOf(s, sid), DataOf(s, sid), cfg.maxTurns)
  {
    hide Safe;
  }

  lemma CompleteOpKeeps(s: Store, task: Task, sid: Sid, r: Request, token: Token, body: string, response: string, cfg: Limits)
    requires Good(s, cfg)
    ensures Good(CompleteOp(s, task, sid, r, token, body, response, cfg).0, cfg)
  {
    hide Good, GetOrCreate, RunEvents, Write, Put, TrimTo;
    if IsHolder(s, task, sid) {
      GetOrCreateKeeps(s, task, sid, cfg);
      var t := GetOrCreate(s, sid, cfg.maxSessions);
      var d := DataOf(t, sid);
      DataIsSound(t, sid, cfg);
      if Owns(d, r, token) {
        CompleteRefines(d, r, token, body, response, cfg.maxTurns, cfg.maxRecords);
        var events := CompleteEvents(d, r, token, body, response, cfg);
        assert OneGrant(HistoryOf(t, sid), events);
        WriteKeeps(t, sid, Complete(d, r, token, body, response, cfg.maxTurns, cfg.maxRecords).value, events, cfg);
      }
    }
  }

  lemma FailOpKeeps(s: Store, task: Task, sid: Sid, r: Request, token: Token, cfg: Limits)
    requires Good(s, cfg)
    ensures Good(FailOp(s, task, sid, r, token, cfg).0, cfg)
  {
    hide Good, Write, Put, TrimTo;
    if IsHolder(s, task, sid) && sid in s.sessions {
      var d := s.sessions[sid];
      DataIsSound(s, sid, cfg);
      FailRefines(d, r, token, cfg.maxRecords, cfg.maxTurns);
      var events := FailEvents(d, r, token, cfg);
      assert OneGrant(HistoryOf(s, sid), events);
      WriteKeeps(s, sid, Fail(d, r, token, cfg.maxRecords).0, events, cfg);
    }
  }

  lemma AppendOpKeeps(s: Store, task: Task, sid: Sid, body: string, cfg: Limits)
    requires Good(s, cfg)
    ensures Good(AppendOp(s, task, sid, body, cfg).0, cfg)
  {
    hide Good, GetOrCreate, RunEvents, Write;
    if IsHolder(s, task, sid) {
      GetOrCreateKeeps(s, task, sid, cfg);
      var t := GetOrCreate(s, sid, cfg.maxSessions);
      DataIsSound(t, sid, cfg);
      AppendRefines(DataOf(t, sid), body, cfg.maxTurns);
      WriteKeeps(t, sid, AppendTurn(DataOf(t, sid), body, cfg.maxTurns), [Appended(body)], cfg);
    }
  }

  lemma GetOpKeeps(s: Store, sid: Sid, limit: nat, cfg: Limits)
    requires Good(s, cfg)
    ensures Good(GetOp(s, sid, limit).0, cfg)
  {
    hide Safe, Told, NoRepeats;
    if sid in s.sessions {
      MoveKeepsOrder(s, sid);
      MovedTells(s, sid, cfg.maxTurns);
    }
  }

  lemma ClearOpKeeps(s: Store, task: Task, sid: Sid, cfg: Limits)
    requires Good(s, cfg)
    ensures Good(ClearOp(s, task, sid).0, cfg)
  {
    hide Safe, Told, NoRepeats;
    if IsHolder(s, task, sid) && sid in s.sessions {
      DropKeepsOrder(s, sid);
      DropTells(s, sid, cfg.maxTurns);
      DropShrinks(s, sid);
    }
  }

  // ------------------------------------------------------------------ a refused completion

  /** Eviction only drops: what stays is as it was, and whatever went was idle. */
  lemma {:induction false} EvictOnlyDrops(s: Store, maxSessions: nat)
    ensures var t := Evict(s, maxSessions);
      && (forall q | q in t.sessions :: q in s.sessions && t.sessions[q] == s.sessions[q])
      && (forall q | q in s.sessions && q !in t.sessions :: Lease(s.gate.leases, q) == 0)
      && t.gate.counters == s.gate.counters && t.gate.leases == s.gate.leases
    decreases |s.sessions|
  {
    if |s.sessions| > maxSessions {
      var victim := FirstIdle(s.order, s.gate.leases);
      if victim.Some? && victim.value in s.sessions {
        DropShrinks(s, victim.value);
        EvictOnlyDrops(EvictOne(s, victim.value), maxSessions);
      }
    }
  }

  /** The only difference is an empty session for the holder, and what had to go for it. */
  ghost predicate OnlyCreated(s: Store, t: Store, sid: Sid) {
    && sid !in s.sessions && sid in t.sessions && t.sessions[sid] == EMPTY
    && (forall q | q in t.sessions && q != sid :: q in s.sessions && t.sessions[q] == s.sessions[q])
    && (forall q | q in s.sessions && q !in t.sessions :: Lease(s.gate.leases, q) == 0)
  }

  /** A completion is refused exactly for want of the session or of the claim. It has then changed the sessions
      exactly when a holder's session was absent, by creating it empty. */
  lemma RefusedCompletionChangesExactly(s: Store, task: Task, sid: Sid, r: Request, token: Token, body: string, response: string, cfg: Limits)
    requires Good(s, cfg)
    ensures var (t, stored) := CompleteOp(s, task, sid, r, token, body, response, cfg);
      && (stored.None? <==> !IsHolder(s, task, sid) || !Owns(DataOf(s, sid), r, token))
      && (stored.None? ==>
            && (t.sessions != s.sessions <==> IsHolder(s, task, sid) && sid !in s.sessions)
            && (t.sessions != s.sessions ==> OnlyCreated(s, t, sid)))
  {
    hide Good, Evict, Owns, Put, TrimTo;
    if IsHolder(s, task, sid) {
      GetOrCreateKeeps(s, task, sid, cfg);
      if sid !in s.sessions {
        EvictOnlyDrops(s.(sessions := s.sessions[sid := EMPTY], order := s.order + [sid]), cfg.maxSessions);
      }
    }
  }

  // ------------------------------------------------------------------ what callers may rely on

  /** Every stored session is the ledger its history leads to, so the ledger's promises hold of it; its kept
      turns are the newest of all appended since it was created. */
  lemma EverySessionIsALedger(s: Store, sid: Sid, cfg: Limits)
    requires Good(s, cfg) && sid in s.sessions
    ensures LedgerOf(HistoryOf(s, sid), cfg.maxTurns) == Some(Abs(s.sessions[sid]))
    ensures s.sessions[sid].turns == Trim(AllTurns(HistoryOf(s, sid)), cfg.maxTurns)
    ensures s.sessions[sid].next == |AllTurns(HistoryOf(s, sid))| + 1
  {
    DataIsSound(s, sid, cfg);
    LogIsNewestTurns(HistoryOf(s, sid), cfg.maxTurns);
  }

  lemma TurnsOfEvents(h: seq<Event>, e: Event)
    ensures AllTurns(h + [e]) == TurnsAfter(AllTurns(h), e)
  {
    assert (h + [e])[..|h|] == h;
  }

  /** An append answers a holder with the turn it stored, the next of all turns of the session; anybody else is
      refused and nothing changes. */
  lemma AppendAnswersExactly(s: Store, task: Task, sid: Sid, body: string, cfg: Limits)
    requires Good(s, cfg)
    ensures var (t, stored) := AppendOp(s, task, sid, body, cfg);
      var before, after := AllTurns(HistoryOf(s, sid)), AllTurns(HistoryOf(t, sid));
      && (stored.Some? <==> IsHolder(s, task, sid)) && (stored.None? ==> t == s)
      && (stored.Some? ==> stored.value == Turn(|before| + 1, body) && after == before + [stored.value])
  {
    hide Good, GetOrCreate, AppendTurn, AllTurns;
    if IsHolder(s, task, sid) {
      GetOrCreateKeeps(s, task, sid, cfg);
      NextIsCount(GetOrCreate(s, sid, cfg.maxSessions), sid, cfg);
      TurnsOfEvents(HistoryOf(s, sid), Appended(body));
    }
  }

  lemma NextIsCount(s: Store, sid: Sid, cfg: Limits)
    requires Good(s, cfg)
    ensures DataOf(s, sid).next == |AllTurns(HistoryOf(s, sid))| + 1
  {
    DataIsSound(s, sid, cfg);
    LogIsNewestTurns(HistoryOf(s, sid), cfg.maxTurns);
  }

  /** A completion answers its owner with the turn it stored in the same way. */
  lemma CompleteAnswersExactly(s: Store, task: Task, sid: Sid, r: Request, token: Token, body: string, response: string, cfg: Limits)
    requires Good(s, cfg)
    ensures var (t, stored) := CompleteOp(s, task, sid, r, token, body, response, cfg);
      var before, after := AllTurns(HistoryOf(s, sid)), AllTurns(HistoryOf(t, sid));
      && (stored.Some? <==> IsHolder(s, task, sid) && Owns(DataOf(s, sid), r, token))
      && (stored.Some? ==> stored.value == Turn(|before| + 1, body) && after == before + [stored.value])
  {
    hide Good, GetOrCreate, AppendTurn, AllTurns, Owns, Put, TrimTo;
    if IsHolder(s, task, sid) {
      GetOrCreateKeeps(s, task, sid, cfg);
      var there := GetOrCreate(s, sid, cfg.maxSessions);
      NextIsCount(there, sid, cfg);
      if Owns(DataOf(s, sid), r, token) {
        var events := CompleteEvents(DataOf(there, sid), r, token, body, response, cfg);
        TurnsOfEvents(HistoryOf(s, sid), events[0]);
        TurnsOfEvents(HistoryOf(s, sid) + [events[0]], events[1]);
        assert HistoryOf(s, sid) + events == HistoryOf(s, sid) + [events[0]] + [events[1]];
      }
    }
  }

  /** A read answers with the newest of all turns, as many as are kept and asked for, and changes nothing but the
      order of use. */
  lemma GetAnswersExactly(s: Store, sid: Sid, limit: nat, cfg: Limits)
    requires Good(s, cfg)
    ensures var (t, turns) := GetOp(s, sid, limit);
      && turns == (if sid in s.sessions then Trim(Trim(AllTurns(HistoryOf(s, sid)), cfg.maxTurns), limit) else [])
      && t.(order := s.order) == s
  {
    hide Good;
    if sid in s.sessions { EverySessionIsALedger(s, sid, cfg); }
  }

  /** Clearing makes a held session new again and touches no other. */
  lemma ClearAnswersExactly(s: Store, task: Task, sid: Sid)
    ensures var (t, ok) := ClearOp(s, task, sid);
      && (ok <==> IsHolder(s, task, sid)) && (!ok ==> t == s)
      && (ok ==> sid !in t.sessions && forall q | q != sid :: DataOf(t, q) == DataOf(s, q) && HistoryOf(t, q) == HistoryOf(s, q))
      && t.gate == s.gate
  {}
}
