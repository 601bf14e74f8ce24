/** Least recently used: what the order of the in-memory store means over whole runs, and which session goes
    when there are too many. */
module MemoryRecency {
  import opened Wrappers
  import opened SessionLedger
  import opened SessionLocks
  import opened MemorySession
  import opened MemoryStore
  import opened MemoryRuns

  /** Whether an operation uses a session: it reads a stored one, or works on one as its holder. */
  predicate Uses(s: Store, op: Op, sid: Sid) {
    match op
    case Begins(task, q, _, _, _, _) => q == sid && IsHolder(s, task, sid)
    case Completes(task, q, _, _, _, _) => q == sid && IsHolder(s, task, sid)
    case Appends(task, q, _) => q == sid && IsHolder(s, task, sid)
    case Reads(q, _) => q == sid && sid in s.sessions
    case _ => false
  }

  /** The number of the last operation that used the session, zero for never. */
  function LastUse(ops: seq<Op>, cfg: Limits, sid: Sid): (n: nat)
    ensures n <= |ops|
  {
    if ops == [] then 0 else
      var before := Run(ops[..|ops| - 1], cfg);
      if before.Some? && Uses(before.value, ops[|ops| - 1], sid) then |ops| else LastUse(ops[..|ops| - 1], cfg, sid)
  }

  // ------------------------------------------------------------------ eviction

  lemma FirstIdleIsBefore(order: seq<Sid>, leases: map<Sid, nat>, victim: Sid, p: Sid)
    requires FirstIdleOf(order, leases, victim) && p in order && p != victim && Lease(leases, p) == 0
    ensures Before(order, victim, p)
  {
    var k :| 0 <= k < |order| && order[k] == victim && forall j | 0 <= j < k :: Lease(leases, order[j]) > 0;
    var j :| 0 <= j < |order| && order[j] == p;
    assert k < j;
  }

  /** Eviction takes idle sessions only, each before every idle one that stays, and no more than it has to; the
      others keep their order. */
  lemma {:induction false} EvictsOldest(s: Store, maxSessions: nat)
    requires InOrder(s.sessions, s.order)
    ensures var t := Evict(s, maxSessions);
      && (forall a, b | Before(t.order, a, b) :: Before(s.order, a, b))
      && (forall q, p | q in s.sessions && q !in t.sessions && p in t.sessions && Lease(s.gate.leases, p) == 0 :: Before(s.order, q, p))
      && (t.sessions != s.sessions ==> |t.sessions| >= maxSessions && |s.sessions| > maxSessions)
      && InOrder(t.sessions, t.order)
    decreases |s.sessions|
  {
    hide Before;
    if |s.sessions| > maxSessions {
      var victim := FirstIdle(s.order, s.gate.leases);
      if victim.Some? {
        var v := victim.value;
        DropShrinks(s, v);
        DropKeepsOrder(s, v);
        var next := EvictOne(s, v);
        EvictsOldest(next, maxSessions);
        EvictOnlyDrops(next, maxSessions);
        DropsOne(s, v);
        forall a, b ensures Before(next.order, a, b) <==> Before(s.order, a, b) && a != v && b != v { WithoutKeepsBefore(s.order, v, a, b); }
        var t := Evict(s, maxSessions);
        forall q, p | q in s.sessions && q !in t.sessions && p in t.sessions && Lease(s.gate.leases, p) == 0 ensures Before(s.order, q, p) {
          if q == v { FirstIdleIsBefore(s.order, s.gate.leases, v, p); }
        }
      }
    }
  }

  lemma DropsOne(s: Store, sid: Sid)
    requires sid in s.sessions
    ensures |EvictOne(s, sid).sessions| == |s.sessions| - 1
  {
    var m := s.sessions - {sid};
    assert m.Keys == s.sessions.Keys - {sid};
    assert |s.sessions.Keys| == |s.sessions| && |m.Keys| == |m|;
  }

  // ------------------------------------------------------------------ one operation

  /** Nothing comes after a session that was just used, and the others keep their order. */
  ghost predicate Refreshed(s: Store, t: Store, op: Op) {
    forall a, b | Before(t.order, a, b) :: Uses(s, op, b) || (Before(s.order, a, b) && !Uses(s, op, a))
  }

  lemma MovedRefreshes(s: Store, sid: Sid, a: Sid, b: Sid)
    requires Before(MoveToEnd(s, sid).order, a, b)
    ensures a != sid && (b == sid || Before(s.order, a, b))
  {
    BeforeSnoc(Without(s.order, sid), sid, a, b);
    WithoutKeepsBefore(s.order, sid, a, b);
    hide Before;
  }

  /** The session a holder asks for is last; the others keep their order. */
  lemma GetOrCreateRefreshes(s: Store, sid: Sid, cfg: Limits, a: Sid, b: Sid)
    requires InOrder(s.sessions, s.order) && Before(GetOrCreate(s, sid, cfg.maxSessions).order, a, b)
    ensures a != sid && (b == sid || Before(s.order, a, b))
  {
    hide Before, Evict;
    if sid in s.sessions {
      MovedRefreshes(s, sid, a, b);
    } else {
      var created := s.(sessions := s.sessions[sid := EMPTY], order := s.order + [sid]);
      NoRepeatsSnoc(s.order, sid);
      EvictsOldest(created, cfg.maxSessions);
      MovedRefreshes(Evict(created, cfg.maxSessions), sid, a, b);
      BeforeSnoc(s.order, sid, a, b);
    }
  }

  lemma HolderOpRefreshes(s: Store, op: Op, cfg: Limits)
    requires Good(s, cfg) && Possible(s, op) && (op.Begins? || op.Completes? || op.Appends?)
    ensures Refreshed(s, Next(s, op, cfg), op)
  {
    hide Before, GetOrCreate, Safe, Told, WithinCapacity, Begin, BeginEvents, MemorySession.Complete, CompleteEvents, AppendTurn, Owns, NoRepeats;
    var t := Next(s, op, cfg);
    forall a, b | Before(t.order, a, b) ensures Uses(s, op, b) || (Before(s.order, a, b) && !Uses(s, op, a)) {
      if IsHolder(s, op.task, op.sid) { GetOrCreateRefreshes(s, op.sid, cfg, a, b); }
    }
  }

  lemma OtherOpRefreshes(s: Store, op: Op, cfg: Limits)
    requires Good(s, cfg) && Possible(s, op) && !(op.Begins? || op.Completes? || op.Appends?)
    ensures Refreshed(s, Next(s, op, cfg), op)
  {
    hide Before, Evict, Safe, Told, WithinCapacity, MemorySession.Fail, FailEvents, Depart;
    var t := Next(s, op, cfg);
    forall a, b | Before(t.order, a, b) ensures Uses(s, op, b) || (Before(s.order, a, b) && !Uses(s, op, a)) {
      match op
      case Leaves(txn) => EvictsOldest(s.(gate := Depart(Release(s.gate, txn), txn, s.gate.txns[txn].sid in s.sessions)), cfg.maxSessions);
      case Reads(sid, _) => if sid in s.sessions { MovedRefreshes(s, sid, a, b); }
      case Clears(_, sid) => WithoutKeepsBefore(s.order, sid, a, b);
      case _ =>
    }
  }

  lemma StepRefreshes(s: Store, op: Op, cfg: Limits)
    requires Good(s, cfg) && Possible(s, op)
    ensures Refreshed(s, Next(s, op, cfg), op)
  {
    hide Good, Possible, Next, Refreshed;
    if op.Begins? || op.Completes? || op.Appends? { HolderOpRefreshes(s, op, cfg); } else { OtherOpRefreshes(s, op, cfg); }
  }

  // ------------------------------------------------------------------ over every run

  /** Of two stored sessions the one that comes first was last used earlier. */
  lemma {:induction false} OrderIsRecency(ops: seq<Op>, cfg: Limits, a: Sid, b: Sid)
    requires Run(ops, cfg).Some? && Before(Run(ops, cfg).value.order, a, b)
    ensures LastUse(ops, cfg, a) < LastUse(ops, cfg, b)
  {
    hide Before, Next, Possible, Good, Uses;
    EveryRunIsGood(ops, cfg);
    GoodOrder(Run(ops, cfg).value, cfg);
    BeforeAreMembers(Run(ops, cfg).value.order, a, b);
    if ops == [] {
      NothingStored(cfg, a);
    } else {
      var before, op := ops[..|ops| - 1], ops[|ops| - 1];
      var s := Run(before, cfg).value;
      EveryRunIsGood(before, cfg);
      StepRefreshes(s, op, cfg);
      if Uses(s, op, b) {
        if Uses(s, op, a) { OneIsUsed(s, op, a, b); }
      } else {
        OrderIsRecency(before, cfg, a, b);
      }
    }
  }

  lemma NothingStored(cfg: Limits, sid: Sid)
    ensures Run([], cfg).Some? && sid !in Run([], cfg).value.order
  {}

  lemma GoodOrder(s: Store, cfg: Limits)
    requires Good(s, cfg)
    ensures InOrder(s.sessions, s.order)
  {
    hide Safe, Told, WithinCapacity;
  }

  lemma OneIsUsed(s: Store, op: Op, a: Sid, b: Sid)
    requires Uses(s, op, a) && Uses(s, op, b)
    ensures a == b
  {}

  // ------------------------------------------------------------------ which session goes

  /** A session that was dropped, not cleared: evicted to make room. */
  ghost predicate Evicted(s: Store, op: Op, t: Store, q: Sid) {
    q in s.sessions && q !in t.sessions && !op.Clears?
  }

  /** A stored session that nobody is inside of, after the operation as before it. */
  ghost predicate StaysIdle(t: Store, p: Sid) { p in t.sessions && Lease(t.gate.leases, p) == 0 }

  ghost predicate EvictsInOrder(s: Store, op: Op, t: Store, cfg: Limits) {
    forall q | Evicted(s, op, t, q) ::
      && Lease(t.gate.leases, q) == 0 && |t.sessions| >= cfg.maxSessions
      && (forall p | StaysIdle(t, p) :: Before(s.order, q, p))
  }

  lemma CreatingEvicts(s: Store, op: Op, sid: Sid, cfg: Limits)
    requires InOrder(s.sessions, s.order) && sid !in s.sessions && Lease(s.gate.leases, sid) > 0 && !op.Clears?
    ensures EvictsInOrder(s, op, GetOrCreate(s, sid, cfg.maxSessions), cfg)
  {
    hide Before, Evict;
    var created := s.(sessions := s.sessions[sid := EMPTY], order := s.order + [sid]);
    NoRepeatsSnoc(s.order, sid);
    EvictsOldest(created, cfg.maxSessions);
    EvictOnlyDrops(created, cfg.maxSessions);
    forall q, p ensures Before(created.order, q, p) <==> Before(s.order, q, p) || (q in s.order && p == sid) { BeforeSnoc(s.order, sid, q, p); }
  }

  lemma WriteEvictsNothing(s: Store, sid: Sid, d: Data, events: seq<Event>)
    requires sid in s.sessions
    ensures Write(s, sid, d, events).sessions.Keys == s.sessions.Keys && Write(s, sid, d, events).gate == s.gate
    ensures |Write(s, sid, d, events).sessions| == |s.sessions|
  {
    var m := s.sessions[sid := d];
    assert m.Keys == s.sessions.Keys;
    assert |m.Keys| == |m| && |s.sessions.Keys| == |s.sessions|;
  }

  lemma HolderOpEvicts(s: Store, op: Op, cfg: Limits)
    requires Good(s, cfg) && Possible(s, op) && (op.Begins? || op.Completes? || op.Appends?)
    ensures EvictsInOrder(s, op, Next(s, op, cfg), cfg)
  {
    hide EvictsInOrder, GetOrCreate, Good, Next, Possible;
    if IsHolder(s, op.task, op.sid) {
      GoodOrder(s, cfg);
      GetOrCreateKeeps(s, op.task, op.sid, cfg);
      HolderHasLease(s, op.task, op.sid, cfg);
      var there := GetOrCreate(s, op.sid, cfg.maxSessions);
      if op.sid !in s.sessions {
        CreatingEvicts(s, op, op.sid, cfg);
      } else {
        GettingEvictsNothing(s, op.sid, cfg);
        NothingEvicted(s, op, there, cfg);
      }
      HolderOpWrites(s, op, cfg);
      SameEvicted(s, op, there, Next(s, op, cfg), cfg);
    } else {
      StrangersChangeNothing(s, op, cfg);
      NothingEvicted(s, op, s, cfg);
    }
  }

  lemma NothingEvicted(s: Store, op: Op, t: Store, cfg: Limits)
    requires t.sessions == s.sessions
    ensures EvictsInOrder(s, op, t, cfg)
  {}

  lemma SameEvicted(s: Store, op: Op, t: Store, u: Store, cfg: Limits)
    requires EvictsInOrder(s, op, t, cfg) && SameStored(t, u)
    ensures EvictsInOrder(s, op, u, cfg)
  {
    hide Before;
    forall q | Evicted(s, op, u, q)
      ensures Lease(u.gate.leases, q) == 0 && |u.sessions| >= cfg.maxSessions && forall p | StaysIdle(u, p) :: Before(s.order, q, p)
    {
      assert q !in t.sessions.Keys && Evicted(s, op, t, q);
      forall p | StaysIdle(u, p) ensures Before(s.order, q, p) { assert p in t.sessions.Keys && StaysIdle(t, p); }
    }
  }

  lemma StrangersChangeNothing(s: Store, op: Op, cfg: Limits)
    requires Possible(s, op) && (op.Begins? || op.Completes? || op.Appends?) && !IsHolder(s, op.task, op.sid)
    ensures Next(s, op, cfg) == s
  {
    hide FreshIn;
  }

  ghost predicate SameStored(s: Store, t: Store) { t.sessions.Keys == s.sessions.Keys && |t.sessions| == |s.sessions| && t.gate == s.gate }

  /** After fetching its session a holder's operation writes at most into it. */
  lemma HolderOpWrites(s: Store, op: Op, cfg: Limits)
    requires Good(s, cfg) && Possible(s, op) && (op.Begins? || op.Completes? || op.Appends?) && IsHolder(s, op.task, op.sid)
    requires op.sid in GetOrCreate(s, op.sid, cfg.maxSessions).sessions
    ensures SameStored(GetOrCreate(s, op.sid, cfg.maxSessions), Next(s, op, cfg))
  {
    hide GetOrCreate, Good, Write, Begin, BeginEvents, Put, TrimTo, CompleteEvents, AppendTurn, Owns, FreshIn;
    var there := GetOrCreate(s, op.sid, cfg.maxSessions);
    var d := DataOf(there, op.sid);
    match op
    case Begins(_, sid, r, payload, token, now) =>
      WriteEvictsNothing(there, sid, Begin(d, r, payload, token, now, cfg.ttl, cfg.maxRecords).0,
                         BeginEvents(d, r, payload, token, now, cfg.ttl, cfg.maxRecords));
    case Completes(_, sid, r, token, body, response) =>
      var e := MemorySession.Complete(d, r, token, body, response, cfg.maxTurns, cfg.maxRecords);
      if e.Some? {
        WriteEvictsNothing(there, sid, e.value, CompleteEvents(d, r, token, body, response, cfg));
      }
    case Appends(_, sid, body) => WriteEvictsNothing(there, sid, AppendTurn(d, body, cfg.maxTurns), [Appended(body)]);
  }

  lemma GettingEvictsNothing(s: Store, sid: Sid, cfg: Limits)
    requires sid in s.sessions
    ensures GetOrCreate(s, sid, cfg.maxSessions).sessions == s.sessions
  {}

  lemma HolderHasLease(s: Store, task: Task, sid: Sid, cfg: Limits)
    requires Good(s, cfg) && IsHolder(s, task, sid)
    ensures Lease(s.gate.leases, sid) > 0
  {
    HolderIsLeased(s, task, sid);
    LeasedMeansCounted(s.gate, sid);
  }

  lemma OtherOpEvicts(s: Store, op: Op, cfg: Limits)
    requires Good(s, cfg) && Possible(s, op) && !(op.Begins? || op.Completes? || op.Appends?)
    ensures EvictsInOrder(s, op, Next(s, op, cfg), cfg)
  {
    hide Before, Evict, Safe, Told, WithinCapacity, MemorySession.Fail, FailEvents, Depart;
    if op.Leaves? {
      var left := s.(gate := Depart(Release(s.gate, op.txn), op.txn, s.gate.txns[op.txn].sid in s.sessions));
      EvictsOldest(left, cfg.maxSessions);
      EvictOnlyDrops(left, cfg.maxSessions);
    }
  }

  /** Capacity takes the least recently used: a session is evicted only while it is idle and only down to the
      capacity, and it was last used earlier than every idle session that stays. */
  lemma EvictedIsLeastRecent(ops: seq<Op>, op: Op, cfg: Limits)
    requires Run(ops, cfg).Some? && Possible(Run(ops, cfg).value, op)
    ensures var s := Run(ops, cfg).value;
      var t := Next(s, op, cfg);
      forall q | Evicted(s, op, t, q) ::
        && Lease(t.gate.leases, q) == 0 && |t.sessions| >= cfg.maxSessions
        && forall p | StaysIdle(t, p) :: LastUse(ops, cfg, q) < LastUse(ops, cfg, p)
  {
    hide Before, Good, Possible, Next, Run, LastUse;
    var s := Run(ops, cfg).value;
    EveryRunIsGood(ops, cfg);
    if op.Begins? || op.Completes? || op.Appends? { HolderOpEvicts(s, op, cfg); } else { OtherOpEvicts(s, op, cfg); }
    var t := Next(s, op, cfg);
    forall q, p | Evicted(s, op, t, q) && StaysIdle(t, p) ensures LastUse(ops, cfg, q) < LastUse(ops, cfg, p) {
      OrderIsRecency(ops, cfg, q, p);
    }
  }

  /** Every stored session was used, and creating one is a use. */
  lemma {:induction false} StoredWasUsed(ops: seq<Op>, cfg: Limits, sid: Sid)
    requires Run(ops, cfg).Some? && sid in Run(ops, cfg).value.sessions
    ensures LastUse(ops, cfg, sid) > 0
  {
    hide Next, Possible, Good, Uses;
    if ops != [] {
      var before, op := ops[..|ops| - 1], ops[|ops| - 1];
      var s := Run(before, cfg).value;
      EveryRunIsGood(before, cfg);
      if sid in s.sessions { StoredWasUsed(before, cfg, sid); } else { CreatedByUse(s, op, cfg, sid); }
    }
  }

  lemma CreatedByUse(s: Store, op: Op, cfg: Limits, sid: Sid)
    requires Good(s, cfg) && Possible(s, op) && sid !in s.sessions && sid in Next(s, op, cfg).sessions
    ensures Uses(s, op, sid)
  {
    hide Evict, Good, Begin, BeginEvents, MemorySession.Complete, CompleteEvents, MemorySession.Fail, FailEvents, AppendTurn, Owns, Without;
    if op.Begins? || op.Completes? || op.Appends? {
      EvictOnlyDrops(s.(sessions := s.sessions[op.sid := EMPTY], order := s.order + [op.sid]), cfg.maxSessions);
    } else if op.Leaves? {
      EvictOnlyDrops(s.(gate := Depart(Release(s.gate, op.txn), op.txn, s.gate.txns[op.txn].sid in s.sessions)), cfg.maxSessions);
    }
  }
}
