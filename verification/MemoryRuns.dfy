/** Whole runs of the in-memory store, and when a session's fencing counter starts again. */
module MemoryRuns {
  import opened Wrappers
  import opened SessionLedger
  import opened SessionLocks
  import opened MemorySession
  import opened MemoryStore

  datatype Op =
    | Arrives(txn: TxnId, task: Task, sid: Sid)
    | Acquires(txn: TxnId)
    | Leaves(txn: TxnId)
    | Begins(task: Task, sid: Sid, request: Request, payload: string, token: Token, now: nat)
    | Completes(task: Task, sid: Sid, request: Request, token: Token, body: string, response: string)
    | Fails(task: Task, sid: Sid, request: Request, token: Token)
    | Appends(task: Task, sid: Sid, body: string)
    | Reads(sid: Sid, limit: nat)
    | Clears(task: Task, sid: Sid)

  /** Transactions are entered once, locks are taken when free, and owner tokens are new. */
  predicate Possible(s: Store, op: Op) {
    match op
    case Arrives(txn, _, _) => txn !in s.gate.txns
    case Acquires(txn) => CanAcquire(s.gate, txn)
    case Leaves(txn) => txn in s.gate.txns
    case Begins(_, sid, r, payload, token, _) => FreshIn(HistoryOf(s, sid), Granted(r, payload, token))
    case _ => true
  }

  function Next(s: Store, op: Op, cfg: Limits): Store
    requires Possible(s, op)
  {
    match op
    case Arrives(txn, task, sid) => ArriveOp(s, txn, task, sid)
    case Acquires(txn) => AcquireOp(s, txn)
    case Leaves(txn) => LeaveOp(s, txn, cfg)
    case Begins(task, sid, r, payload, token, now) => BeginOp(s, task, sid, r, payload, token, now, cfg).0
    case Completes(task, sid, r, token, body, response) => CompleteOp(s, task, sid, r, token, body, response, cfg).0
    case Fails(task, sid, r, token) => FailOp(s, task, sid, r, token, cfg).0
    case Appends(task, sid, body) => AppendOp(s, task, sid, body, cfg).0
    case Reads(sid, limit) => GetOp(s, sid, limit).0
    case Clears(task, sid) => ClearOp(s, task, sid).0
  }

  /** Where a run of operations leads; None when one of them was not possible. */
  function Run(ops: seq<Op>, cfg: Limits): Option<Store> {
    if ops == [] then Some(NEW_STORE) else
      var before := Run(ops[..|ops| - 1], cfg);
      if before.None? || !Possible(before.value, ops[|ops| - 1]) then None else Some(Next(before.value, ops[|ops| - 1], cfg))
  }

  lemma StepIsGood(s: Store, op: Op, cfg: Limits)
    requires Good(s, cfg) && Possible(s, op)
    ensures Good(Next(s, op, cfg), cfg)
  {
    hide Good, ArriveOp, AcquireOp, LeaveOp, BeginOp, CompleteOp, FailOp, AppendOp, GetOp, ClearOp, FreshIn;
    match op
    case Arrives(txn, task, sid) => ArriveOpKeeps(s, txn, task, sid, cfg);
    case Acquires(txn) => AcquireOpKeeps(s, txn, cfg);
    case Leaves(txn) => LeaveOpKeeps(s, txn, cfg);
    case Begins(task, sid, r, payload, token, now) => BeginOpKeeps(s, task, sid, r, payload, token, now, cfg);
    case Completes(task, sid, r, token, body, response) => CompleteOpKeeps(s, task, sid, r, token, body, response, cfg);
    case Fails(task, sid, r, token) => FailOpKeeps(s, task, sid, r, token, cfg);
    case Appends(task, sid, body) => AppendOpKeeps(s, task, sid, body, cfg);
    case Reads(sid, limit) => GetOpKeeps(s, sid, limit, cfg);
    case Clears(task, sid) => ClearOpKeeps(s, task, sid, cfg);
  }

  /** Over every run, with tasks entering, waiting, being cancelled and leaving in any order: locks are safe,
      capacity holds or everything stored is leased, and every session is the ledger of its history. */
  lemma {:induction false} EveryRunIsGood(ops: seq<Op>, cfg: Limits)
    requires Run(ops, cfg).Some?
    ensures Good(Run(ops, cfg).value, cfg)
  {
    hide Good, Next, Possible;
    if ops == [] {
      NewStoreIsGood(cfg);
    } else {
      EveryRunIsGood(ops[..|ops| - 1], cfg);
      StepIsGood(Run(ops[..|ops| - 1], cfg).value, ops[|ops| - 1], cfg);
    }
  }

  // ------------------------------------------------------------------ fencing counters

  function Counter(s: Store, sid: Sid): nat { Lease(s.gate.counters, sid) }

  /** The counter of the session disappears or goes down. */
  predicate CounterFalls(s: Store, t: Store, sid: Sid) {
    sid in s.gate.counters && (sid !in t.gate.counters || t.gate.counters[sid] < s.gate.counters[sid])
  }

  /** The last one out of a session that has no data. */
  predicate Forgets(s: Store, op: Op, sid: Sid) {
    op.Leaves? && op.txn in s.gate.txns && s.gate.txns[op.txn].sid == sid && Inside(s.gate.txns, sid) == {op.txn} && sid !in s.sessions
  }

  lemma LeaveCounts(s: Store, txn: TxnId, sid: Sid, cfg: Limits)
    requires Safe(s.gate) && txn in s.gate.txns
    ensures var t := LeaveOp(s, txn, cfg);
      t.gate.counters == if Forgets(s, Leaves(txn), s.gate.txns[txn].sid) then s.gate.counters - {s.gate.txns[txn].sid} else s.gate.counters
  {
    hide Evict, OneLock, Exclusive, NoGhosts;
    var mine := s.gate.txns[txn].sid;
    assert txn in Inside(s.gate.txns, mine);
    OnlyMember(Inside(s.gate.txns, mine), txn);
    EvictOnlyDrops(s.(gate := Depart(Release(s.gate, txn), txn, mine in s.sessions)), cfg.maxSessions);
  }

  /** Data operations leave every counter alone. */
  lemma DataKeepsCounters(s: Store, op: Op, cfg: Limits)
    requires Possible(s, op) && !op.Arrives? && !op.Acquires? && !op.Leaves?
    ensures Next(s, op, cfg).gate.counters == s.gate.counters
  {
    hide Evict, Begin, BeginEvents, MemorySession.Complete, CompleteEvents, MemorySession.Fail, FailEvents, AppendTurn, FreshIn, HistoryOf;
    if op.Begins? || op.Completes? || op.Appends? {
      EvictOnlyDrops(s.(sessions := s.sessions[op.sid := EMPTY], order := s.order + [op.sid]), cfg.maxSessions);
    }
  }

  /** A session's counter falls exactly when the last one leaves it without data. */
  lemma CounterFallsExactly(s: Store, op: Op, sid: Sid, cfg: Limits)
    requires Good(s, cfg) && Possible(s, op)
    ensures CounterFalls(s, Next(s, op, cfg), sid) <==> sid in s.gate.counters && Forgets(s, op, sid)
    ensures !Forgets(s, op, sid) ==> Counter(s, sid) <= Counter(Next(s, op, cfg), sid)
  {
    hide Safe, InOrder, WithinCapacity, Told, LeaveOp, Inside, FreshIn;
    match op
    case Arrives(_, _, _) =>
    case Acquires(_) =>
    case Leaves(txn) => LeaveCounts(s, txn, sid, cfg);
    case _ => DataKeepsCounters(s, op, cfg);
  }

  lemma RunSnoc(ops: seq<Op>, s: Store, op: Op, cfg: Limits)
    requires Run(ops, cfg) == Some(s) && Possible(s, op)
    ensures Run(ops + [op], cfg) == Some(Next(s, op, cfg))
  {
    hide Next, Possible;
    assert (ops + [op])[..|ops|] == ops;
  }

  lemma {:induction false} RunPrefix(ops: seq<Op>, n: nat, cfg: Limits)
    requires Run(ops, cfg).Some? && n <= |ops|
    ensures Run(ops[..n], cfg).Some? && (n < |ops| ==> Possible(Run(ops[..n], cfg).value, ops[n]))
    decreases |ops|
  {
    hide Next, Possible;
    if n == |ops| {
      assert ops[..n] == ops;
    } else {
      assert ops[..|ops| - 1][..n] == ops[..n];
      RunPrefix(ops[..|ops| - 1], n, cfg);
    }
  }

  /** Nobody forgets the session from the n-th operation on. */
  ghost predicate Remembered(ops: seq<Op>, n: nat, sid: Sid, cfg: Limits) {
    forall k | n <= k < |ops| && Run(ops[..k], cfg).Some? :: !Forgets(Run(ops[..k], cfg).value, ops[k], sid)
  }

  lemma {:induction false} CounterGrows(ops: seq<Op>, n: nat, sid: Sid, cfg: Limits)
    requires Run(ops, cfg).Some? && n <= |ops| && Remembered(ops, n, sid, cfg) && Run(ops[..n], cfg).Some?
    ensures Counter(Run(ops[..n], cfg).value, sid) <= Counter(Run(ops, cfg).value, sid)
    decreases |ops|
  {
    hide Next, Possible, Good, Counter, Forgets;
    if n == |ops| {
      assert ops[..n] == ops;
    } else {
      var m := |ops| - 1;
      assert ops[..m][..n] == ops[..n];
      assert Remembered(ops[..m], n, sid, cfg) by {
        forall k | n <= k < m && Run(ops[..m][..k], cfg).Some? ensures !Forgets(Run(ops[..m][..k], cfg).value, ops[..m][k], sid) {
          assert ops[..m][..k] == ops[..k];
        }
      }
      CounterGrows(ops[..m], n, sid, cfg);
      EveryRunIsGood(ops[..m], cfg);
      CounterFallsExactly(Run(ops[..m], cfg).value, ops[m], sid, cfg);
    }
  }

  /** The token a transaction draws when it acquires its lock. */
  function Drawn(s: Store, txn: TxnId): nat
    requires txn in s.gate.txns
  {
    Counter(s, s.gate.txns[txn].sid) + 1
  }

  lemma AcquireDraws(s: Store, txn: TxnId, cfg: Limits)
    requires CanAcquire(s.gate, txn)
    ensures var t, sid := Next(s, Acquires(txn), cfg), s.gate.txns[txn].sid;
      Counter(t, sid) == Drawn(s, txn) && sid in t.gate.tokens && t.gate.tokens[sid] == Drawn(s, txn)
  {}

  /** Two acquisitions of one session draw increasing tokens, unless it was forgotten between them. */
  lemma TokensIncreaseUnlessForgotten(ops: seq<Op>, i: nat, a: TxnId, b: TxnId, cfg: Limits)
    requires Run(ops, cfg).Some? && i < |ops| && ops[i] == Acquires(a) && CanAcquire(Run(ops, cfg).value.gate, b)
    requires Run(ops[..i], cfg).Some? && CanAcquire(Run(ops[..i], cfg).value.gate, a)
    requires Run(ops[..i], cfg).value.gate.txns[a].sid == Run(ops, cfg).value.gate.txns[b].sid
    requires Remembered(ops, i + 1, Run(ops, cfg).value.gate.txns[b].sid, cfg)
    ensures Drawn(Run(ops[..i], cfg).value, a) < Drawn(Run(ops, cfg).value, b)
  {
    hide Remembered, Counter, Run, Next, Possible;
    RunPrefix(ops, i + 1, cfg);
    RunPrefix(ops, i, cfg);
    RunSnoc(ops[..i], Run(ops[..i], cfg).value, ops[i], cfg);
    assert ops[..i] + [ops[i]] == ops[..i + 1];
    AcquireDraws(Run(ops[..i], cfg).value, a, cfg);
    CounterGrows(ops, i + 1, Run(ops, cfg).value.gate.txns[b].sid, cfg);
  }

  /** Exactly the sessions somebody holds have a current token, and it is the last one drawn. */
  ghost predicate TokensHeld(g: Gate) {
    forall sid ::
      && (sid in g.tokens <==> sid in g.holders)
      && (sid in g.tokens ==> sid in g.counters && g.tokens[sid] == g.counters[sid])
  }

  lemma ReleaseKeepsTokens(g: Gate, txn: TxnId)
    requires TokensHeld(g) && txn in g.txns
    ensures TokensHeld(Release(g, txn))
  {}

  lemma DepartKeepsTokens(g: Gate, txn: TxnId, stored: bool)
    requires TokensHeld(g) && txn in g.txns && (Lease(g.leases, g.txns[txn].sid) <= 1 ==> g.txns[txn].sid !in g.holders)
    ensures TokensHeld(Depart(g, txn, stored))
  {}

  lemma LeaveKeepsTokens(s: Store, txn: TxnId, cfg: Limits)
    requires Safe(s.gate) && TokensHeld(s.gate) && txn in s.gate.txns
    ensures TokensHeld(LeaveOp(s, txn, cfg).gate)
  {
    hide Evict, Safe, Depart, TokensHeld;
    var g := Release(s.gate, txn);
    var left := Depart(g, txn, s.gate.txns[txn].sid in s.sessions);
    ReleaseKeeps(s.gate, txn);
    ReleaseKeepsTokens(s.gate, txn);
    if Lease(g.leases, g.txns[txn].sid) <= 1 { AloneHoldsNothing(g, txn); }
    DepartKeepsTokens(g, txn, s.gate.txns[txn].sid in s.sessions);
    EvictOnlyDrops(s.(gate := left), cfg.maxSessions);
    EvictKeepsHolders(s.(gate := left), cfg.maxSessions);
    SameTokensHeld(left, Evict(s.(gate := left), cfg.maxSessions).gate);
  }

  lemma SameTokensHeld(g: Gate, h: Gate)
    requires TokensHeld(g) && h.holders == g.holders && h.tokens == g.tokens && h.counters == g.counters
    ensures TokensHeld(h)
  {}

  lemma {:induction false} EvictKeepsHolders(s: Store, maxSessions: nat)
    ensures var t := Evict(s, maxSessions); t.gate.holders == s.gate.holders && t.gate.tokens == s.gate.tokens
    decreases |s.sessions|
  {
    if |s.sessions| > maxSessions {
      var victim := FirstIdle(s.order, s.gate.leases);
      if victim.Some? && victim.value in s.sessions {
        DropShrinks(s, victim.value);
        EvictKeepsHolders(EvictOne(s, victim.value), maxSessions);
      }
    }
  }

  lemma AloneHoldsNothing(g: Gate, txn: TxnId)
    requires Safe(g) && txn in g.txns && !g.txns[txn].holding && Lease(g.leases, g.txns[txn].sid) <= 1
    ensures g.txns[txn].sid !in g.holders
  {
    hide OneLock, Exclusive, LeasesCount;
    DepartCounts(g, txn, true);
  }

  lemma DataKeepsTokens(s: Store, op: Op, cfg: Limits)
    requires Possible(s, op) && !op.Arrives? && !op.Acquires? && !op.Leaves?
    ensures Next(s, op, cfg).gate.holders == s.gate.holders && Next(s, op, cfg).gate.tokens == s.gate.tokens
  {
    hide Evict, Begin, BeginEvents, MemorySession.Complete, CompleteEvents, MemorySession.Fail, FailEvents, AppendTurn, FreshIn, HistoryOf;
    if op.Begins? || op.Completes? || op.Appends? {
      EvictKeepsHolders(s.(sessions := s.sessions[op.sid := EMPTY], order := s.order + [op.sid]), cfg.maxSessions);
    }
  }

  lemma {:induction false} TokensBelongToHolders(ops: seq<Op>, cfg: Limits)
    requires Run(ops, cfg).Some?
    ensures TokensHeld(Run(ops, cfg).value.gate)
  {
    hide Good, Next, Possible;
    if ops != [] {
      var before, op := ops[..|ops| - 1], ops[|ops| - 1];
      TokensBelongToHolders(before, cfg);
      EveryRunIsGood(before, cfg);
      StepKeepsTokens(Run(before, cfg).value, op, cfg);
    }
  }

  lemma StepKeepsTokens(s: Store, op: Op, cfg: Limits)
    requires Good(s, cfg) && Possible(s, op) && TokensHeld(s.gate)
    ensures TokensHeld(Next(s, op, cfg).gate)
  {
    hide Safe, InOrder, WithinCapacity, Told, LeaveOp, FreshIn;
    match op
    case Arrives(_, _, _) =>
    case Acquires(_) =>
    case Leaves(txn) => LeaveKeepsTokens(s, txn, cfg);
    case _ =>
      DataKeepsTokens(s, op, cfg);
      DataKeepsCounters(s, op, cfg);
  }

  const ENTER_AND_LEAVE: seq<Op> := [Arrives(1, 1, 7), Acquires(1), Leaves(1), Arrives(2, 2, 7)]

  /** A session that was entered and left without storing anything draws its first token again. */
  lemma SameTokenTwice(cfg: Limits)
    ensures var first, second := Run(ENTER_AND_LEAVE[..1], cfg), Run(ENTER_AND_LEAVE, cfg);
      && first.Some? && second.Some? && CanAcquire(first.value.gate, 1) && CanAcquire(second.value.gate, 2)
      && first.value.gate.txns[1].sid == second.value.gate.txns[2].sid == 7
      && Drawn(first.value, 1) == Drawn(second.value, 2) == 1
  {
    hide Run, Next, Possible;
    var s1, s2, s3, s4 := FirstVisit(cfg);
    var ops := ENTER_AND_LEAVE;
    assert ops[..1] == [] + [Arrives(1, 1, 7)] && ops[..2] == ops[..1] + [Acquires(1)];
    assert ops[..3] == ops[..2] + [Leaves(1)] && ops == ops[..3] + [Arrives(2, 2, 7)];
    assert Run([], cfg) == Some(NEW_STORE) by { RunOfNothing(cfg); }
    RunSnoc([], NEW_STORE, Arrives(1, 1, 7), cfg);
    RunSnoc(ops[..1], s1, Acquires(1), cfg);
    RunSnoc(ops[..2], s2, Leaves(1), cfg);
    RunSnoc(ops[..3], s3, Arrives(2, 2, 7), cfg);
  }

  lemma RunOfNothing(cfg: Limits)
    ensures Run([], cfg) == Some(NEW_STORE)
  {}

  /** The three steps of a visit that stores nothing, and the arrival after it. */
  lemma FirstVisit(cfg: Limits) returns (s1: Store, s2: Store, s3: Store, s4: Store)
    ensures
      && Possible(NEW_STORE, Arrives(1, 1, 7)) && Next(NEW_STORE, Arrives(1, 1, 7), cfg) == s1
      && Possible(s1, Acquires(1)) && Next(s1, Acquires(1), cfg) == s2
      && Possible(s2, Leaves(1)) && Next(s2, Leaves(1), cfg) == s3
      && Possible(s3, Arrives(2, 2, 7)) && Next(s3, Arrives(2, 2, 7), cfg) == s4
      && CanAcquire(s1.gate, 1) && CanAcquire(s4.gate, 2) && Drawn(s1, 1) == Drawn(s4, 2) == 1
      && s1.gate.txns[1].sid == s4.gate.txns[2].sid == 7
  {
    s1 := ArriveOp(NEW_STORE, 1, 1, 7);
    s2 := AcquireOp(s1, 1);
    s3 := LeaveOp(s2, 1, cfg);
    s4 := ArriveOp(s3, 2, 2, 7);
    var g := Depart(Release(s2.gate, 1), 1, false);
    assert g.txns == map[] && g.counters == map[] && g.locked == {};
    NothingToEvict(s2.(gate := g), cfg);
  }

  lemma NothingToEvict(s: Store, cfg: Limits)
    requires s.sessions == map[]
    ensures Evict(s, cfg.maxSessions) == s
  {}
}
