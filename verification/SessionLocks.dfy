/** Who is inside a session's transaction: lock objects, leases and holders of the in-memory store. */
module SessionLocks {
  type Sid = nat
  type Task = nat
  type TxnId = nat
  type LockId = nat

  /** One `async with transaction(...)`: it keeps the lock object it found when it arrived. */
  datatype Txn = Txn(task: Task, sid: Sid, lock: LockId, holding: bool)

  /** `locked` is the state of the lock objects, `txns` the coroutines between entry and exit. */
  datatype Gate = Gate(
    locks: map<Sid, LockId>,
    leases: map<Sid, nat>,
    holders: map<Sid, Task>,
    counters: map<Sid, nat>,
    tokens: map<Sid, nat>,
    locked: set<LockId>,
    txns: map<TxnId, Txn>,
    nextLock: LockId)

  const OPEN := Gate(map[], map[], map[], map[], map[], {}, map[], 0)

  function Lease(leases: map<Sid, nat>, sid: Sid): nat { if sid in leases then leases[sid] else 0 }

  function LockFor(g: Gate, sid: Sid): LockId { if sid in g.locks then g.locks[sid] else g.nextLock }

  /** Entry: take or create the lock object, count the lease. */
  function Arrive(g: Gate, txn: TxnId, task: Task, sid: Sid): Gate {
    g.(locks := g.locks[sid := LockFor(g, sid)],
       nextLock := if sid in g.locks then g.nextLock else g.nextLock + 1,
       leases := g.leases[sid := Lease(g.leases, sid) + 1],
       txns := g.txns[txn := Txn(task, sid, LockFor(g, sid), false)])
  }

  predicate CanAcquire(g: Gate, txn: TxnId) {
    txn in g.txns && !g.txns[txn].holding && g.txns[txn].lock !in g.locked
  }

  function Acquire(g: Gate, txn: TxnId): Gate
    requires txn in g.txns
  {
    var t := g.txns[txn];
    var token := Lease(g.counters, t.sid) + 1;
    g.(locked := g.locked + {t.lock}, holders := g.holders[t.sid := t.task], txns := g.txns[txn := t.(holding := true)],
       counters := g.counters[t.sid := token], tokens := g.tokens[t.sid := token])
  }

  /** The holder's part of the exit. */
  function Release(g: Gate, txn: TxnId): Gate
    requires txn in g.txns
  {
    var t := g.txns[txn];
    if !t.holding then g else
      g.(holders := g.holders - {t.sid}, tokens := g.tokens - {t.sid}, locked := g.locked - {t.lock},
         txns := g.txns[txn := t.(holding := false)])
  }

  /** The lease's part of the exit; the last one out of a session without data drops its lock object. */
  function Depart(g: Gate, txn: TxnId, stored: bool): Gate
    requires txn in g.txns
  {
    var sid := g.txns[txn].sid;
    var gone := g.(txns := g.txns - {txn});
    if Lease(g.leases, sid) > 1 then gone.(leases := g.leases[sid := g.leases[sid] - 1])
    else if stored then gone.(leases := g.leases - {sid})
    else gone.(leases := g.leases - {sid}, locks := g.locks - {sid}, counters := g.counters - {sid})
  }

  /** Eviction of an idle session drops its lock object. */
  function Forget(g: Gate, sid: Sid): Gate { g.(locks := g.locks - {sid}) }

  // ------------------------------------------------------------------ the invariant

  function Inside(txns: map<TxnId, Txn>, sid: Sid): set<TxnId> { set t | t in txns && txns[t].sid == sid }

  /** The lease count of a session is the number of its holders and waiters. */
  ghost predicate LeasesCount(leases: map<Sid, nat>, txns: map<TxnId, Txn>) {
    forall sid :: (sid in leases <==> Inside(txns, sid) != {}) && Lease(leases, sid) == |Inside(txns, sid)|
  }

  /** Everyone inside a session waits for or holds the lock object the table names. */
  ghost predicate OneLock(locks: map<Sid, LockId>, txns: map<TxnId, Txn>, nextLock: LockId) {
    && (forall t | t in txns :: txns[t].sid in locks && locks[txns[t].sid] == txns[t].lock)
    && (forall a, b | a in locks && b in locks && a != b :: locks[a] != locks[b])
    && (forall sid | sid in locks :: locks[sid] < nextLock)
  }

  ghost predicate Holds(txns: map<TxnId, Txn>, t: TxnId) { t in txns && txns[t].holding }

  /** A holder has its lock object locked and is the one the table names; nobody else holds the session. */
  ghost predicate Exclusive(locked: set<LockId>, holders: map<Sid, Task>, txns: map<TxnId, Txn>) {
    && (forall t | Holds(txns, t) ::
          txns[t].lock in locked && txns[t].sid in holders && holders[txns[t].sid] == txns[t].task)
    && (forall t, u | Holds(txns, t) && Holds(txns, u) && txns[t].sid == txns[u].sid :: t == u)
  }

  /** No lock object stays locked, and no holder is named, without a transaction that holds. */
  ghost predicate NoGhosts(locked: set<LockId>, holders: map<Sid, Task>, txns: map<TxnId, Txn>) {
    && (forall l | l in locked :: exists t :: Holds(txns, t) && txns[t].lock == l)
    && (forall sid | sid in holders :: exists t :: Holds(txns, t) && txns[t].sid == sid)
  }

  ghost predicate Safe(g: Gate) {
    && LeasesCount(g.leases, g.txns)
    && OneLock(g.locks, g.txns, g.nextLock)
    && Exclusive(g.locked, g.holders, g.txns)
    && NoGhosts(g.locked, g.holders, g.txns)
  }

  lemma NobodyInside()
    ensures Safe(OPEN)
  {
    assert forall sid :: Inside(map[], sid) == {};
  }

  lemma InsideArrives(txns: map<TxnId, Txn>, txn: TxnId, t: Txn)
    requires txn !in txns
    ensures forall sid :: Inside(txns[txn := t], sid) == if sid == t.sid then Inside(txns, sid) + {txn} else Inside(txns, sid)
  {}

  lemma InsideSame(txns: map<TxnId, Txn>, txn: TxnId, t: Txn)
    requires txn in txns && txns[txn].sid == t.sid
    ensures forall sid :: Inside(txns[txn := t], sid) == Inside(txns, sid)
  {
    assert forall sid :: Inside(txns[txn := t], sid) == Inside(txns, sid);
  }

  lemma InsideLeaves(txns: map<TxnId, Txn>, txn: TxnId)
    requires txn in txns
    ensures forall sid :: Inside(txns - {txn}, sid) == if sid == txns[txn].sid then Inside(txns, sid) - {txn} else Inside(txns, sid)
    ensures txn in Inside(txns, txns[txn].sid)
  {}

  ghost predicate SameHolders(before: map<TxnId, Txn>, after: map<TxnId, Txn>) {
    forall t :: Holds(before, t) == Holds(after, t) && (Holds(before, t) ==> before[t] == after[t])
  }

  lemma ExclusiveStays(locked: set<LockId>, holders: map<Sid, Task>, before: map<TxnId, Txn>, after: map<TxnId, Txn>)
    requires Exclusive(locked, holders, before) && SameHolders(before, after)
    ensures Exclusive(locked, holders, after)
  {}

  lemma NoGhostsStay(locked: set<LockId>, holders: map<Sid, Task>, before: map<TxnId, Txn>, after: map<TxnId, Txn>)
    requires NoGhosts(locked, holders, before) && SameHolders(before, after)
    ensures NoGhosts(locked, holders, after)
  {
    forall l | l in locked ensures exists t :: Holds(after, t) && after[t].lock == l {
      var t :| Holds(before, t) && before[t].lock == l;
      assert Holds(after, t);
    }
    forall sid | sid in holders ensures exists t :: Holds(after, t) && after[t].sid == sid {
      var t :| Holds(before, t) && before[t].sid == sid;
      assert Holds(after, t);
    }
  }

  /** Holders are untouched when the same transactions hold as before. */
  lemma HoldersStay(locked: set<LockId>, holders: map<Sid, Task>, before: map<TxnId, Txn>, after: map<TxnId, Txn>)
    requires Exclusive(locked, holders, before) && NoGhosts(locked, holders, before) && SameHolders(before, after)
    ensures Exclusive(locked, holders, after) && NoGhosts(locked, holders, after)
  {
    hide *;
    ExclusiveStays(locked, holders, before, after);
    NoGhostsStay(locked, holders, before, after);
  }

  lemma ArriveKeeps(g: Gate, txn: TxnId, task: Task, sid: Sid)
    requires Safe(g) && txn !in g.txns
    ensures Safe(Arrive(g, txn, task, sid))
  {
    hide LeasesCount, OneLock, Exclusive, NoGhosts, SameHolders;
    ArriveLocks(g, txn, task, sid);
    ArriveCounts(g, txn, task, sid);
    ArriveHolders(g, txn, task, sid);
    HoldersStay(g.locked, g.holders, g.txns, Arrive(g, txn, task, sid).txns);
  }

  lemma ArriveHolders(g: Gate, txn: TxnId, task: Task, sid: Sid)
    requires txn !in g.txns
    ensures SameHolders(g.txns, Arrive(g, txn, task, sid).txns)
  {}

  lemma ArriveLocks(g: Gate, txn: TxnId, task: Task, sid: Sid)
    requires OneLock(g.locks, g.txns, g.nextLock) && txn !in g.txns
    ensures var h := Arrive(g, txn, task, sid); OneLock(h.locks, h.txns, h.nextLock)
  {}

  lemma ArriveCounts(g: Gate, txn: TxnId, task: Task, sid: Sid)
    requires LeasesCount(g.leases, g.txns) && txn !in g.txns
    ensures LeasesCount(Arrive(g, txn, task, sid).leases, Arrive(g, txn, task, sid).txns)
  {
    InsideArrives(g.txns, txn, Txn(task, sid, LockFor(g, sid), false));
    assert txn !in Inside(g.txns, sid);
    hide Inside;
  }

  /** Changing whether a transaction holds changes neither the counts nor the lock table. */
  lemma HoldingCounts(g: Gate, txn: TxnId, holding: bool)
    requires LeasesCount(g.leases, g.txns) && OneLock(g.locks, g.txns, g.nextLock) && txn in g.txns
    ensures var txns := g.txns[txn := g.txns[txn].(holding := holding)];
      LeasesCount(g.leases, txns) && OneLock(g.locks, txns, g.nextLock)
  {
    InsideSame(g.txns, txn, g.txns[txn].(holding := holding));
    hide Inside;
  }

  lemma AcquireKeeps(g: Gate, txn: TxnId)
    requires Safe(g) && CanAcquire(g, txn)
    ensures Safe(Acquire(g, txn))
  {
    HoldingCounts(g, txn, true);
    AcquireExcludes(g, txn);
    AcquireNames(g, txn);
  }

  lemma AcquireExcludes(g: Gate, txn: TxnId)
    requires OneLock(g.locks, g.txns, g.nextLock) && Exclusive(g.locked, g.holders, g.txns) && CanAcquire(g, txn)
    ensures var h := Acquire(g, txn); Exclusive(h.locked, h.holders, h.txns)
  {}

  lemma AcquireNames(g: Gate, txn: TxnId)
    requires NoGhosts(g.locked, g.holders, g.txns) && CanAcquire(g, txn)
    ensures var h := Acquire(g, txn); NoGhosts(h.locked, h.holders, h.txns)
  {
    var h := Acquire(g, txn);
    assert Holds(h.txns, txn);
    forall l | l in h.locked ensures exists t :: Holds(h.txns, t) && h.txns[t].lock == l {
      if l in g.locked {
        var t :| Holds(g.txns, t) && g.txns[t].lock == l;
        assert Holds(h.txns, t) && h.txns[t] == g.txns[t];
      }
    }
    forall sid | sid in h.holders ensures exists t :: Holds(h.txns, t) && h.txns[t].sid == sid {
      if sid != g.txns[txn].sid {
        var t :| Holds(g.txns, t) && g.txns[t].sid == sid;
        assert Holds(h.txns, t) && h.txns[t] == g.txns[t];
      }
    }
  }

  lemma ReleaseKeeps(g: Gate, txn: TxnId)
    requires Safe(g) && txn in g.txns
    ensures Safe(Release(g, txn)) && !Release(g, txn).txns[txn].holding
  {
    if g.txns[txn].holding {
      HoldingCounts(g, txn, false);
      ReleaseExcludes(g, txn);
      ReleaseNames(g, txn);
    }
  }

  lemma ReleaseExcludes(g: Gate, txn: TxnId)
    requires OneLock(g.locks, g.txns, g.nextLock) && Exclusive(g.locked, g.holders, g.txns) && Holds(g.txns, txn)
    ensures var h := Release(g, txn); Exclusive(h.locked, h.holders, h.txns)
  {}

  lemma ReleaseNames(g: Gate, txn: TxnId)
    requires NoGhosts(g.locked, g.holders, g.txns) && Holds(g.txns, txn)
    ensures var h := Release(g, txn); NoGhosts(h.locked, h.holders, h.txns)
  {
    var h := Release(g, txn);
    forall l | l in h.locked ensures exists t :: Holds(h.txns, t) && h.txns[t].lock == l {
      var t :| Holds(g.txns, t) && g.txns[t].lock == l;
      assert Holds(h.txns, t) && h.txns[t] == g.txns[t];
    }
    forall sid | sid in h.holders ensures exists t :: Holds(h.txns, t) && h.txns[t].sid == sid {
      var t :| Holds(g.txns, t) && g.txns[t].sid == sid;
      assert Holds(h.txns, t) && h.txns[t] == g.txns[t];
    }
  }

  lemma OnlyMember(s: set<TxnId>, x: TxnId)
    requires x in s
    ensures |s| == 1 ==> s == {x}
    ensures |s - {x}| == |s| - 1
  {
    if |s| == 1 { assert |s - {x}| == 0; }
  }

  lemma DepartCounts(g: Gate, txn: TxnId, stored: bool)
    requires LeasesCount(g.leases, g.txns) && txn in g.txns
    ensures var h := Depart(g, txn, stored); LeasesCount(h.leases, h.txns)
    ensures Lease(g.leases, g.txns[txn].sid) <= 1 ==> forall t | t in g.txns && g.txns[t].sid == g.txns[txn].sid :: t == txn
  {
    var sid := g.txns[txn].sid;
    InsideLeaves(g.txns, txn);
    OnlyMember(Inside(g.txns, sid), txn);
    assert forall t | t in g.txns && g.txns[t].sid == sid :: t in Inside(g.txns, sid);
    hide Inside;
  }

  lemma DepartKeeps(g: Gate, txn: TxnId, stored: bool)
    requires Safe(g) && txn in g.txns && !g.txns[txn].holding
    ensures Safe(Depart(g, txn, stored))
  {
    hide LeasesCount, OneLock, Exclusive, NoGhosts, SameHolders;
    DepartCounts(g, txn, stored);
    DepartLocks(g, txn, stored);
    DepartHolders(g, txn, stored);
    HoldersStay(g.locked, g.holders, g.txns, Depart(g, txn, stored).txns);
  }

  lemma DepartHolders(g: Gate, txn: TxnId, stored: bool)
    requires txn in g.txns && !g.txns[txn].holding
    ensures SameHolders(g.txns, Depart(g, txn, stored).txns)
  {}

  lemma DepartLocks(g: Gate, txn: TxnId, stored: bool)
    requires OneLock(g.locks, g.txns, g.nextLock) && txn in g.txns
    requires Lease(g.leases, g.txns[txn].sid) <= 1 ==> forall t | t in g.txns && g.txns[t].sid == g.txns[txn].sid :: t == txn
    ensures var h := Depart(g, txn, stored); OneLock(h.locks, h.txns, h.nextLock)
  {}

  lemma NobodyWithoutLease(g: Gate, sid: Sid)
    requires LeasesCount(g.leases, g.txns) && sid !in g.leases
    ensures forall t | t in g.txns :: g.txns[t].sid != sid
  {
    forall t | t in g.txns ensures g.txns[t].sid != sid {
      assert t in Inside(g.txns, g.txns[t].sid);
    }
  }

  /** Dropping the lock object of a session nobody is inside of. */
  lemma ForgetKeeps(g: Gate, sid: Sid)
    requires Safe(g) && sid !in g.leases
    ensures Safe(Forget(g, sid))
  {
    NobodyWithoutLease(g, sid);
    hide LeasesCount, Exclusive, NoGhosts;
  }

  // ------------------------------------------------------------------ what it means

  /** At most one transaction holds a session, and a waiting one shares its lock object. */
  lemma MutualExclusion(g: Gate, t: TxnId, u: TxnId)
    requires Safe(g) && t in g.txns && u in g.txns && g.txns[t].sid == g.txns[u].sid
    ensures g.txns[t].lock == g.txns[u].lock == g.locks[g.txns[t].sid]
    ensures g.txns[t].holding && g.txns[u].holding ==> t == u
    ensures g.txns[t].holding ==> !CanAcquire(g, u)
  {}
}
