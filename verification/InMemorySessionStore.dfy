/** The in-memory session store as code: dictionaries updated in place, one method per operation, each of
    them the matching step of the store's specification. */
module InMemorySessionStore {
  import opened Wrappers
  import opened SessionLedger
  import opened SessionLocks
  import opened MemorySession
  import opened MemoryStore

  class Store {
    const limits: Limits
    var sessions: map<Sid, Data>
    var order: seq<Sid>
    var locks: map<Sid, LockId>
    var leases: map<Sid, nat>
    var holders: map<Sid, Task>
    var counters: map<Sid, nat>
    var tokens: map<Sid, nat>
    var locked: set<LockId>
    var txns: map<TxnId, Txn>
    var nextLock: LockId
    ghost var histories: map<Sid, seq<Event>>

    ghost function View(): MemoryStore.Store reads this {
      MemoryStore.Store(sessions, order, Gate(locks, leases, holders, counters, tokens, locked, txns, nextLock), histories)
    }

    ghost predicate Valid() reads this { Good(View(), limits) }

    constructor (limits: Limits)
      ensures Valid() && View() == NEW_STORE && this.limits == limits
    {
      this.limits, sessions, order, histories := limits, map[], [], map[];
      locks, leases, holders, counters, tokens, locked, txns, nextLock := map[], map[], map[], map[], map[], {}, map[], 0;
      new;
      NewStoreIsGood(limits);
    }

    // ---------------------------------------------------------------- transaction

    /** Entering: the lock object is found or created and the lease counted before waiting. */
    method EnterTransaction(txn: TxnId, task: Task, sid: Sid)
      requires Valid() && txn !in txns
      modifies this`locks, this`nextLock, this`leases, this`txns
      ensures Valid() && View() == ArriveOp(old(View()), txn, task, sid)
    {
      hide Good, Lease;
      ArriveOpKeeps(View(), txn, task, sid, limits);
      var lock := nextLock;
      if sid in locks {
        lock := locks[sid];
      } else {
        nextLock := nextLock + 1;
      }
      locks := locks[sid := lock];
      leases := leases[sid := Lease(leases, sid) + 1];
      txns := txns[txn := Txn(task, sid, lock, false)];
    }

    /** The lock was free: the task becomes the holder and draws the next fencing token. */
    method AcquireLock(txn: TxnId) returns (token: nat)
      requires Valid() && CanAcquire(View().gate, txn)
      modifies this`locked, this`holders, this`counters, this`tokens, this`txns
      ensures Valid() && View() == AcquireOp(old(View()), txn)
      ensures token == Lease(old(counters), old(txns)[txn].sid) + 1
    {
      hide Good, Lease;
      AcquireOpKeeps(View(), txn, limits);
      var t := txns[txn];
      locked := locked + {t.lock};
      holders := holders[t.sid := t.task];
      token := Lease(counters, t.sid) + 1;
      counters := counters[t.sid := token];
      tokens := tokens[t.sid := token];
      txns := txns[txn := t.(holding := true)];
    }

    /** Leaving, as a holder or as a waiter that was cancelled. */
    method ExitTransaction(txn: TxnId)
      requires Valid() && txn in txns
      modifies this
      ensures Valid() && View() == LeaveOp(old(View()), txn, limits)
    {
      hide Good, Evict, Depart;
      LeaveOpKeeps(View(), txn, limits);
      ReleaseLock(txn);
      DropLease(txn);
      EvictToCapacity();
    }

    method ReleaseLock(txn: TxnId)
      requires txn in txns
      modifies this`holders, this`tokens, this`locked, this`txns
      ensures View() == old(View()).(gate := Release(old(View()).gate, txn))
    {
      var t := txns[txn];
      if t.holding {
        holders := holders - {t.sid};
        tokens := tokens - {t.sid};
        locked := locked - {t.lock};
        txns := txns[txn := t.(holding := false)];
      }
    }

    /** The last one out of a session without data drops its lock object and counter. */
    method DropLease(txn: TxnId)
      requires txn in txns
      modifies this`txns, this`leases, this`locks, this`counters
      ensures View() == old(View()).(gate := Depart(old(View()).gate, txn, old(txns)[txn].sid in sessions))
    {
      var sid := txns[txn].sid;
      txns := txns - {txn};
      if Lease(leases, sid) > 1 {
        leases := leases[sid := leases[sid] - 1];
      } else {
        leases := leases - {sid};
        if sid !in sessions {
          locks := locks - {sid};
          counters := counters - {sid};
        }
      }
    }

    method EvictSession(victim: Sid)
      modifies this`sessions, this`order, this`locks, this`histories
      ensures View() == EvictOne(old(View()), victim)
    {
      hide Without;
      histories := histories[victim := HistoryOf(View(), victim) + [Dropped]];
      sessions := sessions - {victim};
      order := Without(order, victim);
      locks := locks - {victim};
    }

    method EvictToCapacity()
      modifies this`sessions, this`order, this`locks, this`histories
      ensures View() == Evict(old(View()), limits.maxSessions)
    {
      hide FirstIdle, EvictOne;
      while |sessions| > limits.maxSessions
        invariant Evict(View(), limits.maxSessions) == Evict(old(View()), limits.maxSessions)
        invariant leases == old(leases)
        decreases |sessions|
      {
        var victim := FirstIdle(order, leases);
        if victim.None? || victim.value !in sessions { return; }
        OneLess(View(), victim.value);
        EvictSession(victim.value);
      }
    }

    method GetOrCreateSession(sid: Sid)
      modifies this`sessions, this`order, this`locks, this`histories
      ensures View() == GetOrCreate(old(View()), sid, limits.maxSessions)
    {
      if sid !in sessions {
        sessions := sessions[sid := EMPTY];
        order := order + [sid];
        EvictToCapacity();
      }
      order := Without(order, sid) + [sid];
    }

    // ---------------------------------------------------------------- operations inside the transaction

    method Append(task: Task, sid: Sid, body: string) returns (stored: Option<Turn>)
      requires Valid()
      modifies this
      ensures Valid() && (View(), stored) == AppendOp(old(View()), task, sid, body, limits)
    {
      hide Good, GetOrCreate, Without;
      AppendOpKeeps(View(), task, sid, body, limits);
      if sid !in holders || holders[sid] != task { return None; }
      HolderGets(task, sid);
      var d := sessions[sid];
      var turns := d.turns + [Turn(d.next, body)];
      if |turns| > limits.maxTurns && limits.maxTurns > 0 { turns := turns[|turns| - limits.maxTurns..]; }
      sessions := sessions[sid := d.(turns := turns, next := d.next + 1)];
      histories := Log(View(), sid, [Appended(body)]).histories;
      return Some(Turn(d.next, body));
    }

    /** _get_or_create_session for a checked holder. */
    method HolderGets(task: Task, sid: Sid)
      requires Valid() && IsHolder(View(), task, sid)
      modifies this`sessions, this`order, this`locks, this`histories
      ensures View() == GetOrCreate(old(View()), sid, limits.maxSessions) && sid in sessions
    {
      GetOrCreateKeeps(View(), task, sid, limits);
      GetOrCreateSession(sid);
    }

    /** The owner token is new: it was never granted in this session before. */
    method BeginRequest(task: Task, sid: Sid, request: Request, payload: string, token: Token, now: nat) returns (begun: Option<Begun>)
      requires Valid() && FreshIn(HistoryOf(View(), sid), Granted(request, payload, token))
      modifies this
      ensures Valid() && (View(), begun) == BeginOp(old(View()), task, sid, request, payload, token, now, limits)
      ensures begun != Some(Broken)
    {
      hide Good, GetOrCreate, Begin, BeginEvents;
      BeginOpKeeps(View(), task, sid, request, payload, token, now, limits);
      if sid !in holders || holders[sid] != task { return None; }
      HolderGets(task, sid);
      var d := sessions[sid];
      var e, answer := MemorySession.BeginRequest(d, request, payload, token, now, limits.ttl, limits.maxRecords);
      histories := Log(View(), sid, BeginEvents(d, request, payload, token, now, limits.ttl, limits.maxRecords)).histories;
      sessions := sessions[sid := e];
      return Some(answer);
    }

    /** None: the completion was refused; nothing but an empty session can have appeared. */
    method CompleteRequestWithTurn(task: Task, sid: Sid, request: Request, token: Token, body: string, response: string)
      returns (stored: Option<Turn>)
      requires Valid()
      modifies this
      ensures Valid() && (View(), stored) == CompleteOp(old(View()), task, sid, request, token, body, response, limits)
    {
      hide Good, GetOrCreate, CompleteEvents, Put, TrimTo, AppendTurn;
      CompleteOpKeeps(View(), task, sid, request, token, body, response, limits);
      if sid !in holders || holders[sid] != task { return None; }
      HolderGets(task, sid);
      var d := sessions[sid];
      if request !in d.records || d.records[request].claim.status != InProgress || d.records[request].claim.owner != token { return None; }
      var record := d.records[request];
      var e := AppendTurn(d, body, limits.maxTurns);
      e := Put(e, request, record.(claim := record.claim.(status := Completed, response := Some(response))));
      e := TrimRecords(e, limits.maxRecords);
      histories := Log(View(), sid, CompleteEvents(d, request, token, body, response, limits)).histories;
      sessions := sessions[sid := e];
      return Some(Turn(d.next, body));
    }

    method FailRequest(task: Task, sid: Sid, request: Request, token: Token) returns (action: Option<FailAction>)
      requires Valid()
      modifies this`sessions, this`histories
      ensures Valid() && (View(), action) == FailOp(old(View()), task, sid, request, token, limits)
    {
      hide Good, FailEvents, Put, TrimTo;
      FailOpKeeps(View(), task, sid, request, token, limits);
      if sid !in holders || holders[sid] != task { return None; }
      if sid !in sessions { return Some(Noop); }
      var d := sessions[sid];
      histories := Log(View(), sid, FailEvents(d, request, token, limits)).histories;
      if request !in d.records { sessions := sessions[sid := d]; return Some(Noop); }
      var record := d.records[request];
      if record.claim.status == Completed { sessions := sessions[sid := d]; return Some(AlreadyCompleted); }
      if record.claim.status != InProgress || record.claim.owner != token { sessions := sessions[sid := d]; return Some(Noop); }
      var e := Put(d, request, record.(claim := record.claim.(status := Failed)));
      e := TrimRecords(e, limits.maxRecords);
      sessions := sessions[sid := e];
      return Some(MarkedFailed);
    }

    method Get(sid: Sid, limit: nat) returns (turns: seq<Turn>)
      requires Valid()
      modifies this`order
      ensures Valid() && (View(), turns) == GetOp(old(View()), sid, limit)
    {
      hide Good, Without;
      GetOpKeeps(View(), sid, limit, limits);
      if sid !in sessions { return []; }
      order := Without(order, sid) + [sid];
      return Trim(sessions[sid].turns, limit);
    }

    method ClearSessionData(task: Task, sid: Sid) returns (ok: bool)
      requires Valid()
      modifies this`sessions, this`order, this`histories
      ensures Valid() && (View(), ok) == ClearOp(old(View()), task, sid)
    {
      hide Good, Without;
      ClearOpKeeps(View(), task, sid, limits);
      if sid !in holders || holders[sid] != task { return false; }
      if sid in sessions {
        histories := histories[sid := HistoryOf(View(), sid) + [Dropped]];
        sessions := sessions - {sid};
        order := Without(order, sid);
      }
      return true;
    }
  }

  lemma OneLess(s: MemoryStore.Store, sid: Sid)
    requires sid in s.sessions
    ensures |EvictOne(s, sid).sessions| < |s.sessions| && EvictOne(s, sid).gate.leases == s.gate.leases
  {
    DropShrinks(s, sid);
  }
}
