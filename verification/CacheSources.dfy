/** Where the entries of the fingerprint cache come from, and which calls they answer: a call that differs
    from the one it repeats, if only in true for 1, is not answered from the cache. */
module CacheSources {
  import opened Wrappers
  import opened Plans
  import opened References
  import opened PlanContracts
  import opened Decisions
  import opened ToolExecution
  import opened PythonValues
  import Json

  // ------------------------------------------------------------------ sources

  predicate FeedsController(tool: string, catalog: Catalog) {
    Knows(catalog, tool) && ToolOf(catalog, tool).destination.ToControllerContext?
  }

  ghost predicate OfContextTool(f: string, catalog: Catalog) {
    exists tool, args, context :: f == Fingerprint(tool, args, context) && FeedsController(tool, catalog)
  }

  /** The fingerprint a call has in a pass, given the results of the calls before it. */
  function OwnFingerprint(calls: seq<ToolCall>, i: nat, context: Json.Value, results: seq<ToolResult>): string
    requires i < |calls| && i <= |results|
  {
    Fingerprint(calls[i].tool, ResolveFields(calls[i].args, ById(results[..i])).0, context)
  }

  ghost predicate OfCall(f: string, calls: seq<ToolCall>, context: Json.Value, results: seq<ToolResult>) {
    exists i: nat :: i < |calls| && i <= |results| && f == OwnFingerprint(calls, i, context, results)
  }

  ghost predicate OnlyContext(cache: Cache, catalog: Catalog) { forall f | f in cache :: OfContextTool(f, catalog) }

  /** Every entry was made for a context tool or for one of these calls. */
  ghost predicate MadeFor(cache: Cache, calls: seq<ToolCall>, context: Json.Value, results: seq<ToolResult>, catalog: Catalog) {
    forall f | f in cache :: OfContextTool(f, catalog) || OfCall(f, calls, context, results)
  }

  lemma RunCallCaches(t: ToolRun, call: ToolCall, context: Json.Value, catalog: Catalog, limit: nat, event: CallEvent)
    ensures var r := RunCall(t, call, context, catalog, limit, event);
      forall f | f in r.cache :: f in t.cache || f == Fingerprint(call.tool, ResolveFields(call.args, t.byId).0, context)
  {
    hide Fingerprint, ResolveFields, Execute, FailedResult, CallError, AddError, FailureReason;
  }

  lemma {:induction false} ContextPassKeeps(t: ToolRun, calls: seq<ToolCall>, context: Json.Value, catalog: Catalog,
                                            limit: nat, events: nat -> CallEvent)
    requires OnlyContext(t.cache, catalog) && forall c | c in calls :: FeedsController(c.tool, catalog)
    ensures OnlyContext(RunCalls(t, calls, context, catalog, limit, events).cache, catalog)
  {
    hide RunCall, Fingerprint, ResolveFields, FeedsController;
    if calls != [] {
      var n := |calls| - 1;
      ContextPassKeeps(t, calls[..n], context, catalog, limit, events);
      var before := RunCalls(t, calls[..n], context, catalog, limit, events);
      if before.failure.None? {
        RunCallCaches(before, calls[n], context, catalog, limit, events(n));
        assert FeedsController(calls[n].tool, catalog);
      }
    }
  }

  lemma OwnOfLonger(calls: seq<ToolCall>, more: seq<ToolCall>, f: string, context: Json.Value, results: seq<ToolResult>, last: seq<ToolResult>)
    requires OfCall(f, calls, context, results)
    ensures OfCall(f, calls + more, context, results + last)
  {
    hide Fingerprint, ResolveFields;
    var i: nat :| i < |calls| && i <= |results| && f == OwnFingerprint(calls, i, context, results);
    assert (results + last)[..i] == results[..i];
    assert f == OwnFingerprint(calls + more, i, context, results + last);
  }

  /** A pass without errors over a cache of context tools leaves entries for its own calls only besides. */
  lemma {:induction false} CleanPassMakes(t: ToolRun, calls: seq<ToolCall>, context: Json.Value, catalog: Catalog,
                                          limit: nat, events: nat -> CallEvent)
    requires t == Start(t.cache, t.used, t.errors, t.entered) && CacheNamesCalls(t.cache) && OnlyContext(t.cache, catalog)
    ensures var r := RunCalls(t, calls, context, catalog, limit, events);
      r.errors == [] ==> |r.results| == |calls| && MadeFor(r.cache, calls, context, r.results, catalog)
  {
    hide RunCall, Fingerprint, ResolveFields, Replay, OfContextTool, OfCall, ById;
    if calls != [] {
      var n := |calls| - 1;
      CleanPassMakes(t, calls[..n], context, catalog, limit, events);
      CleanRunIsReplayable(t, calls[..n], context, catalog, limit, events);
      ResultsFollowPlan(t, calls[..n], context, catalog, limit, events);
      var before := RunCalls(t, calls[..n], context, catalog, limit, events);
      var r := RunCalls(t, calls, context, catalog, limit, events);
      if before.failure.None? {
        CleanCall(before, calls[n], context, catalog, limit, events(n));
        if r.errors == [] {
          RunCallCaches(before, calls[n], context, catalog, limit, events(n));
          forall f | f in r.cache ensures OfContextTool(f, catalog) || OfCall(f, calls, context, r.results) {
            assert calls == calls[..n] + [calls[n]] && r.results == before.results + [r.results[n]];
            if f in before.cache {
              if OfCall(f, calls[..n], context, before.results) {
                OwnOfLonger(calls[..n], [calls[n]], f, context, before.results, [r.results[n]]);
              }
            } else {
              OwnOfLast(calls, f, context, r.results, before);
            }
          }
        }
      }
    }
  }

  lemma OwnOfLast(calls: seq<ToolCall>, f: string, context: Json.Value, results: seq<ToolResult>, before: ToolRun)
    requires calls != [] && |results| == |calls| && before.results == results[..|calls| - 1] && before.byId == ById(before.results)
    requires f == Fingerprint(calls[|calls| - 1].tool, ResolveFields(calls[|calls| - 1].args, before.byId).0, context)
    ensures OfCall(f, calls, context, results)
  {
    hide Fingerprint, ResolveFields, ById;
    assert f == OwnFingerprint(calls, |calls| - 1, context, results);
  }

  // ------------------------------------------------------------------ which calls are answered from the cache

  /** Same ids, same tools, and arguments equal in Python: what a replan keeps of its baseline. */
  ghost predicate Repeats(kept: seq<ToolCall>, base: seq<ToolCall>) {
    |kept| == |base| && forall i | 0 <= i < |kept| :: SameCallInPython(kept[i], base[i])
  }

  /** Arguments that are the same up to the order of keys. */
  ghost predicate SameArgs(a: ToolCall, b: ToolCall) { Json.Canon(Json.Obj(a.args)) == Json.Canon(Json.Obj(b.args)) }

  ghost predicate AllSameArgs(kept: seq<ToolCall>, base: seq<ToolCall>) {
    |kept| == |base| && forall i | 0 <= i < |kept| :: SameArgs(kept[i], base[i])
  }

  lemma ResolveArgs(args: seq<Json.Field>, results: Results)
    ensures Resolved(Json.Obj(args), results) == Json.Obj(ResolveFields(args, results).0)
    ensures Resolves(Json.Obj(args), results) <==> ResolveFields(args, results).1 == []
  {}

  /** With equal arguments a call has the same fingerprint, and resolves if and only if the other does. */
  lemma SameArgsSameFingerprint(a: ToolCall, b: ToolCall, context: Json.Value, results: Results)
    requires a.tool == b.tool && SameArgs(a, b)
    ensures ResolveFields(a.args, results).1 == [] <==> ResolveFields(b.args, results).1 == []
    ensures Fingerprint(a.tool, ResolveFields(a.args, results).0, context) == Fingerprint(b.tool, ResolveFields(b.args, results).0, context)
  {
    hide Json.Canon, ResolveFields, Fingerprint, Resolved, Resolves;
    ResolveArgs(a.args, results);
    ResolveArgs(b.args, results);
    ResolveCanon(Json.Obj(a.args), results);
    ResolveCanon(Json.Obj(b.args), results);
    CanonResolves(Json.Obj(a.args), results);
    CanonResolves(Json.Obj(b.args), results);
    FingerprintIdentifies(a.tool, ResolveFields(a.args, results).0, context, b.tool, ResolveFields(b.args, results).0, context);
  }

  /** Of two calls that are equal in Python, the fingerprints agree only if the arguments do. */
  lemma SameFingerprintSameArgs(a: ToolCall, b: ToolCall, context: Json.Value, results: Results)
    requires SameCallInPython(a, b)
    requires Fingerprint(a.tool, ResolveFields(a.args, results).0, context) == Fingerprint(b.tool, ResolveFields(b.args, results).0, context)
    ensures SameArgs(a, b)
  {
    hide Json.Canon, ResolveFields, Fingerprint, Resolved, Resolves, EqualInPython;
    ResolveArgs(a.args, results);
    ResolveArgs(b.args, results);
    FingerprintIdentifies(a.tool, ResolveFields(a.args, results).0, context, b.tool, ResolveFields(b.args, results).0, context);
    ResolvedAgreeExactly(Json.Obj(a.args), Json.Obj(b.args), results);
  }

  lemma {:induction false} AgreeingReplay(kept: seq<ToolCall>, base: seq<ToolCall>, context: Json.Value, cache: Cache)
    requires Repeats(kept, base) && AllSameArgs(kept, base)
    ensures Replay(kept, context, cache) == Replay(base, context, cache)
  {
    hide Fingerprint, ResolveFields, EqualInPython, SameArgs, ById;
    if kept != [] {
      var n := |kept| - 1;
      AgreeingReplay(kept[..n], base[..n], context, cache);
      assert SameCallInPython(kept[n], base[n]) && SameArgs(kept[n], base[n]);
      var before := Replay(kept[..n], context, cache);
      if before.Some? { SameArgsSameFingerprint(kept[n], base[n], context, ById(before.value)); }
    }
  }

  lemma {:induction false} ReplayEntries(calls: seq<ToolCall>, context: Json.Value, cache: Cache, results: seq<ToolResult>, j: nat)
    requires Replay(calls, context, cache) == Some(results) && j < |calls|
    ensures Replay(calls[..j], context, cache) == Some(results[..j])
    ensures OwnFingerprint(calls, j, context, results) in cache
    ensures cache[OwnFingerprint(calls, j, context, results)].callId == calls[j].id
  {
    hide Fingerprint, ResolveFields, ById;
    var n := |calls| - 1;
    var before := Replay(calls[..n], context, cache).value;
    assert results[..n] == before;
    if j < n {
      ReplayEntries(calls[..n], context, cache, before, j);
      assert calls[..n][..j] == calls[..j] && before[..j] == results[..j];
      assert OwnFingerprint(calls[..n], j, context, before) == OwnFingerprint(calls, j, context, results);
    }
  }

  lemma DispatchSpends(t: ToolRun, call: ToolCall, args: seq<Json.Field>, context: Json.Value, f: string, catalog: Catalog,
                       limit: nat, event: CallEvent)
    ensures var r := DispatchCall(t, call, args, context, f, catalog, limit, event);
      && |r.outcomes| == |t.outcomes| + 1 && r.outcomes[..|t.outcomes|] == t.outcomes && t.used <= r.used
      && r.outcomes[|t.outcomes|] != Reused && (r.errors == [] && r.failure.None? ==> r.used != t.used)
  {
    hide AddError, FailureReason;
  }

  lemma ReusedMeans(t: ToolRun, call: ToolCall, context: Json.Value, catalog: Catalog, limit: nat, event: CallEvent)
    ensures var r := RunCall(t, call, context, catalog, limit, event);
      var fingerprint := Fingerprint(call.tool, ResolveFields(call.args, t.byId).0, context);
      && |r.outcomes| == |t.outcomes| + 1 && r.outcomes[..|t.outcomes|] == t.outcomes && t.used <= r.used
      && (r.outcomes[|t.outcomes|] == Reused ==> fingerprint in t.cache && t.cache[fingerprint].callId == call.id && r.failure == t.failure)
      && (r.errors == [] && r.failure.None? && r.used == t.used ==> t.errors == [] && r.outcomes[|t.outcomes|] == Reused)
  {
    hide ResolveFields, Fingerprint, DispatchCall, AddError;
    var args := ResolveFields(call.args, t.byId).0;
    DispatchSpends(t, call, args, context, Fingerprint(call.tool, args, context), catalog, limit, event);
  }

  ghost predicate AllReused(r: ToolRun, n: nat) { r.failure.None? && |r.outcomes| == n && forall o | o in r.outcomes :: o == Reused }

  ghost predicate Quiet(t: ToolRun, r: ToolRun) { r.errors == [] && r.failure.None? && r.used == t.used }

  /** A pass that spends nothing and goes well reuses every call. */
  lemma {:induction false} QuietPassReuses(t: ToolRun, calls: seq<ToolCall>, context: Json.Value, catalog: Catalog,
                                           limit: nat, events: nat -> CallEvent)
    requires t == Start(t.cache, t.used, t.errors, t.entered)
    ensures var r := RunCalls(t, calls, context, catalog, limit, events);
      t.used <= r.used && (Quiet(t, r) ==> AllReused(r, |calls|))
  {
    hide RunCall;
    if calls != [] {
      var n := |calls| - 1;
      QuietPassReuses(t, calls[..n], context, catalog, limit, events);
      var before := RunCalls(t, calls[..n], context, catalog, limit, events);
      if before.failure.None? {
        ReusedMeans(before, calls[n], context, catalog, limit, events(n));
        var r := RunCalls(t, calls, context, catalog, limit, events);
        assert r.outcomes == before.outcomes + [r.outcomes[|before.outcomes|]];
      }
    }
  }

  ghost predicate EvidenceCalls(calls: seq<ToolCall>, catalog: Catalog) {
    DistinctIds(calls) && forall c | c in calls :: !FeedsController(c.tool, catalog)
  }

  /** An entry under a kept call's fingerprint and id was made for the call it repeats. */
  lemma EntryIsOwn(kept: seq<ToolCall>, base: seq<ToolCall>, n: nat, context: Json.Value, cache: Cache, results: seq<ToolResult>, catalog: Catalog)
    requires Repeats(kept, base) && n < |kept| && EvidenceCalls(base, catalog)
    requires Replay(base, context, cache) == Some(results) && MadeFor(cache, base, context, results, catalog)
    requires var f := Fingerprint(kept[n].tool, ResolveFields(kept[n].args, ById(results[..n])).0, context);
             f in cache && cache[f].callId == kept[n].id
    ensures SameArgs(kept[n], base[n])
  {
    hide Fingerprint, ResolveFields, ById, Replay, SameArgs, EqualInPython, FeedsController;
    assert SameCallInPython(kept[n], base[n]) && base[n] in base;
    var args := ResolveFields(kept[n].args, ById(results[..n])).0;
    var f := Fingerprint(kept[n].tool, args, context);
    NotOfContext(kept[n].tool, args, context, catalog);
    var j: nat :| j < |base| && j <= |results| && f == OwnFingerprint(base, j, context, results);
    ReplayEntries(base, context, cache, results, j);
    SameIdSameCall(base, j, n);
    SameFingerprintSameArgs(kept[n], base[n], context, ById(results[..n]));
  }

  lemma SameIdSameCall(calls: seq<ToolCall>, i: nat, j: nat)
    requires DistinctIds(calls) && i < |calls| && j < |calls| && calls[i].id == calls[j].id
    ensures i == j
  {}

  lemma NotOfContext(tool: string, args: seq<Json.Field>, context: Json.Value, catalog: Catalog)
    requires !FeedsController(tool, catalog)
    ensures !OfContextTool(Fingerprint(tool, args, context), catalog)
  {
    hide Fingerprint, FeedsController;
    forall tool', args', context' | Fingerprint(tool, args, context) == Fingerprint(tool', args', context') ensures tool == tool' {
      FingerprintIdentifies(tool, args, context, tool', args', context');
    }
  }

  /** When all kept calls are reused, their arguments are those of the calls they repeat. */
  lemma {:induction false} ReusedAgree(t: ToolRun, kept: seq<ToolCall>, base: seq<ToolCall>, n: nat, context: Json.Value,
                                       results: seq<ToolResult>, catalog: Catalog, limit: nat, events: nat -> CallEvent)
    requires Repeats(kept, base) && n <= |kept| && EvidenceCalls(base, catalog)
    requires t == Start(t.cache, t.used, t.errors, t.entered)
    requires Replay(base, context, t.cache) == Some(results) && MadeFor(t.cache, base, context, results, catalog)
    requires AllReused(RunCalls(t, kept[..n], context, catalog, limit, events), n)
    ensures AllSameArgs(kept[..n], base[..n])
  {
    hide Fingerprint, ResolveFields, ById, RunCall, Replay, MadeFor, SameArgs, EqualInPython, EvidenceCalls;
    if n > 0 {
      var m := n - 1;
      assert kept[..n][..m] == kept[..m] && kept[..n][m] == kept[m];
      var before := RunCalls(t, kept[..m], context, catalog, limit, events);
      var r := RunCalls(t, kept[..n], context, catalog, limit, events);
      assert before.failure.None?;
      ReusedMeans(before, kept[m], context, catalog, limit, events(m));
      assert r == RunCall(before, kept[m], context, catalog, limit, events(m));
      assert r.outcomes == before.outcomes + [r.outcomes[m]];
      assert r.outcomes[m] in r.outcomes && forall o | o in before.outcomes :: o in r.outcomes;
      assert AllReused(before, m);
      ReusedAgree(t, kept, base, m, context, results, catalog, limit, events);
      AgreeingReplay(kept[..m], base[..m], context, t.cache);
      ReplayEntries(base, context, t.cache, results, m);
      PrefixComesFromCache(t, kept[..m], context, catalog, limit, events);
      EntryIsOwn(kept, base, m, context, t.cache, results, catalog);
      assert kept[..n] == kept[..m] + [kept[m]] && base[..n] == base[..m] + [base[m]];
    }
  }

  /** The exact condition: kept calls go through without a handler entry or any budget if and only if each
      has the arguments of the call it repeats, up to the order of keys; then they are all reused. */
  lemma KeptCallsReplayExactly(t: ToolRun, kept: seq<ToolCall>, base: seq<ToolCall>, context: Json.Value,
                               results: seq<ToolResult>, catalog: Catalog, limit: nat, events: nat -> CallEvent)
    requires Repeats(kept, base) && EvidenceCalls(base, catalog)
    requires t == Start(t.cache, t.used, t.errors, t.entered) && t.errors == []
    requires Replay(base, context, t.cache) == Some(results) && MadeFor(t.cache, base, context, results, catalog)
    ensures var r := RunCalls(t, kept, context, catalog, limit, events);
      && (Quiet(t, r) <==> AllSameArgs(kept, base))
      && (AllReused(r, |kept|) <==> AllSameArgs(kept, base))
      && (AllSameArgs(kept, base) ==> Replay(kept, context, t.cache) == Some(results) && r.results == results && r.entered == t.entered && r.cache == t.cache)
  {
    hide RunCall, Replay, MadeFor, SameArgs, EqualInPython, EvidenceCalls;
    QuietPassReuses(t, kept, context, catalog, limit, events);
    assert kept[..|kept|] == kept && base[..|base|] == base;
    if AllReused(RunCalls(t, kept, context, catalog, limit, events), |kept|) {
      ReusedAgree(t, kept, base, |kept|, context, results, catalog, limit, events);
    }
    if AllSameArgs(kept, base) {
      AgreeingReplay(kept, base, context, t.cache);
      PrefixComesFromCache(t, kept, context, catalog, limit, events);
    }
  }
}
