/** One pass over a plan's tool calls: reference resolution, the run-wide fingerprint cache, the gates
    before a handler, and the handler itself. */
module ToolExecution {
  import opened Wrappers
  import opened Plans
  import opened References
  import opened PlanContracts
  import Json

  datatype RuntimeFailure = ExecutionTimeout | ExecutionBudgetError

  datatype DispatchStage = ReferenceResolution | PreDispatch | InHandler | CacheReuse

  datatype ToolErrorCode = ReferenceResolutionError | ToolNotRegistered | InputValidationError | HandlerError

  datatype DispatchRecord = DispatchRecord(
    callId: string, tool: string, handlerEntered: bool, stage: DispatchStage, errorCode: Option<ToolErrorCode>)

  datatype CachedCall = CachedCall(callId: string, result: ToolResult, dispatch: DispatchRecord)

  type Cache = map<string, CachedCall>

  /** What the world does around one call: the clock at the gate, the handler and what it makes of the arguments
      and the context it is given, the time it took. */
  datatype CallEvent = CallEvent(deadlinePassed: bool, handler: (seq<Json.Field>, Json.Value) -> HandlerOutcome, latencyMs: nat)

  datatype HandlerOutcome = Returned(data: Json.Value) | Threw(message: string)

  /** Equal fingerprints are equal canonical texts: the hash is taken as injective. */
  function Fingerprint(tool: string, args: seq<Json.Field>, context: Json.Value): string {
    Json.CanonicalJson(FingerprintPayload(tool, args, context))
  }

  function FingerprintPayload(tool: string, args: seq<Json.Field>, context: Json.Value): Json.Value {
    Json.Obj([Json.Field("args", Json.Obj(args)), Json.Field("context", context), Json.Field("tool", Json.Str(tool))])
  }

  /** Two calls share a fingerprint exactly when tool, arguments and context agree up to key order. */
  lemma FingerprintIdentifies(tool: string, args: seq<Json.Field>, context: Json.Value,
                              tool': string, args': seq<Json.Field>, context': Json.Value)
    ensures Fingerprint(tool, args, context) == Fingerprint(tool', args', context') <==>
            tool == tool' && Json.Canon(Json.Obj(args)) == Json.Canon(Json.Obj(args')) && Json.Canon(context) == Json.Canon(context')
  {
    Json.CanonicalTextDetermines(FingerprintPayload(tool, args, context), FingerprintPayload(tool', args', context'));
    CanonPayload(tool, args, context);
    CanonPayload(tool', args', context');
  }

  lemma CanonPayload(tool: string, args: seq<Json.Field>, context: Json.Value)
    ensures Json.Canon(FingerprintPayload(tool, args, context)) ==
      Json.Obj([Json.Field("args", Json.Canon(Json.Obj(args))), Json.Field("context", Json.Canon(context)), Json.Field("tool", Json.Str(tool))])
  {
    var a, c, t := Json.Field("args", Json.Canon(Json.Obj(args))), Json.Field("context", Json.Canon(context)), Json.Field("tool", Json.Str(tool));
    hide Json.Canon;
    assert Json.CanonFields(FingerprintPayload(tool, args, context).fields) == [a, c, t] by {
      PayloadFields(tool, args, context);
    }
    SortedThree(a, c, t);
    CanonObj(FingerprintPayload(tool, args, context).fields);
  }

  lemma CanonObj(fields: seq<Json.Field>)
    ensures Json.Canon(Json.Obj(fields)) == Json.Obj(Json.SortFields(Json.CanonFields(fields)))
  {}

  lemma CanonStr(s: string)
    ensures Json.Canon(Json.Str(s)) == Json.Str(s)
  {}

  lemma PayloadFields(tool: string, args: seq<Json.Field>, context: Json.Value)
    ensures Json.CanonFields(FingerprintPayload(tool, args, context).fields) ==
      [Json.Field("args", Json.Canon(Json.Obj(args))), Json.Field("context", Json.Canon(context)), Json.Field("tool", Json.Str(tool))]
  {
    hide Json.Canon;
    CanonStr(tool);
    var a, c, t := Json.Field("args", Json.Obj(args)), Json.Field("context", context), Json.Field("tool", Json.Str(tool));
    assert [a, c, t][1..] == [c, t] && [c, t][1..] == [t] && [t][1..] == [];
    assert Json.CanonFields([t]) == [Json.Field("tool", Json.Str(tool))];
    assert Json.CanonFields([c, t]) == [Json.Field("context", Json.Canon(context))] + Json.CanonFields([t]);
  }

  lemma SortedThree(a: Json.Field, c: Json.Field, t: Json.Field)
    requires a.key == "args" && c.key == "context" && t.key == "tool"
    ensures Json.SortFields([a, c, t]) == [a, c, t]
  {
    assert [a, c, t][1..] == [c, t] && [c, t][1..] == [t] && [t][1..] == [];
    assert Json.SortFields([t]) == [t];
    assert Json.SortFields([c, t]) == [c, t];
  }

  // ------------------------------------------------------------------ running one call

  /** What a handler's gates and the handler make of one resolved call. */
  datatype Execution = Blocked(code: RuntimeFailure) | Done(result: ToolResult, dispatch: DispatchRecord)

  function FailedResult(call: ToolCall, latencyMs: nat, message: string): (r: ToolResult)
    ensures r.callId == call.id && r.status == Error
  {
    ToolResult(call.id, call.tool, Error, Json.Null, Json.Null, latencyMs, Some(message), Json.Obj([]))
  }

  /** The order is fixed: registration, input model, deadline, tool budget, handler. */
  function Execute(catalog: Catalog, call: ToolCall, args: seq<Json.Field>, context: Json.Value, used: nat, limit: nat, event: CallEvent)
    : (x: Execution)
    ensures x.Done? ==> x.result.callId == x.dispatch.callId == call.id && (x.dispatch.handlerEntered ==> used < limit)
    ensures x == Blocked(ExecutionBudgetError) ==> used >= limit
  {
    if !Knows(catalog, call.tool) then
      Done(FailedResult(call, event.latencyMs, "KeyError"),
               DispatchRecord(call.id, call.tool, false, PreDispatch, Some(ToolNotRegistered)))
    else if !catalog.argsFit(call.tool, args) then
      Done(FailedResult(call, event.latencyMs, "ValidationError"),
               DispatchRecord(call.id, call.tool, false, PreDispatch, Some(InputValidationError)))
    else if event.deadlinePassed then Blocked(ExecutionTimeout)
    else if used >= limit then Blocked(ExecutionBudgetError)
    else match event.handler(args, context)
      case Returned(data) =>
        var definition := ToolOf(catalog, call.tool);
        Done(ToolResult(call.id, call.tool, Ok, data, definition.source, event.latencyMs, None, definition.metadata),
                 DispatchRecord(call.id, call.tool, true, InHandler, None))
      case Threw(message) =>
        Done(FailedResult(call, event.latencyMs, message),
                 DispatchRecord(call.id, call.tool, true, InHandler, Some(HandlerError)))
  }

  /** What became of a call, kept as history. */
  datatype CallOutcome =
    | Unresolved(errors: seq<ResolveError>)
    | Duplicate
    | Reused
    | Refused
    | Stopped(code: RuntimeFailure)
    | Entered

  /** The working state of the pass. `used` is the run's tool budget counter, `entered` the history of
      fingerprints whose handler was entered, `outcomes` one entry per call looked at. */
  datatype ToolRun = ToolRun(
    results: seq<ToolResult>,
    records: seq<DispatchRecord>,
    byId: Results,
    cache: Cache,
    used: nat,
    errors: seq<string>,
    failure: Option<RuntimeFailure>,
    entered: seq<string>,
    outcomes: seq<CallOutcome>)

  function FailureReason(code: RuntimeFailure): string {
    if code.ExecutionTimeout? then "execution deadline exceeded" else "execution budget exhausted"
  }

  function AddError(errors: seq<string>, message: string): (r: seq<string>)
    ensures r != []
  {
    if message in errors then errors else errors + [message]
  }

  function CallError(call: ToolCall, result: ToolResult): (errors: seq<string>)
    ensures errors == [] <==> result.status == Ok
  {
    if result.status == Ok then [] else
      [call.id + ": " + (if result.error.Some? then result.error.value else "tool execution failed")]
  }

  function Append(t: ToolRun, call: ToolCall, result: ToolResult, record: DispatchRecord, outcome: CallOutcome): ToolRun {
    t.(results := t.results + [result], records := t.records + [record], byId := t.byId[call.id := result],
       errors := t.errors + CallError(call, result), outcomes := t.outcomes + [outcome])
  }

  /** A call that is not in the cache: the executor, then the cache entry. */
  function DispatchCall(t: ToolRun, call: ToolCall, args: seq<Json.Field>, context: Json.Value, fingerprint: string, catalog: Catalog,
                        limit: nat, event: CallEvent): ToolRun
  {
    match Execute(catalog, call, args, context, t.used, limit, event)
    case Blocked(code) =>
      t.(failure := Some(code), errors := AddError(t.errors, FailureReason(code)), outcomes := t.outcomes + [Stopped(code)])
    case Done(result, dispatch) =>
      var ran := dispatch.handlerEntered;
      Append(t.(cache := t.cache[fingerprint := CachedCall(call.id, result, dispatch)],
                used := if ran then t.used + 1 else t.used,
                entered := if ran then t.entered + [fingerprint] else t.entered),
             call, result, dispatch, if ran then Entered else Refused)
  }

  function RunCall(t: ToolRun, call: ToolCall, context: Json.Value, catalog: Catalog, limit: nat, event: CallEvent): ToolRun {
    var (args, unresolved) := ResolveFields(call.args, t.byId);
    if unresolved != [] then
      Append(t, call, FailedResult(call, 0, "reference resolution failed"),
             DispatchRecord(call.id, call.tool, false, ReferenceResolution, Some(ReferenceResolutionError)),
             Unresolved(unresolved))
    else
      var fingerprint := Fingerprint(call.tool, args, context);
      if fingerprint in t.cache then
        var cached := t.cache[fingerprint];
        if cached.callId != call.id then
          t.(failure := Some(ExecutionBudgetError),
             errors := AddError(t.errors, "duplicate tool call fingerprint: " + cached.callId + " -> " + call.id),
             outcomes := t.outcomes + [Duplicate])
        else
          Append(t, call, cached.result, DispatchRecord(call.id, call.tool, false, CacheReuse, cached.dispatch.errorCode), Reused)
      else
        DispatchCall(t, call, args, context, fingerprint, catalog, limit, event)
  }

  /** The loop: calls in order until one sets a runtime failure. */
  function RunCalls(t: ToolRun, calls: seq<ToolCall>, context: Json.Value, catalog: Catalog, limit: nat,
                    events: nat -> CallEvent): ToolRun
  {
    if calls == [] then t else
      var n := |calls| - 1;
      var before := RunCalls(t, calls[..n], context, catalog, limit, events);
      if before.failure.Some? then before else RunCall(before, calls[n], context, catalog, limit, events(n))
  }

  /** Once stopped, the rest of the plan is not looked at. */
  lemma {:induction false} StoppedRunsStay(t: ToolRun, calls: seq<ToolCall>, i: nat, context: Json.Value, catalog: Catalog,
                                           limit: nat, events: nat -> CallEvent)
    requires i <= |calls| && (i == |calls| || RunCalls(t, calls[..i], context, catalog, limit, events).failure.Some?)
    ensures RunCalls(t, calls, context, catalog, limit, events) == RunCalls(t, calls[..i], context, catalog, limit, events)
    decreases |calls|
  {
    hide RunCall;
    if i == |calls| {
      assert calls[..i] == calls;
    } else {
      var n := |calls| - 1;
      assert calls[..n][..i] == calls[..i];
      StoppedRunsStay(t, calls[..n], i, context, catalog, limit, events);
    }
  }

  /** A pass starts with no results of its own. */
  function Start(cache: Cache, used: nat, errors: seq<string>, entered: seq<string>): ToolRun {
    ToolRun([], [], map[], cache, used, errors, None, entered, [])
  }

  // ------------------------------------------------------------------ results and records

  ghost predicate SameCall(result: ToolResult, record: DispatchRecord, call: ToolCall) {
    result.callId == record.callId == call.id
  }

  ghost predicate CacheNamesCalls(cache: Cache) {
    forall f | f in cache :: cache[f].result.callId == cache[f].callId
  }

  /** One result and one record per call, in the plan's order, up to the call that stopped the pass. */
  ghost predicate InStep(t: ToolRun, calls: seq<ToolCall>) {
    && |t.results| == |t.records| <= |calls|
    && (forall i | 0 <= i < |t.results| :: SameCall(t.results[i], t.records[i], calls[i]))
    && (t.failure.None? ==> |t.results| == |calls| && t.byId.Keys == CallIds(calls))
    && CacheNamesCalls(t.cache)
  }

  lemma CallIdsSnoc(calls: seq<ToolCall>, call: ToolCall)
    ensures CallIds(calls + [call]) == CallIds(calls) + {call.id}
  {}

  lemma DispatchKeepsStep(t: ToolRun, before: seq<ToolCall>, call: ToolCall, args: seq<Json.Field>, context: Json.Value, f: string,
                          catalog: Catalog, limit: nat, event: CallEvent)
    requires InStep(t, before) && t.failure.None?
    ensures InStep(DispatchCall(t, call, args, context, f, catalog, limit, event), before + [call])
  {
    hide CallIds, Execute, CallError, AddError, FailureReason;
    CallIdsSnoc(before, call);
  }

  lemma RunCallKeepsStep(t: ToolRun, before: seq<ToolCall>, call: ToolCall, context: Json.Value, catalog: Catalog,
                         limit: nat, event: CallEvent)
    requires InStep(t, before) && t.failure.None?
    ensures InStep(RunCall(t, call, context, catalog, limit, event), before + [call])
  {
    hide ResolveFields, Fingerprint, CallIds, DispatchCall, FailedResult, CallError, AddError;
    CallIdsSnoc(before, call);
    var args := ResolveFields(call.args, t.byId).0;
    DispatchKeepsStep(t, before, call, args, context, Fingerprint(call.tool, args, context), catalog, limit, event);
  }

  lemma {:induction false} ResultsFollowPlan(t: ToolRun, calls: seq<ToolCall>, context: Json.Value, catalog: Catalog,
                                             limit: nat, events: nat -> CallEvent)
    requires InStep(t, []) && t.failure.None?
    ensures InStep(RunCalls(t, calls, context, catalog, limit, events), calls)
  {
    hide RunCall, CallIds;
    if calls != [] {
      var n := |calls| - 1;
      ResultsFollowPlan(t, calls[..n], context, catalog, limit, events);
      assert calls == calls[..n] + [calls[n]];
      var before := RunCalls(t, calls[..n], context, catalog, limit, events);
      if before.failure.None? {
        RunCallKeepsStep(before, calls[..n], calls[n], context, catalog, limit, events(n));
      }
    }
  }

  // ------------------------------------------------------------------ cache, budget and handler entries

  ghost predicate Grows(a: Cache, b: Cache) { forall f | f in a :: f in b && b[f] == a[f] }

  ghost predicate NoRepeats(s: seq<string>) { forall i, j | 0 <= i < j < |s| :: s[i] != s[j] }

  /** Every handler entry is paid for once, leaves a cache entry, and is never repeated. */
  ghost predicate Accounted(cache: Cache, used: nat, limit: nat, entered: seq<string>) {
    used == |entered| <= limit && NoRepeats(entered) && forall f | f in entered :: f in cache
  }

  lemma DispatchAccounts(t: ToolRun, call: ToolCall, args: seq<Json.Field>, context: Json.Value, f: string, catalog: Catalog,
                         limit: nat, event: CallEvent)
    requires Accounted(t.cache, t.used, limit, t.entered) && f !in t.cache
    ensures var r := DispatchCall(t, call, args, context, f, catalog, limit, event);
      && Accounted(r.cache, r.used, limit, r.entered) && Grows(t.cache, r.cache) && t.entered <= r.entered
      && r.used <= t.used + 1
  {
    hide Execute, CallError, AddError, FailureReason;
  }

  lemma RunCallAccounts(t: ToolRun, call: ToolCall, context: Json.Value, catalog: Catalog, limit: nat, event: CallEvent)
    requires Accounted(t.cache, t.used, limit, t.entered)
    ensures var r := RunCall(t, call, context, catalog, limit, event);
      && Accounted(r.cache, r.used, limit, r.entered) && Grows(t.cache, r.cache) && t.entered <= r.entered
      && r.used <= t.used + 1
  {
    hide ResolveFields, Fingerprint, DispatchCall, Accounted, FailedResult, CallError, AddError;
    var args := ResolveFields(call.args, t.byId).0;
    var f := Fingerprint(call.tool, args, context);
    if f !in t.cache { DispatchAccounts(t, call, args, context, f, catalog, limit, event); }
  }

  lemma {:induction false} RunAccounts(t: ToolRun, calls: seq<ToolCall>, context: Json.Value, catalog: Catalog,
                                       limit: nat, events: nat -> CallEvent)
    requires Accounted(t.cache, t.used, limit, t.entered)
    ensures var r := RunCalls(t, calls, context, catalog, limit, events);
      && Accounted(r.cache, r.used, limit, r.entered) && Grows(t.cache, r.cache) && t.entered <= r.entered
      && r.used <= t.used + |calls|
  {
    hide RunCall, Accounted;
    if calls != [] {
      var n := |calls| - 1;
      RunAccounts(t, calls[..n], context, catalog, limit, events);
      var before := RunCalls(t, calls[..n], context, catalog, limit, events);
      if before.failure.None? {
        RunCallAccounts(before, calls[n], context, catalog, limit, events(n));
      }
    }
  }

  // ------------------------------------------------------------------ what becomes of a call

  /** The result a handler's answer leaves. */
  ghost predicate AnsweredBy(result: ToolResult, call: ToolCall, definition: ToolDef, answer: HandlerOutcome, event: CallEvent) {
    && result.callId == call.id && result.tool == call.tool && result.latencyMs == event.latencyMs
    && (match answer
        case Returned(data) => result.status == Ok && result.data == data && result.source == definition.source
          && result.metadata == definition.metadata && result.error.None?
        case Threw(message) => result.status == Error && result.data == Json.Null && result.error == Some(message))
  }

  /** The tool is registered and its input model takes the arguments. */
  predicate Callable(catalog: Catalog, tool: string, args: seq<Json.Field>) { Knows(catalog, tool) && catalog.argsFit(tool, args) }

  /** What a call with these arguments meets: the cache, the gates in their order, or its handler. */
  ghost predicate MeetsExactly(o: CallOutcome, t: ToolRun, call: ToolCall, args: seq<Json.Field>, context: Json.Value, catalog: Catalog,
                               limit: nat, event: CallEvent)
  {
    var f := Fingerprint(call.tool, args, context);
    && (o == Reused <==> f in t.cache && t.cache[f].callId == call.id)
    && (o == Duplicate <==> f in t.cache && t.cache[f].callId != call.id)
    && (o == Refused <==> f !in t.cache && !Callable(catalog, call.tool, args))
    && (o == Stopped(ExecutionTimeout) <==> f !in t.cache && Callable(catalog, call.tool, args) && event.deadlinePassed)
    && (o == Stopped(ExecutionBudgetError) <==>
          f !in t.cache && Callable(catalog, call.tool, args) && !event.deadlinePassed && t.used >= limit)
    && (o == Entered <==> f !in t.cache && Callable(catalog, call.tool, args) && !event.deadlinePassed && t.used < limit)
  }

  /** One more result, noted in the lists and under the call's id, with this dispatch record. */
  ghost predicate Leaves(t: ToolRun, r: ToolRun, call: ToolCall, result: ToolResult, record: DispatchRecord) {
    && r.results == t.results + [result] && r.byId == t.byId[call.id := result] && r.records == t.records + [record] && r.failure == t.failure
    && (result.status == Ok ==> r.errors == t.errors)
    && (result.status == Error ==> |r.errors| == |t.errors| + 1 && r.errors[..|t.errors|] == t.errors)
  }

  ghost predicate NothingRan(t: ToolRun, r: ToolRun) { r.used == t.used && r.entered == t.entered }

  /** What an entered call leaves: one unit spent, its fingerprint noted, and the answer its handler gave to these
      arguments as its result, cached as well. */
  ghost predicate EntersWith(t: ToolRun, r: ToolRun, call: ToolCall, args: seq<Json.Field>, context: Json.Value, catalog: Catalog, event: CallEvent)
    requires Knows(catalog, call.tool)
  {
    var f, answer := Fingerprint(call.tool, args, context), event.handler(args, context);
    && r.used == t.used + 1 && r.entered == t.entered + [f]
    && f in r.cache && r.cache == t.cache[f := r.cache[f]] && r.cache[f].callId == call.id
    && AnsweredBy(r.cache[f].result, call, ToolOf(catalog, call.tool), answer, event)
    && r.cache[f].dispatch == DispatchRecord(call.id, call.tool, true, InHandler, if answer.Returned? then None else Some(HandlerError))
    && Leaves(t, r, call, r.cache[f].result, r.cache[f].dispatch)
  }

  /** What a reused call leaves: the cached result again, nothing spent and nothing entered. */
  ghost predicate RepeatsCached(t: ToolRun, r: ToolRun, call: ToolCall, cached: CachedCall) {
    && NothingRan(t, r) && r.cache == t.cache
    && Leaves(t, r, call, cached.result, DispatchRecord(call.id, call.tool, false, CacheReuse, cached.dispatch.errorCode))
  }

  /** What a call leaves whose arguments were not taken: an error under its id, cached like any other result. */
  ghost predicate RefusedWith(t: ToolRun, r: ToolRun, call: ToolCall, args: seq<Json.Field>, context: Json.Value, catalog: Catalog) {
    var f := Fingerprint(call.tool, args, context);
    && NothingRan(t, r) && f in r.cache && r.cache == t.cache[f := r.cache[f]] && r.cache[f].callId == call.id
    && r.cache[f].result.callId == call.id && r.cache[f].result.tool == call.tool && r.cache[f].result.status == Error
    && r.cache[f].dispatch == DispatchRecord(call.id, call.tool, false, PreDispatch,
         Some(if Knows(catalog, call.tool) then InputValidationError else ToolNotRegistered))
    && Leaves(t, r, call, r.cache[f].result, r.cache[f].dispatch)
  }

  /** What an unresolved call leaves: an error under its id and nothing in the cache. */
  ghost predicate UnresolvedLeaves(t: ToolRun, r: ToolRun, call: ToolCall) {
    && NothingRan(t, r) && r.cache == t.cache && |r.results| == |t.results| + 1
    && var result := r.results[|t.results|];
       && result.callId == call.id && result.tool == call.tool && result.status == Error
       && Leaves(t, r, call, result, DispatchRecord(call.id, call.tool, false, ReferenceResolution, Some(ReferenceResolutionError)))
  }

  /** A call that stops the pass leaves nothing but the failure and its message. */
  ghost predicate StopsThere(t: ToolRun, r: ToolRun, code: RuntimeFailure) {
    && NothingRan(t, r) && r.cache == t.cache && r.results == t.results && r.byId == t.byId && r.records == t.records
    && r.failure == Some(code) && r.errors != []
  }

  /** What each outcome leaves, for arguments that resolved. */
  ghost predicate LeavesWhatItMet(o: CallOutcome, t: ToolRun, r: ToolRun, call: ToolCall, args: seq<Json.Field>, context: Json.Value,
                                  catalog: Catalog, event: CallEvent)
    requires o == Entered ==> Knows(catalog, call.tool)
    requires o == Reused ==> Fingerprint(call.tool, args, context) in t.cache
  {
    match o
    case Unresolved(_) => false
    case Duplicate => StopsThere(t, r, ExecutionBudgetError)
    case Reused => RepeatsCached(t, r, call, t.cache[Fingerprint(call.tool, args, context)])
    case Refused => RefusedWith(t, r, call, args, context, catalog)
    case Stopped(code) => StopsThere(t, r, code)
    case Entered => EntersWith(t, r, call, args, context, catalog, event)
  }

  lemma DispatchMeets(t: ToolRun, call: ToolCall, args: seq<Json.Field>, context: Json.Value, catalog: Catalog, limit: nat, event: CallEvent)
    requires Fingerprint(call.tool, args, context) !in t.cache
    ensures var r := DispatchCall(t, call, args, context, Fingerprint(call.tool, args, context), catalog, limit, event);
      && |r.outcomes| == |t.outcomes| + 1 && !r.outcomes[|t.outcomes|].Unresolved?
      && MeetsExactly(r.outcomes[|t.outcomes|], t, call, args, context, catalog, limit, event)
  {
    hide Fingerprint, FailedResult, CallError, AddError, FailureReason;
  }

  lemma DispatchEnters(t: ToolRun, call: ToolCall, args: seq<Json.Field>, context: Json.Value, catalog: Catalog, limit: nat, event: CallEvent)
    requires Callable(catalog, call.tool, args) && !event.deadlinePassed && t.used < limit
    ensures EntersWith(t, DispatchCall(t, call, args, context, Fingerprint(call.tool, args, context), catalog, limit, event),
                       call, args, context, catalog, event)
  {
    hide Fingerprint, AddError, FailureReason;
  }

  lemma DispatchRefuses(t: ToolRun, call: ToolCall, args: seq<Json.Field>, context: Json.Value, catalog: Catalog, limit: nat, event: CallEvent)
    requires !Callable(catalog, call.tool, args)
    ensures RefusedWith(t, DispatchCall(t, call, args, context, Fingerprint(call.tool, args, context), catalog, limit, event),
                        call, args, context, catalog)
  {
    hide Fingerprint, AddError, FailureReason;
  }

  lemma DispatchStops(t: ToolRun, call: ToolCall, args: seq<Json.Field>, context: Json.Value, catalog: Catalog, limit: nat, event: CallEvent)
    requires Callable(catalog, call.tool, args) && (event.deadlinePassed || t.used >= limit)
    ensures StopsThere(t, DispatchCall(t, call, args, context, Fingerprint(call.tool, args, context), catalog, limit, event),
                       if event.deadlinePassed then ExecutionTimeout else ExecutionBudgetError)
  {
    hide Fingerprint, FailureReason;
  }

  lemma DispatchLeaves(t: ToolRun, call: ToolCall, args: seq<Json.Field>, context: Json.Value, catalog: Catalog, limit: nat, event: CallEvent)
    requires Fingerprint(call.tool, args, context) !in t.cache
    ensures var r := DispatchCall(t, call, args, context, Fingerprint(call.tool, args, context), catalog, limit, event);
      && |r.outcomes| == |t.outcomes| + 1 && !r.outcomes[|t.outcomes|].Unresolved?
      && MeetsExactly(r.outcomes[|t.outcomes|], t, call, args, context, catalog, limit, event)
      && LeavesWhatItMet(r.outcomes[|t.outcomes|], t, r, call, args, context, catalog, event)
  {
    hide Fingerprint, DispatchCall, EntersWith, RefusedWith, StopsThere, Callable;
    DispatchMeets(t, call, args, context, catalog, limit, event);
    if !Callable(catalog, call.tool, args) {
      DispatchRefuses(t, call, args, context, catalog, limit, event);
    } else if event.deadlinePassed || t.used >= limit {
      DispatchStops(t, call, args, context, catalog, limit, event);
    } else {
      DispatchEnters(t, call, args, context, catalog, limit, event);
    }
  }

  lemma ReuseLeaves(t: ToolRun, call: ToolCall, context: Json.Value, catalog: Catalog, limit: nat, event: CallEvent)
    ensures var (args, unresolved) := ResolveFields(call.args, t.byId);
      var r := RunCall(t, call, context, catalog, limit, event);
      var f := Fingerprint(call.tool, args, context);
      unresolved == [] && f in t.cache ==>
        && |r.outcomes| == |t.outcomes| + 1 && !r.outcomes[|t.outcomes|].Unresolved?
        && MeetsExactly(r.outcomes[|t.outcomes|], t, call, args, context, catalog, limit, event)
        && LeavesWhatItMet(r.outcomes[|t.outcomes|], t, r, call, args, context, catalog, event)
  {
    hide ResolveFields, Fingerprint, DispatchCall, Callable;
  }

  lemma RunCallDispatches(t: ToolRun, call: ToolCall, context: Json.Value, catalog: Catalog, limit: nat, event: CallEvent)
    ensures var (args, unresolved) := ResolveFields(call.args, t.byId);
      var f := Fingerprint(call.tool, args, context);
      unresolved == [] && f !in t.cache ==>
        RunCall(t, call, context, catalog, limit, event) == DispatchCall(t, call, args, context, f, catalog, limit, event)
  {
    hide ResolveFields, Fingerprint, DispatchCall;
  }

  lemma UnresolvedCall(t: ToolRun, call: ToolCall, context: Json.Value, catalog: Catalog, limit: nat, event: CallEvent)
    requires ResolveFields(call.args, t.byId).1 != []
    ensures var r := RunCall(t, call, context, catalog, limit, event);
      && |r.outcomes| == |t.outcomes| + 1 && r.outcomes[|t.outcomes|] == Unresolved(ResolveFields(call.args, t.byId).1)
      && UnresolvedLeaves(t, r, call)
  {
    hide ResolveFields, Fingerprint, DispatchCall;
  }

  /** A call is unresolved exactly when its arguments become nothing; otherwise what they become is what the cache
      is asked for, what the input model judges, and what the handler is given. */
  lemma RunCallExactly(t: ToolRun, call: ToolCall, args: seq<Json.Field>, context: Json.Value, catalog: Catalog, limit: nat, event: CallEvent)
    ensures var r := RunCall(t, call, context, catalog, limit, event);
      && |r.outcomes| == |t.outcomes| + 1
      && var o := r.outcomes[|t.outcomes|];
         && (o.Unresolved? ==> !FieldsBecome(call.args, args, t.byId) && UnresolvedLeaves(t, r, call))
         && (FieldsBecome(call.args, args, t.byId) ==>
               && MeetsExactly(o, t, call, args, context, catalog, limit, event)
               && LeavesWhatItMet(o, t, r, call, args, context, catalog, event))
  {
    FieldsResolveExactly(call.args, args, t.byId);
    hide ResolveFields, FieldsBecome, Fingerprint, DispatchCall, MeetsExactly, LeavesWhatItMet, UnresolvedLeaves;
    var (resolved, unresolved) := ResolveFields(call.args, t.byId);
    if unresolved != [] {
      UnresolvedCall(t, call, context, catalog, limit, event);
    } else if Fingerprint(call.tool, resolved, context) in t.cache {
      ReuseLeaves(t, call, context, catalog, limit, event);
    } else {
      DispatchLeaves(t, call, resolved, context, catalog, limit, event);
    }
  }

  /** Without an unresolved outcome there are arguments the call's own have become. */
  lemma ResolvedArgsExist(t: ToolRun, call: ToolCall, context: Json.Value, catalog: Catalog, limit: nat, event: CallEvent)
    ensures var r := RunCall(t, call, context, catalog, limit, event);
      |r.outcomes| == |t.outcomes| + 1 && (!r.outcomes[|t.outcomes|].Unresolved? ==> exists args :: FieldsBecome(call.args, args, t.byId))
  {
    var (args, unresolved) := ResolveFields(call.args, t.byId);
    FieldsResolveExactly(call.args, args, t.byId);
    hide ResolveFields, FieldsBecome, Fingerprint, Execute, CallError, AddError, FailureReason;
  }

  // ------------------------------------------------------------------ reference errors of a valid plan

  ghost predicate OnlyTargets(o: CallOutcome) {
    o.Unresolved? ==> forall e | e in o.errors :: e.TargetFailed? || e.PathNotFound?
  }

  lemma DispatchOutcome(t: ToolRun, call: ToolCall, args: seq<Json.Field>, context: Json.Value, f: string, catalog: Catalog,
                        limit: nat, event: CallEvent)
    ensures var r := DispatchCall(t, call, args, context, f, catalog, limit, event);
      && |r.outcomes| == |t.outcomes| + 1 && r.outcomes[..|t.outcomes|] == t.outcomes
      && !r.outcomes[|t.outcomes|].Unresolved?
      && (r.outcomes[|t.outcomes|] == Stopped(ExecutionBudgetError) ==> t.used >= limit)
      && r.used <= t.used + 1
  {
    hide Execute, CallError, AddError, FailureReason;
  }

  lemma OutcomesGrow(t: ToolRun, call: ToolCall, context: Json.Value, catalog: Catalog, limit: nat, event: CallEvent)
    ensures t.outcomes <= RunCall(t, call, context, catalog, limit, event).outcomes
  {
    hide ResolveFields, Fingerprint, DispatchCall, FailedResult, CallError, AddError;
    var args := ResolveFields(call.args, t.byId).0;
    DispatchOutcome(t, call, args, context, Fingerprint(call.tool, args, context), catalog, limit, event);
  }

  /** One outcome per call: an unresolved one lists the errors of its references, and the tool budget
      stops a call only when it is used up. */
  lemma RunCallOutcome(t: ToolRun, call: ToolCall, context: Json.Value, catalog: Catalog, limit: nat, event: CallEvent)
    ensures var r := RunCall(t, call, context, catalog, limit, event);
      && |r.outcomes| == |t.outcomes| + 1 && r.outcomes[..|t.outcomes|] == t.outcomes
      && var o := r.outcomes[|t.outcomes|];
         && (o.Unresolved? ==> o.errors == ResolveFields(call.args, t.byId).1)
         && (o == Stopped(ExecutionBudgetError) ==> t.used >= limit)
         && r.used <= t.used + 1
  {
    hide ResolveFields, Fingerprint, DispatchCall, RunCall, Leaves;
    var (args, unresolved) := ResolveFields(call.args, t.byId);
    var f := Fingerprint(call.tool, args, context);
    OutcomesGrow(t, call, context, catalog, limit, event);
    DispatchOutcome(t, call, args, context, f, catalog, limit, event);
    RunCallDispatches(t, call, context, catalog, limit, event);
    if unresolved != [] {
      UnresolvedCall(t, call, context, catalog, limit, event);
    } else if f in t.cache {
      ReuseLeaves(t, call, context, catalog, limit, event);
    }
  }

  /** A plan that passed validation never meets an invalid reference or an unavailable target. */
  lemma {:induction false} ValidPlansResolve(t: ToolRun, calls: seq<ToolCall>, context: Json.Value, catalog: Catalog,
                                             limit: nat, events: nat -> CallEvent)
    requires InStep(t, []) && t.failure.None? && t.outcomes == []
    requires forall i | 0 <= i < |calls| :: Targets(FindInFields(calls[i].args), CallIds(calls[..i]))
    ensures var r := RunCalls(t, calls, context, catalog, limit, events);
      |r.outcomes| <= |calls| && forall o | o in r.outcomes :: OnlyTargets(o)
  {
    if calls != [] {
      var n := |calls| - 1;
      forall i | 0 <= i < n ensures Targets(FindInFields(calls[..n][i].args), CallIds(calls[..n][..i])) {
        assert calls[..n][..i] == calls[..i] && calls[..n][i] == calls[i];
      }
      hide Targets, CallIds, ResolveFields, RunCall;
      ValidPlansResolve(t, calls[..n], context, catalog, limit, events);
      ResultsFollowPlan(t, calls[..n], context, catalog, limit, events);
      var before := RunCalls(t, calls[..n], context, catalog, limit, events);
      if before.failure.None? {
        RunCallOutcome(before, calls[n], context, catalog, limit, events(n));
        ResolveFieldsErrors(calls[n].args, before.byId);
        OnlyTargetErrors(FindInFields(calls[n].args), before.byId);
        var r := RunCalls(t, calls, context, catalog, limit, events);
        assert r.outcomes == before.outcomes + [r.outcomes[|before.outcomes|]];
      }
    }
  }

  // ------------------------------------------------------------------ replaying calls from the cache

  function ById(results: seq<ToolResult>): Results {
    if results == [] then map[] else
      ById(results[..|results| - 1])[results[|results| - 1].callId := results[|results| - 1]]
  }

  lemma DispatchNames(t: ToolRun, call: ToolCall, args: seq<Json.Field>, context: Json.Value, f: string, catalog: Catalog, limit: nat, event: CallEvent)
    requires t.byId == ById(t.results)
    ensures var r := DispatchCall(t, call, args, context, f, catalog, limit, event); r.byId == ById(r.results)
  {
    hide Execute, AddError, FailureReason, CallError;
    forall result ensures (t.results + [result])[..|t.results|] == t.results {}
  }

  lemma RunCallNames(t: ToolRun, call: ToolCall, context: Json.Value, catalog: Catalog, limit: nat, event: CallEvent)
    requires t.byId == ById(t.results) && CacheNamesCalls(t.cache)
    ensures var r := RunCall(t, call, context, catalog, limit, event); r.byId == ById(r.results)
  {
    hide ResolveFields, Fingerprint, DispatchCall, RunCall, ById, Callable;
    var (args, unresolved) := ResolveFields(call.args, t.byId);
    var f := Fingerprint(call.tool, args, context);
    DispatchNames(t, call, args, context, f, catalog, limit, event);
    RunCallDispatches(t, call, context, catalog, limit, event);
    if unresolved != [] {
      UnresolvedCall(t, call, context, catalog, limit, event);
    } else if f in t.cache {
      ReuseLeaves(t, call, context, catalog, limit, event);
    }
    forall result: ToolResult ensures ById(t.results + [result]) == ById(t.results)[result.callId := result] { ByIdSnoc(t.results, result); }
  }

  lemma ByIdSnoc(results: seq<ToolResult>, result: ToolResult)
    ensures ById(results + [result]) == ById(results)[result.callId := result]
  {
    assert (results + [result])[..|results|] == results;
  }

  lemma {:induction false} ByIdHolds(results: seq<ToolResult>, i: nat)
    requires i < |results| && forall j | i < j < |results| :: results[j].callId != results[i].callId
    ensures results[i].callId in ById(results) && ById(results)[results[i].callId] == results[i]
  {
    var n := |results| - 1;
    if i < n { ByIdHolds(results[..n], i); }
  }

  /** What a reference to a call finds is that call's own result: every result of the pass stands under the id of
      its call in the plan. */
  lemma {:induction false} ResultsByCallId(t: ToolRun, calls: seq<ToolCall>, context: Json.Value, catalog: Catalog, limit: nat,
                                           events: nat -> CallEvent)
    requires t == Start(t.cache, t.used, t.errors, t.entered) && CacheNamesCalls(t.cache) && DistinctIds(calls)
    ensures var r := RunCalls(t, calls, context, catalog, limit, events);
      && r.byId == ById(r.results) && |r.results| <= |calls|
      && forall i | 0 <= i < |r.results| :: calls[i].id in r.byId && r.byId[calls[i].id] == r.results[i]
  {
    hide RunCall, ById;
    ResultsFollowPlan(t, calls, context, catalog, limit, events);
    var r := RunCalls(t, calls, context, catalog, limit, events);
    if calls == [] {
      assert r.byId == ById(r.results) by { NoResultsById(); }
    } else {
      var n := |calls| - 1;
      ResultsByCallId(t, calls[..n], context, catalog, limit, events);
      ResultsFollowPlan(t, calls[..n], context, catalog, limit, events);
      var before := RunCalls(t, calls[..n], context, catalog, limit, events);
      if before.failure.None? { RunCallNames(before, calls[n], context, catalog, limit, events(n)); }
    }
    forall i | 0 <= i < |r.results| ensures calls[i].id in r.byId && r.byId[calls[i].id] == r.results[i] {
      assert forall j | 0 <= j < |r.results| :: SameCall(r.results[j], r.records[j], calls[j]);
      ByIdHolds(r.results, i);
    }
  }

  lemma NoResultsById()
    ensures ById([]) == map[]
  {}

  /** The results these calls had, read back from the cache alone; None when one of them is not there
      as a success under its own id. */
  function Replay(calls: seq<ToolCall>, context: Json.Value, cache: Cache): (r: Option<seq<ToolResult>>)
    ensures r.Some? ==> |r.value| == |calls|
  {
    if calls == [] then Some([]) else
      var call := calls[|calls| - 1];
      var before := Replay(calls[..|calls| - 1], context, cache);
      if before.None? then None else
        var (args, unresolved) := ResolveFields(call.args, ById(before.value));
        var fingerprint := Fingerprint(call.tool, args, context);
        if unresolved != [] || fingerprint !in cache then None
        else
          var cached := cache[fingerprint];
          if cached.callId == call.id == cached.result.callId && cached.result.status == Ok
          then Some(before.value + [cached.result]) else None
  }

  lemma {:induction false} ReplaySurvivesGrowth(calls: seq<ToolCall>, context: Json.Value, a: Cache, b: Cache)
    requires Grows(a, b) && Replay(calls, context, a).Some?
    ensures Replay(calls, context, b) == Replay(calls, context, a)
  {
    if calls != [] {
      ReplaySurvivesGrowth(calls[..|calls| - 1], context, a, b);
    }
  }

  /** A pass without errors leaves every one of its results replayable. */
  ghost predicate CleanSoFar(t: ToolRun, calls: seq<ToolCall>, context: Json.Value) {
    t.errors == [] ==>
      && t.failure.None?
      && t.byId == ById(t.results)
      && Replay(calls, context, t.cache) == Some(t.results)
  }

  lemma CleanDispatch(t: ToolRun, call: ToolCall, args: seq<Json.Field>, context: Json.Value, f: string, catalog: Catalog,
                      limit: nat, event: CallEvent)
    requires f !in t.cache
    ensures var r := DispatchCall(t, call, args, context, f, catalog, limit, event);
      && Grows(t.cache, r.cache)
      && (r.errors == [] ==>
            && t.errors == [] && r.failure == t.failure
            && f in r.cache && r.cache[f].callId == call.id
            && r.cache[f].result.callId == call.id && r.cache[f].result.status == Ok
            && r.results == t.results + [r.cache[f].result]
            && r.byId == t.byId[call.id := r.cache[f].result])
  {
    hide Execute, AddError, FailureReason;
  }

  /** A call that adds no error leaves a success under its own id in the cache. */
  lemma CleanCall(t: ToolRun, call: ToolCall, context: Json.Value, catalog: Catalog, limit: nat, event: CallEvent)
    requires CacheNamesCalls(t.cache)
    ensures var r := RunCall(t, call, context, catalog, limit, event);
      var (args, unresolved) := ResolveFields(call.args, t.byId);
      var fingerprint := Fingerprint(call.tool, args, context);
      && Grows(t.cache, r.cache)
      && (r.errors == [] ==>
            && t.errors == [] && r.failure == t.failure && unresolved == []
            && fingerprint in r.cache && r.cache[fingerprint].callId == call.id
            && r.cache[fingerprint].result.callId == call.id && r.cache[fingerprint].result.status == Ok
            && r.results == t.results + [r.cache[fingerprint].result]
            && r.byId == t.byId[call.id := r.cache[fingerprint].result])
  {
    hide Fingerprint, ResolveFields, DispatchCall, FailedResult, AddError;
    var args := ResolveFields(call.args, t.byId).0;
    var f := Fingerprint(call.tool, args, context);
    if f !in t.cache { CleanDispatch(t, call, args, context, f, catalog, limit, event); }
  }

  lemma ReplaySnoc(before: seq<ToolCall>, call: ToolCall, context: Json.Value, cache: Cache, results: seq<ToolResult>)
    requires Replay(before, context, cache) == Some(results)
    ensures var (args, unresolved) := ResolveFields(call.args, ById(results));
      var fingerprint := Fingerprint(call.tool, args, context);
      unresolved == [] && fingerprint in cache && cache[fingerprint].callId == call.id
        && cache[fingerprint].result.callId == call.id && cache[fingerprint].result.status == Ok
      ==> Replay(before + [call], context, cache) == Some(results + [cache[fingerprint].result])
  {
    hide Fingerprint, ResolveFields, ById;
    assert (before + [call])[..|before|] == before;
  }

  lemma RunCallStaysClean(t: ToolRun, before: seq<ToolCall>, call: ToolCall, context: Json.Value, catalog: Catalog,
                          limit: nat, event: CallEvent)
    requires CleanSoFar(t, before, context) && CacheNamesCalls(t.cache)
    ensures CleanSoFar(RunCall(t, call, context, catalog, limit, event), before + [call], context)
  {
    hide Fingerprint, ResolveFields, RunCall, Replay, Grows, CacheNamesCalls;
    CleanCall(t, call, context, catalog, limit, event);
    var r := RunCall(t, call, context, catalog, limit, event);
    if r.errors == [] {
      ReplaySurvivesGrowth(before, context, t.cache, r.cache);
      ReplaySnoc(before, call, context, r.cache, t.results);
      assert r.results[..|t.results|] == t.results;
    }
  }

  lemma {:induction false} CleanRunIsReplayable(t: ToolRun, calls: seq<ToolCall>, context: Json.Value, catalog: Catalog,
                                                limit: nat, events: nat -> CallEvent)
    requires t == Start(t.cache, t.used, t.errors, t.entered) && CacheNamesCalls(t.cache)
    ensures CleanSoFar(RunCalls(t, calls, context, catalog, limit, events), calls, context)
  {
    hide RunCall, CleanSoFar;
    if calls == [] {
      assert CleanSoFar(t, [], context) by { CleanStart(t, context); }
    } else {
      var n := |calls| - 1;
      CleanRunIsReplayable(t, calls[..n], context, catalog, limit, events);
      ResultsFollowPlan(t, calls[..n], context, catalog, limit, events);
      assert calls == calls[..n] + [calls[n]];
      var before := RunCalls(t, calls[..n], context, catalog, limit, events);
      if before.failure.None? {
        RunCallStaysClean(before, calls[..n], calls[n], context, catalog, limit, events(n));
      } else {
        CleanMeansNoFailure(before, calls[..n], calls, context);
      }
    }
  }

  lemma CleanStart(t: ToolRun, context: Json.Value)
    requires t == Start(t.cache, t.used, t.errors, t.entered)
    ensures CleanSoFar(t, [], context)
  {}

  lemma CleanMeansNoFailure(t: ToolRun, before: seq<ToolCall>, calls: seq<ToolCall>, context: Json.Value)
    requires CleanSoFar(t, before, context) && t.failure.Some?
    ensures CleanSoFar(t, calls, context)
  {}

  /** The pass over a replayable prefix touches nothing but its own results: no handler, no budget. */
  lemma {:induction false} PrefixComesFromCache(t: ToolRun, calls: seq<ToolCall>, context: Json.Value, catalog: Catalog,
                                                limit: nat, events: nat -> CallEvent)
    requires t == Start(t.cache, t.used, t.errors, t.entered)
    requires Replay(calls, context, t.cache).Some?
    ensures var r := RunCalls(t, calls, context, catalog, limit, events);
      && r.results == Replay(calls, context, t.cache).value
      && r.byId == ById(r.results)
      && r.cache == t.cache && r.used == t.used && r.entered == t.entered && r.errors == t.errors && r.failure.None?
      && |r.records| == |calls| && (forall d | d in r.records :: d.stage == CacheReuse && !d.handlerEntered)
      && |r.outcomes| == |calls| && (forall o | o in r.outcomes :: o == Reused)
  {
    hide Fingerprint, ResolveFields, Execute;
    if calls != [] {
      var n := |calls| - 1;
      PrefixComesFromCache(t, calls[..n], context, catalog, limit, events);
      var before := RunCalls(t, calls[..n], context, catalog, limit, events);
      var r := RunCalls(t, calls, context, catalog, limit, events);
      assert r.results[..|before.results|] == before.results;
    }
  }

  /** Calls appended after a replayable prefix are never stopped by an exhausted tool budget, as long as
      they are no more than what was left of it. */
  lemma {:induction false} AppendedFitBudget(t: ToolRun, baseline: seq<ToolCall>, appended: seq<ToolCall>, context: Json.Value,
                                             catalog: Catalog, limit: nat, events: nat -> CallEvent)
    requires t == Start(t.cache, t.used, t.errors, t.entered)
    requires Replay(baseline, context, t.cache).Some?
    requires t.used + |appended| <= limit
    ensures var r := RunCalls(t, baseline + appended, context, catalog, limit, events);
      && r.used <= t.used + |appended|
      && Stopped(ExecutionBudgetError) !in r.outcomes
  {
    hide RunCall, Replay, Start;
    if appended == [] {
      assert baseline + appended == baseline;
      PrefixComesFromCache(t, baseline, context, catalog, limit, events);
    } else {
      var n := |appended| - 1;
      assert (baseline + appended)[..|baseline| + n] == baseline + appended[..n];
      AppendedFitBudget(t, baseline, appended[..n], context, catalog, limit, events);
      var before := RunCalls(t, baseline + appended[..n], context, catalog, limit, events);
      if before.failure.None? {
        RunCallOutcome(before, appended[n], context, catalog, limit, events(|baseline| + n));
        var r := RunCalls(t, baseline + appended, context, catalog, limit, events);
        assert r.outcomes == before.outcomes + [r.outcomes[|before.outcomes|]];
      }
    }
  }
}
