/** The tools node as code: lists, the result dictionary and the fingerprint cache are updated in place,
    call by call. */
module ToolPass {
  import opened Wrappers
  import opened Plans
  import opened References
  import opened ToolExecution
  import Json

  class Pass {
    var results: seq<ToolResult>
    var records: seq<DispatchRecord>
    var byId: Results
    var cache: Cache
    var used: nat
    var errors: seq<string>
    var failure: Option<RuntimeFailure>
    var entered: seq<string>
    var outcomes: seq<CallOutcome>

    function View(): ToolRun reads this {
      ToolRun(results, records, byId, cache, used, errors, failure, entered, outcomes)
    }

    constructor (t: ToolRun)
      ensures View() == t
    {
      results, records, byId, cache, used := t.results, t.records, t.byId, t.cache, t.used;
      errors, failure, entered, outcomes := t.errors, t.failure, t.entered, t.outcomes;
    }

    method Record(call: ToolCall, result: ToolResult, record: DispatchRecord, outcome: CallOutcome)
      modifies this
      ensures View() == Append(old(View()), call, result, record, outcome)
    {
      results := results + [result];
      records := records + [record];
      byId := byId[call.id := result];
      outcomes := outcomes + [outcome];
      if result.status == Error {
        errors := errors + [call.id + ": " + (if result.error.Some? then result.error.value else "tool execution failed")];
      }
    }

    /** A runtime failure ends the pass; its message is added once. */
    method Stop(code: RuntimeFailure, message: string, outcome: CallOutcome)
      modifies this
      ensures View() == old(View()).(failure := Some(code), errors := AddError(old(errors), message), outcomes := old(outcomes) + [outcome])
    {
      failure := Some(code);
      if message !in errors { errors := errors + [message]; }
      outcomes := outcomes + [outcome];
    }

    /** The executor: a call that is not in the cache. */
    method Dispatch(call: ToolCall, args: seq<Json.Field>, context: Json.Value, fingerprint: string, catalog: Catalog, limit: nat, event: CallEvent)
      modifies this
      ensures View() == DispatchCall(old(View()), call, args, context, fingerprint, catalog, limit, event)
    {
      hide Execute, AddError, FailureReason;
      match Execute(catalog, call, args, context, used, limit, event)
      case Blocked(code) => Stop(code, FailureReason(code), Stopped(code));
      case Done(result, dispatch) =>
        if dispatch.handlerEntered {
          used := used + 1;
          entered := entered + [fingerprint];
        }
        cache := cache[fingerprint := CachedCall(call.id, result, dispatch)];
        Record(call, result, dispatch, if dispatch.handlerEntered then Entered else Refused);
    }

    /** The loop body. */
    method RunOne(call: ToolCall, context: Json.Value, catalog: Catalog, limit: nat, event: CallEvent)
      modifies this
      ensures View() == RunCall(old(View()), call, context, catalog, limit, event)
    {
      hide Fingerprint, ResolveFields, FailedResult, AddError, DispatchCall;
      var (args, unresolved) := ResolveFields(call.args, byId);
      if unresolved != [] {
        Record(call, FailedResult(call, 0, "reference resolution failed"),
               DispatchRecord(call.id, call.tool, false, ReferenceResolution, Some(ReferenceResolutionError)), Unresolved(unresolved));
        return;
      }
      var fingerprint := Fingerprint(call.tool, args, context);
      if fingerprint !in cache {
        Dispatch(call, args, context, fingerprint, catalog, limit, event);
        return;
      }
      var cached := cache[fingerprint];
      if cached.callId != call.id {
        Stop(ExecutionBudgetError, "duplicate tool call fingerprint: " + cached.callId + " -> " + call.id, Duplicate);
        return;
      }
      Record(call, cached.result, DispatchRecord(call.id, call.tool, false, CacheReuse, cached.dispatch.errorCode), Reused);
    }

    /** The loop over the plan's calls. */
    method RunAll(calls: seq<ToolCall>, context: Json.Value, catalog: Catalog, limit: nat, events: nat -> CallEvent)
      requires failure.None?
      modifies this
      ensures View() == RunCalls(old(View()), calls, context, catalog, limit, events)
    {
      hide RunCall;
      var i := 0;
      while i < |calls| && failure.None?
        invariant 0 <= i <= |calls|
        invariant View() == RunCalls(old(View()), calls[..i], context, catalog, limit, events)
      {
        assert calls[..i + 1][..i] == calls[..i];
        RunOne(calls[i], context, catalog, limit, events(i));
        i := i + 1;
      }
      StoppedRunsStay(old(View()), calls, i, context, catalog, limit, events);
    }
  }
}
