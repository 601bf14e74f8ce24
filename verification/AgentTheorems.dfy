/** The promises of a whole run, for every fresh request and whatever the world does. */
module AgentTheorems {
  import opened Wrappers
  import opened Plans
  import opened References
  import opened PlanContracts
  import opened Decisions
  import opened RecoveryPlanning
  import opened ToolExecution
  import opened CacheSources
  import opened PythonValues
  import opened AgentState
  import opened AgentGraph
  import opened AgentSafety
  import opened AgentOutcomes
  import Json

  function StepBound(cfg: Config): nat { 5 * cfg.limits.maxController + 10 }

  /** No consistency check of the runtime ever fires, and every step uses up the bound. */
  lemma {:induction false} NeverCrashes(s: State, worlds: seq<World>, cfg: Config)
    requires Fresh(s) && Registered(cfg.catalog)
    ensures var t := Run(s, worlds, cfg);
      !t.Crash?
      && (t.Next? ==> Inv(t.state, t.node, cfg) && Known(t.state, t.node, cfg) && (t.node == RunInit || RecordsTell(t.state))
                      && (t.node == End || Measure(t.state, t.node, cfg) + |worlds| <= StepBound(cfg)))
  {
    hide Fresh, Inv, Known, RecordsTell, Measure, Registered, StepFrom;
    if worlds == [] {
      assert Known(s, RunInit, cfg) && Inv(s, RunInit, cfg) && Measure(s, RunInit, cfg) == StepBound(cfg) by { AtStart(s, cfg); }
    } else {
      var n := |worlds| - 1;
      NeverCrashes(s, worlds[..n], cfg);
      var before := Run(s, worlds[..n], cfg);
      if before.Next? {
        if before.node == End {
          EndStays(before.state, worlds[n], cfg);
        } else {
          EveryStep(before.state, before.node, worlds[n], cfg);
          StepTells(before.state, before.node, worlds[n], cfg);
          StepRecords(before.state, before.node, worlds[n], cfg);
        }
      }
    }
  }

  lemma AtStart(s: State, cfg: Config)
    requires Fresh(s)
    ensures Inv(s, RunInit, cfg) && Known(s, RunInit, cfg) && Measure(s, RunInit, cfg) == StepBound(cfg)
  {}

  lemma StartIsFurthest(s: State, cfg: Config)
    ensures Measure(s, RunInit, cfg) == StepBound(cfg)
  {}

  lemma EndStays(s: State, w: World, cfg: Config)
    ensures StepFrom(s, End, w, cfg) == Next(s, End)
  {
    hide StepRunInit, StepController, StepGuarded, StepAnswer, StepCheckpoint, CheckDecision, Converse, CheckPlan, RunTools,
         TakeContext, BuildEvidence, Review, FinalizeAttempt, Recover, Reset, FinalizeRun, Respond;
  }

  lemma MeasureLeft(s: State, node: Node, cfg: Config)
    requires Inv(s, node, cfg) && node != End
    ensures Measure(s, node, cfg) >= 1
  {
    hide Fresh, AtController, AtDecisionValidate, AtConversationAnswer, AtPlan, AtControllerContext, AtEvidence, AtAnswer,
         AtAttemptFinalize, AtRecovery, AtAttemptReset, AtRunFinalize, AtResponse, AtEnd;
  }

  /** Every fresh run ends within five steps per allowed controller call and ten more: with a response and
      one or two contiguous attempt records, all budgets within their limits, the run's outcome that of its last
      attempt unless recovery was exhausted or timed out, and this outcome told by the signals of the run, each
      response type by exactly its own. (A throwing collaborator ends it early.) */
  lemma EveryRunEnds(s: State, worlds: seq<World>, cfg: Config)
    requires Fresh(s) && Registered(cfg.catalog) && |worlds| >= StepBound(cfg)
    ensures var t := Run(s, worlds, cfg);
      t.Raised? || (t.Next? && t.node == End && Finished(t.state, cfg))
  {
    hide Inv, Known, Measure, Run;
    NeverCrashes(s, worlds, cfg);
    var t := Run(s, worlds, cfg);
    if t.Next? {
      if t.node != End { MeasureLeft(t.state, t.node, cfg); }
      EndIsFinished(t.state, cfg);
    }
  }

  ghost predicate WithinBudget(s: State, limits: Limits) {
    && s.budget.replansUsed <= 1
    && s.budget.toolsUsed <= limits.maxTools
    && s.budget.controllerUsed <= limits.maxController
    && s.budget.answerUsed <= limits.maxAnswer
  }

  ghost predicate Finished(s: State, cfg: Config) {
    && 1 <= |s.attempts| <= 2 && Contiguous(s.attempts) && WithinBudget(s, cfg.limits)
    && s.response == Some(PublicResponse(s)) && ResponseTold(s, PublicResponse(s))
    && s.status != WaitingInput && OutcomeTold(s, cfg) && RecordsTell(s)
    && var last := s.attempts[|s.attempts| - 1].outcome;
       && ((s.status == last.status && s.responseType == Some(last.responseType) && s.reason == last.reason
            && s.terminalStage == Some(last.terminalStage) && s.failureStage == last.failureStage)
           || (EvidenceMissing(s) && s.responseType in {Some(ReplanExhausted), Some(Runtime(ExecutionTimeout))}))
  }

  lemma EndIsFinished(s: State, cfg: Config)
    requires Inv(s, End, cfg) && Known(s, End, cfg) && RecordsTell(s)
    ensures Finished(s, cfg)
  {
    hide CacheNamesCalls, ResolveOutcome, PublicResponse, Known, OutcomeTold, ResponseTold, RecordsTell;
    EndTells(s, cfg);
    ResponseTells(s, cfg);
  }

  /** In every reachable state: each tool-call fingerprint entered its handler at most once, the tool budget
      counts exactly the handler entries, context tools ran at most as often as their own limit, and a run
      that began fresh never waits at the checkpoint. */
  lemma HandlersRunOnce(s: State, worlds: seq<World>, cfg: Config)
    requires Fresh(s) && Registered(cfg.catalog) && |worlds| > 0
    ensures var t := Run(s, worlds, cfg);
      t.Next? ==> (NoRepeats(t.state.entered) && t.state.budget.toolsUsed == |t.state.entered| <= cfg.limits.maxTools
                   && t.state.contextEntered <= cfg.contextLimit && t.state.contextCount <= cfg.contextLimit
                   && WithinBudget(t.state, cfg.limits) && t.node != Checkpoint)
  {
    hide Run, Measure;
    NeverCrashes(s, worlds, cfg);
    var t := Run(s, worlds, cfg);
    if t.Next? {
      assert t.node != RunInit by { StartIsFurthest(t.state, cfg); }
      InvSpends(t.state, t.node, cfg);
    }
  }

  lemma InvSpends(s: State, node: Node, cfg: Config)
    requires Inv(s, node, cfg) && node != RunInit
    ensures Spending(s, cfg) && node != Checkpoint
  {
    hide Spending, Attempt, Promised, Unspoiled, Deciding, Planning, Recorded, Executed, ResolveOutcome, Mirrored, Settled,
         GoodBaseline, Contiguous;
  }

  // ------------------------------------------------------------------ what the tools node meets

  /** No invalid reference, no unavailable target; results and dispatch records are one and the same
      prefix of the plan's distinct call ids. */
  ghost predicate PassFollowsPlan(s: State, w: World, catalog: Catalog)
    requires s.plan.Some?
  {
    var r, calls := Pass(s, w, catalog), s.plan.value.calls;
    && DistinctIds(calls)
    && (forall o | o in r.outcomes :: OnlyTargets(o))
    && |r.results| == |r.records| <= |calls|
    && (forall i | 0 <= i < |r.results| :: SameCall(r.results[i], r.records[i], calls[i]))
    && (r.failure.None? ==> |r.results| == |calls|)
  }

  lemma AcceptedPlansResolve(s: State, w: World, cfg: Config)
    requires Inv(s, ToolCalls, cfg)
    ensures PassFollowsPlan(s, w, cfg.catalog)
  {
    hide OnlyContext, MadeFor, Accounted, GoodBaseline, DecisionErrors, Effective, ReplanAccepted, Contiguous, Run, RunCalls;
    var plan := s.plan.value;
    AcceptedPlanHasOneDestination(plan, cfg.catalog);
    ResultsFollowPlan(PassOf(s), plan.calls, plan.context, cfg.catalog, s.budget.limits.maxTools, w.calls);
    ValidPlansResolve(PassOf(s), plan.calls, plan.context, cfg.catalog, s.budget.limits.maxTools, w.calls);
  }

  lemma DispatchExtends(t: ToolRun, call: ToolCall, args: seq<Json.Field>, context: Json.Value, f: string, catalog: Catalog,
                        limit: nat, event: CallEvent)
    ensures t.results <= DispatchCall(t, call, args, context, f, catalog, limit, event).results
    ensures t.records <= DispatchCall(t, call, args, context, f, catalog, limit, event).records
  {
    hide Execute, CallError, AddError;
  }

  lemma RunCallExtends(t: ToolRun, call: ToolCall, context: Json.Value, catalog: Catalog, limit: nat, event: CallEvent)
    ensures t.results <= RunCall(t, call, context, catalog, limit, event).results
    ensures t.records <= RunCall(t, call, context, catalog, limit, event).records
  {
    hide ResolveFields, Fingerprint, DispatchCall, CallError, AddError;
    var args := ResolveFields(call.args, t.byId).0;
    DispatchExtends(t, call, args, context, Fingerprint(call.tool, args, context), catalog, limit, event);
  }

  lemma {:induction false} RunCallsExtend(t: ToolRun, calls: seq<ToolCall>, more: seq<ToolCall>, context: Json.Value,
                                          catalog: Catalog, limit: nat, events: nat -> CallEvent)
    ensures RunCalls(t, calls, context, catalog, limit, events).results <= RunCalls(t, calls + more, context, catalog, limit, events).results
    ensures RunCalls(t, calls, context, catalog, limit, events).records <= RunCalls(t, calls + more, context, catalog, limit, events).records
  {
    hide RunCall;
    if more == [] {
      assert calls + more == calls;
    } else {
      var n := |more| - 1;
      assert (calls + more)[..|calls| + n] == calls + more[..n];
      RunCallsExtend(t, calls, more[..n], context, catalog, limit, events);
      var before := RunCalls(t, calls + more[..n], context, catalog, limit, events);
      RunCallExtends(before, more[n], context, catalog, limit, events(|calls| + n));
    }
  }

  /** The first n calls were answered from the cache: same results, nothing spent, nothing entered. */
  ghost predicate ReplayedFromCache(s: State, prefix: ToolRun, r: ToolRun, n: nat) {
    && AllReused(prefix, n) && prefix.results == s.firstResults && |s.firstResults| == n
    && prefix.used == s.budget.toolsUsed && prefix.entered == s.entered && prefix.cache == s.cache
    && s.firstResults <= r.results
    && |r.records| >= n && forall i | 0 <= i < n :: r.records[i].stage == CacheReuse && !r.records[i].handlerEntered
  }

  /** The pass over the calls the replan kept. */
  ghost function InheritedPass(s: State, w: World, catalog: Catalog): ToolRun
    requires s.plan.Some? && s.baseline.Some?
  {
    RunCalls(PassOf(s), Kept(s.plan.value, s.baseline.value), s.plan.value.context, catalog, s.budget.limits.maxTools, w.calls)
  }

  /** The kept calls have the arguments they had, up to the order of keys. Acceptance alone does not say so:
      it compares them as Python does. */
  ghost predicate KeepsArguments(s: State)
    requires s.plan.Some? && s.baseline.Some?
  {
    AllSameArgs(Kept(s.plan.value, s.baseline.value), s.baseline.value.calls)
  }

  lemma BaselineIsEvidence(baseline: Plan, catalog: Catalog)
    requires GoodPlan(baseline, catalog) && !IsContextPlan(baseline, catalog)
    ensures EvidenceCalls(baseline.calls, catalog)
  {
    hide DecisionErrors, IsContextPlan, CatalogErrors, Produced, Effective;
    AcceptedPlanHasOneDestination(baseline, catalog);
    forall c | c in baseline.calls ensures !FeedsController(c.tool, catalog) {
      assert ToolOf(catalog, c.tool).destination.ToEvidence?;
    }
  }

  lemma KeptRepeats(plan: Plan, baseline: Plan)
    requires HasPrefix(plan, baseline)
    ensures Repeats(Kept(plan, baseline), baseline.calls)
  {
    hide EqualInPython;
  }

  lemma ReplanPlan(s: State, cfg: Config)
    requires Inv(s, ToolCalls, cfg) && s.attemptIndex == 1
    ensures s.baseline.Some? && s.plan.Some? && s.feedback.Some?
    ensures var first, plan := s.baseline.value, s.plan.value;
      && plan.calls == Kept(plan, first) + Appended(plan, first) && Appended(plan, first) != [] && plan.context == first.context
      && Repeats(Kept(plan, first), first.calls) && EvidenceCalls(first.calls, cfg.catalog)
      && s.budget.toolsUsed + |Appended(plan, first)| <= s.budget.limits.maxTools
      && Replay(first.calls, first.context, s.cache) == Some(s.firstResults)
      && MadeFor(s.cache, first.calls, first.context, s.firstResults, cfg.catalog)
      && PassOf(s) == Start(s.cache, s.budget.toolsUsed, s.errors, s.entered) && s.errors == []
  {
    hide Accounted, DecisionErrors, Effective, ReplanAccepted, Contiguous, Replay, CallIds, CallTools, IrrelevantOf, Produced, SetOf, Appended,
         Kept, HasPrefix, Repeats, MadeFor, OnlyContext, EvidenceCalls, IsContextPlan;
    AcceptedReplanExtends(s.decision.value, s.baseline.value, s.feedback.value, cfg.catalog);
    assert SamePart(Context, s.plan.value, s.baseline.value);
    KeptRepeats(s.plan.value, s.baseline.value);
    BaselineIsEvidence(s.baseline.value, cfg.catalog);
  }

  /** The calls of the first plan give the results of the first attempt again, all from the cache, without
      a handler entry or any tool budget, and no appended call is stopped by an exhausted tool budget. */
  ghost predicate ReplanReplays(s: State, w: World, catalog: Catalog) {
    && s.baseline.Some? && s.plan.Some? && |s.baseline.value.calls| < |s.plan.value.calls|
    && ReplayedFromCache(s, InheritedPass(s, w, catalog), Pass(s, w, catalog), |s.baseline.value.calls|)
    && Stopped(ExecutionBudgetError) !in Pass(s, w, catalog).outcomes
  }

  /** An accepted replan replays exactly when its kept calls keep their arguments; and exactly then the kept
      calls go through without an error and without spending any of the tool budget. */
  ghost predicate ReplaysExactly(s: State, w: World, catalog: Catalog) {
    && s.baseline.Some? && s.plan.Some?
    && (ReplanReplays(s, w, catalog) <==> KeepsArguments(s))
    && (Quiet(PassOf(s), InheritedPass(s, w, catalog)) <==> KeepsArguments(s))
  }

  lemma KeptReplays(s: State, w: World, cfg: Config)
    requires Inv(s, ToolCalls, cfg) && s.attemptIndex == 1 && s.baseline.Some? && s.plan.Some? && KeepsArguments(s)
    ensures ReplanReplays(s, w, cfg.catalog)
  {
    hide Inv, Replay, RunCalls, Appended, Kept, AllSameArgs, Repeats, MadeFor, EvidenceCalls;
    ReplanPlan(s, cfg);
    var first, plan, t, limit := s.baseline.value, s.plan.value, PassOf(s), s.budget.limits.maxTools;
    var kept, appended := Kept(plan, first), Appended(plan, first);
    KeptCallsReplayExactly(t, kept, first.calls, plan.context, s.firstResults, cfg.catalog, limit, w.calls);
    PrefixComesFromCache(t, kept, plan.context, cfg.catalog, limit, w.calls);
    AppendedFitBudget(t, kept, appended, plan.context, cfg.catalog, limit, w.calls);
    RunCallsExtend(t, kept, appended, plan.context, cfg.catalog, limit, w.calls);
    var prefix, r := InheritedPass(s, w, cfg.catalog), Pass(s, w, cfg.catalog);
    assert |kept| == |first.calls| by { SameLength(kept, first.calls); }
    forall i | 0 <= i < |kept| ensures r.records[i].stage == CacheReuse && !r.records[i].handlerEntered {
      assert prefix.records[i] in prefix.records && r.records[i] == prefix.records[i];
    }
  }

  lemma SameLength(kept: seq<ToolCall>, base: seq<ToolCall>)
    requires Repeats(kept, base)
    ensures |kept| == |base|
  {}

  lemma ReplanReplaysExactly(s: State, w: World, cfg: Config)
    requires Inv(s, ToolCalls, cfg) && s.attemptIndex == 1
    ensures ReplaysExactly(s, w, cfg.catalog)
  {
    hide Inv, Replay, RunCalls, Appended, Kept, AllSameArgs, Repeats, MadeFor, EvidenceCalls;
    ReplanPlan(s, cfg);
    var first, plan, t, limit := s.baseline.value, s.plan.value, PassOf(s), s.budget.limits.maxTools;
    KeptCallsReplayExactly(t, Kept(plan, first), first.calls, plan.context, s.firstResults, cfg.catalog, limit, w.calls);
    SameLength(Kept(plan, first), first.calls);
    if KeepsArguments(s) { KeptReplays(s, w, cfg); }
  }

  /** So whenever a fresh run reaches its tools node, the pass follows the plan, and a replan replays if and
      only if it keeps the arguments. */
  lemma EveryToolsNode(s0: State, worlds: seq<World>, w: World, cfg: Config)
    requires Fresh(s0) && Registered(cfg.catalog)
    ensures var t := Run(s0, worlds, cfg);
      t.Next? && t.node == ToolCalls ==>
        t.state.plan.Some? && PassFollowsPlan(t.state, w, cfg.catalog) && (t.state.attemptIndex == 1 ==> ReplaysExactly(t.state, w, cfg.catalog))
  {
    hide Run, PassFollowsPlan, ReplaysExactly, Measure, Fresh, Registered;
    NeverCrashes(s0, worlds, cfg);
    var t := Run(s0, worlds, cfg);
    if t.Next? && t.node == ToolCalls {
      AcceptedPlansResolve(t.state, w, cfg);
      if t.state.attemptIndex == 1 { ReplanReplaysExactly(t.state, w, cfg); }
    }
  }

  /** No raw error text, and in a safe failure nothing at all. */
  ghost predicate TellsNothing(r: Response, s: State) {
    && (forall e | e in r.errors :: e == "tool execution failed" || e == "request processing failed")
    && (forall x | x in r.results && x.status == ResultStatus.Error :: x.error == Some("tool execution failed"))
    && (s.safeFailure ==> r.status == Failing && r.plan.None? && r.results == [] && r.errors == [])
    && (!s.safeFailure ==> |r.results| == |s.results| && |r.errors| == |s.errors|)
  }

  lemma PublicErrorsAreFixed(s: State)
    ensures TellsNothing(PublicResponse(s), s)
  {}

  /** However a run ends, the errors in its response are not the words they arrived in. */
  lemma ErrorsStayInside(s: State, worlds: seq<World>, cfg: Config)
    requires Fresh(s) && Registered(cfg.catalog) && |worlds| >= StepBound(cfg)
    ensures var t := Run(s, worlds, cfg);
      t.Raised? || (t.Next? && t.state.response.Some? && TellsNothing(t.state.response.value, t.state))
  {
    hide Run, TellsNothing, PublicResponse, Fresh, Registered;
    EveryRunEnds(s, worlds, cfg);
    var t := Run(s, worlds, cfg);
    if t.Next? { PublicErrorsAreFixed(t.state); }
  }
}
