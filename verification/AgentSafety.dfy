/** What every reachable state of a fresh run satisfies, node by node, and what follows: no consistency
    check ever fires, budgets hold, and every run ends within a fixed number of steps. */
module AgentSafety {
  import opened Wrappers
  import opened Plans
  import Json
  import opened PlanContracts
  import opened Decisions
  import opened RecoveryPlanning
  import opened ToolExecution
  import opened CacheSources
  import opened PythonValues
  import opened AgentState
  import opened AgentGraph

  // ------------------------------------------------------------------ the invariant

  /** Budgets, the tool cache and the handler history. */
  ghost predicate Spending(s: State, cfg: Config) {
    && s.initialized && s.budget.limits == cfg.limits
    && Accounted(s.cache, s.budget.toolsUsed, cfg.limits.maxTools, s.entered)
    && s.budget.controllerUsed <= cfg.limits.maxController
    && s.budget.answerUsed <= cfg.limits.maxAnswer
    && s.budget.replansUsed <= 1
    && CacheNamesCalls(s.cache)
    && s.contextEntered <= cfg.contextLimit && s.contextCount <= cfg.contextLimit
    && s.status != WaitingInput && !s.checkpointed
  }

  /** A plan the controller may run: accepted, and of one destination. */
  ghost predicate GoodPlan(plan: Plan, catalog: Catalog) { DecisionErrors(ToolPlan(plan), catalog) == [] }

  /** The baseline of a replan: its calls replay from the cache with the results they had. */
  ghost predicate GoodBaseline(baseline: Plan, feedback: Feedback, results: seq<ToolResult>, cache: Cache, catalog: Catalog) {
    && GoodPlan(baseline, catalog) && !IsContextPlan(baseline, catalog)
    && Replay(baseline.calls, baseline.context, cache) == Some(results)
    && SetOf(feedback.missing) != {}
  }

  /** Which attempt this is, and how many are recorded. */
  ghost predicate Attempt(s: State, finished: nat, cfg: Config) {
    && s.attemptIndex <= 1 && |s.attempts| == finished && Contiguous(s.attempts)
    && (s.attemptIndex == 0 ==> s.feedback.None? && s.baseline.None? && s.budget.replansUsed == 0)
    && (s.attemptIndex == 1 ==>
          s.feedback.Some? && s.baseline.Some? && s.budget.replansUsed == 1
          && GoodBaseline(s.baseline.value, s.feedback.value, s.firstResults, s.cache, cfg.catalog))
  }

  /** The budget promised to a replan is still there. */
  ghost predicate Promised(s: State) {
    s.attemptIndex == 1 && s.feedback.Some? ==> s.budget.toolsUsed + s.feedback.value.remainingToolBudget <= s.budget.limits.maxTools
  }

  /** Nothing of the attempt has gone wrong or been produced yet. */
  ghost predicate Unspoiled(s: State) {
    && s.results == [] && s.records == [] && s.errors == [] && s.missing.None? && s.answer.None? && s.reviewPassed.None?
    && s.runtimeFailure.None? && !s.validationFailed && !s.safeFailure
    && !(s.controllerResult.Some? && s.controllerResult.value.Failed?)
  }

  /** The accepted decision and the plan it carries. */
  ghost predicate Deciding(s: State, catalog: Catalog) {
    && s.decision.Some? && DecisionErrors(s.decision.value, catalog) == []
    && s.status == Fine
    && (s.decision.value.ToolPlan? ==> s.plan == Some(s.decision.value.plan) && s.effective == Effective(s.decision.value.plan, catalog))
    && (!s.decision.value.ToolPlan? ==> s.plan.None?)
    && (s.attemptIndex == 1 && s.baseline.Some? && s.feedback.Some? ==>
          ReplanAccepted(s.decision.value, s.baseline.value, s.feedback.value, catalog))
  }

  ghost predicate Planning(s: State, catalog: Catalog) {
    Deciding(s, catalog) && s.decision.value.ToolPlan?
  }

  /** A plan whose calls all succeeded. */
  ghost predicate Executed(s: State, catalog: Catalog) {
    && s.decision.Some? && s.decision.value.ToolPlan? && s.plan == Some(s.decision.value.plan)
    && GoodPlan(s.plan.value, catalog) && !IsContextPlan(s.plan.value, catalog)
    && Replay(s.plan.value.calls, s.plan.value.context, s.cache) == Some(s.results)
    && s.errors == [] && s.runtimeFailure.None? && !s.validationFailed
    && !(s.controllerResult.Some? && s.controllerResult.value.Failed?)
    && s.answer.None? && s.reviewPassed.None? && s.contextEntered <= s.contextCount
    && (s.attemptIndex == 0 ==> MadeFor(s.cache, s.plan.value.calls, s.plan.value.context, s.results, catalog))
  }

  /** What the cache holds before a plan runs: entries of context tools and, in a second attempt, of the
      first one's calls. */
  ghost predicate Sourced(s: State, catalog: Catalog) {
    && (s.attemptIndex == 0 ==> OnlyContext(s.cache, catalog))
    && (s.attemptIndex == 1 && s.baseline.Some? ==>
          MadeFor(s.cache, s.baseline.value.calls, s.baseline.value.context, s.firstResults, catalog))
  }

  ghost predicate Recorded(s: State) { Matching(s.results, s.records) && UniqueRecords(s.records) }

  /** The last record tells how the run will end, unless recovery ended it. */
  ghost predicate Mirrored(s: State) {
    && s.attempts != []
    && (ResolveOutcome(s) == s.attempts[|s.attempts| - 1].outcome
        || (EvidenceMissing(s) && ResolveOutcome(s).responseType in {ReplanExhausted, Runtime(ExecutionTimeout)}))
  }

  /** Common to every node of an attempt that is still open. */
  ghost predicate InAttempt(s: State, cfg: Config) { Spending(s, cfg) && Attempt(s, s.attemptIndex, cfg) }

  ghost predicate AtController(s: State, cfg: Config) {
    InAttempt(s, cfg) && Promised(s) && Sourced(s, cfg.catalog) && Unspoiled(s) && s.decision.None? && s.plan.None? && s.contextEntered <= s.contextCount
  }

  ghost predicate AtDecisionValidate(s: State, cfg: Config) {
    InAttempt(s, cfg) && Promised(s) && Sourced(s, cfg.catalog) && Unspoiled(s) && Deciding(s, cfg.catalog) && s.contextEntered <= s.contextCount
  }

  ghost predicate AtConversationAnswer(s: State, cfg: Config) {
    InAttempt(s, cfg) && Unspoiled(s) && s.decision.Some? && s.decision.value.DirectAnswer?
  }

  /** Where an accepted plan waits to be run: before the validate node and before the tools node. */
  ghost predicate AtPlan(s: State, cfg: Config) {
    InAttempt(s, cfg) && Promised(s) && Sourced(s, cfg.catalog) && Unspoiled(s) && Planning(s, cfg.catalog) && s.contextEntered <= s.contextCount
  }

  ghost predicate AtControllerContext(s: State, cfg: Config) {
    InAttempt(s, cfg) && Recorded(s) && s.attemptIndex == 0 && OnlyContext(s.cache, cfg.catalog)
    && s.results != [] && s.contextEntered <= s.contextCount + |s.results| <= cfg.contextLimit
    && s.missing.None? && s.reviewPassed.None? && s.runtimeFailure.None?
  }

  ghost predicate AtEvidence(s: State, cfg: Config) {
    InAttempt(s, cfg) && Recorded(s) && Executed(s, cfg.catalog) && s.missing.None? && s.status == Fine
  }

  ghost predicate AtAnswer(s: State, cfg: Config) {
    InAttempt(s, cfg) && Recorded(s) && s.plan.Some? && s.missing == Some([])
  }

  ghost predicate AtAttemptFinalize(s: State, cfg: Config) {
    InAttempt(s, cfg) && Recorded(s) && (EvidenceMissing(s) ==> Executed(s, cfg.catalog))
  }

  ghost predicate AtRecovery(s: State, cfg: Config) {
    && Spending(s, cfg) && Attempt(s, s.attemptIndex + 1, cfg)
    && (EvidenceMissing(s) ==> Executed(s, cfg.catalog))
    && ResolveOutcome(s) == s.attempts[|s.attempts| - 1].outcome
  }

  ghost predicate AtAttemptReset(s: State, cfg: Config) {
    && Spending(s, cfg) && s.attemptIndex == 0 && |s.attempts| == 1 && Contiguous(s.attempts)
    && s.recoveryAction == Some(Replan) && s.feedback.Some? && s.baseline.Some? && s.budget.replansUsed == 1
    && GoodBaseline(s.baseline.value, s.feedback.value, s.firstResults, s.cache, cfg.catalog)
    && MadeFor(s.cache, s.baseline.value.calls, s.baseline.value.context, s.firstResults, cfg.catalog)
    && s.budget.toolsUsed + s.feedback.value.remainingToolBudget <= s.budget.limits.maxTools
    && s.budget.controllerUsed < s.budget.limits.maxController
    && EvidenceMissing(s) && Executed(s, cfg.catalog)
    && ResolveOutcome(s) == s.attempts[0].outcome
    && s.contextEntered <= s.contextCount
  }

  ghost predicate AtRunFinalize(s: State, cfg: Config) {
    Spending(s, cfg) && s.attemptIndex <= 1 && |s.attempts| == s.attemptIndex + 1 && Contiguous(s.attempts) && Mirrored(s)
  }

  ghost predicate AtResponse(s: State, cfg: Config) {
    AtRunFinalize(s, cfg) && s.terminalStage.Some? && s.durationKnown && Settled(s)
  }

  ghost predicate AtEnd(s: State, cfg: Config) {
    AtRunFinalize(s, cfg) && Settled(s) && s.response == Some(PublicResponse(s))
  }

  ghost predicate Inv(s: State, node: Node, cfg: Config) {
    match node
    case RunInit => Fresh(s)
    case Controller => AtController(s, cfg)
    case DecisionValidate => AtDecisionValidate(s, cfg)
    case ConversationAnswer => AtConversationAnswer(s, cfg)
    case Validate => AtPlan(s, cfg)
    case ToolCalls => AtPlan(s, cfg)
    case ControllerContext => AtControllerContext(s, cfg)
    case Evidence => AtEvidence(s, cfg)
    case AnswerNode => AtAnswer(s, cfg)
    case Critic => AtAnswer(s, cfg) && s.answer.Some?
    case AttemptFinalize => AtAttemptFinalize(s, cfg)
    case Recovery => AtRecovery(s, cfg)
    case AttemptReset => AtAttemptReset(s, cfg)
    case RunFinalize => AtRunFinalize(s, cfg)
    case ResponseNode => AtResponse(s, cfg)
    case Checkpoint => false
    case End => AtEnd(s, cfg)
  }

  /** The state carries its own outcome. */
  ghost predicate Settled(s: State) {
    var o := ResolveOutcome(s);
    s.status == o.status && s.responseType == Some(o.responseType) && s.reason == o.reason
    && s.terminalStage == Some(o.terminalStage) && s.failureStage == o.failureStage
  }

  // ------------------------------------------------------------------ the measure

  /** At most this many steps are left. Every model call buys at most one round of five nodes; the replan
      buys one more ending. */
  function Measure(s: State, node: Node, cfg: Config): nat {
    var calls := 5 * Minus(cfg.limits.maxController, s.budget.controllerUsed);
    var first := s.attemptIndex == 0;
    match node
    case RunInit => 5 * cfg.limits.maxController + 10
    case Controller => calls + (if first then 9 else 6)
    case DecisionValidate => calls + (if first then 13 else 10)
    case Validate => calls + (if first then 12 else 9)
    case ToolCalls => calls + (if first then 11 else 8)
    case ControllerContext => calls + 10
    case Evidence => if first then calls + 10 else 7
    case AnswerNode => 6
    case Critic => 5
    case ConversationAnswer => 5
    case AttemptFinalize => if first && EvidenceMissing(s) then calls + 9 else 4
    case Recovery => if first && EvidenceMissing(s) then calls + 8 else 3
    case AttemptReset => calls + 7
    case RunFinalize => 2
    case ResponseNode => 1
    case Checkpoint => 0
    case End => 0
  }

  ghost predicate Closer(step: Step, s: State, node: Node, cfg: Config)
    requires step.Next?
  {
    Measure(step.state, step.node, cfg) < Measure(s, node, cfg)
  }

  // ------------------------------------------------------------------ one lemma per node

  lemma InitSteps(s: State, cfg: Config)
    requires Fresh(s)
    ensures var t := StepRunInit(s, cfg); t.Next? && Closer(t, s, RunInit, cfg) && t.node == Controller && AtController(t.state, cfg)
  {}

  /** Where an attempt ends early: nothing is missing, so the run is all but over. */
  ghost predicate EndsAttempt(step: Step, s: State, node: Node, cfg: Config) {
    step.Next? && step.node == AttemptFinalize && AtAttemptFinalize(step.state, cfg) && Closer(step, s, node, cfg)
  }

  /** A node whose gate closes goes straight to the end of the attempt. */
  lemma ClosedSteps(s: State, node: Node, w: World, resource: Option<Resource>, cfg: Config)
    requires node in {Controller, DecisionValidate, ConversationAnswer, Validate, ToolCalls, ControllerContext, Evidence, AnswerNode, Critic}
    requires Gate(s, w.deadlinePassed, resource).Some?
    requires InAttempt(s, cfg) && !EvidenceMissing(s) && Recorded(s)
    ensures EndsAttempt(Closed(s, node, w, resource, cfg), s, node, cfg)
  {
    hide OnlyContext, MadeFor, Accounted, CacheNamesCalls, GoodBaseline, Contiguous, IsContextPlan;
  }

  lemma EmptyIsRecorded()
    ensures Matching([], []) && UniqueRecords([])
  {}

  lemma ControllerSteps(s: State, w: World, cfg: Config)
    requires AtController(s, cfg)
    ensures var t := StepController(s, w, cfg);
      t.Raised? || EndsAttempt(t, s, Controller, cfg)
      || (t.Next? && Closer(t, s, Controller, cfg) && t.node == DecisionValidate && AtDecisionValidate(t.state, cfg))
  {
    EmptyIsRecorded();
    hide OnlyContext, MadeFor, Accounted, CacheNamesCalls, GoodBaseline, Contiguous, DecisionErrors, ReplanAccepted, Effective, Decide, Matching, UniqueRecords;
    if Gate(s, w.deadlinePassed, Some(ControllerCalls)).Some? {
      ClosedSteps(s, Controller, w, Some(ControllerCalls), cfg);
    } else {
      var recovery: Decisions.Recovery :=
        if s.feedback.Some? && s.baseline.Some? then Some((s.baseline.value, s.feedback.value)) else None;
      if Decide(w.replies, recovery, cfg.catalog).Decided? {
        DecidedIsAccepted(w.replies, recovery, cfg.catalog);
      }
    }
  }

  /** The decision was accepted already, so checking it again changes nothing but status and reason. */
  lemma DecisionValidateSteps(s: State, w: World, cfg: Config)
    requires AtDecisionValidate(s, cfg)
    ensures var t := StepGuarded(s, DecisionValidate, w, cfg, CheckDecision(s, cfg.catalog), false);
      t.Next? && !t.state.validationFailed
      && (EndsAttempt(t, s, DecisionValidate, cfg)
          || (Closer(t, s, DecisionValidate, cfg)
              && ((t.node == ConversationAnswer && AtConversationAnswer(t.state, cfg))
                  || (t.node == Validate && AtPlan(t.state, cfg)))))
  {
    EmptyIsRecorded();
    hide OnlyContext, MadeFor, Accounted, CacheNamesCalls, GoodBaseline, Contiguous, DecisionErrors, ReplanAccepted, Effective, Matching, UniqueRecords;
    if Gate(s, w.deadlinePassed, None).Some? { ClosedSteps(s, DecisionValidate, w, None, cfg); }
  }

  lemma ConversationAnswerSteps(s: State, w: World, cfg: Config)
    requires AtConversationAnswer(s, cfg)
    ensures var t := StepGuarded(s, ConversationAnswer, w, cfg, Converse(s), false);
      EndsAttempt(t, s, ConversationAnswer, cfg) && !t.state.validationFailed
  {
    EmptyIsRecorded();
    hide OnlyContext, MadeFor, Accounted, CacheNamesCalls, GoodBaseline, Contiguous, IsContextPlan, Matching, UniqueRecords;
    if Gate(s, w.deadlinePassed, None).Some? { ClosedSteps(s, ConversationAnswer, w, None, cfg); }
  }

  /** The third look at an accepted plan never rejects it either. */
  lemma ValidateSteps(s: State, w: World, cfg: Config)
    requires AtPlan(s, cfg)
    ensures var t := StepGuarded(s, Validate, w, cfg, CheckPlan(s, cfg.catalog), false);
      t.Next? && !t.state.validationFailed
      && (EndsAttempt(t, s, Validate, cfg) || (Closer(t, s, Validate, cfg) && t.node == ToolCalls && AtPlan(t.state, cfg)))
  {
    EmptyIsRecorded();
    hide OnlyContext, MadeFor, Accounted, CacheNamesCalls, GoodBaseline, Contiguous, DecisionErrors, ReplanAccepted, Effective, CatalogErrors, Matching, UniqueRecords;
    if Gate(s, w.deadlinePassed, None).Some? {
      ClosedSteps(s, Validate, w, None, cfg);
    } else {
      AcceptedPlanRouting(s.plan.value, cfg.catalog);
    }
  }

  lemma UniqueFromIds(results: seq<ToolResult>, records: seq<DispatchRecord>, calls: seq<ToolCall>)
    requires DistinctIds(calls) && |results| == |records| <= |calls|
    requires forall i | 0 <= i < |results| :: SameCall(results[i], records[i], calls[i])
    ensures Matching(results, records) && UniqueRecords(records)
  {
    forall i, j | 0 <= i < j < |records| ensures records[i].callId != records[j].callId {
      assert SameCall(results[i], records[i], calls[i]) && SameCall(results[j], records[j], calls[j]);
    }
  }

  /** What a pass over an accepted plan leaves behind. */
  lemma PassFacts(s: State, w: World, cfg: Config)
    requires Spending(s, cfg) && Unspoiled(s) && s.plan.Some? && GoodPlan(s.plan.value, cfg.catalog)
    ensures var r := Pass(s, w, cfg.catalog);
      var plan := s.plan.value;
      && plan.calls != []
      && Matching(r.results, r.records) && UniqueRecords(r.records)
      && CacheNamesCalls(r.cache) && Grows(s.cache, r.cache)
      && Accounted(r.cache, r.used, cfg.limits.maxTools, r.entered)
      && s.budget.toolsUsed <= r.used <= s.budget.toolsUsed + |plan.calls|
      && (r.errors == [] ==> (|r.results| == |plan.calls| && r.failure.None?
                              && Replay(plan.calls, plan.context, r.cache) == Some(r.results)))
      && (OnlyContext(s.cache, cfg.catalog) ==>
            && (IsContextPlan(plan, cfg.catalog) ==> OnlyContext(r.cache, cfg.catalog))
            && (r.errors == [] ==> MadeFor(r.cache, plan.calls, plan.context, r.results, cfg.catalog)))
  {
    var plan := s.plan.value;
    AcceptedPlanHasOneDestination(plan, cfg.catalog);
    var t := PassOf(s);
    assert t == Start(t.cache, t.used, t.errors, t.entered) && InStep(t, []);
    var limit := s.budget.limits.maxTools;
    hide RunCalls, Replay, Accounted, GoodPlan, CacheNamesCalls, UniqueRecords, Matching, SameCall, DistinctIds, OnlyContext, MadeFor;
    if OnlyContext(s.cache, cfg.catalog) {
      if IsContextPlan(plan, cfg.catalog) { ContextPassKeeps(t, plan.calls, plan.context, cfg.catalog, limit, w.calls); }
      CleanPassMakes(t, plan.calls, plan.context, cfg.catalog, limit, w.calls);
    }
    ResultsFollowPlan(t, plan.calls, plan.context, cfg.catalog, limit, w.calls);
    RunAccounts(t, plan.calls, plan.context, cfg.catalog, limit, w.calls);
    CleanRunIsReplayable(t, plan.calls, plan.context, cfg.catalog, limit, w.calls);
    var r := Pass(s, w, cfg.catalog);
    UniqueFromIds(r.results, r.records, plan.calls);
    EnteredPaid(s, r, cfg);
  }

  lemma EnteredPaid(s: State, r: ToolRun, cfg: Config)
    requires Accounted(s.cache, s.budget.toolsUsed, cfg.limits.maxTools, s.entered)
    requires Accounted(r.cache, r.used, cfg.limits.maxTools, r.entered) && s.entered <= r.entered
    ensures s.budget.toolsUsed <= r.used
  {}

  lemma BaselineSurvives(baseline: Plan, feedback: Feedback, results: seq<ToolResult>, before: Cache, after: Cache, catalog: Catalog)
    requires GoodBaseline(baseline, feedback, results, before, catalog) && Grows(before, after)
    ensures GoodBaseline(baseline, feedback, results, after, catalog)
  {
    ReplaySurvivesGrowth(baseline.calls, baseline.context, before, after);
  }

  /** An accepted replan is never a context plan: it keeps the baseline's evidence calls. */
  lemma ReplanIsNoContextPlan(s: State, cfg: Config)
    requires s.attemptIndex == 1 && Attempt(s, 1, cfg) && Planning(s, cfg.catalog)
    ensures !IsContextPlan(s.plan.value, cfg.catalog)
  {
    hide ReplanAccepted, DecisionErrors, Contiguous, Replay, EqualInPython, CallIds, CallTools, Appended, Kept, Produced, IrrelevantOf;
    AcceptedReplanExtends(s.decision.value, s.baseline.value, s.feedback.value, cfg.catalog);
    AcceptedPlanHasOneDestination(s.baseline.value, cfg.catalog);
    assert SameCallInPython(s.plan.value.calls[0], s.baseline.value.calls[0]);
    assert s.baseline.value.calls[0] in s.baseline.value.calls && s.plan.value.calls[0] in s.plan.value.calls;
  }

  lemma ToolsStep(s: State, w: World, cfg: Config)
    requires AtPlan(s, cfg)
    ensures var t := StepGuarded(s, ToolCalls, w, cfg, RunTools(s, w, cfg), false);
      t.Next?
      && (EndsAttempt(t, s, ToolCalls, cfg)
          || (Closer(t, s, ToolCalls, cfg)
              && ((t.node == ControllerContext && AtControllerContext(t.state, cfg))
                  || (t.node == Evidence && AtEvidence(t.state, cfg)))))
  {
    EmptyIsRecorded();
    hide OnlyContext, MadeFor, Accounted, CacheNamesCalls, GoodBaseline, Contiguous, DecisionErrors, ReplanAccepted, Effective, IsContextPlan,
         Pass, UniqueRecords, Matching, Replay, Grows;
    if Gate(s, w.deadlinePassed, None).Some? {
      ClosedSteps(s, ToolCalls, w, None, cfg);
    } else {
      assert GoodPlan(s.plan.value, cfg.catalog);
      PassFacts(s, w, cfg);
      var t := RunTools(s, w, cfg);
      if s.attemptIndex == 1 {
        ReplanIsNoContextPlan(s, cfg);
        if !OverContextLimit(s, cfg) {
          BaselineSurvives(s.baseline.value, s.feedback.value, s.firstResults, s.cache, t.cache, cfg.catalog);
        }
      }
    }
  }

  lemma ControllerContextSteps(s: State, w: World, cfg: Config)
    requires AtControllerContext(s, cfg)
    ensures var t := StepGuarded(s, ControllerContext, w, cfg, TakeContext(s, w), false);
      EndsAttempt(t, s, ControllerContext, cfg)
      || (t.Next? && Closer(t, s, ControllerContext, cfg) && t.node == Controller && AtController(t.state, cfg))
  {
    hide OnlyContext, MadeFor, Accounted, CacheNamesCalls, GoodBaseline, Contiguous, IsContextPlan, Matching, UniqueRecords;
    if Gate(s, w.deadlinePassed, None).Some? { ClosedSteps(s, ControllerContext, w, None, cfg); }
  }

  lemma EvidenceSteps(s: State, w: World, cfg: Config)
    requires AtEvidence(s, cfg)
    ensures var t := StepGuarded(s, Evidence, w, cfg, BuildEvidence(s, w), true);
      t.Raised? || EndsAttempt(t, s, Evidence, cfg)
      || (t.Next? && Closer(t, s, Evidence, cfg) && t.node == AnswerNode && AtAnswer(t.state, cfg))
  {
    hide OnlyContext, MadeFor, Accounted, CacheNamesCalls, GoodBaseline, Contiguous, DecisionErrors, IsContextPlan, Replay, UniqueRecords, Matching;
    if Gate(s, w.deadlinePassed, None).Some? { ClosedSteps(s, Evidence, w, None, cfg); }
  }

  lemma AnswerSteps(s: State, w: World, cfg: Config)
    requires AtAnswer(s, cfg)
    ensures var t := StepAnswer(s, w, cfg);
      t.Raised? || EndsAttempt(t, s, AnswerNode, cfg)
      || (t.Next? && Closer(t, s, AnswerNode, cfg) && t.node == Critic && AtAnswer(t.state, cfg) && t.state.answer.Some?)
  {
    hide OnlyContext, MadeFor, Accounted, CacheNamesCalls, GoodBaseline, Contiguous, UniqueRecords, Matching;
    if Gate(s, w.deadlinePassed, Some(AnswerCalls)).Some? { ClosedSteps(s, AnswerNode, w, Some(AnswerCalls), cfg); }
  }

  lemma CriticSteps(s: State, w: World, cfg: Config)
    requires AtAnswer(s, cfg) && s.answer.Some?
    ensures var t := StepGuarded(s, Critic, w, cfg, Review(s, w), true); t.Raised? || EndsAttempt(t, s, Critic, cfg)
  {
    hide OnlyContext, MadeFor, Accounted, CacheNamesCalls, GoodBaseline, Contiguous, UniqueRecords, Matching;
    if Gate(s, w.deadlinePassed, None).Some? { ClosedSteps(s, Critic, w, None, cfg); }
  }

  lemma OutcomeStatus(s: State)
    requires s.status != WaitingInput
    ensures ResolveOutcome(s).status != WaitingInput
  {}

  /** What the outcome does not look at. */
  lemma OutcomeIgnores(s: State, t: State)
    requires t == s.(attempts := t.attempts, recoveryAction := t.recoveryAction, durationKnown := t.durationKnown,
                     response := t.response, feedback := t.feedback, baseline := t.baseline, budget := t.budget, firstResults := t.firstResults)
    ensures ResolveOutcome(t) == ResolveOutcome(s)
  {
    hide OutcomeOf, SomeToolFailed;
  }

  /** One summary per call: its result and, from its own dispatch record, how it was run. */
  ghost predicate Summarised(calls: seq<CallSummary>, results: seq<ToolResult>, records: seq<DispatchRecord>)
    requires |results| == |records|
  {
    |calls| == |results| && forall i | 0 <= i < |calls| ::
      && calls[i].callId == results[i].callId && calls[i].tool == results[i].tool && calls[i].status == results[i].status
      && calls[i].handlerEntered == records[i].handlerEntered && calls[i].stage == records[i].stage
      && calls[i].errorCode == records[i].errorCode && (calls[i].reused <==> records[i].stage == CacheReuse)
  }

  lemma FinalizeAttemptWrites(s: State)
    requires s.initialized && s.attemptIndex <= 1 && s.attemptIndex == |s.attempts| && Recorded(s)
    ensures var t := FinalizeAttempt(s);
      var o := ResolveOutcome(s);
      t.Next? && t.node == Recovery && t.state == ApplyOutcome(s, o).(attempts := t.state.attempts)
      && |t.state.attempts| == |s.attempts| + 1 && t.state.attempts[..|s.attempts|] == s.attempts
      && var record := t.state.attempts[|s.attempts|];
         && record.index == s.attemptIndex && record.outcome == o && record.decision == s.decision
         && Summarised(record.calls, s.results, s.records)
         && (record.recovered <==> s.attemptIndex == 1 && s.feedback.Some?)
  {
    hide ResolveOutcome, Summaries, UniqueRecords, Matching, Summarised;
    RecordsSummarise(s.results, s.records);
  }

  lemma RecordsSummarise(results: seq<ToolResult>, records: seq<DispatchRecord>)
    requires Matching(results, records) && UniqueRecords(records)
    ensures |results| == |records| && Summaries(results, records).Some? && Summarised(Summaries(results, records).value, results, records)
  {
    hide Summaries, UniqueRecords;
    SummariesExist(results, records, |results|);
    assert results[..|results|] == results;
  }

  lemma FinalizeAttemptSteps(s: State, cfg: Config)
    requires AtAttemptFinalize(s, cfg)
    ensures var t := FinalizeAttempt(s);
      t.Next? && Closer(t, s, AttemptFinalize, cfg) && t.node == Recovery && AtRecovery(t.state, cfg)
  {
    hide OnlyContext, MadeFor, Accounted, CacheNamesCalls, GoodBaseline, IsContextPlan, Replay, UniqueRecords, Matching, ResolveOutcome, GoodPlan, FinalizeAttempt;
    FinalizeAttemptWrites(s);
    var o := ResolveOutcome(s);
    OutcomeIsStable(s);
    OutcomeStatus(s);
    OutcomeIgnores(ApplyOutcome(s, o), FinalizeAttempt(s).state);
  }

  lemma {:induction false} ReplayedAreFine(calls: seq<ToolCall>, context: Json.Value, cache: Cache)
    requires Replay(calls, context, cache).Some?
    ensures forall r | r in Replay(calls, context, cache).value :: r.status == Ok
  {
    if calls != [] { ReplayedAreFine(calls[..|calls| - 1], context, cache); }
  }

  lemma RecoveryOutcomes(s: State, catalog: Catalog)
    requires EvidenceMissing(s) && Executed(s, catalog)
    ensures ResolveOutcome(GiveUp(s)).responseType == ReplanExhausted
    ensures ResolveOutcome(Fail(s, ExecutionTimeout)).responseType == Runtime(ExecutionTimeout)
  {
    hide Replay, GoodPlan, IsContextPlan;
    ReplayedAreFine(s.plan.value.calls, s.plan.value.context, s.cache);
  }

  /** The shape of every recovery decision. */
  lemma RecoveryChoices(s0: State, w: World, cfg: Config)
    requires AtRecovery(s0, cfg) && Registered(cfg.catalog)
    ensures var t := Recover(s0, w, cfg.catalog);
      var s := s0.(recoveryAction := Some(Terminal));
      t.Next?
      && ((t.node == RunFinalize
           && (t.state == s || (EvidenceMissing(s) && t.state in {Fail(s, ExecutionTimeout), GiveUp(s)})))
          || (t.node == AttemptReset && EvidenceMissing(s) && s.attemptIndex == 0
              && !Exhausted(s.budget, ControllerCalls)
              && exists missing :: SetOf(missing) != {} && t.state == StartReplan(s, s.plan.value, missing, Capacity(s, s.plan.value))))
  {
    hide OnlyContext, MadeFor, Accounted, CacheNamesCalls, IsContextPlan, Replay, ResolveOutcome, RecoverableMissing, MinimumRecoveryToolCalls,
         SetOf, Registered, Contiguous, GoodPlan, StartReplan, Fail, GiveUp, Capacity, GoodBaseline;
    var s := s0.(recoveryAction := Some(Terminal));
    if EvidenceMissing(s) && RecoverableMissing(s.missing.value, s.effective, s.plan.value.calls, cfg.catalog).Some? {
      RecoverableHasCover(s.missing.value, s.effective, s.plan.value.calls, cfg.catalog);
    }
  }

  lemma ReplanStarts(s: State, missing: seq<string>, cfg: Config)
    requires AtRecovery(s, cfg) && EvidenceMissing(s) && s.attemptIndex == 0
    requires SetOf(missing) != {} && !Exhausted(s.budget, ControllerCalls)
    ensures var t := StartReplan(s, s.plan.value, missing, Capacity(s, s.plan.value));
      AtAttemptReset(t, cfg) && Measure(t, AttemptReset, cfg) < Measure(s, Recovery, cfg)
  {
    hide OnlyContext, MadeFor, CacheNamesCalls, IsContextPlan, Replay, ResolveOutcome, SetOf, Contiguous, GoodPlan, FinishedCalls;
    OutcomeIgnores(s, StartReplan(s, s.plan.value, missing, Capacity(s, s.plan.value)));
  }

  lemma RecoveryEnds(s: State, t: State, cfg: Config)
    requires AtRecovery(s, cfg)
    requires t == s || (EvidenceMissing(s) && t in {Fail(s, ExecutionTimeout), GiveUp(s)})
    ensures AtRunFinalize(t, cfg) && Measure(t, RunFinalize, cfg) < Measure(s, Recovery, cfg)
  {
    hide OnlyContext, MadeFor, Accounted, CacheNamesCalls, IsContextPlan, Replay, ResolveOutcome, SetOf, Contiguous, GoodPlan, GoodBaseline, FailureReason, AddError, Promised, Sourced, OutcomeOf;
    if EvidenceMissing(s) { RecoveryOutcomes(s, cfg.catalog); }
  }

  /** Recovery either ends the run or starts the one replan. */
  lemma RecoverySteps(s0: State, w: World, cfg: Config)
    requires AtRecovery(s0, cfg) && Registered(cfg.catalog)
    ensures var t := Recover(s0, w, cfg.catalog);
      t.Next? && Closer(t, s0, Recovery, cfg)
      && ((t.node == RunFinalize && AtRunFinalize(t.state, cfg)) || (t.node == AttemptReset && AtAttemptReset(t.state, cfg)))
  {
    hide ResolveOutcome, SetOf, Registered, Recover, AtRecovery, AtRunFinalize, AtAttemptReset, StartReplan, GiveUp, Fail, Capacity, Measure;
    var s := s0.(recoveryAction := Some(Terminal));
    StillAtRecovery(s0, cfg);
    RecoveryChoices(s0, w, cfg);
    var t := Recover(s0, w, cfg.catalog);
    if t.node == AttemptReset {
      var missing :| SetOf(missing) != {} && t.state == StartReplan(s, s.plan.value, missing, Capacity(s, s.plan.value));
      ReplanStarts(s, missing, cfg);
    } else {
      RecoveryEnds(s, t.state, cfg);
    }
  }

  lemma StillAtRecovery(s: State, cfg: Config)
    requires AtRecovery(s, cfg)
    ensures var t := s.(recoveryAction := Some(Terminal)); AtRecovery(t, cfg) && Measure(t, Recovery, cfg) == Measure(s, Recovery, cfg)
    ensures EvidenceMissing(s) ==> s.plan.Some?
  {
    hide ResolveOutcome, Accounted, CacheNamesCalls, IsContextPlan, Replay, Contiguous, GoodPlan, GoodBaseline;
    OutcomeIgnores(s, s.(recoveryAction := Some(Terminal)));
  }

  /** The second attempt starts as a new request does, but for its index and what the run keeps: budget, records of
      attempts, feedback and first plan, cache, context and messages. */
  lemma ResetStartsOver(s: State, w: World, s0: State)
    requires Fresh(s0) && s.initialized && Reset(s, w).Next? && !w.deadlinePassed
    ensures Reset(s, w).node == Controller
    ensures Reset(s, w).state ==
      InitRun(s0, s.budget.limits).(
        attemptIndex := 1, budget := s.budget, attempts := s.attempts, feedback := s.feedback, baseline := s.baseline,
        cache := s.cache, entered := s.entered, firstResults := s.firstResults, contextCount := s.contextCount,
        contextEntered := s.contextEntered, retrieved := s.retrieved, checkpointed := s.checkpointed)
  {}

  lemma ResetSteps(s: State, w: World, cfg: Config)
    requires AtAttemptReset(s, cfg)
    ensures var t := Reset(s, w);
      t.Next? && Closer(t, s, AttemptReset, cfg)
      && ((t.node == RunFinalize && AtRunFinalize(t.state, cfg)) || (t.node == Controller && AtController(t.state, cfg)))
  {
    hide OnlyContext, MadeFor, Accounted, CacheNamesCalls, GoodPlan, IsContextPlan, Replay, ResolveOutcome, GoodBaseline;
    RecoveryOutcomes(s, cfg.catalog);
    OutcomeIgnores(Fail(s, ExecutionTimeout), Fail(s, ExecutionTimeout).(recoveryAction := Some(Terminal)));
  }

  lemma FinalizeRunSteps(s: State, cfg: Config)
    requires AtRunFinalize(s, cfg)
    ensures var t := FinalizeRun(s);
      t.Next? && Closer(t, s, RunFinalize, cfg) && t.node == ResponseNode && AtResponse(t.state, cfg)
  {
    hide OnlyContext, MadeFor, Accounted, CacheNamesCalls, ResolveOutcome;
    var t := s.(durationKnown := true);
    OutcomeIgnores(s, t);
    OutcomeIsStable(t);
    OutcomeStatus(t);
  }

  lemma ResponseSteps(s: State, cfg: Config)
    requires AtResponse(s, cfg)
    ensures var t := Respond(s); t.Next? && Closer(t, s, ResponseNode, cfg) && t.node == End && AtEnd(t.state, cfg)
  {
    hide OnlyContext, MadeFor, Accounted, CacheNamesCalls, ResolveOutcome;
    OutcomeIgnores(s, s.(response := Some(PublicResponse(s))));
  }

  // ------------------------------------------------------------------ every step

  /** Whatever the world does, a step from a reachable state never trips a consistency check, lands in a
      reachable state and gets closer to the end. */
  lemma EveryStep(s: State, node: Node, w: World, cfg: Config)
    requires Inv(s, node, cfg) && Registered(cfg.catalog) && node != End
    ensures var t := StepFrom(s, node, w, cfg);
      !t.Crash? && (t.Next? ==> Inv(t.state, t.node, cfg) && Closer(t, s, node, cfg))
  {
    hide Fresh, AtController, AtDecisionValidate, AtConversationAnswer, AtPlan, AtControllerContext, AtEvidence, AtAnswer,
         AtAttemptFinalize, AtRecovery, AtAttemptReset, AtRunFinalize, AtResponse, AtEnd, Closer, Registered,
         StepRunInit, StepController, StepGuarded, StepAnswer, StepCheckpoint, CheckDecision, Converse, CheckPlan, RunTools,
         TakeContext, BuildEvidence, Review, FinalizeAttempt, Recover, Reset, FinalizeRun, Respond;
    match node
    case RunInit => InitSteps(s, cfg);
    case Controller => ControllerSteps(s, w, cfg);
    case DecisionValidate => DecisionValidateSteps(s, w, cfg);
    case ConversationAnswer => ConversationAnswerSteps(s, w, cfg);
    case Validate => ValidateSteps(s, w, cfg);
    case ToolCalls => ToolsStep(s, w, cfg);
    case ControllerContext => ControllerContextSteps(s, w, cfg);
    case Evidence => EvidenceSteps(s, w, cfg);
    case AnswerNode => AnswerSteps(s, w, cfg);
    case Critic => CriticSteps(s, w, cfg);
    case AttemptFinalize => FinalizeAttemptSteps(s, cfg);
    case Recovery => RecoverySteps(s, w, cfg);
    case AttemptReset => ResetSteps(s, w, cfg);
    case RunFinalize => FinalizeRunSteps(s, cfg);
    case ResponseNode => ResponseSteps(s, cfg);
    case Checkpoint =>
  }
}
