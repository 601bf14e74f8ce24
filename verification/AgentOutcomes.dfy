/** How a run ends and why: each response type together with the signals that lead to it, and nothing else. */
module AgentOutcomes {
  import opened Wrappers
  import opened Plans
  import opened References
  import opened PlanContracts
  import opened Decisions
  import opened RecoveryPlanning
  import opened ToolExecution
  import opened CacheSources
  import opened AgentState
  import opened AgentGraph
  import opened AgentSafety
  import Json

  // ------------------------------------------------------------------ the signals of a run

  predicate ControllerFailed(s: State) { s.controllerResult.Some? && s.controllerResult.value.Failed? }

  predicate ControllerFailedAs(s: State, failure: FailureType) { s.controllerResult == Some(Failed(failure)) }

  predicate AnswerIs(s: State, status: AnswerStatus) { s.answer.Some? && s.answer.value.Synthesized? && s.answer.value.status == status }

  predicate ForController(s: State, cfg: Config) { s.plan.Some? && IsContextPlan(s.plan.value, cfg.catalog) }

  /** Everything missing is a requirement that a tool the plan did not use can produce. */
  predicate Recoverable(s: State, cfg: Config) {
    s.missing.Some? && s.plan.Some? && RecoverableMissing(s.missing.value, s.effective, s.plan.value.calls, cfg.catalog).Some?
  }

  /** Nothing went wrong and the question was answered. */
  predicate NothingWrong(s: State, cfg: Config) {
    && !ControllerFailed(s) && !s.validationFailed && !SomeToolFailed(s.results) && s.runtimeFailure.None?
    && !AnswerIs(s, AnswerError) && !AnswerIs(s, AnswerInsufficient) && !EvidenceMissing(s) && s.reviewPassed != Some(false)
    && s.decision.Some? && !s.decision.value.Clarification? && !s.decision.value.ContextMissing? && !s.decision.value.CapabilityBoundary?
    && !ForController(s, cfg)
  }

  /** For every response type, the signals it stands for. `over`: recovery has had its say. */
  ghost predicate TypeTold(s: State, t: ResponseType, over: bool, cfg: Config) {
    var unstopped := s.runtimeFailure.None?;
    var exhausted := over && (s.attemptIndex == 1 || Recoverable(s, cfg));
    && (t == PlanningFailed <==> ControllerFailedAs(s, PlanningError))
    && (t == DecisionInvalid <==> ControllerFailedAs(s, DecisionValidationError))
    && (t == ToolFailed <==> SomeToolFailed(s.results))
    && (forall code :: t == Runtime(code) <==> s.runtimeFailure == Some(code) && !SomeToolFailed(s.results))
    && (t == ExecutionFailed <==> ForController(s, cfg) && unstopped && !SomeToolFailed(s.results))
    && (t == AnswerFailed <==> AnswerIs(s, AnswerError))
    && (t == ReplanExhausted <==> EvidenceMissing(s) && unstopped && exhausted)
    && (t == EvidenceInsufficient <==>
          (EvidenceMissing(s) && unstopped && !exhausted) || AnswerIs(s, AnswerInsufficient) || s.reviewPassed == Some(false))
    && (t == Clarify <==> s.decision.Some? && s.decision.value.Clarification? && unstopped)
    && (t == ContextIsMissing <==> s.decision.Some? && s.decision.value.ContextMissing? && unstopped)
    && (t == Boundary <==> s.decision.Some? && s.decision.value.CapabilityBoundary? && unstopped)
    && (t == Direct <==> s.decision.Some? && s.decision.value.DirectAnswer? && unstopped)
    && (forall name :: t == Contract(name) <==>
          s.answer == Some(Synthesized(name, AnswerOk)) && name in CONTRACTS && s.reviewPassed == Some(true))
    && (t == UnsupportedAnswer <==> AnswerIs(s, AnswerUnsupported) && s.reviewPassed == Some(true))
    && (t == RawToolResults <==> AnswerIs(s, AnswerOk) && s.answer.value.answerType !in CONTRACTS && s.reviewPassed == Some(true))
  }

  /** What goes with each response type: the status, the words, where the run ended and where it failed. */
  ghost predicate ShapeTold(s: State, o: Outcome) {
    match o.responseType
    case PlanningFailed => o == Outcome(Failing, PlanningFailed, "planning failed", InController, Some(InController))
    case DecisionInvalid => o == Outcome(Failing, DecisionInvalid, "decision validation failed", InController, Some(InDecisionValidation))
    case ToolFailed => o == Outcome(Failing, ToolFailed, "tool execution failed", InToolExecution, Some(InToolExecution))
    case AnswerFailed => o == Outcome(Failing, AnswerFailed, "answer generation failed", InAnswer, Some(InAnswer))
    case ExecutionFailed => o == Outcome(Failing, ExecutionFailed, "execution failed", InExecution, Some(InExecution))
    case Runtime(code) =>
      o == Outcome(Failing, Runtime(code), if code.ExecutionTimeout? then "execution deadline exceeded" else "execution budget exhausted",
                   InExecution, Some(InExecution))
    case ReplanExhausted => o == Outcome(InsufficientEvidence, ReplanExhausted, "replan exhausted", InEvidence, Some(InEvidence))
    case EvidenceInsufficient =>
      var stage := if s.reviewPassed == Some(false) then InCritic else InEvidence;
      o == Outcome(InsufficientEvidence, EvidenceInsufficient, "insufficient evidence", stage, Some(stage))
    case Clarify =>
      s.decision.Some? && s.decision.value.Clarification?
      && o == Outcome(ClarificationRequired, Clarify, s.decision.value.question, InDecisionValidation, None)
    case ContextIsMissing =>
      s.decision.Some? && s.decision.value.ContextMissing?
      && o == Outcome(InsufficientContext, ContextIsMissing, s.decision.value.why, InDecisionValidation, None)
    case Boundary =>
      s.decision.Some? && s.decision.value.CapabilityBoundary?
      && o == Outcome(InsufficientTools, Boundary, s.decision.value.why, InDecisionValidation, None)
    case Direct =>
      s.decision.Some? && s.decision.value.DirectAnswer? && s.answer == Some(DirectResult(s.decision.value.answer))
      && o == Outcome(Fine, Direct, "", InConversationAnswer, None)
    case _ => o == Outcome(Fine, o.responseType, "decision accepted", InCritic, None)
  }

  ghost predicate Told(s: State, o: Outcome, over: bool, cfg: Config) {
    TypeTold(s, o.responseType, over, cfg) && ShapeTold(s, o) && (o.status == Fine <==> NothingWrong(s, cfg))
  }

  // ------------------------------------------------------------------ the ways an attempt ends

  ghost predicate Unfailed(s: State) { !ControllerFailed(s) && !s.validationFailed && !s.safeFailure }

  /** No evidence, no answer and no review yet. */
  ghost predicate Unanswered(s: State) { s.missing.None? && s.answer.None? && s.reviewPassed.None? }

  ghost predicate ByController(s: State) {
    && ControllerFailed(s) && s.safeFailure && (s.validationFailed <==> ControllerFailedAs(s, DecisionValidationError))
    && s.decision.None? && s.plan.None? && s.results == [] && Unanswered(s) && s.runtimeFailure.None?
  }

  ghost predicate ByGate(s: State) {
    && Unfailed(s) && s.runtimeFailure.Some? && s.failureStage == Some(InExecution) && !EvidenceMissing(s) && s.reviewPassed.None?
    && !AnswerIs(s, AnswerError) && !AnswerIs(s, AnswerInsufficient) && (s.answer.Some? ==> s.answer.value.Synthesized?)
  }

  ghost predicate ByTool(s: State) {
    Unfailed(s) && s.runtimeFailure.None? && s.decision.Some? && s.decision.value.ToolPlan? && SomeToolFailed(s.results) && Unanswered(s)
  }

  ghost predicate ByContext(s: State, cfg: Config) {
    && Unfailed(s) && s.runtimeFailure.None? && s.decision.Some? && s.decision.value.ToolPlan? && ForController(s, cfg)
    && !SomeToolFailed(s.results) && Unanswered(s) && s.status == Failing
  }

  ghost predicate ByDecision(s: State) {
    && Unfailed(s) && s.runtimeFailure.None? && s.results == [] && s.plan.None? && Unanswered(s)
    && s.decision.Some? && !s.decision.value.ToolPlan? && !s.decision.value.DirectAnswer?
    && s.status == DecisionStatus(s.decision.value) && s.reason == DecisionReason(s.decision.value, "")
  }

  ghost predicate ByDirectAnswer(s: State) {
    && Unfailed(s) && s.runtimeFailure.None? && s.results == [] && s.plan.None? && s.missing.None? && s.reviewPassed.None?
    && s.decision.Some? && s.decision.value.DirectAnswer? && s.answer == Some(DirectResult(s.decision.value.answer))
    && s.status == Fine && s.reason == ""
  }

  /** A plan for evidence whose calls all went well. */
  ghost predicate Clean(s: State, cfg: Config) {
    && Unfailed(s) && s.runtimeFailure.None? && !SomeToolFailed(s.results) && s.status == Fine && s.reason == "decision accepted"
    && s.decision.Some? && s.decision.value.ToolPlan? && !ForController(s, cfg)
  }

  ghost predicate ByEvidence(s: State, cfg: Config) { Clean(s, cfg) && EvidenceMissing(s) && s.answer.None? && s.reviewPassed.None? }

  ghost predicate ByAnswer(s: State, cfg: Config) {
    Clean(s, cfg) && s.missing == Some([]) && (AnswerIs(s, AnswerError) || AnswerIs(s, AnswerInsufficient)) && s.reviewPassed.None?
  }

  ghost predicate ByCritic(s: State, cfg: Config) {
    Clean(s, cfg) && s.missing == Some([]) && (AnswerIs(s, AnswerOk) || AnswerIs(s, AnswerUnsupported)) && s.reviewPassed.Some?
  }

  ghost predicate Ended(s: State, cfg: Config) {
    || ByController(s) || ByGate(s) || ByTool(s) || ByContext(s, cfg) || ByDecision(s) || ByDirectAnswer(s)
    || ByEvidence(s, cfg) || ByAnswer(s, cfg) || ByCritic(s, cfg)
  }

  lemma GateTells(s: State, cfg: Config)
    requires ByGate(s) && s.responseType.None?
    ensures Told(s, ResolveOutcome(s), false, cfg)
  {
    hide IsContextPlan, SomeToolFailed, RecoverableMissing;
  }

  lemma FailuresTell(s: State, cfg: Config)
    requires (ByController(s) || ByTool(s) || ByContext(s, cfg)) && s.responseType.None?
    ensures Told(s, ResolveOutcome(s), false, cfg)
  {
    hide IsContextPlan, RecoverableMissing;
  }

  lemma DecisionsTell(s: State, cfg: Config)
    requires (ByDecision(s) || ByDirectAnswer(s)) && s.responseType.None?
    ensures Told(s, ResolveOutcome(s), false, cfg)
  {
    hide IsContextPlan, RecoverableMissing;
  }

  lemma EvidenceTells(s: State, cfg: Config)
    requires ByEvidence(s, cfg) && s.responseType.None?
    ensures Told(s, ResolveOutcome(s), false, cfg)
  {
    hide IsContextPlan, RecoverableMissing, SomeToolFailed;
  }

  lemma AnswersTell(s: State, cfg: Config)
    requires ByAnswer(s, cfg) && s.responseType.None?
    ensures Told(s, ResolveOutcome(s), false, cfg)
  {
    hide IsContextPlan, RecoverableMissing, SomeToolFailed;
  }

  lemma CriticTells(s: State, cfg: Config)
    requires ByCritic(s, cfg) && s.responseType.None?
    ensures Told(s, ResolveOutcome(s), false, cfg)
  {
    hide IsContextPlan, RecoverableMissing, SomeToolFailed;
    assert s.reviewPassed == Some(false) || s.reviewPassed == Some(true) by {
      assert s.reviewPassed == Some(s.reviewPassed.value);
      if s.reviewPassed.value { assert s.reviewPassed == Some(true); } else { assert s.reviewPassed == Some(false); }
    }
  }

  /** However an attempt ends, its outcome says which way it was. */
  lemma EndedTells(s: State, cfg: Config)
    requires Ended(s, cfg) && s.responseType.None?
    ensures Told(s, ResolveOutcome(s), false, cfg)
  {
    hide ByController, ByGate, ByTool, ByContext, ByDecision, ByDirectAnswer, ByEvidence, ByAnswer, ByCritic, Told, ResolveOutcome;
    if ByGate(s) {
      GateTells(s, cfg);
    } else if ByController(s) || ByTool(s) || ByContext(s, cfg) {
      FailuresTell(s, cfg);
    } else if ByDecision(s) || ByDirectAnswer(s) {
      DecisionsTell(s, cfg);
    } else if ByEvidence(s, cfg) {
      EvidenceTells(s, cfg);
    } else if ByAnswer(s, cfg) {
      AnswersTell(s, cfg);
    } else {
      CriticTells(s, cfg);
    }
  }

  // ------------------------------------------------------------------ what each node leaves for the end

  /** A plan for evidence, its calls done and well, still without answer or review. */
  ghost predicate Answering(s: State, cfg: Config) { Clean(s, cfg) && s.missing == Some([]) && s.reviewPassed.None? }

  /** A plan for the controller, its calls done and well. */
  ghost predicate ContextRead(s: State, cfg: Config) {
    && Unfailed(s) && s.runtimeFailure.None? && s.decision.Some? && s.decision.value.ToolPlan? && ForController(s, cfg)
    && !SomeToolFailed(s.results) && Unanswered(s) && s.errors == []
  }

  /** The record of the last attempt tells how it ended. */
  ghost predicate RecordTells(s: State, over: bool, cfg: Config) {
    s.attempts != [] && Told(s, ResolveOutcome(s), over, cfg) && (s.safeFailure <==> ControllerFailed(s))
  }

  /** What is known at each node besides the invariant. */
  ghost predicate Known(s: State, node: Node, cfg: Config) {
    match node
    case RunInit => true
    case Controller => s.responseType.None?
    case DecisionValidate => s.responseType.None? && s.reason == "decision accepted"
    case ConversationAnswer => s.responseType.None? && s.reason == "" && s.plan.None?
    case Validate => s.responseType.None? && s.reason == "decision accepted"
    case ToolCalls => s.responseType.None? && s.reason == "decision accepted"
    case ControllerContext => s.responseType.None? && ContextRead(s, cfg)
    case Evidence => s.responseType.None? && s.reason == "decision accepted" && !s.safeFailure
    case AnswerNode => s.responseType.None? && Answering(s, cfg) && s.answer.None?
    case Critic => s.responseType.None? && Answering(s, cfg) && (AnswerIs(s, AnswerOk) || AnswerIs(s, AnswerUnsupported))
    case AttemptFinalize => s.responseType.None? && Ended(s, cfg)
    case Recovery => RecordTells(s, false, cfg)
    case AttemptReset => (s.safeFailure <==> ControllerFailed(s)) && Told(s, ResolveOutcome(s), false, cfg)
    case RunFinalize => RecordTells(s, true, cfg)
    case ResponseNode => RecordTells(s, true, cfg)
    case Checkpoint => true
    case End => RecordTells(s, true, cfg)
  }

  /** A gate that closes before evidence, answer and review leaves its failure. */
  lemma ClosedTells(s: State, node: Node, w: World, resource: Option<Resource>, cfg: Config)
    requires Gate(s, w.deadlinePassed, resource).Some?
    requires s.responseType.None? && Unfailed(s) && !EvidenceMissing(s) && s.reviewPassed.None?
    requires s.answer.Some? ==> s.answer.value.Synthesized? && s.answer.value.status != AnswerError && s.answer.value.status != AnswerInsufficient
    requires node in {Controller, DecisionValidate, ConversationAnswer, Validate, ToolCalls, ControllerContext, Evidence, AnswerNode, Critic}
    ensures var t := Closed(s, node, w, resource, cfg); t.Next? ==> t.node == AttemptFinalize && Known(t.state, t.node, cfg)
  {
    hide IsContextPlan, SomeToolFailed, ByController, ByTool, ByContext, ByDecision, ByDirectAnswer, ByEvidence, ByAnswer, ByCritic;
  }

  lemma ControllerTells(s: State, w: World, cfg: Config)
    requires AtController(s, cfg) && Known(s, Controller, cfg)
    ensures var t := StepController(s, w, cfg); t.Next? ==> Known(t.state, t.node, cfg)
  {
    hide Spending, Attempt, Promised, Sourced, Decide, Effective, IsContextPlan, SomeToolFailed,
         ByGate, ByTool, ByContext, ByDecision, ByDirectAnswer, ByEvidence, ByAnswer, ByCritic;
    if Gate(s, w.deadlinePassed, Some(ControllerCalls)).Some? { ClosedTells(s, Controller, w, Some(ControllerCalls), cfg); }
  }

  lemma DecisionValidateTells(s: State, w: World, cfg: Config)
    requires AtDecisionValidate(s, cfg) && Known(s, DecisionValidate, cfg)
    ensures var t := StepGuarded(s, DecisionValidate, w, cfg, CheckDecision(s, cfg.catalog), false); t.Next? ==> Known(t.state, t.node, cfg)
  {
    hide Spending, Attempt, Promised, Sourced, DecisionErrors, ReplanAccepted, Effective, IsContextPlan, SomeToolFailed,
         ByController, ByGate, ByTool, ByContext, ByDirectAnswer, ByEvidence, ByAnswer, ByCritic;
    if Gate(s, w.deadlinePassed, None).Some? { ClosedTells(s, DecisionValidate, w, None, cfg); }
  }

  lemma ConversationAnswerTells(s: State, w: World, cfg: Config)
    requires AtConversationAnswer(s, cfg) && Known(s, ConversationAnswer, cfg)
    ensures var t := StepGuarded(s, ConversationAnswer, w, cfg, Converse(s), false); t.Next? ==> Known(t.state, t.node, cfg)
  {
    hide Spending, Attempt, IsContextPlan, SomeToolFailed,
         ByController, ByGate, ByTool, ByContext, ByDecision, ByEvidence, ByAnswer, ByCritic;
    if Gate(s, w.deadlinePassed, None).Some? { ClosedTells(s, ConversationAnswer, w, None, cfg); }
  }

  lemma ValidateTells(s: State, w: World, cfg: Config)
    requires AtPlan(s, cfg) && Known(s, Validate, cfg)
    ensures var t := StepGuarded(s, Validate, w, cfg, CheckPlan(s, cfg.catalog), false); t.Next? ==> Known(t.state, t.node, cfg)
  {
    hide Spending, Attempt, Promised, Sourced, DecisionErrors, ReplanAccepted, Effective, CatalogErrors, IsContextPlan, SomeToolFailed, Ended;
    if Gate(s, w.deadlinePassed, None).Some? {
      ClosedTells(s, Validate, w, None, cfg);
    } else {
      AcceptedPlanRouting(s.plan.value, cfg.catalog);
    }
  }

  // ------------------------------------------------------------------ the tools node

  lemma DispatchErrs(t: ToolRun, call: ToolCall, args: seq<Json.Field>, context: Json.Value, f: string, catalog: Catalog, limit: nat, event: CallEvent)
    requires t.errors == [] || SomeToolFailed(t.results)
    ensures var r := DispatchCall(t, call, args, context, f, catalog, limit, event);
      r.failure.None? ==> r.errors == [] || SomeToolFailed(r.results)
  {
    hide Execute, AddError, FailureReason;
    FailedStays(t.results);
  }

  lemma FailedStays(results: seq<ToolResult>)
    ensures forall r: ToolResult :: SomeToolFailed(results) || r.status == Error ==> SomeToolFailed(results + [r])
  {
    forall r: ToolResult | SomeToolFailed(results) || r.status == Error ensures SomeToolFailed(results + [r]) {
      if SomeToolFailed(results) {
        var x :| x in results && x.status == Error;
        assert x in results + [r];
      } else {
        assert r in results + [r];
      }
    }
  }

  lemma CallErrs(t: ToolRun, call: ToolCall, context: Json.Value, catalog: Catalog, limit: nat, event: CallEvent)
    requires t.failure.None? && (t.errors == [] || SomeToolFailed(t.results))
    ensures var r := RunCall(t, call, context, catalog, limit, event);
      r.failure.None? ==> r.errors == [] || SomeToolFailed(r.results)
  {
    hide ResolveFields, Fingerprint, DispatchCall, RunCall, SomeToolFailed, Callable;
    var (args, unresolved) := ResolveFields(call.args, t.byId);
    var f := Fingerprint(call.tool, args, context);
    DispatchErrs(t, call, args, context, f, catalog, limit, event);
    RunCallDispatches(t, call, context, catalog, limit, event);
    FailedStays(t.results);
    if unresolved != [] {
      UnresolvedCall(t, call, context, catalog, limit, event);
    } else if f in t.cache {
      ReuseLeaves(t, call, context, catalog, limit, event);
    }
  }

  /** A pass that was not stopped has errors only when one of its results is one. */
  lemma {:induction false} ErrorsAreResults(t: ToolRun, calls: seq<ToolCall>, context: Json.Value, catalog: Catalog,
                                            limit: nat, events: nat -> CallEvent)
    requires t.failure.None? && t.errors == []
    ensures var r := RunCalls(t, calls, context, catalog, limit, events);
      r.failure.None? ==> r.errors == [] || SomeToolFailed(r.results)
  {
    hide RunCall, SomeToolFailed;
    if calls != [] {
      var n := |calls| - 1;
      ErrorsAreResults(t, calls[..n], context, catalog, limit, events);
      var before := RunCalls(t, calls[..n], context, catalog, limit, events);
      if before.failure.None? { CallErrs(before, calls[n], context, catalog, limit, events(n)); }
    }
  }

  lemma ReplayedResultsAreFine(calls: seq<ToolCall>, context: Json.Value, cache: Cache)
    requires Replay(calls, context, cache).Some?
    ensures !SomeToolFailed(Replay(calls, context, cache).value)
  {
    ReplayedAreFine(calls, context, cache);
  }

  /** What a pass leaves, as far as the end of the attempt is concerned. */
  lemma PassTells(s: State, w: World, cfg: Config)
    requires AtPlan(s, cfg)
    ensures var r := Pass(s, w, cfg.catalog);
      && (r.failure.None? ==> (r.errors == [] <==> !SomeToolFailed(r.results)))
      && (r.errors == [] ==> r.failure.None?)
  {
    assert GoodPlan(s.plan.value, cfg.catalog);
    hide RunCalls, Replay, OnlyContext, MadeFor, Accounted, GoodPlan, CacheNamesCalls, SomeToolFailed, UniqueRecords, Matching, Grows, GoodBaseline,
         ReplanAccepted, DecisionErrors, Effective, IsContextPlan;
    PassFacts(s, w, cfg);
    var plan, t := s.plan.value, PassOf(s);
    var r := Pass(s, w, cfg.catalog);
    ErrorsAreResults(t, plan.calls, plan.context, cfg.catalog, s.budget.limits.maxTools, w.calls);
    if r.errors == [] { ReplayedResultsAreFine(plan.calls, plan.context, r.cache); }
  }

  /** Where the tools node leaves the attempt, by what the pass left. */
  ghost predicate ToolsLeave(t: State, cfg: Config) {
    && t.responseType.None? && t.status in {Fine, Failing}
    && (t.status == Failing ==> ByGate(t) || ByTool(t) || ByContext(t, cfg))
    && (t.status == Fine ==>
          && Unfailed(t) && t.runtimeFailure.None? && !SomeToolFailed(t.results) && Unanswered(t) && t.errors == []
          && t.decision.Some? && t.decision.value.ToolPlan? && t.plan.Some? && t.reason == "decision accepted")
  }

  /** An accepted plan on its way to the tools. */
  ghost predicate Ready(s: State) {
    && s.responseType.None? && s.reason == "decision accepted" && Unspoiled(s) && s.status == Fine
    && s.decision.Some? && s.decision.value.ToolPlan? && s.plan.Some?
  }

  lemma LimitLeaves(s: State, w: World, cfg: Config)
    requires Ready(s) && OverContextLimit(s, cfg)
    ensures ToolsLeave(RunTools(s, w, cfg), cfg)
  {
    hide IsContextPlan, SomeToolFailed, ByGate, ByTool, Pass;
    NothingFailed();
  }

  lemma PassLeaves(s: State, r: ToolRun, context: bool, cfg: Config)
    requires Ready(s)
    requires (r.failure.None? ==> (r.errors == [] <==> !SomeToolFailed(r.results))) && (r.errors == [] ==> r.failure.None?)
    ensures ToolsLeave(AfterPass(s, r, context), cfg)
  {
    hide IsContextPlan, SomeToolFailed, ByContext;
  }

  lemma ToolsTell(s: State, w: World, cfg: Config)
    requires AtPlan(s, cfg) && Known(s, ToolCalls, cfg)
    ensures var t := StepGuarded(s, ToolCalls, w, cfg, RunTools(s, w, cfg), false); t.Next? ==> Known(t.state, t.node, cfg)
  {
    hide Spending, Attempt, Promised, Sourced, DecisionErrors, ReplanAccepted, Effective, IsContextPlan, SomeToolFailed, RunTools, Pass, Gate, Closed,
         ByController, ByGate, ByTool, ByContext, ByDecision, ByDirectAnswer, ByEvidence, ByAnswer, ByCritic;
    if Gate(s, w.deadlinePassed, None).Some? {
      ClosedTells(s, ToolCalls, w, None, cfg);
    } else {
      ToolsNodeLeaves(s, w, cfg);
    }
  }

  lemma ToolsNodeLeaves(s: State, w: World, cfg: Config)
    requires AtPlan(s, cfg) && Known(s, ToolCalls, cfg)
    ensures ToolsLeave(RunTools(s, w, cfg), cfg)
  {
    hide Spending, Attempt, Promised, Sourced, DecisionErrors, ReplanAccepted, Effective, IsContextPlan, SomeToolFailed, Pass, AfterPass, ToolsLeave;
    if OverContextLimit(s, cfg) {
      LimitLeaves(s, w, cfg);
    } else {
      PassTells(s, w, cfg);
      PassLeaves(s, Pass(s, w, cfg.catalog), ContextPlan(s, cfg.catalog), cfg);
    }
  }

  lemma NothingFailed()
    ensures !SomeToolFailed([])
  {}

  lemma ControllerContextTells(s: State, w: World, cfg: Config)
    requires AtControllerContext(s, cfg) && Known(s, ControllerContext, cfg)
    ensures var t := StepGuarded(s, ControllerContext, w, cfg, TakeContext(s, w), false); t.Next? ==> Known(t.state, t.node, cfg)
  {
    hide Spending, Attempt, Recorded, OnlyContext, IsContextPlan, SomeToolFailed,
         ByController, ByGate, ByTool, ByDecision, ByDirectAnswer, ByEvidence, ByAnswer, ByCritic;
    if Gate(s, w.deadlinePassed, None).Some? { ClosedTells(s, ControllerContext, w, None, cfg); }
  }

  lemma EvidenceStepTells(s: State, w: World, cfg: Config)
    requires AtEvidence(s, cfg) && Known(s, Evidence, cfg)
    ensures var t := StepGuarded(s, Evidence, w, cfg, BuildEvidence(s, w), true); t.Next? ==> Known(t.state, t.node, cfg)
  {
    hide Spending, Attempt, Recorded, GoodPlan, MadeFor, IsContextPlan, SomeToolFailed, Replay,
         ByController, ByGate, ByTool, ByContext, ByDecision, ByDirectAnswer, ByAnswer, ByCritic;
    ReplayedResultsAreFine(s.plan.value.calls, s.plan.value.context, s.cache);
    if Gate(s, w.deadlinePassed, None).Some? { ClosedTells(s, Evidence, w, None, cfg); }
  }

  lemma AnswerStepTells(s: State, w: World, cfg: Config)
    requires AtAnswer(s, cfg) && Known(s, AnswerNode, cfg)
    ensures var t := StepAnswer(s, w, cfg); t.Next? ==> Known(t.state, t.node, cfg)
  {
    hide Spending, Attempt, Recorded, IsContextPlan, SomeToolFailed,
         ByController, ByGate, ByTool, ByContext, ByDecision, ByDirectAnswer, ByEvidence, ByCritic;
    if Gate(s, w.deadlinePassed, Some(AnswerCalls)).Some? { ClosedTells(s, AnswerNode, w, Some(AnswerCalls), cfg); }
  }

  lemma CriticStepTells(s: State, w: World, cfg: Config)
    requires AtAnswer(s, cfg) && Known(s, Critic, cfg)
    ensures var t := StepGuarded(s, Critic, w, cfg, Review(s, w), true); t.Next? ==> Known(t.state, t.node, cfg)
  {
    hide Spending, Attempt, Recorded, IsContextPlan, SomeToolFailed,
         ByController, ByGate, ByTool, ByContext, ByDecision, ByDirectAnswer, ByEvidence, ByAnswer;
    if Gate(s, w.deadlinePassed, None).Some? { ClosedTells(s, Critic, w, None, cfg); }
  }

  // ------------------------------------------------------------------ recovery

  /** What telling the outcome looks at. */
  ghost predicate SameSignals(s: State, t: State) {
    && t.controllerResult == s.controllerResult && t.validationFailed == s.validationFailed && t.results == s.results
    && t.runtimeFailure == s.runtimeFailure && t.answer == s.answer && t.missing == s.missing && t.reviewPassed == s.reviewPassed
    && t.decision == s.decision && t.plan == s.plan && t.effective == s.effective && t.attemptIndex == s.attemptIndex
  }

  lemma ToldStays(s: State, t: State, o: Outcome, over: bool, cfg: Config)
    requires Told(s, o, over, cfg) && SameSignals(s, t)
    ensures Told(t, o, over, cfg)
  {
    hide SomeToolFailed, RecoverableMissing, IsContextPlan;
  }

  /** Recovery has its say only when evidence is missing, nothing stopped the run, and it was exhausted. */
  lemma ToldOver(s: State, o: Outcome, cfg: Config)
    requires Told(s, o, false, cfg) && (EvidenceMissing(s) ==> s.attemptIndex != 1 && !Recoverable(s, cfg))
    ensures Told(s, o, true, cfg)
  {
    hide SomeToolFailed, RecoverableMissing, IsContextPlan;
  }

  lemma FinalizeAttemptTells(s: State, cfg: Config)
    requires AtAttemptFinalize(s, cfg) && Known(s, AttemptFinalize, cfg)
    ensures var t := FinalizeAttempt(s); t.Next? && t.node == Recovery && Known(t.state, t.node, cfg)
  {
    hide Spending, ResolveOutcome, FinalizeAttempt, UniqueRecords, Matching, Executed, Attempt, Told, SomeToolFailed, IsContextPlan, RecoverableMissing;
    AttemptStarted(s, cfg);
    FinalizeAttemptWrites(s);
    var o, t := ResolveOutcome(s), FinalizeAttempt(s).state;
    EndedTells(s, cfg);
    EndedIsSafe(s, cfg);
    OutcomeIsStable(s);
    OutcomeIgnores(ApplyOutcome(s, o), t);
    ToldStays(s, t, o, false, cfg);
  }

  lemma AttemptStarted(s: State, cfg: Config)
    requires AtAttemptFinalize(s, cfg)
    ensures s.initialized && s.attemptIndex <= 1 && s.attemptIndex == |s.attempts| && Recorded(s)
  {
    hide GoodBaseline, Contiguous, Accounted, CacheNamesCalls, Executed;
  }

  lemma EndedIsSafe(s: State, cfg: Config)
    requires Ended(s, cfg)
    ensures s.safeFailure <==> ControllerFailed(s)
  {
    hide SomeToolFailed, IsContextPlan;
  }

  /** Some set of unused tools that together produce everything missing still fits the run's tool budget and the
      plan's own limit, and the controller may be asked once more. */
  ghost predicate RoomForReplan(s: State, cfg: Config) {
    && s.missing.Some? && s.plan.Some? && s.budget.controllerUsed < s.budget.limits.maxController
    && exists chosen :: RecoveryCover(chosen, s.plan.value.calls, cfg.catalog, SetOf(s.missing.value))
         && s.budget.toolsUsed + |chosen| <= s.budget.limits.maxTools
         && |s.plan.value.calls| + |chosen| <= s.plan.value.constraints.maxToolCalls
  }

  lemma RoomIsCapacity(s: State, cfg: Config)
    requires EvidenceMissing(s) && s.plan.Some? && Recoverable(s, cfg) && Registered(cfg.catalog)
    ensures var required := MinimumRecoveryToolCalls(s.plan.value.calls, cfg.catalog, SetOf(s.missing.value));
      && required.Some? && required.value >= 1
      && (RoomForReplan(s, cfg) <==>
            !Exhausted(s.budget, ControllerCalls) && !Exhausted(s.budget, Tools) && Capacity(s, s.plan.value) >= required.value)
  {
    hide RecoverableMissing, MinimumRecoveryToolCalls, RecoveryCover, SetOf, Registered;
    var calls, missing := s.plan.value.calls, SetOf(s.missing.value);
    RecoverableHasCover(s.missing.value, s.effective, calls, cfg.catalog);
    var chosen := MinimumIsReached(calls, cfg.catalog, missing);
    MinimumIsLeast(calls, cfg.catalog, missing, chosen);
    if RoomForReplan(s, cfg) {
      var room :| RecoveryCover(room, calls, cfg.catalog, missing) && s.budget.toolsUsed + |room| <= s.budget.limits.maxTools
        && |calls| + |room| <= s.plan.value.constraints.maxToolCalls;
      MinimumIsLeast(calls, cfg.catalog, missing, room);
    }
  }

  /** What recovery does when evidence is missing, and exactly when. */
  ghost predicate Decides(s0: State, w: World, cfg: Config) {
    var t, s := Recover(s0, w, cfg.catalog), s0.(recoveryAction := Some(Terminal));
    if !EvidenceMissing(s0) then t == Next(s, RunFinalize)
    else if w.deadlinePassed then t == Next(Fail(s, ExecutionTimeout), RunFinalize)
    else if s0.attemptIndex == 1 then t == Next(GiveUp(s), RunFinalize)
    else if !Recoverable(s0, cfg) then t == Next(s, RunFinalize)
    else if !RoomForReplan(s0, cfg) then t == Next(GiveUp(s), RunFinalize)
    else t.Next? && t.node == AttemptReset
  }

  lemma AtRecoveryMeans(s: State, cfg: Config)
    requires AtRecovery(s, cfg) && EvidenceMissing(s)
    ensures s.initialized && s.attemptIndex <= 1 && s.plan.Some? && s.decision.Some? && s.decision.value.ToolPlan?
    ensures s.attemptIndex == 0 ==> s.budget.replansUsed == 0
  {
    hide GoodBaseline, Contiguous, Accounted, CacheNamesCalls, Replay, GoodPlan, IsContextPlan, MadeFor, ResolveOutcome;
  }

  /** A replan starts exactly when the first attempt lacks evidence that other tools can deliver within what is left. */
  lemma RecoveryDecides(s0: State, w: World, cfg: Config)
    requires AtRecovery(s0, cfg) && Registered(cfg.catalog)
    ensures Decides(s0, w, cfg)
  {
    hide AtRecovery, RecoverableMissing, MinimumRecoveryToolCalls, RoomForReplan, SetOf, Registered, Fail, GiveUp, StartReplan, Capacity;
    if EvidenceMissing(s0) {
      AtRecoveryMeans(s0, cfg);
      var s := s0.(recoveryAction := Some(Terminal));
      if s0.attemptIndex == 0 && Recoverable(s0, cfg) {
        RecoverableHasCover(s0.missing.value, s0.effective, s0.plan.value.calls, cfg.catalog);
        RoomIsCapacity(s0, cfg);
        assert Capacity(s, s.plan.value) == Capacity(s0, s0.plan.value) by { CapacityLooksAt(s0); }
      }
    }
  }

  lemma CapacityLooksAt(s: State)
    requires s.plan.Some?
    ensures Capacity(s.(recoveryAction := Some(Terminal)), s.plan.value) == Capacity(s, s.plan.value)
  {}

  /** What the controller is told for a replan: what is missing, which calls were made, and the most calls that the
      run's budget and the plan's own limit both allow. */
  ghost predicate Tells(f: Feedback, s: State)
    requires s.missing.Some? && s.plan.Some?
  {
    var used, calls := s.budget.toolsUsed, |s.plan.value.calls|;
    && (forall kind :: kind in f.missing <==> kind in s.missing.value)
    && |f.executed| == |s.results| && (forall i | 0 <= i < |s.results| :: f.executed[i] == (s.results[i].callId, s.results[i].tool))
    && used + f.remainingToolBudget <= s.budget.limits.maxTools
    && calls + f.remainingToolBudget <= s.plan.value.constraints.maxToolCalls
    && (used + f.remainingToolBudget == s.budget.limits.maxTools || calls + f.remainingToolBudget == s.plan.value.constraints.maxToolCalls)
  }

  lemma {:induction false} AllFinished(results: seq<ToolResult>)
    requires !SomeToolFailed(results)
    ensures var calls := FinishedCalls(results);
      |calls| == |results| && forall i | 0 <= i < |results| :: calls[i] == (results[i].callId, results[i].tool)
  {
    if results != [] {
      var n := |results| - 1;
      assert results[n] in results;
      assert forall r | r in results[..n] :: r in results;
      AllFinished(results[..n]);
    }
  }

  lemma ReplanIs(s0: State, w: World, cfg: Config)
    requires AtRecovery(s0, cfg) && Registered(cfg.catalog) && Recover(s0, w, cfg.catalog).Next? && Recover(s0, w, cfg.catalog).node == AttemptReset
    ensures EvidenceMissing(s0) && s0.plan.Some? && Recoverable(s0, cfg) && RoomForReplan(s0, cfg) && s0.budget.replansUsed == 0
    ensures var s := s0.(recoveryAction := Some(Terminal));
      var missing := RecoverableMissing(s0.missing.value, s0.effective, s0.plan.value.calls, cfg.catalog).value;
      Recover(s0, w, cfg.catalog).state == StartReplan(s, s0.plan.value, missing, Capacity(s0, s0.plan.value))
  {
    hide AtRecovery, RecoverableMissing, MinimumRecoveryToolCalls, SetOf, Registered, Fail, GiveUp, StartReplan, Capacity, RoomForReplan;
    RecoveryDecides(s0, w, cfg);
    AtRecoveryMeans(s0, cfg);
    RecoveryLacks(s0, cfg);
    CapacityLooksAt(s0);
  }

  lemma CapacityIsMost(s: State, plan: Plan)
    requires Capacity(s, plan) >= 1
    ensures var capacity, used := Capacity(s, plan), s.budget.toolsUsed;
      && used + capacity <= s.budget.limits.maxTools && |plan.calls| + capacity <= plan.constraints.maxToolCalls
      && (used + capacity == s.budget.limits.maxTools || |plan.calls| + capacity == plan.constraints.maxToolCalls)
  {}

  lemma StartReplanWrites(s: State, baseline: Plan, missing: seq<string>, capacity: nat)
    ensures var t := StartReplan(s, baseline, missing, capacity);
      && t.feedback == Some(Feedback(missing, FinishedCalls(s.results), capacity)) && t.baseline == Some(baseline)
      && t.firstResults == s.results && t.budget == s.budget.(replansUsed := s.budget.replansUsed + 1)
  {
    hide FinishedCalls;
  }

  /** A replan starts from the first plan, with this feedback and no replan left. */
  lemma ReplanFeedback(s0: State, w: World, cfg: Config)
    requires AtRecovery(s0, cfg) && Registered(cfg.catalog) && Recover(s0, w, cfg.catalog).Next? && Recover(s0, w, cfg.catalog).node == AttemptReset
    ensures var t := Recover(s0, w, cfg.catalog).state;
      && s0.missing.Some? && s0.plan.Some? && t.baseline == s0.plan && t.firstResults == s0.results
      && t.feedback.Some? && Tells(t.feedback.value, s0) && t.budget == s0.budget.(replansUsed := 1)
  {
    hide AtRecovery, RecoverableMissing, Registered, Recover, RoomForReplan, FinishedCalls, SomeToolFailed, StartReplan, Capacity, MinimumRecoveryToolCalls;
    ReplanIs(s0, w, cfg);
    RecoveryLacks(s0, cfg);
    AllFinished(s0.results);
    RecoverableExactly(s0.missing.value, s0.effective, s0.plan.value.calls, cfg.catalog);
    RoomIsCapacity(s0, cfg);
    CapacityIsMost(s0, s0.plan.value);
    var missing := RecoverableMissing(s0.missing.value, s0.effective, s0.plan.value.calls, cfg.catalog).value;
    StartReplanWrites(s0.(recoveryAction := Some(Terminal)), s0.plan.value, missing, Capacity(s0, s0.plan.value));
  }

  lemma RecoveryLacks(s: State, cfg: Config)
    requires AtRecovery(s, cfg) && EvidenceMissing(s)
    ensures !SomeToolFailed(s.results) && s.decision.Some? && s.decision.value.ToolPlan? && s.plan == Some(s.decision.value.plan)
  {
    hide Spending, Attempt, ResolveOutcome, GoodPlan, MadeFor, Replay, IsContextPlan, SomeToolFailed;
    ReplayedResultsAreFine(s.plan.value.calls, s.plan.value.context, s.cache);
  }

  /** A plan for evidence that lacks some, its calls done and well. */
  ghost predicate Lacking(s: State, cfg: Config) {
    && EvidenceMissing(s) && !ControllerFailed(s) && !s.validationFailed && !SomeToolFailed(s.results) && s.runtimeFailure.None?
    && s.answer.None? && s.reviewPassed.None? && s.decision.Some? && s.decision.value.ToolPlan? && !ForController(s, cfg)
  }

  lemma ExecutedLacks(s: State, cfg: Config)
    requires EvidenceMissing(s) && Executed(s, cfg.catalog)
    ensures Lacking(s, cfg)
  {
    hide GoodPlan, MadeFor, IsContextPlan, SomeToolFailed, Replay;
    ReplayedResultsAreFine(s.plan.value.calls, s.plan.value.context, s.cache);
  }

  lemma GivingUpTells(s: State, cfg: Config)
    requires Lacking(s, cfg) && (s.attemptIndex == 1 || Recoverable(s, cfg))
    ensures Told(GiveUp(s), ResolveOutcome(GiveUp(s)), true, cfg)
  {
    hide IsContextPlan, SomeToolFailed, RecoverableMissing;
  }

  lemma TimingOutTells(s: State, cfg: Config)
    requires Lacking(s, cfg)
    ensures Told(Fail(s, ExecutionTimeout), ResolveOutcome(Fail(s, ExecutionTimeout)), true, cfg)
  {
    hide IsContextPlan, SomeToolFailed, RecoverableMissing;
  }

  lemma EndingRecoveryTells(s0: State, w: World, cfg: Config)
    requires AtRecovery(s0, cfg) && Registered(cfg.catalog) && Known(s0, Recovery, cfg) && Decides(s0, w, cfg)
    ensures var t := Recover(s0, w, cfg.catalog); t.Next? && t.node == RunFinalize ==> Told(t.state, ResolveOutcome(t.state), true, cfg)
  {
    hide AtRecovery, Registered, Recover, RoomForReplan, RecoverableMissing, ResolveOutcome, Told, SomeToolFailed, IsContextPlan, Executed, Lacking;
    var s := s0.(recoveryAction := Some(Terminal));
    OutcomeIgnores(s0, s);
    ToldStays(s0, s, ResolveOutcome(s0), false, cfg);
    if EvidenceMissing(s0) {
      StillExecuted(s0, cfg);
      ExecutedLacks(s, cfg);
      if w.deadlinePassed {
        TimingOutTells(s, cfg);
      } else if s0.attemptIndex == 1 || Recoverable(s, cfg) {
        GivingUpTells(s, cfg);
      } else {
        ToldOver(s, ResolveOutcome(s), cfg);
      }
    } else {
      ToldOver(s, ResolveOutcome(s), cfg);
    }
  }

  lemma ReplanTells(s0: State, w: World, cfg: Config)
    requires AtRecovery(s0, cfg) && Registered(cfg.catalog) && Known(s0, Recovery, cfg)
    ensures var t := Recover(s0, w, cfg.catalog); t.Next? && t.node == AttemptReset ==> Told(t.state, ResolveOutcome(t.state), false, cfg)
  {
    hide AtRecovery, Registered, Recover, ResolveOutcome, Told, StartReplan, Capacity, Fail, GiveUp;
    RecoveryChoices(s0, w, cfg);
    var t := Recover(s0, w, cfg.catalog);
    if t.node == AttemptReset {
      var s := s0.(recoveryAction := Some(Terminal));
      AtRecoveryMeans(s0, cfg);
      var missing :| t.state == StartReplan(s, s.plan.value, missing, Capacity(s, s.plan.value));
      StartReplanKeeps(s0, s.plan.value, missing, Capacity(s, s.plan.value));
      OutcomeIgnores(s0, t.state);
      ToldStays(s0, t.state, ResolveOutcome(s0), false, cfg);
    }
  }

  lemma StartReplanKeeps(s0: State, baseline: Plan, missing: seq<string>, capacity: nat)
    ensures var t := StartReplan(s0.(recoveryAction := Some(Terminal)), baseline, missing, capacity);
      && SameSignals(s0, t)
      && t == s0.(attempts := t.attempts, recoveryAction := t.recoveryAction, durationKnown := t.durationKnown,
                  response := t.response, feedback := t.feedback, baseline := t.baseline, budget := t.budget, firstResults := t.firstResults)
  {}

  lemma RecoverTells(s0: State, w: World, cfg: Config)
    requires AtRecovery(s0, cfg) && Registered(cfg.catalog) && Known(s0, Recovery, cfg)
    ensures var t := Recover(s0, w, cfg.catalog); t.Next? ==> Known(t.state, t.node, cfg)
  {
    hide AtRecovery, Registered, Recover, ResolveOutcome, Told, Decides;
    RecoveryDecides(s0, w, cfg);
    RecoveryKeepsSafety(s0, w, cfg);
    EndingRecoveryTells(s0, w, cfg);
    ReplanTells(s0, w, cfg);
  }

  lemma StillExecuted(s: State, cfg: Config)
    requires AtRecovery(s, cfg) && EvidenceMissing(s)
    ensures Executed(s.(recoveryAction := Some(Terminal)), cfg.catalog)
  {
    hide Spending, Attempt, ResolveOutcome, GoodPlan, MadeFor, Replay, IsContextPlan;
  }

  lemma RecoveryKeepsSafety(s: State, w: World, cfg: Config)
    requires AtRecovery(s, cfg) && Registered(cfg.catalog)
    ensures var t := Recover(s, w, cfg.catalog);
      t.Next? ==> t.state.safeFailure == s.safeFailure && t.state.controllerResult == s.controllerResult && t.state.attempts == s.attempts
                  && t.node in {RunFinalize, AttemptReset}
  {
    hide AtRecovery, Registered, RecoverableMissing, MinimumRecoveryToolCalls, Capacity, FinishedCalls, FailureReason, AddError;
  }

  lemma ResetTells(s: State, w: World, cfg: Config)
    requires AtAttemptReset(s, cfg) && Known(s, AttemptReset, cfg)
    ensures var t := Reset(s, w); t.Next? ==> Known(t.state, t.node, cfg)
  {
    hide Spending, GoodBaseline, MadeFor, Replay, GoodPlan, Told, ResolveOutcome, IsContextPlan, SomeToolFailed, RecoverableMissing;
    ExecutedLacks(s, cfg);
    TimingOutTells(s, cfg);
    var failed := Fail(s, ExecutionTimeout);
    var t := failed.(recoveryAction := Some(Terminal));
    OutcomeIgnores(failed, t);
    ToldStays(failed, t, ResolveOutcome(failed), true, cfg);
  }

  lemma FinalizeRunTells(s: State, cfg: Config)
    requires AtRunFinalize(s, cfg) && Known(s, RunFinalize, cfg)
    ensures var t := FinalizeRun(s); t.Next? ==> Known(t.state, t.node, cfg)
  {
    hide Spending, ResolveOutcome, Told, SomeToolFailed, IsContextPlan, RecoverableMissing;
    var t := s.(durationKnown := true);
    OutcomeIgnores(s, t);
    OutcomeIsStable(t);
    ToldStays(s, ApplyOutcome(t, ResolveOutcome(t)), ResolveOutcome(s), true, cfg);
  }

  lemma RespondTells(s: State, cfg: Config)
    requires AtResponse(s, cfg) && Known(s, ResponseNode, cfg)
    ensures var t := Respond(s); t.Next? ==> Known(t.state, t.node, cfg)
  {
    hide Spending, ResolveOutcome, Told, SomeToolFailed, IsContextPlan, RecoverableMissing, PublicResponse;
    var t := s.(response := Some(PublicResponse(s)));
    OutcomeIgnores(s, t);
    ToldStays(s, t, ResolveOutcome(s), true, cfg);
  }

  /** Every step keeps what is known for the end. */
  lemma StepTells(s: State, node: Node, w: World, cfg: Config)
    requires Inv(s, node, cfg) && Known(s, node, cfg) && Registered(cfg.catalog) && node != End
    ensures var t := StepFrom(s, node, w, cfg); t.Next? ==> Known(t.state, t.node, cfg)
  {
    hide AtController, AtDecisionValidate, AtConversationAnswer, AtPlan, AtControllerContext, AtEvidence, AtAnswer,
         AtAttemptFinalize, AtRecovery, AtAttemptReset, AtRunFinalize, AtResponse, AtEnd, Registered, Known,
         StepController, StepGuarded, StepAnswer, StepCheckpoint, CheckDecision, Converse, CheckPlan, RunTools,
         TakeContext, BuildEvidence, Review, FinalizeAttempt, Recover, Reset, FinalizeRun, Respond;
    match node
    case RunInit => InitTells(s, cfg);
    case Controller => ControllerTells(s, w, cfg);
    case DecisionValidate => DecisionValidateTells(s, w, cfg);
    case ConversationAnswer => ConversationAnswerTells(s, w, cfg);
    case Validate => ValidateTells(s, w, cfg);
    case ToolCalls => ToolsTell(s, w, cfg);
    case ControllerContext => ControllerContextTells(s, w, cfg);
    case Evidence => EvidenceStepTells(s, w, cfg);
    case AnswerNode => AnswerStepTells(s, w, cfg);
    case Critic => CriticStepTells(s, w, cfg);
    case AttemptFinalize => FinalizeAttemptTells(s, cfg);
    case Recovery => RecoverTells(s, w, cfg);
    case AttemptReset => ResetTells(s, w, cfg);
    case RunFinalize => FinalizeRunTells(s, cfg);
    case ResponseNode => RespondTells(s, cfg);
    case Checkpoint =>
  }

  lemma InitTells(s: State, cfg: Config)
    requires Fresh(s)
    ensures var t := StepRunInit(s, cfg); t.Next? ==> Known(t.state, t.node, cfg)
  {}

  // ------------------------------------------------------------------ the records of the attempts

  const LACKING := Outcome(InsufficientEvidence, EvidenceInsufficient, "insufficient evidence", InEvidence, Some(InEvidence))

  /** Only a second attempt is a recovered one, and there is one only after a first that lacked evidence. */
  ghost predicate RecordsTell(s: State) {
    && (forall i | 0 <= i < |s.attempts| :: s.attempts[i].recovered <==> i == 1)
    && (s.attemptIndex == 1 ==> s.attempts != [] && s.attempts[0].outcome == LACKING)
  }

  ghost predicate SameRecords(s: State, t: State) { t.attempts == s.attempts && t.attemptIndex == s.attemptIndex }

  lemma FailKeepsRecords(s: State, code: RuntimeFailure)
    ensures SameRecords(s, Fail(s, code))
  {}

  lemma ErrorsKeepRecords(s: State, message: string)
    ensures SameRecords(s, AgentGraph.Error(s, message))
  {}

  lemma ClosedKeepsRecords(s: State, node: Node, w: World, resource: Option<Resource>, cfg: Config)
    requires Gate(s, w.deadlinePassed, resource).Some?
    ensures var t := Closed(s, node, w, resource, cfg); t.Next? ==> SameRecords(s, t.state)
  {
    hide Route, Fail, Gate;
    FailKeepsRecords(s, Gate(s, w.deadlinePassed, resource).value);
  }

  lemma ControlKeepsRecords(s: State, w: World, catalog: Catalog)
    ensures SameRecords(s, Control(s, w, catalog))
  {
    hide Decide, Effective;
  }

  lemma ControllerKeepsRecords(s: State, w: World, cfg: Config)
    ensures var t := StepController(s, w, cfg); t.Next? ==> SameRecords(s, t.state)
  {
    hide Control, Closed, Gate, Route;
    ControlKeepsRecords(s, w, cfg.catalog);
    if Gate(s, w.deadlinePassed, Some(ControllerCalls)).Some? { ClosedKeepsRecords(s, Controller, w, Some(ControllerCalls), cfg); }
  }

  lemma InvalidKeepsRecords(s: State, stage: Stage, message: string)
    ensures SameRecords(s, Invalid(s, stage, message))
  {}

  lemma CheckDecisionKeepsRecords(s: State, catalog: Catalog)
    ensures SameRecords(s, CheckDecision(s, catalog))
  {
    hide DecisionErrors, Effective, DecisionStatus, DecisionReason, Invalid;
    InvalidKeepsRecords(s, InDecisionValidation, "missing controller decision");
    if s.decision.Some? {
      var s1 := if s.decision.value.ToolPlan? then s.(plan := Some(s.decision.value.plan)) else s;
      InvalidKeepsRecords(s1, InDecisionValidation, "decision validation failed");
    }
  }

  lemma ConverseKeepsRecords(s: State)
    ensures SameRecords(s, Converse(s))
  {
    hide Invalid;
    InvalidKeepsRecords(s, InConversationAnswer, "direct answer node received incompatible decision");
  }

  lemma CheckPlanKeepsRecords(s: State, catalog: Catalog)
    ensures SameRecords(s, CheckPlan(s, catalog))
  {
    hide CatalogErrors, Invalid;
    InvalidKeepsRecords(s, InPlanValidation, "missing execution plan");
    InvalidKeepsRecords(s, InPlanValidation, "plan validation failed");
  }

  lemma TakeContextKeepsRecords(s: State, w: World)
    ensures SameRecords(s, TakeContext(s, w))
  {
    hide AgentGraph.Error;
    ErrorsKeepRecords(s, "controller context tool returned invalid messages");
  }

  lemma AnsweringKeepsRecords(s: State, w: World)
    ensures SameRecords(s, BuildEvidence(s, w)) && SameRecords(s, Review(s, w)) && SameRecords(s, Synthesize(s, w))
  {
    hide AgentGraph.Error;
    ErrorsKeepRecords(s, "missing execution plan for evidence construction");
    ErrorsKeepRecords(s, "missing plan or evidence graph for answer synthesis");
    ErrorsKeepRecords(s, "missing critic inputs");
  }

  lemma PassKeepsRecords(s: State, r: ToolRun, context: bool)
    ensures SameRecords(s, WithPass(s, r, context)) && SameRecords(s, SettleTools(s)) && SameRecords(s, WithFailure(s, r.failure))
  {}

  lemma ToolsKeepRecords(s: State, w: World, cfg: Config)
    ensures SameRecords(s, RunTools(s, w, cfg))
  {
    hide Pass, IsContextPlan, WithPass, WithFailure, SettleTools, AgentGraph.Error, OverContextLimit;
    ErrorsKeepRecords(s, "conversation context tool limit reached");
    ErrorsKeepRecords(s, "missing execution plan");
    if s.plan.Some? {
      var r, context := Pass(s, w, cfg.catalog), ContextPlan(s, cfg.catalog);
      PassKeepsRecords(s, r, context);
      PassKeepsRecords(WithPass(s, r, context), r, context);
      PassKeepsRecords(WithFailure(WithPass(s, r, context), r.failure), r, context);
    }
  }

  lemma GuardedKeepsRecords(s: State, node: Node, w: World, cfg: Config, done: State, mayRaise: bool)
    requires SameRecords(s, done)
    ensures var t := StepGuarded(s, node, w, cfg, done, mayRaise); t.Next? ==> SameRecords(s, t.state)
  {
    hide Route, Closed, Gate;
    if Gate(s, w.deadlinePassed, None).Some? { ClosedKeepsRecords(s, node, w, None, cfg); }
  }

  lemma AnswerKeepsRecords(s: State, w: World, cfg: Config)
    ensures var t := StepAnswer(s, w, cfg); t.Next? ==> SameRecords(s, t.state)
  {
    hide Route, Closed, Gate, Synthesize;
    AnsweringKeepsRecords(s, w);
    if Gate(s, w.deadlinePassed, Some(AnswerCalls)).Some? { ClosedKeepsRecords(s, AnswerNode, w, Some(AnswerCalls), cfg); }
  }

  lemma RecoverKeepsRecords(s: State, w: World, cfg: Config)
    ensures var t := Recover(s, w, cfg.catalog); t.Next? ==> SameRecords(s, t.state)
  {
    hide RecoverableMissing, MinimumRecoveryToolCalls, Capacity, FinishedCalls, AddError, FailureReason;
  }

  lemma EndingsKeepRecords(s: State, w: World, cfg: Config)
    ensures FinalizeRun(s).Next? ==> SameRecords(s, FinalizeRun(s).state)
    ensures Respond(s).Next? ==> SameRecords(s, Respond(s).state)
    ensures StepCheckpoint(s).Next? ==> StepCheckpoint(s).state == s
  {
    hide ResolveOutcome, PublicResponse, Contiguous;
  }

  lemma FinalizeAttemptRecords(s: State, cfg: Config)
    requires AtAttemptFinalize(s, cfg) && RecordsTell(s)
    ensures var t := FinalizeAttempt(s); t.Next? ==> RecordsTell(t.state)
  {
    hide Spending, FinalizeAttempt, Recorded, Summarised, ResolveOutcome, Executed, GoodBaseline, Contiguous;
    AttemptStarted(s, cfg);
    FinalizeAttemptWrites(s);
    var t := FinalizeAttempt(s);
    forall i | 0 <= i < |t.state.attempts| ensures t.state.attempts[i].recovered <==> i == 1 {
      if i < |s.attempts| { assert t.state.attempts[..|s.attempts|][i] == s.attempts[i]; }
    }
    if s.attemptIndex == 1 { assert t.state.attempts[..|s.attempts|][0] == s.attempts[0]; }
  }

  lemma LackingIsTold(s: State, cfg: Config)
    requires Lacking(s, cfg) && Told(s, ResolveOutcome(s), false, cfg)
    ensures ResolveOutcome(s) == LACKING
  {
    hide ResolveOutcome, SomeToolFailed, IsContextPlan, RecoverableMissing;
  }

  lemma ResetRecords(s: State, w: World, cfg: Config)
    requires AtAttemptReset(s, cfg) && RecordsTell(s) && Told(s, ResolveOutcome(s), false, cfg)
    ensures var t := Reset(s, w); t.Next? ==> RecordsTell(t.state)
  {
    hide Spending, GoodBaseline, MadeFor, Replay, GoodPlan, Told, ResolveOutcome, IsContextPlan, SomeToolFailed, AddError, FailureReason;
    ExecutedLacks(s, cfg);
    LackingIsTold(s, cfg);
  }

  lemma StepRecords(s: State, node: Node, w: World, cfg: Config)
    requires Inv(s, node, cfg) && Known(s, node, cfg) && node != End && (node == RunInit || RecordsTell(s))
    ensures var t := StepFrom(s, node, w, cfg); t.Next? ==> RecordsTell(t.state)
  {
    hide Fresh, AtController, AtDecisionValidate, AtConversationAnswer, AtPlan, AtControllerContext, AtEvidence, AtAnswer,
         AtAttemptFinalize, AtRecovery, AtAttemptReset, AtRunFinalize, AtResponse, AtEnd, Ended, Told, Answering, ContextRead,
         StepController, StepGuarded, StepAnswer, StepCheckpoint, CheckDecision, Converse, CheckPlan, RunTools,
         TakeContext, BuildEvidence, Review, FinalizeAttempt, Recover, Reset, FinalizeRun, Respond, ResolveOutcome;
    ControllerKeepsRecords(s, w, cfg);
    CheckDecisionKeepsRecords(s, cfg.catalog);
    ConverseKeepsRecords(s);
    CheckPlanKeepsRecords(s, cfg.catalog);
    TakeContextKeepsRecords(s, w);
    AnsweringKeepsRecords(s, w);
    ToolsKeepRecords(s, w, cfg);
    AnswerKeepsRecords(s, w, cfg);
    RecoverKeepsRecords(s, w, cfg);
    EndingsKeepRecords(s, w, cfg);
    match node
    case DecisionValidate => GuardedKeepsRecords(s, node, w, cfg, CheckDecision(s, cfg.catalog), false);
    case ConversationAnswer => GuardedKeepsRecords(s, node, w, cfg, Converse(s), false);
    case Validate => GuardedKeepsRecords(s, node, w, cfg, CheckPlan(s, cfg.catalog), false);
    case ToolCalls => GuardedKeepsRecords(s, node, w, cfg, RunTools(s, w, cfg), false);
    case ControllerContext => GuardedKeepsRecords(s, node, w, cfg, TakeContext(s, w), false);
    case Evidence => GuardedKeepsRecords(s, node, w, cfg, BuildEvidence(s, w), true);
    case Critic => GuardedKeepsRecords(s, node, w, cfg, Review(s, w), true);
    case AttemptFinalize => FinalizeAttemptRecords(s, cfg);
    case AttemptReset => ResetRecords(s, w, cfg);
    case _ =>
  }

  // ------------------------------------------------------------------ the end of a run

  /** The outcome a finished state carries. */
  ghost predicate OutcomeTold(s: State, cfg: Config) {
    && s.responseType.Some? && s.terminalStage.Some?
    && Told(s, Outcome(s.status, s.responseType.value, s.reason, s.terminalStage.value, s.failureStage), true, cfg)
  }

  /** What the caller sees of it: status and type as they are, the code of a failure, and after a failure of the
      controller nothing else; otherwise the plan and every result, and one of two sentences for every error. */
  ghost predicate ResponseTold(s: State, r: Response) {
    && r.status == s.status && r.responseType == s.responseType
    && r.errorCode == (if s.status == Failing then s.responseType else None)
    && (ControllerFailed(s) ==> r.plan.None? && r.results == [] && r.errors == [])
    && (!ControllerFailed(s) ==>
          && r.plan == s.plan && |r.results| == |s.results| && |r.errors| == |s.errors|
          && (forall i | 0 <= i < |s.errors| :: r.errors[i] == if s.results != [] then "tool execution failed" else "request processing failed")
          && forall i | 0 <= i < |s.results| ::
               && r.results[i].callId == s.results[i].callId && r.results[i].tool == s.results[i].tool
               && r.results[i].status == s.results[i].status && r.results[i].data == s.results[i].data
               && (s.results[i].status == Ok ==> r.results[i] == s.results[i]))
  }

  lemma EndTells(s: State, cfg: Config)
    requires AtEnd(s, cfg) && Known(s, End, cfg)
    ensures OutcomeTold(s, cfg)
  {
    hide Spending, ResolveOutcome, Told, Mirrored, PublicResponse;
    var o := ResolveOutcome(s);
    assert o == Outcome(s.status, s.responseType.value, s.reason, s.terminalStage.value, s.failureStage);
  }

  lemma ControllerFailureTells(s: State, cfg: Config)
    requires OutcomeTold(s, cfg) && ControllerFailed(s)
    ensures s.status == Failing
  {
    hide SomeToolFailed, IsContextPlan, RecoverableMissing, NothingWrong;
    var failure := s.controllerResult.value.failure;
    assert failure == PlanningError || failure == DecisionValidationError;
    assert s.controllerResult == Some(Failed(failure));
  }

  lemma PublicTells(s: State)
    requires s.responseType.Some? && (s.safeFailure <==> ControllerFailed(s)) && (ControllerFailed(s) ==> s.status == Failing)
    ensures ResponseTold(s, PublicResponse(s))
  {}

  lemma ResponseTells(s: State, cfg: Config)
    requires AtEnd(s, cfg) && Known(s, End, cfg)
    ensures s.response == Some(PublicResponse(s)) && ResponseTold(s, PublicResponse(s))
  {
    hide Spending, ResolveOutcome, Mirrored, Told, PublicResponse, ResponseTold;
    EndTells(s, cfg);
    if ControllerFailed(s) { ControllerFailureTells(s, cfg); }
    PublicTells(s);
  }
}
