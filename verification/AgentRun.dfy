/** The run as an object: every graph node rewrites the fields of the run's state one by one, in the order
    the code does, and ends exactly where the state machine says. */
module AgentRun {
  import opened Wrappers
  import opened Plans
  import opened References
  import opened PlanContracts
  import opened Decisions
  import opened RecoveryPlanning
  import opened ToolExecution
  import opened AgentState
  import opened AgentGraph
  import opened AgentSafety
  import opened AgentOutcomes
  import opened AgentTheorems
  import opened ContextMessages
  import ToolPass
  import Json

  class AgentRunner {
    const cfg: Config
    var state: State

    constructor (cfg: Config, request: State)
      requires Fresh(request)
      ensures this.cfg == cfg && state == request
    {
      this.cfg, state := cfg, request;
    }

    // ---------------------------------------------------------------- gates and failures

    method ApplyRuntimeFailure(code: RuntimeFailure)
      modifies this
      ensures state == Fail(old(state), code)
    {
      state := state.(runtimeFailure := Some(code));
      state := state.(status := Failing);
      state := state.(failureStage := Some(InExecution));
      state := state.(reason := FailureReason(code));
      if FailureReason(code) !in state.errors { state := state.(errors := state.errors + [FailureReason(code)]); }
    }

    /** True when the node must not run; the failure is then on the state. */
    method Guard(deadlinePassed: bool, resource: Option<Resource>) returns (blocked: bool)
      modifies this
      ensures blocked <==> Gate(old(state), deadlinePassed, resource).Some?
      ensures state == if blocked then Fail(old(state), Gate(old(state), deadlinePassed, resource).value) else old(state)
    {
      blocked := true;
      if deadlinePassed { ApplyRuntimeFailure(ExecutionTimeout); return; }
      if resource.Some? && Exhausted(state.budget, resource.value) { ApplyRuntimeFailure(ExecutionBudgetError); return; }
      blocked := false;
    }

    method RejectAs(stage: Stage, message: string)
      modifies this
      ensures state == Invalid(old(state), stage, message)
    {
      state := state.(status := Failing);
      state := state.(validationFailed := true);
      state := state.(failureStage := Some(stage));
      state := state.(safeFailure := true);
      state := state.(errors := state.errors + [message]);
    }

    method FailWith(message: string)
      modifies this
      ensures state == AgentGraph.Error(old(state), message)
    {
      state := state.(status := Failing);
      state := state.(errors := state.errors + [message]);
    }

    // ---------------------------------------------------------------- deciding

    method Initialize() returns (ok: bool)
      modifies this
      ensures !ok ==> StepRunInit(old(state), cfg).Crash?
      ensures ok ==> StepRunInit(old(state), cfg) == Next(state, Controller)
    {
      if state.initialized { return false; }
      state := state.(initialized := true);
      state := state.(budget := Budget(cfg.limits, 0, 0, 0, 0));
      state := state.(attemptIndex := 0, attempts := []);
      return true;
    }

    method AskForDecision(w: World)
      modifies this
      ensures state == Control(old(state), w, cfg.catalog)
    {
      hide Decide, Effective;
      var before := state;
      state := state.(budget := state.budget.(controllerUsed := state.budget.controllerUsed + 1));
      var recovery: Decisions.Recovery :=
        if before.feedback.Some? && before.baseline.Some? then Some((before.baseline.value, before.feedback.value)) else None;
      var result := AskController(w.replies, recovery, cfg.catalog);
      match result
      case Failed(failure) => RejectController(failure);
      case Decided(decision) => TakeDecision(decision);
    }

    method TakeDecision(decision: Decision)
      modifies this
      ensures state == old(state).(controllerResult := Some(Decided(decision)), decision := Some(decision), reason := "decision accepted",
                                   status := Fine, effective := if decision.ToolPlan? then Effective(decision.plan, cfg.catalog) else {},
                                   plan := if decision.ToolPlan? then Some(decision.plan) else old(state).plan)
    {
      hide Effective;
      state := state.(controllerResult := Some(Decided(decision)));
      state := state.(reason := "decision accepted", decision := Some(decision), status := Fine, effective := {});
      if decision.ToolPlan? {
        state := state.(effective := Effective(decision.plan, cfg.catalog), plan := Some(decision.plan));
      }
    }

    method RejectController(failure: FailureType)
      modifies this
      ensures var invalid := failure.DecisionValidationError?;
        state == old(state).(controllerResult := Some(Failed(failure)), reason := "LLM controller failed", status := Failing, errors := ["controller failed"], safeFailure := true,
                             validationFailed := invalid, failureStage := Some(if invalid then InDecisionValidation else InController))
    {
      state := state.(controllerResult := Some(Failed(failure)), reason := "LLM controller failed", status := Failing, errors := ["controller failed"], safeFailure := true);
      state := state.(validationFailed := failure.DecisionValidationError?);
      state := state.(failureStage := Some(if state.validationFailed then InDecisionValidation else InController));
    }

    method ValidateDecision()
      modifies this
      ensures state == CheckDecision(old(state), cfg.catalog)
    {
      if state.decision.None? {
        RejectAs(InDecisionValidation, "missing controller decision");
        return;
      }
      var decision := state.decision.value;
      if decision.ToolPlan? { state := state.(plan := Some(decision.plan)); }
      var errors := ValidateControllerDecision(decision, cfg.catalog);
      if errors != [] {
        RejectAs(InDecisionValidation, "decision validation failed");
        return;
      }
      if decision.ToolPlan? { state := state.(effective := Effective(decision.plan, cfg.catalog)); }
      match decision
      case DirectAnswer(_, _) => state := state.(status := Fine, reason := "");
      case Clarification(question, _) => state := state.(status := ClarificationRequired, reason := question);
      case ContextMissing(why) => state := state.(status := InsufficientContext, reason := why);
      case CapabilityBoundary(why) => state := state.(status := InsufficientTools, reason := why);
      case ToolPlan(_) => state := state.(status := Fine);
    }

    method AnswerDirectly()
      modifies this
      ensures state == Converse(old(state))
    {
      if state.decision.None? || !state.decision.value.DirectAnswer? {
        RejectAs(InConversationAnswer, "direct answer node received incompatible decision");
        return;
      }
      state := state.(answer := Some(DirectResult(state.decision.value.answer)));
      state := state.(status := Fine);
    }

    method ValidatePlan()
      modifies this
      ensures state == CheckPlan(old(state), cfg.catalog)
    {
      if state.plan.None? {
        RejectAs(InPlanValidation, "missing execution plan");
        return;
      }
      var errors := ValidatePlanAgainstCatalog(state.plan.value, cfg.catalog, state.effective);
      if errors != [] {
        RejectAs(InPlanValidation, "plan validation failed");
        return;
      }
      state := state.(status := Fine);
    }

    // ---------------------------------------------------------------- tools

    method ExecutePlan(w: World)
      requires state.plan.Some?
      modifies this
      ensures state == AfterPass(old(state), AgentGraph.Pass(old(state), w, cfg.catalog), ContextPlan(old(state), cfg.catalog))
    {
      hide RunCalls, AfterPass, IsContextPlan;
      var plan := state.plan.value;
      var pass := new ToolPass.Pass(PassOf(state));
      pass.RunAll(plan.calls, plan.context, cfg.catalog, state.budget.limits.maxTools, w.calls);
      Conclude(pass.View(), IsContextPlan(plan, cfg.catalog));
    }

    method Conclude(r: ToolRun, context: bool)
      modifies this
      ensures state == AfterPass(old(state), r, context)
    {
      hide WithPass, FailureReason;
      state := WithPass(state, r, context);
      if r.failure.Some? {
        state := state.(runtimeFailure := r.failure, status := Failing, failureStage := Some(InExecution), reason := FailureReason(r.failure.value));
      }
      if state.status != WaitingInput {
        state := state.(status := if state.errors != [] then Failing else Fine);
      }
    }

    method RunPlannedTools(w: World)
      modifies this
      ensures state == RunTools(old(state), w, cfg)
    {
      if OverContextLimit(state, cfg) {
        FailWith("conversation context tool limit reached");
        state := state.(reason := "conversation context tool limit reached");
      } else if state.plan.None? {
        FailWith("missing execution plan");
      } else {
        ExecutePlan(w);
      }
    }

    // ---------------------------------------------------------------- after the tools

    method ApplyControllerContext(w: World)
      modifies this
      ensures state == TakeContext(old(state), w)
    {
      if w.messages.None? {
        FailWith("controller context tool returned invalid messages");
        state := state.(reason := "controller context tool returned invalid messages");
        return;
      }
      var merged := MergeMessages(state.retrieved, w.messages.value);
      state := state.(retrieved := merged);
      state := state.(contextCount := state.contextCount + |state.results|);
      state := state.(status := Fine, reason := "", errors := []);
      state := state.(controllerResult := None, decision := None, plan := None);
      state := state.(validationFailed := false, safeFailure := false);
      state := state.(results := [], records := []);
      state := state.(missing := None, answer := None);
    }

    method CollectEvidence(w: World)
      modifies this
      ensures state == BuildEvidence(old(state), w)
    {
      if state.plan.None? { FailWith("missing execution plan for evidence construction"); return; }
      state := state.(missing := Some(w.missing));
    }

    method SynthesizeAnswer(w: World)
      modifies this
      ensures state == Synthesize(old(state), w)
    {
      if state.plan.None? || state.missing.None? { FailWith("missing plan or evidence graph for answer synthesis"); return; }
      state := state.(budget := state.budget.(answerUsed := state.budget.answerUsed + 1));
      state := state.(answer := Some(Synthesized(w.answer.0, w.answer.1)));
    }

    method ReviewAnswer(w: World)
      modifies this
      ensures state == Review(old(state), w)
    {
      if state.plan.None? || state.missing.None? || state.answer.None? { FailWith("missing critic inputs"); return; }
      state := state.(reviewPassed := Some(w.reviewPassed));
    }

    // ---------------------------------------------------------------- finalization and recovery

    method ApplyResolvedOutcome()
      modifies this
      ensures state == ApplyOutcome(old(state), ResolveOutcome(old(state)))
    {
      hide ResolveOutcome;
      var outcome := ResolveOutcome(state);
      state := state.(status := outcome.status);
      state := state.(responseType := Some(outcome.responseType));
      state := state.(reason := outcome.reason);
      state := state.(terminalStage := Some(outcome.terminalStage));
      state := state.(failureStage := outcome.failureStage);
    }

    method SummarizeCalls() returns (calls: Option<seq<CallSummary>>)
      ensures calls == Summaries(state.results, state.records)
    {
      var results, summaries := state.results, [];
      for i := 0 to |results|
        invariant Summaries(results[..i], state.records) == Some(summaries)
      {
        assert results[..i + 1][..i] == results[..i];
        var record := RecordFor(state.records, results[i].callId);
        if record.None? {
          NoneStays(results, state.records, i + 1);
          return None;
        }
        summaries := summaries + [Summary(results[i], record.value)];
      }
      assert results[..|results|] == results;
      return Some(summaries);
    }

    method FinalizeThisAttempt() returns (ok: bool)
      modifies this
      ensures !ok ==> FinalizeAttempt(old(state)).Crash?
      ensures ok ==> FinalizeAttempt(old(state)) == Next(state, Recovery)
    {
      hide ResolveOutcome, Summaries, UniqueRecords;
      if !state.initialized || state.attemptIndex > 1 || state.attemptIndex != |state.attempts| { return false; }
      var outcome := ResolveOutcome(state);
      if !UniqueRecords(state.records) { return false; }
      var calls := SummarizeCalls();
      if calls.None? { return false; }
      ApplyResolvedOutcome();
      state := state.(attempts := state.attempts + [AttemptRecord(
        state.attemptIndex, state.decision, calls.value, outcome, state.attemptIndex == 1 && state.feedback.Some?)]);
      return true;
    }

    method ExhaustReplan()
      modifies this
      ensures state == GiveUp(old(state))
    {
      state := state.(status := InsufficientEvidence);
      state := state.(responseType := Some(ReplanExhausted));
      state := state.(reason := "replan exhausted");
    }

    method EvaluateRecovery(w: World) returns (ok: bool, next: Node)
      modifies this
      ensures !ok ==> Recover(old(state), w, cfg.catalog).Crash?
      ensures ok ==> Recover(old(state), w, cfg.catalog) == Next(state, next)
    {
      hide ReplanOrGiveUp;
      ok, next := true, RunFinalize;
      state := state.(recoveryAction := Some(Terminal));
      if !EvidenceMissing(state) { return; }
      if !state.initialized { return false, next; }
      var blocked := Guard(w.deadlinePassed, None);
      if blocked { return; }
      if state.attemptIndex == 1 { ExhaustReplan(); return; }
      if state.plan.None? { return; }
      ok, next := TryReplan(state.plan.value);
    }

    method TryReplan(plan: Plan) returns (ok: bool, next: Node)
      requires EvidenceMissing(state)
      modifies this
      ensures !ok ==> ReplanOrGiveUp(old(state), plan, cfg.catalog).Crash?
      ensures ok ==> ReplanOrGiveUp(old(state), plan, cfg.catalog) == Next(state, next)
    {
      hide RecoverableMissing, MinimumRecoveryToolCalls, SetOf, Exhausted, Capacity, GiveUp, StartReplan;
      ok, next := true, RunFinalize;
      var missing := RecoverableMissing(state.missing.value, state.effective, plan.calls, cfg.catalog);
      if missing.None? { return; }
      var required := MinimumRecoveryToolCalls(plan.calls, cfg.catalog, SetOf(missing.value));
      if required.None? { return false, next; }
      var capacity := Capacity(state, plan);
      if Exhausted(state.budget, Replans) || Exhausted(state.budget, ControllerCalls) || Exhausted(state.budget, Tools)
         || capacity < required.value
      {
        ExhaustReplan();
        return;
      }
      if state.decision.None? || !state.decision.value.ToolPlan? { return false, next; }
      PrepareReplan(state.decision.value.plan, missing.value, capacity);
      next := AttemptReset;
    }

    method PrepareReplan(baseline: Plan, missing: seq<string>, capacity: nat)
      modifies this
      ensures state == StartReplan(old(state), baseline, missing, capacity)
    {
      hide FinishedCalls;
      state := state.(feedback := Some(Feedback(missing, FinishedCalls(state.results), capacity)));
      state := state.(baseline := Some(baseline), firstResults := state.results);
      state := state.(budget := state.budget.(replansUsed := state.budget.replansUsed + 1));
      state := state.(recoveryAction := Some(Replan));
    }

    method StartNextAttempt(w: World) returns (ok: bool)
      modifies this
      ensures !ok ==> Reset(old(state), w).Crash?
      ensures ok ==> Reset(old(state), w) ==
                     Next(state, if state.recoveryAction == Some(Terminal) || state.runtimeFailure.Some? then RunFinalize else Controller)
    {
      if state.recoveryAction != Some(Replan) || state.attemptIndex != 0 || |state.attempts| != 1 || !state.initialized { return false; }
      var blocked := Guard(w.deadlinePassed, None);
      if blocked {
        state := state.(recoveryAction := Some(Terminal));
        return true;
      }
      state := ResetAttempt(state);
      return true;
    }

    method FinalizeThisRun() returns (ok: bool)
      modifies this
      ensures !ok ==> FinalizeRun(old(state)).Crash?
      ensures ok ==> FinalizeRun(old(state)) == Next(state, ResponseNode)
    {
      hide ResolveOutcome, Contiguous;
      if !state.initialized || (|state.attempts| != 1 && |state.attempts| != 2) || !Contiguous(state.attempts)
         || state.attemptIndex != |state.attempts| - 1 { return false; }
      state := state.(durationKnown := true);
      OutcomeIgnores(old(state), state);
      ApplyResolvedOutcome();
      return true;
    }

    method BuildResponse() returns (ok: bool)
      modifies this
      ensures !ok ==> Respond(old(state)).Crash?
      ensures ok ==> Respond(old(state)) == Next(state, End)
    {
      if !state.initialized || state.terminalStage.None? || !state.durationKnown || (|state.attempts| != 1 && |state.attempts| != 2)
         || !Contiguous(state.attempts) { return false; }
      state := state.(response := Some(PublicResponse(state)));
      return true;
    }

    // ---------------------------------------------------------------- the graph

    /** A node behind a gate. */
    method RunGuarded(node: Node, w: World) returns (raised: bool, next: Node)
      requires IsGuarded(node) && Inv(state, node, cfg)
      modifies this
      ensures StepFrom(old(state), node, w, cfg) == if raised then Raised else Next(state, next)
    {
      hide Control, CheckDecision, Converse, CheckPlan, RunTools, TakeContext, BuildEvidence, Synthesize, Review, Route, Fail, Gate, Inv;
      raised := false;
      GuardedIsReady(state, node, cfg);
      var resource := if node == Controller then Some(ControllerCalls) else if node == AnswerNode then Some(AnswerCalls) else None;
      var blocked := Guard(w.deadlinePassed, resource);
      if !blocked {
        if w.raises && node in {Controller, Evidence, AnswerNode, Critic} { return true, node; }
        match node
        case Controller => AskForDecision(w);
        case DecisionValidate => ValidateDecision();
        case ConversationAnswer => AnswerDirectly();
        case Validate => ValidatePlan();
        case ToolCalls => RunPlannedTools(w);
        case ControllerContext => ApplyControllerContext(w);
        case Evidence => CollectEvidence(w);
        case AnswerNode => SynthesizeAnswer(w);
        case Critic => ReviewAnswer(w);
        case _ =>
      }
      next := Route(state, node, cfg.catalog);
    }

    /** The whole run: it always ends, never by one of its own consistency checks, and unless a
        collaborator throws it ends with the response of a finished run. */
    method Run(world: nat -> World) returns (raised: bool)
      requires Fresh(state) && Registered(cfg.catalog)
      modifies this
      ensures !raised ==> Finished(state, cfg)
      ensures exists n: nat :: Reached(old(state), world, n, LastStep(raised, state), cfg)
    {
      hide Inv, Known, RecordsTell, Measure, Fresh, Registered, StepFrom, Finished, Reached;
      var node, n: nat := RunInit, 0;
      AtStart(state, cfg);
      StartReached(state, world, cfg);
      while node != End
        invariant Inv(state, node, cfg) && Known(state, node, cfg) && (node == RunInit || RecordsTell(state))
        invariant Reached(old(state), world, n, Next(state, node), cfg)
        decreases if node == End then 0 else 1 + Measure(state, node, cfg)
      {
        EveryStep(state, node, world(n), cfg);
        StepTells(state, node, world(n), cfg);
        StepRecords(state, node, world(n), cfg);
        StepReached(old(state), world, n, state, node, cfg);
        var threw, next := StepOnce(node, world(n));
        n := n + 1;
        if threw {
          assert Reached(old(state), world, n, LastStep(true, state), cfg);
          return true;
        }
        node := next;
      }
      EndIsFinished(state, cfg);
      assert Reached(old(state), world, n, LastStep(false, state), cfg);
      return false;
    }

    /** One node and the edge after it. */
    method StepOnce(node: Node, w: World) returns (raised: bool, next: Node)
      requires Inv(state, node, cfg) && node != End && Registered(cfg.catalog)
      modifies this
      ensures StepFrom(old(state), node, w, cfg) == if raised then Raised else Next(state, next)
    {
      hide Inv, StepRunInit, StepController, StepGuarded, StepAnswer, FinalizeAttempt, Recover, Reset, FinalizeRun, Respond, Registered,
           Control, CheckDecision, Converse, CheckPlan, RunTools, TakeContext, BuildEvidence, Synthesize, Review;
      EveryStep(state, node, w, cfg);
      GuardedIsReady(state, node, cfg);
      raised := false;
      var ok := true;
      if node == RunInit {
        ok := Initialize();
        next := Controller;
      } else if node == AttemptFinalize {
        ok := FinalizeThisAttempt();
        next := Recovery;
      } else if node == Recovery {
        ok, next := EvaluateRecovery(w);
      } else if node == AttemptReset {
        ok := StartNextAttempt(w);
        next := if state.recoveryAction == Some(Terminal) || state.runtimeFailure.Some? then RunFinalize else Controller;
      } else if node == RunFinalize {
        ok := FinalizeThisRun();
        next := ResponseNode;
      } else if node == ResponseNode {
        ok := BuildResponse();
        next := End;
      } else {
        raised, next := RunGuarded(node, w);
      }
    }
  }

  function LastStep(raised: bool, s: State): Step { if raised then Raised else Next(s, End) }

  function Worlds(world: nat -> World, n: nat): seq<World> {
    if n == 0 then [] else Worlds(world, n - 1) + [world(n - 1)]
  }

  /** The state machine stands there after n steps. */
  ghost predicate Reached(s: State, world: nat -> World, n: nat, step: Step, cfg: Config) {
    AgentGraph.Run(s, Worlds(world, n), cfg) == step
  }

  lemma {:induction false} WorldsLength(world: nat -> World, n: nat)
    ensures |Worlds(world, n)| == n
  {
    if n > 0 { WorldsLength(world, n - 1); }
  }

  lemma StartReached(s: State, world: nat -> World, cfg: Config)
    ensures Reached(s, world, 0, Next(s, RunInit), cfg)
  {
    hide StepFrom;
  }

  lemma StepReached(s: State, world: nat -> World, n: nat, t: State, node: Node, cfg: Config)
    requires Reached(s, world, n, Next(t, node), cfg)
    ensures Reached(s, world, n + 1, StepFrom(t, node, world(n), cfg), cfg)
  {
    hide StepFrom;
    var worlds := Worlds(world, n + 1);
    WorldsLength(world, n);
    assert worlds[..n] == Worlds(world, n) && worlds[n] == world(n);
  }

  predicate IsGuarded(node: Node) {
    node in {Controller, DecisionValidate, ConversationAnswer, Validate, ToolCalls, ControllerContext, Evidence, AnswerNode, Critic}
  }

  /** Every node but the fixed ones runs behind a gate, on an initialized state. */
  lemma GuardedIsReady(s: State, node: Node, cfg: Config)
    requires Inv(s, node, cfg)
    ensures IsGuarded(node) ==> s.initialized && (node == Controller && s.feedback.Some? ==> s.baseline.Some?)
    ensures !IsGuarded(node) ==> node in {RunInit, AttemptFinalize, Recovery, AttemptReset, RunFinalize, ResponseNode, End}
  {
    hide ResolveOutcome, Settled, Mirrored, Recorded, Unspoiled, Promised, Executed, Deciding, Accounted, GoodBaseline, Contiguous, PublicResponse;
  }

  lemma {:induction false} NoneStays(results: seq<ToolResult>, records: seq<DispatchRecord>, n: nat)
    requires n <= |results| && Summaries(results[..n], records).None?
    ensures Summaries(results, records).None?
    decreases |results|
  {
    if n == |results| {
      assert results[..n] == results;
    } else {
      var m := |results| - 1;
      assert results[..m][..n] == results[..n];
      NoneStays(results[..m], records, n);
    }
  }
}
