/** The bounded agent run as a state machine: one step per graph node, then the edge that leaves it.
    Everything outside the run (the model's replies, handlers, evidence, the clock) is a World. */
module AgentGraph {
  import opened Wrappers
  import opened Plans
  import opened PlanContracts
  import opened Decisions
  import opened RecoveryPlanning
  import opened ToolExecution
  import opened AgentState
  import opened ContextMessages

  datatype Node =
    | RunInit | Controller | DecisionValidate | ConversationAnswer | Validate | ToolCalls | ControllerContext
    | Evidence | AnswerNode | Critic | AttemptFinalize | Recovery | AttemptReset | RunFinalize | ResponseNode
    | Checkpoint | End

  datatype Config = Config(catalog: Catalog, limits: Limits, contextLimit: nat)

  /** One step's worth of the outside world. `messages`: what the context tools' results hold, if they can be
      read as messages. `raises`: the collaborator called at this node throws. */
  datatype World = World(
    deadlinePassed: bool,
    replies: seq<Reply>,
    calls: nat -> CallEvent,
    messages: Option<seq<Message>>,
    missing: seq<string>,
    answer: (string, AnswerStatus),
    reviewPassed: bool,
    raises: bool)

  /** Crash: one of the run's own consistency checks raised. Raised: a collaborator threw. */
  datatype Step = Next(state: State, node: Node) | Crash(why: string) | Raised

  // ------------------------------------------------------------------ gates

  function Gate(s: State, deadlinePassed: bool, resource: Option<Resource>): Option<RuntimeFailure> {
    if deadlinePassed then Some(ExecutionTimeout)
    else if resource.Some? && Exhausted(s.budget, resource.value) then Some(ExecutionBudgetError)
    else None
  }

  function Fail(s: State, code: RuntimeFailure): State {
    s.(runtimeFailure := Some(code), status := Failing, failureStage := Some(InExecution),
       reason := FailureReason(code), errors := AddError(s.errors, FailureReason(code)))
  }

  function Invalid(s: State, stage: Stage, message: string): State {
    s.(status := Failing, validationFailed := true, failureStage := Some(stage), safeFailure := true,
       errors := s.errors + [message])
  }

  function Error(s: State, message: string): State {
    s.(status := Failing, errors := s.errors + [message])
  }

  // ------------------------------------------------------------------ nodes

  /** Before run_init a state holds a request and nothing else. */
  ghost predicate Fresh(s: State) {
    && !s.initialized && s.attempts == [] && s.recoveryAction.None? && s.feedback.None? && s.baseline.None?
    && s.cache == map[] && s.contextCount == 0 && s.retrieved == [] && s.runtimeFailure.None? && s.failureStage.None?
    && s.terminalStage.None? && !s.durationKnown && !s.validationFailed && !s.safeFailure
    && s.controllerResult.None? && s.decision.None? && s.plan.None? && s.effective == {}
    && s.results == [] && s.records == [] && s.missing.None? && s.answer.None? && s.reviewPassed.None?
    && s.status == Failing && s.reason == "" && s.errors == [] && s.responseType.None? && s.response.None?
    && !s.checkpointed && s.entered == [] && s.contextEntered == 0 && s.firstResults == []
  }

  function InitRun(s: State, limits: Limits): State {
    s.(initialized := true, budget := Budget(limits, 0, 0, 0, 0), attemptIndex := 0, attempts := [])
  }

  ghost function Control(s: State, w: World, catalog: Catalog): State {
    var s1 := s.(budget := s.budget.(controllerUsed := s.budget.controllerUsed + 1));
    var recovery: Decisions.Recovery :=
      if s.feedback.Some? && s.baseline.Some? then Some((s.baseline.value, s.feedback.value)) else None;
    match Decide(w.replies, recovery, catalog)
    case Failed(failure) =>
      var invalid := failure.DecisionValidationError?;
      s1.(controllerResult := Some(Failed(failure)), status := Failing, errors := ["controller failed"], safeFailure := true,
          validationFailed := invalid, failureStage := Some(if invalid then InDecisionValidation else InController),
          reason := "LLM controller failed")
    case Decided(decision) =>
      s1.(controllerResult := Some(Decided(decision)), decision := Some(decision), reason := "decision accepted", status := Fine,
          effective := if decision.ToolPlan? then Effective(decision.plan, catalog) else {},
          plan := if decision.ToolPlan? then Some(decision.plan) else s.plan)
  }

  function DecisionStatus(d: Decision): Status {
    match d
    case Clarification(_, _) => ClarificationRequired
    case ContextMissing(_) => InsufficientContext
    case CapabilityBoundary(_) => InsufficientTools
    case _ => Fine
  }

  function DecisionReason(d: Decision, reason: string): string {
    match d
    case DirectAnswer(_, _) => ""
    case Clarification(question, _) => question
    case ContextMissing(why) => why
    case CapabilityBoundary(why) => why
    case ToolPlan(_) => reason
  }

  function CheckDecision(s: State, catalog: Catalog): State {
    if s.decision.None? then Invalid(s, InDecisionValidation, "missing controller decision") else
      var d := s.decision.value;
      var s1 := if d.ToolPlan? then s.(plan := Some(d.plan)) else s;
      if DecisionErrors(d, catalog) != [] then Invalid(s1, InDecisionValidation, "decision validation failed")
      else s1.(effective := if d.ToolPlan? then Effective(d.plan, catalog) else s.effective,
               status := DecisionStatus(d), reason := DecisionReason(d, s.reason))
  }

  function Converse(s: State): State {
    if s.decision.None? || !s.decision.value.DirectAnswer?
    then Invalid(s, InConversationAnswer, "direct answer node received incompatible decision")
    else s.(answer := Some(DirectResult(s.decision.value.answer)), status := Fine)
  }

  function CheckPlan(s: State, catalog: Catalog): State {
    if s.plan.None? then Invalid(s, InPlanValidation, "missing execution plan")
    else if CatalogErrors(s.plan.value, catalog, s.effective) != [] then Invalid(s, InPlanValidation, "plan validation failed")
    else s.(status := Fine)
  }

  predicate ContextPlan(s: State, catalog: Catalog) { s.plan.Some? && IsContextPlan(s.plan.value, catalog) }

  predicate OverContextLimit(s: State, cfg: Config) {
    ContextPlan(s, cfg.catalog) && s.contextCount + |s.plan.value.calls| > cfg.contextLimit
  }

  function PassOf(s: State): ToolRun {
    ToolRun(s.results, s.records, map[], s.cache, s.budget.toolsUsed, s.errors, None, s.entered, [])
  }

  /** The pass over the plan's calls, from this state. */
  function Pass(s: State, w: World, catalog: Catalog): ToolRun
    requires s.plan.Some?
  {
    RunCalls(PassOf(s), s.plan.value.calls, s.plan.value.context, catalog, s.budget.limits.maxTools, w.calls)
  }

  function WithPass(s: State, r: ToolRun, context: bool): State {
    s.(results := r.results, records := r.records, cache := r.cache, errors := r.errors, entered := r.entered,
       budget := s.budget.(toolsUsed := r.used),
       contextEntered := if context then s.contextEntered + Minus(r.used, s.budget.toolsUsed) else s.contextEntered)
  }

  /** The failure that stopped the pass; its message is among the errors already. */
  function WithFailure(s: State, failure: Option<RuntimeFailure>): State {
    if failure.None? then s else
      s.(runtimeFailure := failure, status := Failing, failureStage := Some(InExecution), reason := FailureReason(failure.value))
  }

  function SettleTools(s: State): State {
    if s.status == WaitingInput then s else s.(status := if s.errors != [] then Failing else Fine)
  }

  function AfterPass(s: State, r: ToolRun, context: bool): State {
    SettleTools(WithFailure(WithPass(s, r, context), r.failure))
  }

  function RunTools(s: State, w: World, cfg: Config): State {
    if OverContextLimit(s, cfg) then
      Error(s, "conversation context tool limit reached").(reason := "conversation context tool limit reached")
    else if s.plan.None? then Error(s, "missing execution plan")
    else AfterPass(s, Pass(s, w, cfg.catalog), ContextPlan(s, cfg.catalog))
  }

  /** Results go to the controller's context; the working state of the plan is cleared. */
  function TakeContext(s: State, w: World): State {
    if w.messages.None? then
      Error(s, "controller context tool returned invalid messages").(reason := "controller context tool returned invalid messages")
    else
      s.(retrieved := MergeAll(MergeAll([], s.retrieved), w.messages.value), contextCount := s.contextCount + |s.results|, status := Fine, reason := "", errors := [], controllerResult := None,
         decision := None, plan := None, validationFailed := false, safeFailure := false, results := [], records := [],
         missing := None, answer := None)
  }

  function BuildEvidence(s: State, w: World): State {
    if s.plan.None? then Error(s, "missing execution plan for evidence construction")
    else s.(missing := Some(w.missing))
  }

  function Synthesize(s: State, w: World): State {
    if s.plan.None? || s.missing.None? then Error(s, "missing plan or evidence graph for answer synthesis")
    else s.(budget := s.budget.(answerUsed := s.budget.answerUsed + 1), answer := Some(Synthesized(w.answer.0, w.answer.1)))
  }

  function Review(s: State, w: World): State {
    if s.plan.None? || s.missing.None? || s.answer.None? then Error(s, "missing critic inputs")
    else s.(reviewPassed := Some(w.reviewPassed))
  }

  function FinalizeAttempt(s: State): Step {
    if !s.initialized then Crash("run context is missing")
    else if s.attemptIndex > 1 then Crash("attempt index must be 0 or 1")
    else if s.attemptIndex != |s.attempts| then Crash("attempt records must be finalized in order")
    else
      var o := ResolveOutcome(s);
      if !UniqueRecords(s.records) then Crash("duplicate tool dispatch record")
      else if Summaries(s.results, s.records).None? then Crash("missing tool dispatch record")
      else Next(ApplyOutcome(s, o).(attempts := s.attempts + [AttemptRecord(
                  s.attemptIndex, s.decision, Summaries(s.results, s.records).value, o, s.attemptIndex == 1 && s.feedback.Some?)]),
                Recovery)
  }

  function FinishedCalls(results: seq<ToolResult>): seq<(string, string)> {
    if results == [] then [] else
      FinishedCalls(results[..|results| - 1])
        + (if results[|results| - 1].status == Ok then [(results[|results| - 1].callId, results[|results| - 1].tool)] else [])
  }

  function GiveUp(s: State): State {
    s.(status := InsufficientEvidence, responseType := Some(ReplanExhausted), reason := "replan exhausted")
  }

  function Minus(a: int, b: int): nat { if a > b then a - b else 0 }

  function Min(a: nat, b: nat): nat { if a < b then a else b }

  function Capacity(s: State, plan: Plan): nat {
    Min(Remaining(s.budget, Tools), Minus(plan.constraints.maxToolCalls, |plan.calls|))
  }

  function StartReplan(s: State, baseline: Plan, missing: seq<string>, capacity: nat): State {
    s.(feedback := Some(Feedback(missing, FinishedCalls(s.results), capacity)), baseline := Some(baseline), firstResults := s.results,
       budget := s.budget.(replansUsed := s.budget.replansUsed + 1), recoveryAction := Some(Replan))
  }

  /** Replan when everything missing can be produced by unused tools within what is left. */
  function ReplanOrGiveUp(s: State, plan: Plan, catalog: Catalog): Step
    requires EvidenceMissing(s)
  {
    var missing := RecoverableMissing(s.missing.value, s.effective, plan.calls, catalog);
    if missing.None? then Next(s, RunFinalize)
    else
      var required := MinimumRecoveryToolCalls(plan.calls, catalog, SetOf(missing.value));
      if required.None? then Crash("recoverable evidence has no producer cover")
      else
        var capacity := Capacity(s, plan);
        if Exhausted(s.budget, Replans) || Exhausted(s.budget, ControllerCalls) || Exhausted(s.budget, Tools)
           || capacity < required.value then Next(GiveUp(s), RunFinalize)
        else if s.decision.None? || !s.decision.value.ToolPlan? then Crash("missing-evidence recovery requires a tool plan decision")
        else Next(StartReplan(s, s.decision.value.plan, missing.value, capacity), AttemptReset)
  }

  function Recover(s0: State, w: World, catalog: Catalog): Step {
    var s := s0.(recoveryAction := Some(Terminal));
    if !EvidenceMissing(s) then Next(s, RunFinalize)
    else if !s.initialized then Crash("runtime gate requires initialized run state")
    else if w.deadlinePassed then Next(Fail(s, ExecutionTimeout), RunFinalize)
    else if s.attemptIndex == 1 then Next(GiveUp(s), RunFinalize)
    else if s.plan.None? then Next(s, RunFinalize)
    else ReplanOrGiveUp(s, s.plan.value, catalog)
  }

  /** Only what belongs to the attempt is cleared: budget, cache, attempts, feedback and baseline stay. */
  function ResetAttempt(s: State): State {
    s.(recoveryAction := None, runtimeFailure := None, attemptIndex := 1, failureStage := None, terminalStage := None,
       durationKnown := false, validationFailed := false, safeFailure := false, controllerResult := None, decision := None,
       plan := None, effective := {}, results := [], records := [], missing := None, answer := None, reviewPassed := None,
       status := Failing, reason := "", errors := [], responseType := None, response := None)
  }

  function Reset(s: State, w: World): Step {
    if s.recoveryAction != Some(Replan) || s.attemptIndex != 0 then Crash("attempt reset requires recovery from attempt 0")
    else if |s.attempts| != 1 then Crash("attempt 0 must be finalized before reset")
    else if !s.initialized then Crash("runtime gate requires initialized run state")
    else if w.deadlinePassed then Next(Fail(s, ExecutionTimeout).(recoveryAction := Some(Terminal)), RunFinalize)
    else Next(ResetAttempt(s), Controller)
  }

  predicate Contiguous(attempts: seq<AttemptRecord>) { forall i | 0 <= i < |attempts| :: attempts[i].index == i }

  function FinalizeRun(s: State): Step {
    if !s.initialized then Crash("run context is missing")
    else if |s.attempts| != 1 && |s.attempts| != 2 then Crash("run requires one or two finalized attempts")
    else if !Contiguous(s.attempts) then Crash("attempt records must be contiguous")
    else if s.attemptIndex != |s.attempts| - 1 then Crash("current attempt must already be finalized")
    else Next(ApplyOutcome(s.(durationKnown := true), ResolveOutcome(s)), ResponseNode)
  }

  function PublicResult(r: ToolResult): ToolResult {
    if r.status.Ok? then r else r.(error := Some("tool execution failed"))
  }

  /** Raw error texts never leave: each is replaced by one of two fixed sentences, and a run that must
      fail safely shows no plan, results or errors at all. */
  function PublicResponse(s: State): Response {
    if s.safeFailure then
      var t := if s.responseType.Some? then s.responseType.value else DecisionInvalid;
      Response(Failing, Some(t), Some(t), None, [], [])
    else
      Response(s.status, s.responseType, if s.status == Failing then s.responseType else None, s.plan,
               seq(|s.results|, i requires 0 <= i < |s.results| => PublicResult(s.results[i])),
               seq(|s.errors|, _ => if s.results != [] then "tool execution failed" else "request processing failed"))
  }

  function Respond(s: State): Step {
    if !s.initialized || s.terminalStage.None? || !s.durationKnown || (|s.attempts| != 1 && |s.attempts| != 2)
    then Crash("response_node requires one or two finalized attempts")
    else if !Contiguous(s.attempts) then Crash("response_node requires contiguous attempt records")
    else Next(s.(response := Some(PublicResponse(s))), End)
  }

  // ------------------------------------------------------------------ edges

  function Go(s: State, node: Node, cfg: Config): Step { Next(s, Route(s, node, cfg.catalog)) }

  function Route(s: State, node: Node, catalog: Catalog): Node {
    match node
    case Controller => if s.status == Failing then AttemptFinalize else DecisionValidate
    case DecisionValidate =>
      if s.status == Failing || s.decision.None? then AttemptFinalize
      else if s.decision.value.DirectAnswer? then ConversationAnswer
      else if s.decision.value.ToolPlan? then Validate
      else AttemptFinalize
    case Validate => if s.status == Failing then AttemptFinalize else ToolCalls
    case ToolCalls =>
      if s.status == WaitingInput then Checkpoint
      else if s.status == Failing then AttemptFinalize
      else if ContextPlan(s, catalog) then ControllerContext
      else Evidence
    case ControllerContext => if s.status == Failing then AttemptFinalize else Controller
    case Evidence => if s.status == Failing || s.missing.None? || EvidenceMissing(s) then AttemptFinalize else AnswerNode
    case AnswerNode =>
      if s.status == Failing || s.answer.None? || StatusOf(s.answer.value) in {AnswerError, AnswerInsufficient} then AttemptFinalize
      else Critic
    case _ => AttemptFinalize
  }

  // ------------------------------------------------------------------ steps

  /** A closed gate writes its failure; the node's edge then reads it. */
  function Closed(s: State, node: Node, w: World, resource: Option<Resource>, cfg: Config): Step
    requires Gate(s, w.deadlinePassed, resource).Some?
  {
    if !s.initialized then Crash("runtime gate requires initialized run state")
    else Go(Fail(s, Gate(s, w.deadlinePassed, resource).value), node, cfg)
  }

  function StepRunInit(s: State, cfg: Config): Step {
    if s.initialized then Crash("run context already exists") else Next(InitRun(s, cfg.limits), Controller)
  }

  ghost function StepController(s: State, w: World, cfg: Config): Step {
    if Gate(s, w.deadlinePassed, Some(ControllerCalls)).Some? then Closed(s, Controller, w, Some(ControllerCalls), cfg)
    else if !s.initialized then Crash("runtime gate requires initialized run state")
    else if s.feedback.Some? && s.baseline.None? then Crash("recovery baseline decision is missing")
    else if w.raises then Raised
    else Go(Control(s, w, cfg.catalog), Controller, cfg)
  }

  /** A guarded node without a budget of its own. */
  function StepGuarded(s: State, node: Node, w: World, cfg: Config, done: State, mayRaise: bool): Step {
    if Gate(s, w.deadlinePassed, None).Some? then Closed(s, node, w, None, cfg)
    else if !s.initialized then Crash("runtime gate requires initialized run state")
    else if mayRaise && w.raises then Raised
    else Go(done, node, cfg)
  }

  function StepAnswer(s: State, w: World, cfg: Config): Step {
    if Gate(s, w.deadlinePassed, Some(AnswerCalls)).Some? then Closed(s, AnswerNode, w, Some(AnswerCalls), cfg)
    else if !s.initialized then Crash("runtime gate requires initialized run state")
    else if w.raises then Raised
    else Go(Synthesize(s, w), AnswerNode, cfg)
  }

  function StepCheckpoint(s: State): Step {
    if s.status != WaitingInput || !s.checkpointed then Crash("checkpoint node requires a waiting Checkpoint") else Next(s, End)
  }

  ghost function StepFrom(s: State, node: Node, w: World, cfg: Config): Step {
    match node
    case RunInit => StepRunInit(s, cfg)
    case Controller => StepController(s, w, cfg)
    case DecisionValidate => StepGuarded(s, node, w, cfg, CheckDecision(s, cfg.catalog), false)
    case ConversationAnswer => StepGuarded(s, node, w, cfg, Converse(s), false)
    case Validate => StepGuarded(s, node, w, cfg, CheckPlan(s, cfg.catalog), false)
    case ToolCalls => StepGuarded(s, node, w, cfg, RunTools(s, w, cfg), false)
    case ControllerContext => StepGuarded(s, node, w, cfg, TakeContext(s, w), false)
    case Evidence => StepGuarded(s, node, w, cfg, BuildEvidence(s, w), true)
    case AnswerNode => StepAnswer(s, w, cfg)
    case Critic => StepGuarded(s, node, w, cfg, Review(s, w), true)
    case AttemptFinalize => FinalizeAttempt(s)
    case Recovery => Recover(s, w, cfg.catalog)
    case AttemptReset => Reset(s, w)
    case RunFinalize => FinalizeRun(s)
    case ResponseNode => Respond(s)
    case Checkpoint => StepCheckpoint(s)
    case End => Next(s, End)
  }

  /** Where a run stands after the given steps of the world. */
  ghost function Run(s: State, worlds: seq<World>, cfg: Config): Step {
    if worlds == [] then Next(s, RunInit) else
      var before := Run(s, worlds[..|worlds| - 1], cfg);
      if before.Next? then StepFrom(before.state, before.node, worlds[|worlds| - 1], cfg) else before
  }
}
