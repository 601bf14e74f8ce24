/** Where the signals of a run come from: what its state holds was said by a collaborator at the node that asks
    it, and a closed gate is obeyed where it is met. */
module AgentSignals {
  import opened Wrappers
  import opened Plans
  import opened PlanContracts
  import opened Decisions
  import opened RecoveryPlanning
  import opened ToolExecution
  import opened CacheSources
  import opened AgentState
  import opened AgentGraph
  import opened AgentSafety
  import opened AgentOutcomes
  import opened AgentTheorems
  import opened ContextMessages
  import References
  import Json

  // ------------------------------------------------------------------ one step

  /** What one step may make of the answers of collaborators: keep them, drop them, or take this step's own. */
  ghost predicate Hears(s: State, t: State, node: Node, w: World) {
    && (t.missing == s.missing || t.missing.None? || (node == Evidence && t.missing == Some(w.missing)))
    && (t.answer == s.answer || t.answer.None? || t.answer.value.DirectResult?
        || (node == AnswerNode && t.answer == Some(Synthesized(w.answer.0, w.answer.1))))
    && (t.reviewPassed == s.reviewPassed || t.reviewPassed.None? || (node == Critic && t.reviewPassed == Some(w.reviewPassed)))
    && (t.decision == s.decision || t.decision.None? || (node == Controller && Candidate(t.decision.value) in w.replies))
    && (t.runtimeFailure == s.runtimeFailure || t.runtimeFailure != Some(ExecutionTimeout) || Late(w))
    && t.retrieved == (if Retrieves(node, w) then MergeAll(MergeAll([], s.retrieved), w.messages.value) else s.retrieved)
    && t.contextCount == s.contextCount + (if Retrieves(node, w) then |s.results| else 0)
  }

  /** The step reads the messages its context tools returned. */
  predicate Retrieves(node: Node, w: World) { node == ControllerContext && !w.deadlinePassed && w.messages.Some? }

  /** The deadline had passed at the node or at one of the calls it made. */
  ghost predicate Late(w: World) { w.deadlinePassed || exists i: nat :: w.calls(i).deadlinePassed }

  ghost predicate SameAnswers(s: State, t: State) {
    t.missing == s.missing && t.answer == s.answer && t.reviewPassed == s.reviewPassed && t.decision == s.decision && t.retrieved == s.retrieved
    && t.contextCount == s.contextCount
  }

  lemma FailHears(s: State, code: RuntimeFailure)
    ensures var t := Fail(s, code); SameAnswers(s, t) && t.runtimeFailure == Some(code) && t.budget == s.budget && t.entered == s.entered
  {}

  lemma ClosedHears(s: State, node: Node, w: World, resource: Option<Resource>, cfg: Config)
    requires Gate(s, w.deadlinePassed, resource).Some? && (node == ControllerContext ==> resource.None?)
    ensures var t := Closed(s, node, w, resource, cfg); t.Next? ==> Hears(s, t.state, node, w)
  {
    hide Route, Fail, Late, MergeAll;
    FailHears(s, Gate(s, w.deadlinePassed, resource).value);
    if w.deadlinePassed { assert Late(w) by { LateAtNode(w); } }
  }

  lemma LateAtNode(w: World)
    requires w.deadlinePassed
    ensures Late(w)
  {}

  lemma {:induction false} DecidedWasSaid(replies: seq<Reply>, recovery: Decisions.Recovery, catalog: Catalog)
    requires Decide(replies, recovery, catalog).Decided?
    ensures Candidate(Decide(replies, recovery, catalog).decision) in replies
  {
    if !(replies[0].Candidate? && Accepted(replies[0].decision, recovery, catalog)) {
      DecidedWasSaid(replies[1..], recovery, catalog);
    }
  }

  lemma ControlKeeps(s: State, w: World, catalog: Catalog)
    ensures var t := Control(s, w, catalog);
      && t.missing == s.missing && t.answer == s.answer && t.reviewPassed == s.reviewPassed && t.retrieved == s.retrieved
      && t.runtimeFailure == s.runtimeFailure && t.contextCount == s.contextCount
  {
    hide Decide, Effective;
  }

  lemma ControlDecides(s: State, w: World, catalog: Catalog)
    ensures var t := Control(s, w, catalog); t.decision == s.decision || (t.decision.Some? && Candidate(t.decision.value) in w.replies)
  {
    hide Decide, Effective;
    var recovery: Decisions.Recovery :=
      if s.feedback.Some? && s.baseline.Some? then Some((s.baseline.value, s.feedback.value)) else None;
    if Decide(w.replies, recovery, catalog).Decided? { DecidedWasSaid(w.replies, recovery, catalog); }
  }

  lemma ControlHears(s: State, w: World, catalog: Catalog)
    ensures Hears(s, Control(s, w, catalog), Controller, w)
  {
    hide Control, Late, MergeAll;
    ControlKeeps(s, w, catalog);
    ControlDecides(s, w, catalog);
  }

  lemma InvalidHears(s: State, stage: Stage, message: string)
    ensures SameAnswers(s, Invalid(s, stage, message)) && Invalid(s, stage, message).runtimeFailure == s.runtimeFailure
  {}

  lemma ErrorHears(s: State, message: string)
    ensures SameAnswers(s, AgentGraph.Error(s, message)) && AgentGraph.Error(s, message).runtimeFailure == s.runtimeFailure
  {}

  lemma TakingPlanKeeps(s: State, plan: Option<Plan>)
    ensures var t := s.(plan := plan); SameAnswers(s, t) && t.runtimeFailure == s.runtimeFailure
  {}

  lemma AcceptingKeeps(s: State, effective: set<string>, status: Status, reason: string)
    ensures var t := s.(effective := effective, status := status, reason := reason); SameAnswers(s, t) && t.runtimeFailure == s.runtimeFailure
  {}

  lemma CheckDecisionKeeps(s: State, catalog: Catalog)
    ensures var t := CheckDecision(s, catalog); SameAnswers(s, t) && t.runtimeFailure == s.runtimeFailure
  {
    hide DecisionErrors, Effective, DecisionStatus, DecisionReason, Invalid;
    if s.decision.None? {
      InvalidHears(s, InDecisionValidation, "missing controller decision");
    } else {
      var d := s.decision.value;
      var s1 := if d.ToolPlan? then s.(plan := Some(d.plan)) else s;
      if d.ToolPlan? { TakingPlanKeeps(s, Some(d.plan)); }
      InvalidHears(s1, InDecisionValidation, "decision validation failed");
      AcceptingKeeps(s1, if d.ToolPlan? then Effective(d.plan, catalog) else s.effective, DecisionStatus(d), DecisionReason(d, s.reason));
    }
  }

  lemma CheckDecisionHears(s: State, w: World, catalog: Catalog)
    ensures Hears(s, CheckDecision(s, catalog), DecisionValidate, w)
  {
    hide CheckDecision, Late, MergeAll;
    CheckDecisionKeeps(s, catalog);
  }

  lemma ConverseHears(s: State, w: World)
    ensures Hears(s, Converse(s), ConversationAnswer, w)
  {
    hide Invalid, Late;
    InvalidHears(s, InConversationAnswer, "direct answer node received incompatible decision");
  }

  lemma CheckPlanHears(s: State, w: World, catalog: Catalog)
    ensures Hears(s, CheckPlan(s, catalog), Validate, w)
  {
    hide CatalogErrors, Invalid, Late;
    InvalidHears(s, InPlanValidation, "missing execution plan");
    InvalidHears(s, InPlanValidation, "plan validation failed");
  }

  lemma TakeContextHears(s: State, w: World)
    requires !w.deadlinePassed
    ensures Hears(s, TakeContext(s, w), ControllerContext, w)
  {
    hide AgentGraph.Error, Late, MergeAll;
    ErrorHears(s, "controller context tool returned invalid messages");
    if w.messages.Some? { assert TakeContext(s, w).missing.None? && TakeContext(s, w).answer.None? && TakeContext(s, w).decision.None?; }
  }

  lemma EvidenceHears(s: State, w: World)
    ensures Hears(s, BuildEvidence(s, w), Evidence, w)
  {
    hide AgentGraph.Error, Late, MergeAll;
    ErrorHears(s, "missing execution plan for evidence construction");
  }

  lemma AnswerHears(s: State, w: World)
    ensures Hears(s, Synthesize(s, w), AnswerNode, w)
  {
    hide AgentGraph.Error, Late, MergeAll;
    ErrorHears(s, "missing plan or evidence graph for answer synthesis");
  }

  lemma CriticHears(s: State, w: World)
    ensures Hears(s, Review(s, w), Critic, w)
  {
    hide AgentGraph.Error, Late, MergeAll;
    ErrorHears(s, "missing critic inputs");
  }

  lemma DispatchIsLate(t: ToolRun, call: ToolCall, args: seq<Json.Field>, context: Json.Value, f: string, catalog: Catalog, limit: nat, event: CallEvent)
    requires t.failure.None?
    ensures DispatchCall(t, call, args, context, f, catalog, limit, event).failure == Some(ExecutionTimeout) ==> event.deadlinePassed
  {
    hide AddError, FailureReason, CallError;
  }

  lemma CallIsLate(t: ToolRun, call: ToolCall, context: Json.Value, catalog: Catalog, limit: nat, event: CallEvent)
    requires t.failure.None?
    ensures RunCall(t, call, context, catalog, limit, event).failure == Some(ExecutionTimeout) ==> event.deadlinePassed
  {
    hide References.ResolveFields, Fingerprint, DispatchCall, AddError, FailedResult, CallError;
    var args := References.ResolveFields(call.args, t.byId).0;
    DispatchIsLate(t, call, args, context, Fingerprint(call.tool, args, context), catalog, limit, event);
  }

  lemma {:induction false} PassIsLate(t: ToolRun, calls: seq<ToolCall>, context: Json.Value, catalog: Catalog, limit: nat, events: nat -> CallEvent)
    requires t.failure.None?
    ensures RunCalls(t, calls, context, catalog, limit, events).failure == Some(ExecutionTimeout) ==> exists i: nat :: events(i).deadlinePassed
  {
    hide RunCall;
    if calls != [] {
      var n := |calls| - 1;
      PassIsLate(t, calls[..n], context, catalog, limit, events);
      var before := RunCalls(t, calls[..n], context, catalog, limit, events);
      if before.failure.None? { CallIsLate(before, calls[n], context, catalog, limit, events(n)); }
    }
  }

  lemma PassHears(s: State, r: ToolRun, context: bool)
    ensures SameAnswers(s, WithPass(s, r, context)) && WithPass(s, r, context).runtimeFailure == s.runtimeFailure
  {}

  lemma SettledHears(s: State)
    ensures SameAnswers(s, SettleTools(s)) && SettleTools(s).runtimeFailure == s.runtimeFailure
  {}

  lemma FailureHears(s: State, failure: Option<RuntimeFailure>)
    ensures SameAnswers(s, WithFailure(s, failure))
    ensures WithFailure(s, failure).runtimeFailure == if failure.None? then s.runtimeFailure else failure
  {
    hide FailureReason;
  }

  lemma ToolsHear(s: State, w: World, cfg: Config)
    ensures Hears(s, RunTools(s, w, cfg), ToolCalls, w)
  {
    hide RunCalls, IsContextPlan, WithPass, WithFailure, SettleTools, AgentGraph.Error, OverContextLimit;
    ErrorHears(s, "conversation context tool limit reached");
    ErrorHears(s, "missing execution plan");
    if s.plan.Some? {
      var r, context := Pass(s, w, cfg.catalog), ContextPlan(s, cfg.catalog);
      PassIsLate(PassOf(s), s.plan.value.calls, s.plan.value.context, cfg.catalog, s.budget.limits.maxTools, w.calls);
      PassHears(s, r, context);
      FailureHears(WithPass(s, r, context), r.failure);
      SettledHears(WithFailure(WithPass(s, r, context), r.failure));
    }
  }

  lemma GuardedHears(s: State, node: Node, w: World, cfg: Config, done: State, mayRaise: bool)
    requires w.deadlinePassed || Hears(s, done, node, w)
    ensures var t := StepGuarded(s, node, w, cfg, done, mayRaise); t.Next? ==> Hears(s, t.state, node, w)
  {
    hide Route, Closed, Hears;
    if Gate(s, w.deadlinePassed, None).Some? { ClosedHears(s, node, w, None, cfg); }
  }

  lemma ModelNodesHear(s: State, w: World, cfg: Config)
    ensures StepController(s, w, cfg).Next? ==> Hears(s, StepController(s, w, cfg).state, Controller, w)
    ensures StepAnswer(s, w, cfg).Next? ==> Hears(s, StepAnswer(s, w, cfg).state, AnswerNode, w)
  {
    hide Route, Closed, Gate, Control, Synthesize, Hears;
    ControlHears(s, w, cfg.catalog);
    AnswerHears(s, w);
    if Gate(s, w.deadlinePassed, Some(ControllerCalls)).Some? { ClosedHears(s, Controller, w, Some(ControllerCalls), cfg); }
    if Gate(s, w.deadlinePassed, Some(AnswerCalls)).Some? { ClosedHears(s, AnswerNode, w, Some(AnswerCalls), cfg); }
  }

  lemma ActionHears(s: State, action: Option<RecoveryAction>)
    ensures var t := s.(recoveryAction := action); SameAnswers(s, t) && t.runtimeFailure == s.runtimeFailure
  {}

  lemma GivingUpHears(s: State)
    ensures SameAnswers(s, GiveUp(s)) && GiveUp(s).runtimeFailure == s.runtimeFailure
  {}

  lemma StartReplanHears(s: State, baseline: Plan, missing: seq<string>, capacity: nat)
    ensures var t := StartReplan(s, baseline, missing, capacity); SameAnswers(s, t) && t.runtimeFailure == s.runtimeFailure
  {
    hide FinishedCalls;
  }

  lemma RecoverKeeps(s0: State, w: World, cfg: Config)
    ensures var t := Recover(s0, w, cfg.catalog);
      t.Next? ==> SameAnswers(s0, t.state) && (t.state.runtimeFailure == s0.runtimeFailure || w.deadlinePassed)
  {
    hide RecoverableMissing, MinimumRecoveryToolCalls, Capacity, Fail, GiveUp, StartReplan, EvidenceMissing;
    var s := s0.(recoveryAction := Some(Terminal));
    ActionHears(s0, Some(Terminal));
    FailHears(s, ExecutionTimeout);
    GivingUpHears(s);
    forall baseline, missing, capacity: nat
      ensures var t := StartReplan(s, baseline, missing, capacity); SameAnswers(s, t) && t.runtimeFailure == s.runtimeFailure
    {
      StartReplanHears(s, baseline, missing, capacity);
    }
  }

  lemma RecoverHears(s: State, w: World, cfg: Config)
    ensures var t := Recover(s, w, cfg.catalog); t.Next? ==> Hears(s, t.state, Recovery, w)
  {
    hide Recover, Late, MergeAll;
    RecoverKeeps(s, w, cfg);
    if w.deadlinePassed { LateAtNode(w); }
  }

  lemma ResetHears(s: State, w: World)
    ensures var t := Reset(s, w); t.Next? ==> Hears(s, t.state, AttemptReset, w)
  {
    hide AddError, FailureReason, Late;
    if w.deadlinePassed { LateAtNode(w); }
  }

  lemma InitHears(s: State, w: World, cfg: Config)
    ensures StepRunInit(s, cfg).Next? ==> Hears(s, StepRunInit(s, cfg).state, RunInit, w)
  {
    hide Late;
  }

  lemma OutcomeHears(s: State, o: Outcome)
    ensures SameAnswers(s, ApplyOutcome(s, o)) && ApplyOutcome(s, o).runtimeFailure == s.runtimeFailure
  {}

  lemma FinalizeAttemptHears(s: State, w: World)
    ensures FinalizeAttempt(s).Next? ==> Hears(s, FinalizeAttempt(s).state, AttemptFinalize, w)
  {
    hide ResolveOutcome, ApplyOutcome, UniqueRecords, Summaries, Late;
    OutcomeHears(s, ResolveOutcome(s));
  }

  lemma FinalizeRunHears(s: State, w: World)
    ensures FinalizeRun(s).Next? ==> Hears(s, FinalizeRun(s).state, RunFinalize, w)
  {
    hide ResolveOutcome, ApplyOutcome, Contiguous, Late;
    OutcomeHears(s.(durationKnown := true), ResolveOutcome(s));
  }

  lemma RespondHears(s: State, w: World)
    ensures Respond(s).Next? ==> Hears(s, Respond(s).state, ResponseNode, w)
  {
    hide PublicResponse, Contiguous, Late;
  }

  /** No step makes up an answer. */
  lemma StepHears(s: State, node: Node, w: World, cfg: Config)
    ensures var t := StepFrom(s, node, w, cfg); t.Next? ==> Hears(s, t.state, node, w)
  {
    hide StepRunInit, StepController, StepGuarded, StepAnswer, CheckDecision, Converse, CheckPlan, RunTools,
         TakeContext, BuildEvidence, Review, FinalizeAttempt, Recover, Reset, FinalizeRun, Respond;
    match node
    case DecisionValidate => CheckDecisionHears(s, w, cfg.catalog); GuardedHears(s, node, w, cfg, CheckDecision(s, cfg.catalog), false);
    case ConversationAnswer => ConverseHears(s, w); GuardedHears(s, node, w, cfg, Converse(s), false);
    case Validate => CheckPlanHears(s, w, cfg.catalog); GuardedHears(s, node, w, cfg, CheckPlan(s, cfg.catalog), false);
    case ToolCalls => ToolsHear(s, w, cfg); GuardedHears(s, node, w, cfg, RunTools(s, w, cfg), false);
    case ControllerContext =>
      if !w.deadlinePassed { TakeContextHears(s, w); }
      GuardedHears(s, node, w, cfg, TakeContext(s, w), false);
    case Evidence => EvidenceHears(s, w); GuardedHears(s, node, w, cfg, BuildEvidence(s, w), true);
    case Critic => CriticHears(s, w); GuardedHears(s, node, w, cfg, Review(s, w), true);
    case Controller => ModelNodesHear(s, w, cfg);
    case AnswerNode => ModelNodesHear(s, w, cfg);
    case Recovery => RecoverHears(s, w, cfg);
    case AttemptReset => ResetHears(s, w);
    case RunInit => InitHears(s, w, cfg);
    case AttemptFinalize => FinalizeAttemptHears(s, w);
    case RunFinalize => FinalizeRunHears(s, w);
    case ResponseNode => RespondHears(s, w);
    case Checkpoint =>
    case End =>
  }

  // ------------------------------------------------------------------ the whole run

  /** The k-th step of the run was taken at this node. */
  ghost predicate AskedAt(s0: State, worlds: seq<World>, k: nat, node: Node, cfg: Config) {
    k < |worlds| && Run(s0, worlds[..k], cfg).Next? && Run(s0, worlds[..k], cfg).node == node
  }

  ghost predicate EvidenceSaid(s0: State, worlds: seq<World>, missing: seq<string>, cfg: Config) {
    exists k: nat :: AskedAt(s0, worlds, k, Evidence, cfg) && worlds[k].missing == missing
  }

  ghost predicate AnswerSaid(s0: State, worlds: seq<World>, answer: (string, AnswerStatus), cfg: Config) {
    exists k: nat :: AskedAt(s0, worlds, k, AnswerNode, cfg) && worlds[k].answer == answer
  }

  ghost predicate CriticSaid(s0: State, worlds: seq<World>, passed: bool, cfg: Config) {
    exists k: nat :: AskedAt(s0, worlds, k, Critic, cfg) && worlds[k].reviewPassed == passed
  }

  ghost predicate ControllerSaid(s0: State, worlds: seq<World>, decision: Decision, cfg: Config) {
    exists k: nat :: AskedAt(s0, worlds, k, Controller, cfg) && Candidate(decision) in worlds[k].replies
  }

  ghost predicate SomebodyLate(worlds: seq<World>) { exists k | 0 <= k < |worlds| :: Late(worlds[k]) }

  /** Every answer the state holds was given at its node. */
  ghost predicate AllSaid(s: State, s0: State, worlds: seq<World>, cfg: Config) {
    && (s.missing.Some? ==> EvidenceSaid(s0, worlds, s.missing.value, cfg))
    && (s.answer.Some? && s.answer.value.Synthesized? ==> AnswerSaid(s0, worlds, (s.answer.value.answerType, s.answer.value.status), cfg))
    && (s.reviewPassed.Some? ==> CriticSaid(s0, worlds, s.reviewPassed.value, cfg))
    && (s.decision.Some? ==> ControllerSaid(s0, worlds, s.decision.value, cfg))
    && (s.runtimeFailure == Some(ExecutionTimeout) ==> SomebodyLate(worlds))
  }

  lemma SaidBefore(s: State, s0: State, worlds: seq<World>, w: World, cfg: Config)
    requires AllSaid(s, s0, worlds, cfg)
    ensures AllSaid(s, s0, worlds + [w], cfg)
  {
    hide Run;
    var longer := worlds + [w];
    forall k: nat, node | AskedAt(s0, worlds, k, node, cfg) ensures AskedAt(s0, longer, k, node, cfg) && longer[k] == worlds[k] {
      assert longer[..k] == worlds[..k];
    }
    if s.runtimeFailure == Some(ExecutionTimeout) {
      var k :| 0 <= k < |worlds| && Late(worlds[k]);
      assert Late(longer[k]);
    }
  }

  lemma SaidNow(s: State, t: State, node: Node, s0: State, worlds: seq<World>, w: World, cfg: Config)
    requires AllSaid(s, s0, worlds, cfg) && Run(s0, worlds, cfg) == Next(s, node) && Hears(s, t, node, w)
    ensures AllSaid(t, s0, worlds + [w], cfg)
  {
    hide Run, Late;
    var longer := worlds + [w];
    SaidBefore(s, s0, worlds, w, cfg);
    assert longer[..|worlds|] == worlds && longer[|worlds|] == w;
    assert AskedAt(s0, longer, |worlds|, node, cfg);
    if Late(w) { assert Late(longer[|worlds|]); }
  }

  /** Whatever evidence, answer, verdict or decision a run ends with was given by its collaborator at that node of
      this run, and it times out only when the deadline passed. */
  lemma {:induction false} SignalsWereSaid(s0: State, worlds: seq<World>, cfg: Config)
    requires Fresh(s0)
    ensures Run(s0, worlds, cfg).Next? ==> AllSaid(Run(s0, worlds, cfg).state, s0, worlds, cfg)
  {
    hide StepFrom, AllSaid, Hears;
    if worlds == [] {
      NothingSaid(s0, cfg);
    } else {
      var n := |worlds| - 1;
      SignalsWereSaid(s0, worlds[..n], cfg);
      assert worlds == worlds[..n] + [worlds[n]];
      var before := Run(s0, worlds[..n], cfg);
      if before.Next? && Run(s0, worlds, cfg).Next? {
        StepHears(before.state, before.node, worlds[n], cfg);
        SaidNow(before.state, Run(s0, worlds, cfg).state, before.node, s0, worlds[..n], worlds[n], cfg);
      }
    }
  }

  lemma NothingSaid(s0: State, cfg: Config)
    requires Fresh(s0)
    ensures AllSaid(s0, s0, [], cfg)
  {}

  /** All messages the context tools returned, in the order of the steps that read them. */
  ghost function Gathered(s0: State, worlds: seq<World>, cfg: Config): seq<Message> {
    if worlds == [] then [] else
      var n := |worlds| - 1;
      var before, gathered := Run(s0, worlds[..n], cfg), Gathered(s0, worlds[..n], cfg);
      if before.Next? && Retrieves(before.node, worlds[n]) then gathered + worlds[n].messages.value else gathered
  }

  /** What the controller sees of them: in conversation order, of every turn and role the message returned last. */
  lemma {:induction false} RetrievedIsLatest(s0: State, worlds: seq<World>, cfg: Config)
    requires Fresh(s0) && Run(s0, worlds, cfg).Next?
    ensures var seen := Run(s0, worlds, cfg).state.retrieved;
      ContextMessages.Ascending(seen) && forall m :: m in seen <==> LatestIn(Gathered(s0, worlds, cfg), m)
  {
    RetrievedIsMerged(s0, worlds, cfg);
    MergeHoldsLatest(Gathered(s0, worlds, cfg));
  }

  lemma {:induction false} RetrievedIsMerged(s0: State, worlds: seq<World>, cfg: Config)
    requires Fresh(s0) && Run(s0, worlds, cfg).Next?
    ensures Run(s0, worlds, cfg).state.retrieved == MergeAll([], Gathered(s0, worlds, cfg))
  {
    hide StepFrom, MergeAll;
    if worlds == [] {
      assert MergeAll([], []) == [] by { NothingMerged(); }
      assert s0.retrieved == [] by { NothingRetrieved(s0); }
    } else {
      var n := |worlds| - 1;
      RetrievedIsMerged(s0, worlds[..n], cfg);
      var before := Run(s0, worlds[..n], cfg);
      StepHears(before.state, before.node, worlds[n], cfg);
      var gathered := Gathered(s0, worlds[..n], cfg);
      MergeAgainFromStart(gathered);
      if Retrieves(before.node, worlds[n]) { MergeConcat(gathered, worlds[n].messages.value); }
    }
  }

  lemma NothingMerged()
    ensures MergeAll([], []) == []
  {}

  lemma NothingRetrieved(s: State)
    requires Fresh(s)
    ensures s.retrieved == []
  {}

  /** A view merged into nothing is itself. */
  lemma MergeAgainFromStart(messages: seq<Message>)
    ensures MergeAll([], MergeAll([], messages)) == MergeAll([], messages)
  {
    var view := MergeAll([], messages);
    MergeHoldsLatest(messages);
    MergeHoldsLatest(view);
    forall x ensures x in MergeAll([], view) <==> x in view { LatestOfAscending(view, x); }
    AscendingIsUnique(MergeAll([], view), view);
  }

  lemma LatestOfAscending(view: seq<Message>, x: Message)
    requires ContextMessages.Ascending(view)
    ensures LatestIn(view, x) <==> x in view
  {}

  // ------------------------------------------------------------------ gates

  /** The budget a node draws on. */
  function ResourceOf(node: Node): Option<Resource> {
    match node
    case Controller => Some(ControllerCalls)
    case AnswerNode => Some(AnswerCalls)
    case _ => None
  }

  predicate Guarded(node: Node) {
    node in {Controller, DecisionValidate, ConversationAnswer, Validate, ToolCalls, ControllerContext, Evidence, AnswerNode, Critic}
  }

  /** The deadline has passed, or the budget the node draws on is used up. */
  predicate Blocked(s: State, node: Node, w: World) {
    w.deadlinePassed
    || (node == Controller && s.budget.controllerUsed >= s.budget.limits.maxController)
    || (node == AnswerNode && s.budget.answerUsed >= s.budget.limits.maxAnswer)
  }

  lemma GateIsBlocked(s: State, node: Node, w: World)
    requires Guarded(node)
    ensures Gate(s, w.deadlinePassed, ResourceOf(node)) ==
      if !Blocked(s, node, w) then None else Some(if w.deadlinePassed then ExecutionTimeout else ExecutionBudgetError)
  {}

  lemma GuardedCloses(s: State, node: Node, w: World, cfg: Config, done: State, mayRaise: bool)
    requires Gate(s, w.deadlinePassed, None).Some?
    ensures StepGuarded(s, node, w, cfg, done, mayRaise) == Closed(s, node, w, None, cfg)
  {}

  lemma ClosedStops(s: State, node: Node, w: World, cfg: Config)
    requires s.initialized && Guarded(node) && Blocked(s, node, w)
    ensures StepFrom(s, node, w, cfg) == Closed(s, node, w, ResourceOf(node), cfg)
  {
    hide Closed, Gate, StepGuarded, Control, CheckDecision, Converse, CheckPlan, RunTools, TakeContext, BuildEvidence, Review, Synthesize;
    GateIsBlocked(s, node, w);
    match node
    case Controller =>
    case AnswerNode =>
    case DecisionValidate => GuardedCloses(s, node, w, cfg, CheckDecision(s, cfg.catalog), false);
    case ConversationAnswer => GuardedCloses(s, node, w, cfg, Converse(s), false);
    case Validate => GuardedCloses(s, node, w, cfg, CheckPlan(s, cfg.catalog), false);
    case ToolCalls => GuardedCloses(s, node, w, cfg, RunTools(s, w, cfg), false);
    case ControllerContext => GuardedCloses(s, node, w, cfg, TakeContext(s, w), false);
    case Evidence => GuardedCloses(s, node, w, cfg, BuildEvidence(s, w), true);
    case Critic => GuardedCloses(s, node, w, cfg, Review(s, w), true);
  }

  lemma GuardedAreInitialized(s: State, node: Node, cfg: Config)
    requires Inv(s, node, cfg) && Guarded(node)
    ensures s.initialized
  {
    hide Sourced, Promised, Attempt, Unspoiled, Recorded, Accounted, CacheNamesCalls, Deciding, Planning, Executed;
  }

  /** A node whose deadline has passed or whose budget is used up asks nobody: the attempt ends there with the
      failure of its gate, and nothing was spent or entered. */
  lemma BlockedNodesStop(s: State, node: Node, w: World, cfg: Config)
    requires Inv(s, node, cfg) && Guarded(node) && Blocked(s, node, w)
    ensures var t := StepFrom(s, node, w, cfg);
      && t.Next? && t.node == AttemptFinalize
      && t.state.runtimeFailure == Some(if w.deadlinePassed then ExecutionTimeout else ExecutionBudgetError)
      && t.state.budget == s.budget && t.state.entered == s.entered && SameAnswers(s, t.state)
  {
    hide Inv, StepFrom, Gate, Fail, Route;
    GuardedAreInitialized(s, node, cfg);
    ClosedStops(s, node, w, cfg);
    GateIsBlocked(s, node, w);
    var code := if w.deadlinePassed then ExecutionTimeout else ExecutionBudgetError;
    FailHears(s, code);
    FailedLeaves(s, code, node, cfg);
  }

  /** A node that is not blocked listens: what its collaborator says is what the state holds, and the call is counted. */
  ghost predicate Listens(s: State, node: Node, w: World, t: State) {
    match node
    case Controller => t.budget.controllerUsed == s.budget.controllerUsed + 1 && t.controllerResult.Some?
    case Evidence => t.missing == Some(w.missing)
    case AnswerNode => t.answer == Some(Synthesized(w.answer.0, w.answer.1)) && t.budget.answerUsed == s.budget.answerUsed + 1
    case Critic => t.reviewPassed == Some(w.reviewPassed)
    case _ => true
  }

  lemma ControllerListens(s: State, w: World, catalog: Catalog)
    ensures var t := Control(s, w, catalog); t.budget.controllerUsed == s.budget.controllerUsed + 1 && t.controllerResult.Some?
  {
    hide Decide, Effective;
  }

  lemma CollaboratorsAreHeard(s: State, w: World)
    requires s.plan.Some?
    ensures s.missing.None? ==> BuildEvidence(s, w).missing == Some(w.missing)
    ensures s.missing.Some? ==> Synthesize(s, w).answer == Some(Synthesized(w.answer.0, w.answer.1))
                                && Synthesize(s, w).budget.answerUsed == s.budget.answerUsed + 1
    ensures s.missing.Some? && s.answer.Some? ==> Review(s, w).reviewPassed == Some(w.reviewPassed)
  {}

  /** What the invariant says a listening node has at hand. */
  lemma AtHand(s: State, node: Node, cfg: Config)
    requires Inv(s, node, cfg) && node in {Controller, Evidence, AnswerNode, Critic}
    ensures s.initialized
    ensures node == Controller && s.feedback.Some? ==> s.baseline.Some?
    ensures node == Evidence ==> s.plan.Some? && s.missing.None?
    ensures node in {AnswerNode, Critic} ==> s.plan.Some? && s.missing.Some?
    ensures node == Critic ==> s.answer.Some?
  {
    hide Accounted, CacheNamesCalls, GoodBaseline, Contiguous, GoodPlan, Replay, MadeFor, OnlyContext, IsContextPlan, Recorded, Sourced, Promised;
  }

  lemma OpenNodesListen(s: State, node: Node, w: World, cfg: Config)
    requires Inv(s, node, cfg) && node in {Controller, Evidence, AnswerNode, Critic} && !Blocked(s, node, w) && !w.raises
    ensures var t := StepFrom(s, node, w, cfg); t.Next? && Listens(s, node, w, t.state)
  {
    hide Inv, Control, BuildEvidence, Synthesize, Review, Gate, Route;
    AtHand(s, node, cfg);
    GateIsBlocked(s, node, w);
    match node
    case Controller => ControllerListens(s, w, cfg.catalog);
    case _ => CollaboratorsAreHeard(s, w);
  }

  /** Every call reads context for the controller, and there are more of them than the run may still make. */
  predicate TooMuchContext(s: State, cfg: Config)
    requires s.plan.Some?
  {
    && s.plan.value.calls != [] && (forall c | c in s.plan.value.calls :: GoesTo(c, cfg.catalog, ToControllerContext))
    && s.contextCount + |s.plan.value.calls| > cfg.contextLimit
  }

  /** What the tools node takes over from the pass over the plan's calls. */
  ghost predicate TookPass(s: State, r: ToolRun, t: State) {
    && t.results == r.results && t.records == r.records && t.cache == r.cache && t.entered == r.entered
    && t.budget == s.budget.(toolsUsed := r.used) && t.errors == r.errors
    && (t.runtimeFailure == if r.failure.Some? then r.failure else s.runtimeFailure)
    && (t.status == if r.errors != [] || r.failure.Some? then Failing else Fine)
  }

  lemma PassIsTaken(s: State, r: ToolRun, context: bool)
    requires s.status == Fine && (r.failure.Some? ==> r.errors != [])
    ensures TookPass(s, r, AfterPass(s, r, context))
  {
    hide WithFailure, FailureReason;
    FailureIsTaken(WithPass(s, r, context), r.failure);
  }

  lemma FailureIsTaken(s: State, failure: Option<RuntimeFailure>)
    ensures var t := WithFailure(s, failure);
      && t.results == s.results && t.records == s.records && t.cache == s.cache && t.entered == s.entered && t.budget == s.budget
      && t.errors == s.errors && t.runtimeFailure == (if failure.Some? then failure else s.runtimeFailure)
      && t.status == if failure.Some? then Failing else s.status
  {
    hide FailureReason;
  }

  lemma PlanAtHand(s: State, cfg: Config)
    requires Inv(s, ToolCalls, cfg)
    ensures s.initialized && s.plan.Some? && s.status == Fine && s.errors == [] && s.plan.value.calls != []
  {
    hide Accounted, CacheNamesCalls, GoodBaseline, Contiguous, Replay, MadeFor, OnlyContext, IsContextPlan, Recorded, Sourced, Promised;
    if s.plan.Some? { DecisionAccepted(ToolPlan(s.plan.value), cfg.catalog); }
  }

  lemma LimitIsTooMuch(s: State, cfg: Config)
    requires s.plan.Some? && s.plan.value.calls != []
    ensures OverContextLimit(s, cfg) <==> TooMuchContext(s, cfg)
  {
    hide Knows, ToolOf;
  }

  /** The plan's calls are made unless they would read more context than the run may: then the attempt ends there,
      and nothing was entered or spent. */
  ghost predicate MakesCalls(s: State, w: World, cfg: Config, t: Step)
    requires s.plan.Some?
  {
    && t.Next?
    && if TooMuchContext(s, cfg)
       then t.node == AttemptFinalize && t.state.status == Failing && t.state.results == s.results && t.state.cache == s.cache
            && t.state.entered == s.entered && t.state.budget == s.budget
       else TookPass(s, Pass(s, w, cfg.catalog), t.state)
  }

  lemma PassAtHand(s: State, w: World, cfg: Config)
    requires Inv(s, ToolCalls, cfg) && s.plan.Some?
    ensures Pass(s, w, cfg.catalog).failure.Some? ==> Pass(s, w, cfg.catalog).errors != []
  {
    hide AtPlan, Pass;
    PassTells(s, w, cfg);
  }

  lemma ToolsMakeCalls(s: State, w: World, cfg: Config)
    requires s.initialized && s.plan.Some? && s.status == Fine && s.plan.value.calls != [] && !w.deadlinePassed
    requires Pass(s, w, cfg.catalog).failure.Some? ==> Pass(s, w, cfg.catalog).errors != []
    ensures MakesCalls(s, w, cfg, StepGuarded(s, ToolCalls, w, cfg, RunTools(s, w, cfg), false))
  {
    hide Pass, AfterPass, IsContextPlan, TooMuchContext, TookPass, AddError;
    LimitIsTooMuch(s, cfg);
    if !OverContextLimit(s, cfg) { PassIsTaken(s, Pass(s, w, cfg.catalog), ContextPlan(s, cfg.catalog)); }
  }

  /** In time, the tools node makes exactly the calls it may. */
  lemma ContextLimitExactly(s: State, w: World, cfg: Config)
    requires Inv(s, ToolCalls, cfg) && !w.deadlinePassed
    ensures s.plan.Some? && MakesCalls(s, w, cfg, StepFrom(s, ToolCalls, w, cfg))
  {
    hide Inv, Pass, StepGuarded, RunTools, MakesCalls;
    PlanAtHand(s, cfg);
    PassAtHand(s, w, cfg);
    ToolsMakeCalls(s, w, cfg);
  }

  lemma FailedLeaves(s: State, code: RuntimeFailure, node: Node, cfg: Config)
    requires Guarded(node)
    ensures Route(Fail(s, code), node, cfg.catalog) == AttemptFinalize
  {
    hide IsContextPlan, AddError, FailureReason;
  }
}
