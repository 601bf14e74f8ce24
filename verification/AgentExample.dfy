/** Two runs in which recovery starts a replan and the second attempt reaches the tools node: one that keeps
    the arguments of the first call, and one that keeps them only as Python sees it, writing true for 1. */
module AgentExample {
  import opened Wrappers
  import opened Plans
  import opened PlanContracts
  import opened Decisions
  import opened RecoveryPlanning
  import opened ToolExecution
  import opened References
  import opened PythonValues
  import opened AgentTheorems
  import opened CacheSources
  import opened AgentState
  import opened AgentGraph
  import Json

  const SOURCE := Json.Obj([Json.Field("name", Json.Str("example")), Json.Field("kind", Json.Str("example"))])
  const TOOL_A := ToolDef("a", ToEvidence, {"limit"}, {"x"}, {}, [], [], SOURCE, Json.Obj([]))
  const TOOL_B := ToolDef("b", ToEvidence, {}, {"x"}, {}, [], [], SOURCE, Json.Obj([]))
  const CATALOG := Catalog([TOOL_A, TOOL_B], (_, _) => true, (_, _) => true)
  const CONFIG := Config(CATALOG, Limits(2, 2, 1), 1)

  const CONTEXT := Json.Obj([])
  const CALL_A := ToolCall("1", "a", [Json.Field("limit", Json.Num(1))])
  const CALL_TRUE := ToolCall("1", "a", [Json.Field("limit", Json.Bool(true))])
  const CALL_B := ToolCall("2", "b", [])
  const FIRST := Plan("intent", "goal", NATURAL_LANGUAGE, CONTEXT, [CALL_A], ["x"], Constraints(2, false))
  const SECOND := FIRST.(calls := [CALL_A, CALL_B])
  const ALTERED := FIRST.(calls := [CALL_TRUE, CALL_B])

  /** What the policy models and the registry check ask of limits and tools. */
  predicate Permitted(cfg: Config) {
    && cfg.limits.maxTools >= 1 && cfg.limits.maxController >= 1 && cfg.limits.maxAnswer >= 1 && 1 <= cfg.contextLimit <= 3
    && forall d | d in cfg.catalog.tools ::
         d.mandatoryEvidence <= d.evidenceKinds && (d.evidenceKinds != {} ==> d.source != Json.Null && d.destination.ToEvidence?)
  }

  lemma ConfigIsPermitted()
    ensures Permitted(CONFIG) && Registered(CATALOG)
  {
    ToolsFound();
  }

  /** The controller proposes this plan, every handler returns, and the evidence still lacks "x". */
  function Proposing(plan: Plan): World {
    World(false, [Candidate(ToolPlan(plan))], _ => CallEvent(false, (_, _) => Returned(Json.Null), 0), None, ["x"], ("", AnswerOk), true, false)
  }

  lemma ToolsFound()
    ensures Find(CATALOG.tools, "a") == Some(TOOL_A) && Find(CATALOG.tools, "b") == Some(TOOL_B)
    ensures Registered(CATALOG)
  {
    assert CATALOG.tools[1..] == [TOOL_B];
  }

  lemma CallsOf(plan: Plan)
    requires plan in {FIRST, SECOND, ALTERED}
    ensures DistinctIds(plan.calls) && 1 <= |plan.calls| <= 2
    ensures forall c | c in plan.calls :: c in {CALL_A, CALL_TRUE, CALL_B}
    ensures CALL_A in plan.calls || CALL_TRUE in plan.calls
  {}

  lemma Harmless(c: ToolCall)
    requires c in {CALL_A, CALL_TRUE, CALL_B}
    ensures c.tool in {"a", "b"} && Knows(CATALOG, c.tool) && ArgsFit(c, ToolOf(CATALOG, c.tool), CATALOG)
    ensures RefersWhereItMust(c, ToolOf(CATALOG, c.tool).argContracts)
    ensures forall a | a in c.args :: FindReferences(a.value) == []
  {
    ToolsFound();
  }

  lemma KindsProduced(plan: Plan)
    requires plan in {FIRST, SECOND, ALTERED}
    ensures forall c | c in plan.calls :: c.tool in {"a", "b"}
    ensures Produced(plan.calls, CATALOG) == {"x"} == Effective(plan, CATALOG) && KnownKinds(CATALOG) == {"x"}
  {
    ToolsFound();
    CallsOf(plan);
    assert TOOL_A in CATALOG.tools;
  }

  lemma NothingReferred(plan: Plan)
    requires plan in {FIRST, SECOND, ALTERED}
    ensures forall i | 0 <= i < |plan.calls| :: GoodCall(plan.calls, i, CATALOG)
    ensures forall c | c in plan.calls && Knows(CATALOG, c.tool) ::
              ArgsFit(c, ToolOf(CATALOG, c.tool), CATALOG) && RefersWhereItMust(c, ToolOf(CATALOG, c.tool).argContracts)
    ensures AllKnown(plan.calls, CATALOG)
  {
    hide AllowedReference, FindReferences, ArgsFit, RefersWhereItMust, Knows, ToolOf;
    CallsOf(plan);
    forall c | c in plan.calls
      ensures Knows(CATALOG, c.tool) && ArgsFit(c, ToolOf(CATALOG, c.tool), CATALOG) && RefersWhereItMust(c, ToolOf(CATALOG, c.tool).argContracts)
    {
      Harmless(c);
    }
    forall i | 0 <= i < |plan.calls| ensures GoodCall(plan.calls, i, CATALOG) {
      assert plan.calls[i] in plan.calls;
      Harmless(plan.calls[i]);
    }
  }

  lemma ContractIsMet(plan: Plan)
    requires plan in {FIRST, SECOND, ALTERED}
    ensures MeetsContract(plan, CATALOG, {"x"})
  {
    assert TOOL_A in CATALOG.tools && "x" in TOOL_A.evidenceKinds;
  }

  lemma PlansAccepted(plan: Plan)
    requires plan in {FIRST, SECOND, ALTERED}
    ensures DecisionErrors(ToolPlan(plan), CATALOG) == [] && Effective(plan, CATALOG) == {"x"}
    ensures CatalogErrors(plan, CATALOG, {"x"}) == []
  {
    hide CatalogErrors, Produced, KnownKinds, Effective, GoodArg, GoodCall, ArgsFit, RefersWhereItMust, MeetsContract, AllKnown;
    ToolsFound();
    CallsOf(plan);
    KindsProduced(plan);
    ContractIsMet(plan);
    NothingReferred(plan);
    PlanAccepted(plan, CATALOG, {"x"});
    assert forall kind | kind in {"x"} :: kind in Produced(plan.calls, CATALOG);
  }

  /** Python takes the altered call for the first one; the canonical texts differ. */
  lemma TrueForOne()
    ensures SameCallInPython(CALL_A, CALL_A) && SameCallInPython(CALL_TRUE, CALL_A)
    ensures !SameArgs(CALL_TRUE, CALL_A)
    ensures Fingerprint("a", CALL_TRUE.args, CONTEXT) != Fingerprint("a", CALL_A.args, CONTEXT)
  {
    OneField("limit", Json.Bool(true));
    OneField("limit", Json.Num(1));
    FingerprintIdentifies("a", CALL_TRUE.args, CONTEXT, "a", CALL_A.args, CONTEXT);
  }

  lemma OneField(key: string, v: Json.Value)
    ensures Json.Canon(Json.Obj([Json.Field(key, v)])) == Json.Obj([Json.Field(key, Json.Canon(v))])
    ensures AsNumbers(Json.Obj([Json.Field(key, v)])) == Json.Obj([Json.Field(key, AsNumbers(v))])
  {
    hide Json.Canon, AsNumbers;
    CanonOfOne([Json.Field(key, v)]);
    NumbersOfOne([Json.Field(key, v)]);
  }

  lemma CanonOfOne(fields: seq<Json.Field>)
    requires |fields| == 1
    ensures Json.Canon(Json.Obj(fields)) == Json.Obj([Json.Field(fields[0].key, Json.Canon(fields[0].value))])
  {
    CanonMapped(fields);
    var canonical := MapFields(Json.Canon, fields);
    assert canonical[1..] == [];
    assert Json.SortFields(canonical[1..]) == [];
    assert Json.SortFields(canonical) == [canonical[0]];
  }

  lemma NumbersOfOne(fields: seq<Json.Field>)
    requires |fields| == 1
    ensures AsNumbers(Json.Obj(fields)) == Json.Obj([Json.Field(fields[0].key, AsNumbers(fields[0].value))])
  {
    NumbersMapped(fields);
    assert AsNumbers(Json.Obj(fields)) == Json.Obj(NumberFields(fields));
  }

  lemma ReplanFits(plan: Plan, feedback: Feedback)
    requires plan in {SECOND, ALTERED}
    requires SetOf(feedback.missing) == {"x"} && feedback.remainingToolBudget == 1
    ensures Accepted(ToolPlan(plan), Some((FIRST, feedback)), CATALOG)
  {
    hide DecisionErrors, SetOf, Produced, Effective, CatalogErrors, EqualInPython;
    PlansAccepted(plan);
    ToolsFound();
    assert Appended(plan, FIRST) == [CALL_B];
    assert Produced([CALL_B], CATALOG) == {"x"} by { OnlyB(); }
    assert HasPrefix(plan, FIRST) by { TrueForOne(); }
    assert CallTools([CALL_B]) * CallTools(FIRST.calls) == {};
    assert TOOL_B.evidenceKinds * SetOf(feedback.missing) == {"x"};
  }

  lemma OnlyB()
    ensures Produced([CALL_B], CATALOG) == {"x"}
  {
    ToolsFound();
    assert CALL_B in [CALL_B];
  }

  lemma OnlyBIsUnused()
    ensures CallTools(FIRST.calls) == {"a"}
    ensures forall d :: d in Unused(CATALOG.tools, {"a"}) <==> d == TOOL_B
  {
    hide Unused;
    assert CALL_A in FIRST.calls;
  }

  lemma XIsRecoverable()
    ensures RecoverableMissing(["x"], {"x"}, FIRST.calls, CATALOG) == Some(["x"])
  {
    hide Unused, CallTools;
    OnlyBIsUnused();
    assert Dedupe(["x"]) == ["x"] by { assert ["x"][..0] == []; }
    assert TOOL_B in Unused(CATALOG.tools, CallTools(FIRST.calls)) && "x" in TOOL_B.evidenceKinds;
  }

  /** One more call is enough to find "x" elsewhere. */
  lemma OneCallSuffices()
    ensures RecoverableMissing(["x"], {"x"}, FIRST.calls, CATALOG) == Some(["x"])
    ensures MinimumRecoveryToolCalls(FIRST.calls, CATALOG, SetOf(["x"])) == Some(1)
  {
    hide Unused, CallTools, RecoverableMissing, MinimumRecoveryToolCalls;
    ToolsFound();
    OnlyBIsUnused();
    XIsRecoverable();
    RecoverableHasCover(["x"], {"x"}, FIRST.calls, CATALOG);
    assert RecoveryCover({TOOL_B}, FIRST.calls, CATALOG, SetOf(["x"]));
    MinimumIsLeast(FIRST.calls, CATALOG, SetOf(["x"]), {TOOL_B});
  }

  // ------------------------------------------------------------------ the run

  lemma OneMore(s: State, worlds: seq<World>, t: State, node: Node, w: World)
    requires Run(s, worlds, CONFIG) == Next(t, node)
    ensures Run(s, worlds + [w], CONFIG) == StepFrom(t, node, w, CONFIG)
  {
    assert (worlds + [w])[..|worlds|] == worlds;
  }

  /** The state in which the plan waits to be run. */
  function Proposed(s: State, plan: Plan): State { Planned(s, plan, {"x"}) }

  function Planned(s: State, plan: Plan, effective: set<string>): State {
    var s1 := s.(budget := s.budget.(controllerUsed := s.budget.controllerUsed + 1));
    s1.(controllerResult := Some(Decided(ToolPlan(plan))), decision := Some(ToolPlan(plan)), reason := "decision accepted", status := Fine,
        effective := effective, plan := Some(plan))
  }

  /** What the controller needs to have its plan accepted. */
  predicate Ready(s: State, plan: Plan) {
    && s.initialized && s.budget.limits == CONFIG.limits && s.budget.controllerUsed < 2
    && ((plan == FIRST && s.feedback.None?)
        || (plan in {SECOND, ALTERED} && s.baseline == Some(FIRST) && s.feedback.Some?
            && SetOf(s.feedback.value.missing) == {"x"} && s.feedback.value.remainingToolBudget == 1))
  }

  lemma FirstReplyDecides(plan: Plan, recovery: Decisions.Recovery)
    requires Accepted(ToolPlan(plan), recovery, CATALOG)
    ensures Decide(Proposing(plan).replies, recovery, CATALOG) == Decided(ToolPlan(plan))
  {
    hide Accepted;
  }

  function RecoveryOf(feedback: Option<Feedback>, baseline: Option<Plan>): Decisions.Recovery {
    if feedback.Some? && baseline.Some? then Some((baseline.value, feedback.value)) else None
  }

  lemma ReadyDecides(s: State, plan: Plan)
    requires Ready(s, plan)
    ensures Decide(Proposing(plan).replies, RecoveryOf(s.feedback, s.baseline), CATALOG) == Decided(ToolPlan(plan))
  {
    hide DecisionErrors, Effective, SetOf, ReplanAccepted, Decide, EqualInPython;
    PlansAccepted(plan);
    if s.feedback.Some? { ReplanFits(plan, s.feedback.value); }
    FirstReplyDecides(plan, RecoveryOf(s.feedback, s.baseline));
  }

  lemma ControlTakes(s: State, plan: Plan, w: World, catalog: Catalog)
    requires Decide(w.replies, RecoveryOf(s.feedback, s.baseline), catalog) == Decided(ToolPlan(plan))
    ensures Control(s, w, catalog) == Planned(s, plan, Effective(plan, catalog))
  {
    hide Effective, Decide;
    var recovery: Decisions.Recovery :=
      if s.feedback.Some? && s.baseline.Some? then Some((s.baseline.value, s.feedback.value)) else None;
    assert Decide(w.replies, recovery, catalog) == Decided(ToolPlan(plan));
  }

  lemma Propose(s: State, plan: Plan)
    requires Ready(s, plan)
    ensures Control(s, Proposing(plan), CATALOG) == Proposed(s, plan)
  {
    hide *;
    ReadyPlans(s, plan);
    KindsProduced(plan);
    AsProposed(s, plan);
    ReadyDecides(s, plan);
    ControlTakes(s, plan, Proposing(plan), CATALOG);
  }

  lemma AsProposed(s: State, plan: Plan)
    ensures Proposed(s, plan) == Planned(s, plan, {"x"})
  {
    hide Planned;
  }

  lemma ReadyPlans(s: State, plan: Plan)
    requires Ready(s, plan)
    ensures plan in {FIRST, SECOND, ALTERED}
  {}

  lemma ThreeNodes(s: State, plan: Plan)
    requires Ready(s, plan)
    ensures var t, w := Proposed(s, plan), Proposing(plan);
      && StepFrom(s, Controller, w, CONFIG) == Next(t, DecisionValidate)
      && StepFrom(t, DecisionValidate, w, CONFIG) == Next(t, Validate)
      && StepFrom(t, Validate, w, CONFIG) == Next(t, ToolCalls)
  {
    hide DecisionErrors, CatalogErrors, Effective, SetOf, Control;
    Propose(s, plan);
    PlansAccepted(plan);
  }

  lemma ToTools(s: State, worlds: seq<World>, t: State, plan: Plan) returns (more: seq<World>)
    requires Run(s, worlds, CONFIG) == Next(t, Controller) && Ready(t, plan)
    ensures Run(s, more, CONFIG) == Next(Proposed(t, plan), ToolCalls)
  {
    hide Run, StepFrom, Ready, Proposed;
    var w := Proposing(plan);
    ThreeNodes(t, plan);
    OneMore(s, worlds, t, Controller, w);
    OneMore(s, worlds + [w], Proposed(t, plan), DecisionValidate, w);
    OneMore(s, worlds + [w] + [w], Proposed(t, plan), Validate, w);
    more := worlds + [w] + [w] + [w];
  }

  lemma NoReferenceIn(v: Json.Value, results: Results)
    requires v.Num? || v.Bool?
    ensures ResolveFields([Json.Field("limit", v)], results) == ([Json.Field("limit", v)], [])
  {
    var fields := [Json.Field("limit", v)];
    ResolveMapped(fields, results);
    FieldsResolve(fields, results);
    assert forall f | f in fields :: Resolves(f.value, results);
    assert ResolveFields(fields, results).0 == fields;
  }

  /** The run of CALL_A when nothing ran before. */
  lemma FirstCallRuns(t: ToolRun, w: World)
    requires t.results == [] && t.records == [] && t.errors == [] && t.failure.None? && t.byId == map[] && t.cache == map[] && t.used == 0
    requires w == Proposing(FIRST)
    ensures var r := RunCalls(t, FIRST.calls, FIRST.context, CATALOG, 2, w.calls);
      && r.errors == [] && r.failure.None? && r.used == 1 && |r.results| == 1 == |r.records|
      && r.results[0].callId == "1" == r.records[0].callId && r.cache.Keys == {Fingerprint("a", CALL_A.args, CONTEXT)}
  {
    hide Fingerprint;
    ToolsFound();
    NoReferenceIn(CALL_A.args[0].value, map[]);
    assert FIRST.calls[..0] == [];
    assert RunCalls(t, [], FIRST.context, CATALOG, 2, w.calls) == t;
  }

  /** From the tools node of the first attempt to its end. */
  predicate Ran(s: State) {
    && s.initialized && s.budget == Budget(CONFIG.limits, 0, 1, 1, 0) && s.attemptIndex == 0
    && s.decision == Some(ToolPlan(FIRST)) && s.plan == Some(FIRST) && s.effective == {"x"}
    && |s.results| == 1 == |s.records| && s.results[0].callId == s.records[0].callId
    && s.feedback.None? && s.baseline.None? && s.cache.Keys == {Fingerprint("a", CALL_A.args, CONTEXT)}
  }

  lemma FirstTools(s: State)
    requires s.initialized && s.budget == Budget(CONFIG.limits, 0, 0, 1, 0) && s.attemptIndex == 0
    requires s.decision == Some(ToolPlan(FIRST)) && s.plan == Some(FIRST) && s.effective == {"x"} && s.status == Fine
    requires s.results == [] && s.records == [] && s.errors == [] && s.cache == map[] && s.attempts == []
    requires s.feedback.None? && s.baseline.None?
    ensures var t := RunTools(s, Proposing(FIRST), CONFIG);
      && StepFrom(s, ToolCalls, Proposing(FIRST), CONFIG) == Next(t, Evidence)
      && Ran(t) && t.attempts == [] && t.status == Fine
  {
    hide RunCalls, Fingerprint, IsContextPlan;
    FirstCallRuns(PassOf(s), Proposing(FIRST));
    FirstIsEvidence();
  }

  lemma FirstIsEvidence()
    ensures !IsContextPlan(FIRST, CATALOG)
  {
    ToolsFound();
    assert CALL_A in FIRST.calls;
  }

  lemma EvidenceIsMissing(s: State)
    requires Ran(s) && s.attempts == [] && s.status == Fine
    ensures var t := BuildEvidence(s, Proposing(FIRST));
      StepFrom(s, Evidence, Proposing(FIRST), CONFIG) == Next(t, AttemptFinalize) && Ran(t) && t.attempts == [] && t.missing == Some(["x"])
  {
    hide Fingerprint;
  }

  lemma FirstFinalized(s: State) returns (t: State)
    requires Ran(s) && s.attempts == [] && s.missing == Some(["x"])
    ensures StepFrom(s, AttemptFinalize, Proposing(FIRST), CONFIG) == Next(t, Recovery)
    ensures Ran(t) && |t.attempts| == 1 && t.missing == Some(["x"])
  {
    hide OutcomeOf, Fingerprint;
    SummariesExist(s.results, s.records, 1);
    assert s.results[..1] == s.results;
    t := FinalizeAttempt(s).state;
  }

  lemma RecoverStarts(s: State)
    requires Ran(s) && s.missing == Some(["x"])
    ensures Recover(s, Proposing(FIRST), CATALOG) == Next(StartReplan(s.(recoveryAction := Some(Terminal)), FIRST, ["x"], 1), AttemptReset)
  {
    hide RecoverableMissing, MinimumRecoveryToolCalls, SetOf, Fingerprint, StartReplan, GiveUp, Fail;
    OneCallSuffices();
  }

  lemma ReplanStarts(s: State) returns (t: State)
    requires Ran(s) && |s.attempts| == 1 && s.missing == Some(["x"])
    ensures StepFrom(s, Recovery, Proposing(FIRST), CONFIG) == Next(t, AttemptReset)
    ensures t.initialized && |t.attempts| == 1 && t.attemptIndex == 0 && t.recoveryAction == Some(Replan)
    ensures t.budget == Budget(CONFIG.limits, 1, 1, 1, 0) && t.baseline == Some(FIRST)
    ensures t.feedback.Some? && t.feedback.value.missing == ["x"] && t.feedback.value.remainingToolBudget == 1
    ensures t.cache == s.cache
  {
    hide Recover, FinishedCalls, Fingerprint;
    RecoverStarts(s);
    t := StartReplan(s.(recoveryAction := Some(Terminal)), FIRST, ["x"], 1);
  }

  lemma SecondAttempt(s: State)
    requires s.initialized && |s.attempts| == 1 && s.attemptIndex == 0 && s.recoveryAction == Some(Replan)
    requires s.budget == Budget(CONFIG.limits, 1, 1, 1, 0) && s.baseline == Some(FIRST)
    requires s.feedback.Some? && s.feedback.value.missing == ["x"] && s.feedback.value.remainingToolBudget == 1
    ensures StepFrom(s, AttemptReset, Proposing(FIRST), CONFIG) == Next(ResetAttempt(s), Controller)
    ensures Ready(ResetAttempt(s), SECOND) && Ready(ResetAttempt(s), ALTERED)
  {
    assert SetOf(["x"]) == {"x"};
  }

  /** A replan that reaches the tools node exists. */
  lemma AReplanReachesItsTools(s: State, plan: Plan) returns (worlds: seq<World>, t: State)
    requires Fresh(s) && plan in {SECOND, ALTERED}
    ensures Run(s, worlds, CONFIG) == Next(t, ToolCalls)
    ensures t.attemptIndex == 1 && t.plan == Some(plan) && t.baseline == Some(FIRST)
    ensures t.budget == Budget(CONFIG.limits, 1, 1, 2, 0) && t.cache.Keys == {Fingerprint("a", CALL_A.args, CONTEXT)}
    ensures t.results == [] && t.records == [] && t.errors == []
  {
    hide StepFrom, Run, RunTools, Fingerprint;
    var w := Proposing(FIRST);
    var s1 := InitRun(s, CONFIG.limits);
    assert Run(s, [w], CONFIG) == Next(s1, Controller) by { Started(s); }
    worlds := ToTools(s, [w], s1, FIRST);
    var s2 := Proposed(s1, FIRST);
    FirstTools(s2);
    OneMore(s, worlds, s2, ToolCalls, w);
    var s3 := RunTools(s2, w, CONFIG);
    EvidenceIsMissing(s3);
    OneMore(s, worlds + [w], s3, Evidence, w);
    var s4 := BuildEvidence(s3, w);
    var s5 := FirstFinalized(s4);
    OneMore(s, worlds + [w] + [w], s4, AttemptFinalize, w);
    var s6 := ReplanStarts(s5);
    OneMore(s, worlds + [w] + [w] + [w], s5, Recovery, w);
    SecondAttempt(s6);
    OneMore(s, worlds + [w] + [w] + [w] + [w], s6, AttemptReset, w);
    worlds := ToTools(s, worlds + [w] + [w] + [w] + [w] + [w], ResetAttempt(s6), plan);
    t := Proposed(ResetAttempt(s6), plan);
  }

  lemma Started(s: State)
    requires Fresh(s)
    ensures Run(s, [Proposing(FIRST)], CONFIG) == Next(InitRun(s, CONFIG.limits), Controller)
  {
    OneMore(s, [], s, RunInit, Proposing(FIRST));
    assert [] + [Proposing(FIRST)] == [Proposing(FIRST)];
  }

  // ------------------------------------------------------------------ the altered call is run again

  lemma AlteredEnters(t: ToolRun, w: World)
    requires t.errors == [] && t.outcomes == [] && t.failure.None? && t.byId == map[] && t.used == 1
    requires t.cache.Keys == {Fingerprint("a", CALL_A.args, CONTEXT)}
    requires w == Proposing(ALTERED)
    ensures var r := RunCall(t, CALL_TRUE, CONTEXT, CATALOG, 2, w.calls(0));
      && r.outcomes == [Entered] && r.used == 2 && r.failure.None?
      && r.entered == t.entered + [Fingerprint("a", CALL_TRUE.args, CONTEXT)]
      && r.cache.Keys == t.cache.Keys + {Fingerprint("a", CALL_TRUE.args, CONTEXT)}
  {
    hide Fingerprint;
    ToolsFound();
    NoReferenceIn(CALL_TRUE.args[0].value, map[]);
    TrueForOne();
  }

  lemma AppendedIsStopped(t: ToolRun, w: World)
    requires t.outcomes == [Entered] && t.used == 2 && t.failure.None? && w == Proposing(ALTERED)
    requires t.cache.Keys == {Fingerprint("a", CALL_A.args, CONTEXT), Fingerprint("a", CALL_TRUE.args, CONTEXT)}
    ensures var r := RunCall(t, CALL_B, CONTEXT, CATALOG, 2, w.calls(1));
      r.outcomes == [Entered, Stopped(ExecutionBudgetError)] && r.used == 2 && r.entered == t.entered
  {
    hide Fingerprint;
    ToolsFound();
    FingerprintIdentifies("b", [], CONTEXT, "a", CALL_A.args, CONTEXT);
    FingerprintIdentifies("b", [], CONTEXT, "a", CALL_TRUE.args, CONTEXT);
  }

  lemma AlteredPass(t: ToolRun, w: World)
    requires t.errors == [] && t.outcomes == [] && t.failure.None? && t.byId == map[] && t.used == 1
    requires t.cache.Keys == {Fingerprint("a", CALL_A.args, CONTEXT)}
    requires w == Proposing(ALTERED)
    ensures var r := RunCalls(t, ALTERED.calls, CONTEXT, CATALOG, 2, w.calls);
      r.outcomes == [Entered, Stopped(ExecutionBudgetError)] && r.used == 2 && |r.entered| == |t.entered| + 1
  {
    hide Fingerprint, RunCall;
    AlteredEnters(t, w);
    assert ALTERED.calls[..1] == [CALL_TRUE] && [CALL_TRUE][..0] == [];
    assert RunCalls(t, [], CONTEXT, CATALOG, 2, w.calls) == t;
    var before := RunCall(t, CALL_TRUE, CONTEXT, CATALOG, 2, w.calls(0));
    assert RunCalls(t, ALTERED.calls[..1], CONTEXT, CATALOG, 2, w.calls) == before;
    AppendedIsStopped(before, w);
  }

  lemma NotAllSame(kept: seq<ToolCall>, base: seq<ToolCall>)
    requires kept != [] && base != [] && !SameArgs(kept[0], base[0])
    ensures !AllSameArgs(kept, base)
  {
    hide SameArgs;
  }

  /** Accepting a replan is not enough for it to replay: after true was written for 1 the kept call enters
      its handler a second time, and the appended call finds the tool budget used up. */
  lemma AnAcceptedReplanDoesNotReplay(s: State) returns (worlds: seq<World>, t: State)
    requires Fresh(s)
    ensures Run(s, worlds, CONFIG) == Next(t, ToolCalls) && t.attemptIndex == 1
    ensures t.plan == Some(ALTERED) && t.baseline == Some(FIRST) && !KeepsArguments(t)
    ensures var r := Pass(t, Proposing(ALTERED), CATALOG);
      r.outcomes == [Entered, Stopped(ExecutionBudgetError)] && |r.entered| == |t.entered| + 1
    ensures !ReplanReplays(t, Proposing(ALTERED), CATALOG)
  {
    hide Run, Fingerprint, RunCalls, SameArgs, Fresh;
    worlds, t := AReplanReachesItsTools(s, ALTERED);
    AlteredPass(PassOf(t), Proposing(ALTERED));
    TrueForOne();
    assert Kept(ALTERED, FIRST) == [CALL_TRUE] && [CALL_TRUE][0] == CALL_TRUE && FIRST.calls[0] == CALL_A;
    assert !KeepsArguments(t) by { NotAllSame([CALL_TRUE], FIRST.calls); }
    assert Stopped(ExecutionBudgetError) in Pass(t, Proposing(ALTERED), CATALOG).outcomes;
  }
}
