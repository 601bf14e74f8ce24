/** The controller's decision: which ones are accepted, on a first attempt and on a replan. */
module Decisions {
  import opened Wrappers
  import opened Plans
  import opened References
  import opened PlanContracts
  import opened RecoveryPlanning
  import opened PythonValues
  import Json

  /** `metricsCovered`: the conversation states every statistic the query names. The same query and
      conversation are read by every check of one decision. */
  datatype Decision =
    | DirectAnswer(answer: string, metricsCovered: bool)
    | Clarification(question: string, missingFields: set<string>)
    | ContextMissing(why: string)
    | ToolPlan(plan: Plan)
    | CapabilityBoundary(why: string)

  // ------------------------------------------------------------------ evidence a plan must deliver

  /** What the plan asks for, what its contract asks for, and what its tools always owe. */
  function Effective(plan: Plan, catalog: Catalog): set<string> {
    SetOf(plan.requiredEvidence)
      + (if plan.outputContract in CONTRACTS then CONTRACTS[plan.outputContract].requiredEvidence else {})
      + (set c, kind | c in plan.calls && Knows(catalog, c.tool) && kind in ToolOf(catalog, c.tool).mandatoryEvidence :: kind)
  }

  function Destinations(plan: Plan, catalog: Catalog): set<Destination> {
    set c | c in plan.calls && Knows(catalog, c.tool) :: ToolOf(catalog, c.tool).destination
  }

  // ------------------------------------------------------------------ accepting a decision

  function DecisionErrors(decision: Decision, catalog: Catalog): seq<PlanError> {
    match decision
    case DirectAnswer(_, covered) => When(!covered, DirectAnswerIncomplete)
    case Clarification(_, fields) => When(fields == {}, NoMissingField)
    case ToolPlan(plan) =>
      if plan.calls == [] then [EmptyPlan] else
        var destinations := Destinations(plan, catalog);
        var routing := if ToControllerContext !in destinations then [] else
          When(destinations != {ToControllerContext}, MixedDestinations)
            + When(plan.requiredEvidence != [], ContextPlanWantsEvidence);
        if routing != [] then routing else CatalogErrors(plan, catalog, Effective(plan, catalog))
    case _ => []
  }

  method ValidateControllerDecision(decision: Decision, catalog: Catalog) returns (errors: seq<PlanError>)
    ensures errors == DecisionErrors(decision, catalog)
  {
    errors := [];
    match decision
    case DirectAnswer(_, covered) => if !covered { errors := [DirectAnswerIncomplete]; }
    case Clarification(_, fields) => if fields == {} { errors := [NoMissingField]; }
    case ToolPlan(plan) =>
      if plan.calls == [] { return [EmptyPlan]; }
      var destinations := Destinations(plan, catalog);
      if ToControllerContext in destinations {
        if destinations != {ToControllerContext} { errors := errors + [MixedDestinations]; }
        if plan.requiredEvidence != [] { errors := errors + [ContextPlanWantsEvidence]; }
        if errors != [] { return; }
      }
      errors := ValidatePlanAgainstCatalog(plan, catalog, Effective(plan, catalog));
    case _ =>
  }

  /** What a plan must deliver: what it says, what its contract says, and what each of its tools owes. */
  lemma EffectiveTells(plan: Plan, catalog: Catalog, kind: string)
    ensures kind in Effective(plan, catalog) <==>
      || kind in plan.requiredEvidence
      || (plan.outputContract in CONTRACTS && kind in CONTRACTS[plan.outputContract].requiredEvidence)
      || exists c :: c in plan.calls && Knows(catalog, c.tool) && kind in ToolOf(catalog, c.tool).mandatoryEvidence
  {
    hide Knows, ToolOf;
  }

  predicate GoesTo(call: ToolCall, catalog: Catalog, destination: Destination) {
    Knows(catalog, call.tool) && ToolOf(catalog, call.tool).destination == destination
  }

  /** One tool that feeds the controller makes it a plan for the controller: no other kind beside it, and no
      evidence asked for. */
  ghost predicate RoutedWhole(plan: Plan, catalog: Catalog) {
    (exists c :: c in plan.calls && GoesTo(c, catalog, ToControllerContext)) ==>
      plan.requiredEvidence == [] && !exists c :: c in plan.calls && GoesTo(c, catalog, ToEvidence)
  }

  lemma DestinationsAre(plan: Plan, catalog: Catalog)
    ensures forall d :: d in Destinations(plan, catalog) <==> exists c :: c in plan.calls && GoesTo(c, catalog, d)
  {
    hide Knows, ToolOf;
  }

  lemma OnlyOneDestination(destinations: set<Destination>)
    requires ToControllerContext in destinations
    ensures destinations == {ToControllerContext} <==> ToEvidence !in destinations
  {
    if ToEvidence !in destinations {
      forall d | d in destinations ensures d == ToControllerContext {}
    }
  }

  /** When each decision is accepted. */
  lemma DecisionAccepted(decision: Decision, catalog: Catalog)
    ensures DecisionErrors(decision, catalog) == [] <==>
      match decision
      case DirectAnswer(_, metricsCovered) => metricsCovered
      case Clarification(_, fields) => exists f :: f in fields
      case ContextMissing(_) => true
      case CapabilityBoundary(_) => true
      case ToolPlan(plan) =>
        plan.calls != [] && RoutedWhole(plan, catalog) && CatalogErrors(plan, catalog, Effective(plan, catalog)) == []
  {
    match decision
    case Clarification(_, fields) => if fields != {} { var f :| f in fields; }
    case ToolPlan(plan) =>
      hide CatalogErrors, Effective, GoesTo, Destinations;
      DestinationsAre(plan, catalog);
      if ToControllerContext in Destinations(plan, catalog) { OnlyOneDestination(Destinations(plan, catalog)); }
    case _ =>
  }

  predicate IsContextPlan(plan: Plan, catalog: Catalog) {
    plan.calls != [] && forall c | c in plan.calls :: Knows(catalog, c.tool) && ToolOf(catalog, c.tool).destination.ToControllerContext?
  }

  lemma AcceptedPlanRouting(plan: Plan, catalog: Catalog)
    requires DecisionErrors(ToolPlan(plan), catalog) == []
    ensures plan.calls != [] && CatalogErrors(plan, catalog, Effective(plan, catalog)) == []
    ensures ToControllerContext in Destinations(plan, catalog) ==>
              Destinations(plan, catalog) == {ToControllerContext} && plan.requiredEvidence == []
  {
    hide CatalogErrors, Destinations, Effective;
  }

  lemma DestinationOfCall(plan: Plan, catalog: Catalog, call: ToolCall)
    requires call in plan.calls && Knows(catalog, call.tool)
    ensures ToolOf(catalog, call.tool).destination in Destinations(plan, catalog)
  {}

  /** An accepted plan goes to one place only: all its tools feed the controller, or none does. */
  lemma AcceptedPlanHasOneDestination(plan: Plan, catalog: Catalog)
    requires DecisionErrors(ToolPlan(plan), catalog) == []
    ensures plan.calls != []
    ensures Executable(plan, catalog) && CatalogErrors(plan, catalog, Effective(plan, catalog)) == []
    ensures Effective(plan, catalog) <= Produced(plan.calls, catalog)
    ensures !IsContextPlan(plan, catalog) ==> forall c | c in plan.calls :: ToolOf(catalog, c.tool).destination.ToEvidence?
    ensures IsContextPlan(plan, catalog) ==> plan.requiredEvidence == []
  {
    hide DecisionErrors, CatalogErrors, Knows, ToolOf, Produced, Effective, Destinations, DistinctIds, Targets;
    AcceptedPlanRouting(plan, catalog);
    ValidPlanIsExecutable(plan, catalog, Effective(plan, catalog));
    forall c | c in plan.calls
      ensures Knows(catalog, c.tool) && ToolOf(catalog, c.tool).destination in Destinations(plan, catalog)
    {
      DestinationOfCall(plan, catalog, c);
    }
    assert plan.calls[0] in plan.calls;
  }

  // ------------------------------------------------------------------ accepting a replan

  datatype Feedback = Feedback(missing: seq<string>, executed: seq<(string, string)>, remainingToolBudget: nat)

  datatype PlanPart = Intent | Goal | OutputContract | Context | PlanConstraints

  datatype ReplanError =
    | NotAPlan
    | Changed(part: PlanPart)
    | EvidenceChanged
    | PrefixChanged
    | NothingAppended
    | OverBudget
    | IdsReused
    | ToolsRepeated(tools: set<string>)
    | IrrelevantTools(tools: set<string>)
    | Uncovered(kinds: set<string>)

  predicate SamePart(part: PlanPart, a: Plan, b: Plan) {
    match part
    case Intent => a.intent == b.intent
    case Goal => a.goal == b.goal
    case OutputContract => a.outputContract == b.outputContract
    case Context => a.context == b.context
    case PlanConstraints => a.constraints == b.constraints
  }

  /** What the candidate has beyond the length of the baseline's calls. */
  function Appended(candidate: Plan, baseline: Plan): seq<ToolCall> {
    if |candidate.calls| <= |baseline.calls| then [] else candidate.calls[|baseline.calls|..]
  }

  /** Two calls are equal as the code compares them: their arguments are Python dictionaries. */
  predicate SameCallInPython(a: ToolCall, b: ToolCall) {
    a.id == b.id && a.tool == b.tool && EqualInPython(Json.Obj(a.args), Json.Obj(b.args))
  }

  predicate HasPrefix(candidate: Plan, baseline: Plan) {
    |baseline.calls| <= |candidate.calls|
    && forall i | 0 <= i < |baseline.calls| :: SameCallInPython(candidate.calls[i], baseline.calls[i])
  }

  /** The candidate's own version of the baseline's calls. */
  function Kept(candidate: Plan, baseline: Plan): seq<ToolCall> {
    if |candidate.calls| <= |baseline.calls| then candidate.calls else candidate.calls[..|baseline.calls|]
  }

  function IrrelevantOf(appended: seq<ToolCall>, missing: set<string>, catalog: Catalog): set<string> {
    set c | c in appended && Knows(catalog, c.tool) && ToolOf(catalog, c.tool).evidenceKinds * missing == {} :: c.tool
  }

  /** Exactly when each error is due: about what the candidate keeps, ... */
  ghost predicate KeptFault(e: ReplanError, candidate: Plan, baseline: Plan) {
    match e
    case Changed(part) => !SamePart(part, candidate, baseline)
    case EvidenceChanged => SetOf(candidate.requiredEvidence) != SetOf(baseline.requiredEvidence)
    case PrefixChanged => !HasPrefix(candidate, baseline)
    case _ => false
  }

  /** ... and about what it appends. */
  ghost predicate AppendedFault(e: ReplanError, appended: seq<ToolCall>, baseline: Plan, feedback: Feedback, catalog: Catalog) {
    match e
    case NothingAppended => appended == []
    case OverBudget => |appended| > feedback.remainingToolBudget
    case IdsReused => exists c :: c in appended && c.id in CallIds(baseline.calls)
    case ToolsRepeated(tools) => tools == CallTools(appended) * CallTools(baseline.calls) && tools != {}
    case IrrelevantTools(tools) => tools == IrrelevantOf(appended, SetOf(feedback.missing), catalog) && tools != {}
    case Uncovered(kinds) => kinds == SetOf(feedback.missing) - Produced(appended, catalog) && kinds != {}
    case _ => false
  }

  ghost predicate ReplanFault(e: ReplanError, decision: Decision, baseline: Plan, feedback: Feedback, catalog: Catalog) {
    if !decision.ToolPlan? then e == NotAPlan else
      KeptFault(e, decision.plan, baseline)
      || AppendedFault(e, Appended(decision.plan, baseline), baseline, feedback, catalog)
  }

  method ValidateParts(candidate: Plan, baseline: Plan) returns (errors: seq<ReplanError>)
    ensures forall part :: Changed(part) in errors <==> !SamePart(part, candidate, baseline)
    ensures forall e | e in errors :: e.Changed?
  {
    errors := [];
    if candidate.intent != baseline.intent { errors := errors + [Changed(Intent)]; }
    if candidate.goal != baseline.goal { errors := errors + [Changed(Goal)]; }
    if candidate.outputContract != baseline.outputContract { errors := errors + [Changed(OutputContract)]; }
    if candidate.context != baseline.context { errors := errors + [Changed(Context)]; }
    if candidate.constraints != baseline.constraints { errors := errors + [Changed(PlanConstraints)]; }
  }

  method ValidateKept(candidate: Plan, baseline: Plan) returns (errors: seq<ReplanError>)
    ensures forall e :: e in errors <==> KeptFault(e, candidate, baseline)
  {
    hide SetOf, HasPrefix, SamePart;
    errors := ValidateParts(candidate, baseline);
    if SetOf(candidate.requiredEvidence) != SetOf(baseline.requiredEvidence) { errors := errors + [EvidenceChanged]; }
    if !HasPrefix(candidate, baseline) { errors := errors + [PrefixChanged]; }
  }

  method ValidateAppended(appended: seq<ToolCall>, baseline: Plan, feedback: Feedback, catalog: Catalog)
    returns (errors: seq<ReplanError>)
    ensures forall e :: e in errors <==> AppendedFault(e, appended, baseline, feedback, catalog)
  {
    hide SetOf, CallIds, CallTools, Produced, IrrelevantOf;
    errors := [];
    if appended == [] { errors := errors + [NothingAppended]; }
    if |appended| > feedback.remainingToolBudget { errors := errors + [OverBudget]; }
    var oldIds := CallIds(baseline.calls);
    if exists c :: c in appended && c.id in oldIds { errors := errors + [IdsReused]; }
    var repeated := CallTools(appended) * CallTools(baseline.calls);
    if repeated != {} { errors := errors + [ToolsRepeated(repeated)]; }
    var irrelevant := IrrelevantOf(appended, SetOf(feedback.missing), catalog);
    if irrelevant != {} { errors := errors + [IrrelevantTools(irrelevant)]; }
    var uncovered := SetOf(feedback.missing) - Produced(appended, catalog);
    if uncovered != {} { errors := errors + [Uncovered(uncovered)]; }
  }

  method ValidateReplanDecision(decision: Decision, baseline: Plan, feedback: Feedback, catalog: Catalog)
    returns (errors: seq<ReplanError>)
    ensures forall e :: e in errors <==> ReplanFault(e, decision, baseline, feedback, catalog)
  {
    hide KeptFault, AppendedFault, Appended;
    if !decision.ToolPlan? { return [NotAPlan]; }
    errors := ValidateKept(decision.plan, baseline);
    var more := ValidateAppended(Appended(decision.plan, baseline), baseline, feedback, catalog);
    errors := errors + more;
  }

  ghost predicate ReplanAccepted(decision: Decision, baseline: Plan, feedback: Feedback, catalog: Catalog) {
    forall e :: !ReplanFault(e, decision, baseline, feedback, catalog)
  }

  /** An accepted replan is the baseline's calls, with arguments equal in Python, and calls of unused tools
      appended, each producing something that was missing and all of it together, within the remaining
      budget. */
  lemma AcceptedReplanExtends(decision: Decision, baseline: Plan, feedback: Feedback, catalog: Catalog)
    requires ReplanAccepted(decision, baseline, feedback, catalog)
    ensures decision.ToolPlan?
    ensures var candidate := decision.plan;
      var appended := Appended(candidate, baseline);
      && candidate.calls == Kept(candidate, baseline) + appended
      && HasPrefix(candidate, baseline)
      && CallIds(Kept(candidate, baseline)) == CallIds(baseline.calls)
      && CallTools(Kept(candidate, baseline)) == CallTools(baseline.calls)
      && (forall part :: SamePart(part, candidate, baseline))
      && SetOf(candidate.requiredEvidence) == SetOf(baseline.requiredEvidence)
      && 1 <= |appended| <= feedback.remainingToolBudget
      && CallIds(appended) !! CallIds(baseline.calls)
      && CallTools(appended) !! CallTools(baseline.calls)
      && IrrelevantOf(appended, SetOf(feedback.missing), catalog) == {}
      && SetOf(feedback.missing) <= Produced(appended, catalog)
  {
    assert !ReplanFault(NotAPlan, decision, baseline, feedback, catalog);
    var candidate := decision.plan;
    var appended := Appended(candidate, baseline);
    var missing := SetOf(feedback.missing);
    hide SetOf, CallIds, CallTools, Produced, IrrelevantOf, HasPrefix;
    forall part ensures SamePart(part, candidate, baseline) {
      assert !ReplanFault(Changed(part), decision, baseline, feedback, catalog);
    }
    assert !ReplanFault(EvidenceChanged, decision, baseline, feedback, catalog);
    assert !ReplanFault(PrefixChanged, decision, baseline, feedback, catalog);
    assert !ReplanFault(NothingAppended, decision, baseline, feedback, catalog);
    assert !ReplanFault(OverBudget, decision, baseline, feedback, catalog);
    assert !ReplanFault(ToolsRepeated(CallTools(appended) * CallTools(baseline.calls)), decision, baseline, feedback, catalog);
    assert !ReplanFault(IrrelevantTools(IrrelevantOf(appended, missing, catalog)), decision, baseline, feedback, catalog);
    assert !ReplanFault(Uncovered(missing - Produced(appended, catalog)), decision, baseline, feedback, catalog);
    NothingLeft(missing, Produced(appended, catalog));
    assert candidate.calls == Kept(candidate, baseline) + appended;
    KeptNames(candidate, baseline);
    NothingShared(CallTools(appended), CallTools(baseline.calls));
    NewIds(decision, baseline, feedback, catalog);
  }

  lemma KeptNames(candidate: Plan, baseline: Plan)
    requires HasPrefix(candidate, baseline)
    ensures CallIds(Kept(candidate, baseline)) == CallIds(baseline.calls)
    ensures CallTools(Kept(candidate, baseline)) == CallTools(baseline.calls)
  {
    hide EqualInPython;
    var kept := Kept(candidate, baseline);
    assert |kept| == |baseline.calls|;
    forall i | 0 <= i < |kept|
      ensures kept[i] in kept && baseline.calls[i] in baseline.calls
      ensures kept[i].id == baseline.calls[i].id && kept[i].tool == baseline.calls[i].tool
    {
      assert SameCallInPython(candidate.calls[i], baseline.calls[i]);
    }
  }

  lemma NewIds(decision: Decision, baseline: Plan, feedback: Feedback, catalog: Catalog)
    requires decision.ToolPlan? && ReplanAccepted(decision, baseline, feedback, catalog)
    ensures CallIds(Appended(decision.plan, baseline)) !! CallIds(baseline.calls)
  {
    hide SetOf, CallTools, Produced, IrrelevantOf, Appended;
    assert !ReplanFault(IdsReused, decision, baseline, feedback, catalog);
  }

  lemma NothingShared(a: set<string>, b: set<string>)
    requires a * b == {}
    ensures a !! b
  {
    forall x | x in a ensures x !in b { assert x !in a * b; }
  }

  lemma NothingLeft(a: set<string>, b: set<string>)
    requires a - b == {}
    ensures a <= b
  {
    forall x | x in a ensures x in b { assert x !in a - b; }
  }

  /** Every accepted replan of a valid plan appends at least as many calls as the smallest producer cover
      and at most the remaining budget. */
  lemma AcceptedReplanIsBetweenBounds(decision: Decision, baseline: Plan, feedback: Feedback, catalog: Catalog)
    requires Registered(catalog) && SetOf(feedback.missing) != {}
    requires ReplanAccepted(decision, baseline, feedback, catalog)
    ensures decision.ToolPlan?
    ensures var least := MinimumRecoveryToolCalls(baseline.calls, catalog, SetOf(feedback.missing));
      && least.Some?
      && 1 <= least.value <= |Appended(decision.plan, baseline)| <= feedback.remainingToolBudget
  {
    hide Appended, Registered, MinimumRecoveryToolCalls, SetOf, IrrelevantOf, ReplanAccepted, CallTools, CallIds, Produced;
    AcceptedReplanExtends(decision, baseline, feedback, catalog);
    var appended := Appended(decision.plan, baseline);
    KnownToolsCover(appended, baseline.calls, SetOf(feedback.missing), catalog);
    KnownToolsCount(appended, catalog);
    MinimumIsLeast(baseline.calls, catalog, SetOf(feedback.missing), KnownTools(appended, catalog));
  }

  function KnownTools(calls: seq<ToolCall>, catalog: Catalog): set<ToolDef> {
    set c | c in calls && Knows(catalog, c.tool) :: ToolOf(catalog, c.tool)
  }

  lemma KnownToolsCover(appended: seq<ToolCall>, before: seq<ToolCall>, missing: set<string>, catalog: Catalog)
    requires CallTools(appended) !! CallTools(before) && missing <= Produced(appended, catalog)
    ensures RecoveryCover(KnownTools(appended, catalog), before, catalog, missing)
  {
    var known := KnownTools(appended, catalog);
    forall kind | kind in missing ensures exists d :: d in known && kind in d.evidenceKinds {
      assert kind in Produced(appended, catalog);
      var c :| c in appended && Knows(catalog, c.tool) && kind in ToolOf(catalog, c.tool).evidenceKinds;
      assert ToolOf(catalog, c.tool) in known;
    }
    forall d | d in known ensures d in catalog.tools && d.name !in CallTools(before) {
      var c :| c in appended && Knows(catalog, c.tool) && ToolOf(catalog, c.tool) == d;
      assert d.name == c.tool && c.tool in CallTools(appended);
    }
  }

  lemma {:induction false} KnownToolsCount(calls: seq<ToolCall>, catalog: Catalog)
    ensures |KnownTools(calls, catalog)| <= |calls|
  {
    var known := KnownTools(calls, catalog);
    if calls == [] {
      assert known == {};
    } else {
      KnownToolsCount(calls[1..], catalog);
      var rest := KnownTools(calls[1..], catalog);
      assert calls == [calls[0]] + calls[1..];
      if Knows(catalog, calls[0].tool) {
        assert known == rest + {ToolOf(catalog, calls[0].tool)};
      } else {
        assert known == rest;
      }
    }
  }

  // ------------------------------------------------------------------ asking the model

  datatype FailureType = PlanningError | DecisionValidationError

  /** One reply: text that is not JSON, JSON that is no decision, a broken call, or a candidate. */
  datatype Reply = NotJson | WrongShape | Broken | Candidate(decision: Decision)

  datatype ControllerResult = Decided(decision: Decision) | Failed(failure: FailureType)

  type Recovery = Option<(Plan, Feedback)>

  ghost predicate Accepted(decision: Decision, recovery: Recovery, catalog: Catalog) {
    && DecisionErrors(decision, catalog) == []
    && (recovery.Some? ==> ReplanAccepted(decision, recovery.value.0, recovery.value.1, catalog))
  }

  /** The first accepted candidate or broken call among the replies decides; else the last reply does. */
  ghost function Decide(replies: seq<Reply>, recovery: Recovery, catalog: Catalog): ControllerResult {
    if replies == [] then Failed(PlanningError)
    else if replies[0].Broken? then Failed(PlanningError)
    else if replies[0].Candidate? && Accepted(replies[0].decision, recovery, catalog) then Decided(replies[0].decision)
    else if |replies| == 1 then Failed(if replies[0].NotJson? then PlanningError else DecisionValidationError)
    else Decide(replies[1..], recovery, catalog)
  }

  method AskController(replies: seq<Reply>, recovery: Recovery, catalog: Catalog) returns (r: ControllerResult)
    ensures r == Decide(replies, recovery, catalog)
  {
    r := Failed(PlanningError);
    for i := 0 to |replies|
      invariant Decide(replies, recovery, catalog) == if i < |replies| then Decide(replies[i..], recovery, catalog) else r
    {
      assert replies[i..][1..] == replies[i + 1..];
      match replies[i]
      case Broken => return Failed(PlanningError);
      case NotJson => r := Failed(PlanningError);
      case WrongShape => r := Failed(DecisionValidationError);
      case Candidate(decision) =>
        var errors := ValidateControllerDecision(decision, catalog);
        var clean := errors == [];
        if recovery.Some? {
          var more := ValidateReplanDecision(decision, recovery.value.0, recovery.value.1, catalog);
          if more == [] {
            assert forall e :: e !in more;
          } else {
            assert more[0] in more;
          }
          clean := clean && more == [];
        }
        if clean { return Decided(decision); }
        r := Failed(DecisionValidationError);
    }
  }

  lemma {:induction false} DecidedIsAccepted(replies: seq<Reply>, recovery: Recovery, catalog: Catalog)
    requires Decide(replies, recovery, catalog).Decided?
    ensures Accepted(Decide(replies, recovery, catalog).decision, recovery, catalog)
  {
    if !(replies[0].Candidate? && Accepted(replies[0].decision, recovery, catalog)) {
      DecidedIsAccepted(replies[1..], recovery, catalog);
    }
  }

  /** A reply that is answered with another attempt: neither a broken call nor an accepted candidate. */
  ghost predicate Rejected(reply: Reply, recovery: Recovery, catalog: Catalog) {
    !reply.Broken? && !(reply.Candidate? && Accepted(reply.decision, recovery, catalog))
  }

  ghost predicate AllRejected(replies: seq<Reply>, recovery: Recovery, catalog: Catalog) {
    forall i | 0 <= i < |replies| :: Rejected(replies[i], recovery, catalog)
  }

  /** The first reply that is not rejected is the k-th. */
  ghost predicate FirstHeard(replies: seq<Reply>, k: nat, recovery: Recovery, catalog: Catalog) {
    k < |replies| && !Rejected(replies[k], recovery, catalog) && AllRejected(replies[..k], recovery, catalog)
  }

  lemma {:induction false} SomeFirstHeard(replies: seq<Reply>, recovery: Recovery, catalog: Catalog) returns (k: nat)
    ensures if AllRejected(replies, recovery, catalog) then k == |replies| else FirstHeard(replies, k, recovery, catalog)
  {
    hide Rejected;
    k := 0;
    while k < |replies| && Rejected(replies[k], recovery, catalog)
      invariant k <= |replies| && AllRejected(replies[..k], recovery, catalog)
    {
      k := k + 1;
    }
    assert replies[..|replies|] == replies;
  }

  lemma {:induction false} DecideHears(replies: seq<Reply>, k: nat, recovery: Recovery, catalog: Catalog)
    requires FirstHeard(replies, k, recovery, catalog)
    ensures Decide(replies, recovery, catalog) == if replies[k].Broken? then Failed(PlanningError) else Decided(replies[k].decision)
  {
    if k > 0 {
      assert Rejected(replies[..k][0], recovery, catalog);
      hide Accepted;
      var rest := replies[1..][..k - 1];
      assert rest == replies[..k][1..];
      DecideHears(replies[1..], k - 1, recovery, catalog);
    }
  }

  lemma {:induction false} DecideRejects(replies: seq<Reply>, recovery: Recovery, catalog: Catalog)
    requires AllRejected(replies, recovery, catalog)
    ensures Decide(replies, recovery, catalog) ==
      Failed(if replies == [] || replies[|replies| - 1].NotJson? then PlanningError else DecisionValidationError)
  {
    hide Accepted;
    if |replies| > 1 {
      assert AllRejected(replies[1..], recovery, catalog);
      DecideRejects(replies[1..], recovery, catalog);
    }
    if replies != [] { assert Rejected(replies[0], recovery, catalog); }
  }

  lemma OneFirstHeard(replies: seq<Reply>, j: nat, k: nat, recovery: Recovery, catalog: Catalog)
    requires FirstHeard(replies, j, recovery, catalog)
    ensures !AllRejected(replies, recovery, catalog) && (FirstHeard(replies, k, recovery, catalog) ==> j == k)
  {
    hide Rejected;
    if FirstHeard(replies, k, recovery, catalog) {
      assert forall i | 0 <= i < k :: replies[..k][i] == replies[i];
      assert forall i | 0 <= i < j :: replies[..j][i] == replies[i];
    }
  }

  /** The controller decides on the first accepted candidate, if no call broke before it; it fails in planning when a
      call broke first or the last reply was no JSON, and in validation when all were rejected and the last was JSON. */
  lemma DecideExactly(replies: seq<Reply>, recovery: Recovery, catalog: Catalog)
    ensures var r := Decide(replies, recovery, catalog);
      && (forall d :: r == Decided(d) <==> exists k: nat :: FirstHeard(replies, k, recovery, catalog) && replies[k] == Candidate(d))
      && (r == Failed(DecisionValidationError) <==>
            AllRejected(replies, recovery, catalog) && replies != [] && !replies[|replies| - 1].NotJson?)
      && (r == Failed(PlanningError) <==>
            || (exists k: nat :: FirstHeard(replies, k, recovery, catalog) && replies[k] == Broken)
            || (AllRejected(replies, recovery, catalog) && (replies == [] || replies[|replies| - 1].NotJson?)))
  {
    var k := SomeFirstHeard(replies, recovery, catalog);
    forall j: nat | FirstHeard(replies, j, recovery, catalog) ensures !AllRejected(replies, recovery, catalog) && j == k {
      OneFirstHeard(replies, j, k, recovery, catalog);
    }
    hide Accepted, Decide, AllRejected;
    if AllRejected(replies, recovery, catalog) {
      DecideRejects(replies, recovery, catalog);
    } else {
      DecideHears(replies, k, recovery, catalog);
    }
  }
}
