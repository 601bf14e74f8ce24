/** Every error the plan checks can report, and exactly when it is reported. */
module PlanFaults {
  import opened Wrappers
  import opened Plans
  import opened References
  import opened PlanContracts
  import opened Decisions
  import Json

  // ------------------------------------------------------------------ calls

  ghost predicate CallFault(e: PlanError, calls: seq<ToolCall>, i: nat, catalog: Catalog)
    requires i < |calls|
  {
    || (e == DuplicateId(calls[i].id) && exists j :: 0 <= j < i && calls[j].id == calls[i].id)
    || (e == UnknownTool(calls[i].tool) && !Knows(catalog, calls[i].tool))
  }

  lemma {:induction false} CallErrorsAre(calls: seq<ToolCall>, catalog: Catalog, e: PlanError)
    ensures e in CallErrors(calls, catalog) <==> exists i: nat :: i < |calls| && CallFault(e, calls, i, catalog)
  {
    hide Knows;
    if calls != [] {
      var n := |calls| - 1;
      var before := calls[..n];
      CallErrorsAre(before, catalog, e);
      assert calls == before + [calls[n]];
      IdsBefore(before, calls[n].id);
      forall i: nat | i < n ensures CallFault(e, calls, i, catalog) <==> CallFault(e, before, i, catalog) {
        assert calls[i] == before[i];
        forall j | 0 <= j < i ensures calls[j] == before[j] {}
      }
      assert CallFault(e, calls, n, catalog) <==>
        e in When(calls[n].id in CallIds(before), DuplicateId(calls[n].id)) + When(!Knows(catalog, calls[n].tool), UnknownTool(calls[n].tool)) by
      {
        forall j | 0 <= j < n ensures calls[j] == before[j] {}
      }
      hide CallFault;
    }
  }

  lemma IdsBefore(calls: seq<ToolCall>, id: string)
    ensures id in CallIds(calls) <==> exists j :: 0 <= j < |calls| && calls[j].id == id
  {}

  // ------------------------------------------------------------------ references

  /** What can be wrong with one reference of one argument. */
  ghost predicate ReferenceFault(e: PlanError, call: string, arg: string, reference: string, contracts: seq<ArgContract>,
                                 before: seq<ToolCall>, catalog: Catalog)
  {
    var parsed := Parse(reference);
    match e
    case BadReference(c, a, r) => c == call && a == arg && r == reference && parsed.None?
    case TargetNotPrevious(c, a, r) =>
      c == call && a == arg && r == reference && parsed.Some? && forall j | 0 <= j < |before| :: before[j].id != parsed.value.callId
    case PathNotDeclared(c, a, tool, path) =>
      c == call && a == arg && parsed.Some? && path == Join(parsed.value.path)
      && exists source :: Latest(before, parsed.value.callId, source) && source.tool == tool && Knows(catalog, tool)
           && forall o | o in ToolOf(catalog, tool).outputPaths :: o.path != path
    case ReferenceNotAccepted(c, a, tool, path) =>
      c == call && a == arg && parsed.Some? && path == Join(parsed.value.path)
      && exists source, kind :: Latest(before, parsed.value.callId, source) && source.tool == tool && Knows(catalog, tool)
           && Declares(ToolOf(catalog, tool).outputPaths, path, kind) && !Lists(contracts, arg, AcceptedRef(tool, path, kind))
    case _ => false
  }

  lemma {:induction false} NoOutputFor(outputs: seq<OutputPath>, path: string)
    ensures OutputFor(outputs, path).None? <==> forall o | o in outputs :: o.path != path
  {
    if outputs != [] {
      assert outputs == [outputs[0]] + outputs[1..];
      NoOutputFor(outputs[1..], path);
    }
  }

  lemma NotPrevious(before: seq<ToolCall>, id: string)
    ensures id !in PreviousCalls(before) <==> forall j | 0 <= j < |before| :: before[j].id != id
  {
    IdsBefore(before, id);
  }

  /** The source of a reference, as the dictionary of earlier calls has it. */
  lemma SourceIs(before: seq<ToolCall>, id: string, source: ToolCall)
    requires id in PreviousCalls(before) && PreviousCalls(before)[id] == source
    ensures forall c :: Latest(before, id, c) <==> c == source
  {
    hide PreviousCalls, Latest;
    forall c ensures Latest(before, id, c) <==> c == source { LatestIsPrevious(before, id, c); }
  }

  lemma OutputErrorIs(call: ToolCall, arg: string, contracts: seq<ArgContract>, reference: string, before: seq<ToolCall>, catalog: Catalog,
                      source: ToolCall, e: PlanError)
    requires Parse(reference).Some? && Parse(reference).value.callId in PreviousCalls(before)
    requires PreviousCalls(before)[Parse(reference).value.callId] == source && Knows(catalog, source.tool)
    ensures e in ReferenceError(call, arg, ContractFor(contracts, arg), reference, PreviousCalls(before), catalog) <==>
            ReferenceFault(e, call.id, arg, reference, contracts, before, catalog)
  {
    hide Parse, PreviousCalls, ContractFor, OutputFor, Find, Latest, Declares, Lists, Join;
    var outputs, path := ToolOf(catalog, source.tool).outputPaths, Join(Parse(reference).value.path);
    SourceIs(before, Parse(reference).value.callId, source);
    NotPrevious(before, Parse(reference).value.callId);
    NoOutputFor(outputs, path);
    OutputIsNamed(outputs, path);
    forall kind ensures Declares(outputs, path, kind) <==> OutputFor(outputs, path) == Some(OutputPath(path, kind)) { DeclaresIsOutputFor(outputs, path, kind); }
    forall accepted ensures Lists(contracts, arg, accepted) <==> accepted in ContractFor(contracts, arg).acceptsRefs { ListsIsContractFor(contracts, arg, accepted); }
  }

  /** A reference reports exactly what is wrong with it. */
  lemma ReferenceErrorIs(call: ToolCall, arg: string, contracts: seq<ArgContract>, reference: string, before: seq<ToolCall>, catalog: Catalog, e: PlanError)
    ensures e in ReferenceError(call, arg, ContractFor(contracts, arg), reference, PreviousCalls(before), catalog) <==>
            ReferenceFault(e, call.id, arg, reference, contracts, before, catalog)
  {
    hide Parse, PreviousCalls, ContractFor, OutputFor, Find, Latest, Declares, Lists, Join;
    var parsed := Parse(reference);
    if parsed.Some? {
      NotPrevious(before, parsed.value.callId);
      if parsed.value.callId in PreviousCalls(before) {
        var source := PreviousCalls(before)[parsed.value.callId];
        SourceIs(before, parsed.value.callId, source);
        if Knows(catalog, source.tool) { OutputErrorIs(call, arg, contracts, reference, before, catalog, source, e); }
      } else {
        forall c ensures !Latest(before, parsed.value.callId, c) { LatestIsPrevious(before, parsed.value.callId, c); }
      }
    }
  }

  lemma {:induction false} ArgErrorsAre(call: ToolCall, arg: string, contract: ArgContract, references: seq<string>,
                                        previous: map<string, ToolCall>, catalog: Catalog, e: PlanError)
    ensures e in ArgErrors(call, arg, contract, references, previous, catalog) <==>
            exists r :: r in references && e in ReferenceError(call, arg, contract, r, previous, catalog)
  {
    hide ReferenceError;
    if references != [] {
      var before, last := references[..|references| - 1], references[|references| - 1];
      assert references == before + [last];
      ArgErrorsAre(call, arg, contract, before, previous, catalog, e);
    }
  }

  /** Something is wrong with one of the references in this argument. */
  ghost predicate ArgFault(e: PlanError, call: string, arg: Json.Field, definition: ToolDef, before: seq<ToolCall>, catalog: Catalog) {
    && arg.key in definition.inputFields
    && exists r :: r in FindReferences(arg.value) && ReferenceFault(e, call, arg.key, r, definition.argContracts, before, catalog)
  }

  lemma ArgFaultIs(call: ToolCall, arg: Json.Field, definition: ToolDef, before: seq<ToolCall>, catalog: Catalog, e: PlanError)
    requires arg.key in definition.inputFields
    ensures e in ArgErrors(call, arg.key, ContractFor(definition.argContracts, arg.key), FindReferences(arg.value), PreviousCalls(before), catalog)
            <==> ArgFault(e, call.id, arg, definition, before, catalog)
  {
    hide ReferenceError, ReferenceFault, ArgErrors, PreviousCalls, FindReferences, ContractFor;
    ArgErrorsAre(call, arg.key, ContractFor(definition.argContracts, arg.key), FindReferences(arg.value), PreviousCalls(before), catalog, e);
    forall r ensures e in ReferenceError(call, arg.key, ContractFor(definition.argContracts, arg.key), r, PreviousCalls(before), catalog)
                     <==> ReferenceFault(e, call.id, arg.key, r, definition.argContracts, before, catalog)
    {
      ReferenceErrorIs(call, arg.key, definition.argContracts, r, before, catalog, e);
    }
  }

  lemma {:induction false} ArgsErrorsAre(call: ToolCall, args: seq<Json.Field>, definition: ToolDef, before: seq<ToolCall>, catalog: Catalog, e: PlanError)
    ensures e in ArgsErrors(call, args, definition, PreviousCalls(before), catalog) <==>
            exists a :: a in args && ArgFault(e, call.id, a, definition, before, catalog)
  {
    hide ArgErrors, PreviousCalls, FindReferences, ContractFor, ArgFault;
    if args != [] {
      var first, arg := args[..|args| - 1], args[|args| - 1];
      assert args == first + [arg];
      ArgsErrorsAre(call, first, definition, before, catalog, e);
      if arg.key in definition.inputFields { ArgFaultIs(call, arg, definition, before, catalog, e); } else { UndeclaredIsFine(e, call.id, arg, definition, before, catalog); }
    }
  }

  lemma UndeclaredIsFine(e: PlanError, call: string, arg: Json.Field, definition: ToolDef, before: seq<ToolCall>, catalog: Catalog)
    requires arg.key !in definition.inputFields
    ensures !ArgFault(e, call, arg, definition, before, catalog)
  {}

  /** Something is wrong with a reference of the i-th call. */
  ghost predicate RefersWrongly(e: PlanError, calls: seq<ToolCall>, i: nat, catalog: Catalog)
    requires i < |calls|
  {
    Knows(catalog, calls[i].tool)
    && exists a :: a in calls[i].args && ArgFault(e, calls[i].id, a, ToolOf(catalog, calls[i].tool), calls[..i], catalog)
  }

  lemma {:induction false} ReferenceErrorsAre(calls: seq<ToolCall>, catalog: Catalog, e: PlanError)
    ensures e in ReferenceErrors(calls, catalog) <==> exists i: nat :: i < |calls| && RefersWrongly(e, calls, i, catalog)
  {
    hide Knows, ToolOf, ArgsErrors, ArgFault, PreviousCalls;
    if calls != [] {
      var n := |calls| - 1;
      var before := calls[..n];
      ReferenceErrorsAre(before, catalog, e);
      forall i: nat | i < n ensures RefersWrongly(e, calls, i, catalog) <==> RefersWrongly(e, before, i, catalog) {
        assert calls[i] == before[i] && calls[..i] == before[..i];
      }
      if Knows(catalog, calls[n].tool) { ArgsErrorsAre(calls[n], calls[n].args, ToolOf(catalog, calls[n].tool), before, catalog, e); }
      var here := if Knows(catalog, calls[n].tool)
        then ArgsErrors(calls[n], calls[n].args, ToolOf(catalog, calls[n].tool), PreviousCalls(before), catalog) else [];
      assert RefersWrongly(e, calls, n, catalog) <==> e in here;
      assert ReferenceErrors(calls, catalog) == ReferenceErrors(before, catalog) + here;
      hide RefersWrongly;
    }
  }

  // ------------------------------------------------------------------ arguments

  /** An argument that must be a reference is there and is none. */
  ghost predicate MustReferTo(e: PlanError, call: ToolCall, contracts: seq<ArgContract>) {
    exists k, v :: k in contracts && k.requiresReference && HasEntry(call.args, k.name, v) && !IsReference(v) && e == MustReference(call.tool, k.name)
  }

  lemma {:induction false} ContractErrorsAre(call: ToolCall, contracts: seq<ArgContract>, e: PlanError)
    ensures e in ContractErrors(call, contracts) <==> MustReferTo(e, call, contracts)
  {
    if contracts != [] {
      var before, contract := contracts[..|contracts| - 1], contracts[|contracts| - 1];
      ContractErrorsAre(call, before, e);
      assert contracts == before + [contract];
      forall v ensures HasEntry(call.args, contract.name, v) <==> Json.FieldOf(call.args, contract.name) == Some(v) {
        EntryFound(call.args, contract.name, v);
      }
      hide HasEntry, IsReference;
      assert MustReferTo(e, call, contracts) <==> MustReferTo(e, call, before) || MustReferTo(e, call, [contract]);
    }
  }

  lemma {:induction false} RequiredReferenceErrorsAre(calls: seq<ToolCall>, catalog: Catalog, e: PlanError)
    ensures e in RequiredReferenceErrors(calls, catalog) <==>
            exists c :: c in calls && Knows(catalog, c.tool) && MustReferTo(e, c, ToolOf(catalog, c.tool).argContracts)
  {
    hide Knows, ToolOf, ContractErrors, MustReferTo;
    if calls != [] {
      var before, call := calls[..|calls| - 1], calls[|calls| - 1];
      RequiredReferenceErrorsAre(before, catalog, e);
      assert calls == before + [call];
      if Knows(catalog, call.tool) { ContractErrorsAre(call, ToolOf(catalog, call.tool).argContracts, e); }
    }
  }

  /** The names of arguments the tool does not declare. */
  function Undeclared(call: ToolCall, definition: ToolDef): set<string> {
    set f | f in call.args && f.key !in definition.inputFields :: f.key
  }

  ghost predicate ArgsMisfit(e: PlanError, call: ToolCall, definition: ToolDef, catalog: Catalog) {
    || (e == UnknownArgs(call.tool, Undeclared(call, definition)) && Undeclared(call, definition) != {})
    || (e == InvalidArgs(call.tool) && Undeclared(call, definition) == {} && !catalog.plannedArgsFit(call.tool, call.args))
  }

  lemma CallArgErrorsAre(call: ToolCall, definition: ToolDef, catalog: Catalog, e: PlanError)
    ensures e in CallArgErrors(call, definition, catalog) <==> ArgsMisfit(e, call, definition, catalog)
  {
    assert Keys(call.args) - definition.inputFields == Undeclared(call, definition);
  }

  lemma {:induction false} ToolArgErrorsAre(calls: seq<ToolCall>, catalog: Catalog, e: PlanError)
    ensures e in ToolArgErrors(calls, catalog) <==>
            exists c :: c in calls && Knows(catalog, c.tool) && ArgsMisfit(e, c, ToolOf(catalog, c.tool), catalog)
  {
    hide Knows, ToolOf, CallArgErrors, ArgsMisfit;
    if calls != [] {
      var before, call := calls[..|calls| - 1], calls[|calls| - 1];
      ToolArgErrorsAre(before, catalog, e);
      assert calls == before + [call];
      if Knows(catalog, call.tool) { CallArgErrorsAre(call, ToolOf(catalog, call.tool), catalog, e); }
    }
  }

  // ------------------------------------------------------------------ the whole plan

  /** The kinds among these that no registered tool produces. */
  ghost predicate AreUnknown(kinds: set<string>, required: set<string>, catalog: Catalog) {
    forall kind :: kind in kinds <==> kind in required && !exists d :: d in catalog.tools && kind in d.evidenceKinds
  }

  /** The kinds among these that no tool of the plan produces. */
  ghost predicate AreNotProduced(kinds: set<string>, required: set<string>, plan: Plan, catalog: Catalog) {
    forall kind :: kind in kinds <==>
      kind in required && !exists c :: c in plan.calls && Knows(catalog, c.tool) && kind in ToolOf(catalog, c.tool).evidenceKinds
  }

  ghost predicate ContractFault(e: PlanError, plan: Plan, catalog: Catalog, required: set<string>) {
    match e
    case UnknownContract(name) => name == plan.outputContract && plan.outputContract !in CONTRACTS
    case UnknownEvidence(kinds) => plan.outputContract in CONTRACTS && AreUnknown(kinds, required, catalog) && kinds != {}
    case MissingContractEvidence(kinds) =>
      plan.outputContract in CONTRACTS && kinds == CONTRACTS[plan.outputContract].requiredEvidence - required && kinds != {}
    case EvidenceNotAllowed(kinds) =>
      plan.outputContract in CONTRACTS && CONTRACTS[plan.outputContract].allowedEvidence.Some?
      && kinds == required - CONTRACTS[plan.outputContract].allowedEvidence.value && kinds != {}
    case MissingContractTools(tools) =>
      plan.outputContract in CONTRACTS && tools == CONTRACTS[plan.outputContract].requiredTools - CallTools(plan.calls) && tools != {}
    case NotProducible(kinds) => AreNotProduced(kinds, required, plan, catalog) && kinds != {}
    case _ => false
  }

  /** When each error is due. */
  ghost predicate PlanFault(e: PlanError, plan: Plan, catalog: Catalog, required: set<string>) {
    || (exists i: nat :: i < |plan.calls| && CallFault(e, plan.calls, i, catalog))
    || (e == MockAllowed && plan.constraints.allowMock)
    || (e == TooManyCalls(|plan.calls|, plan.constraints.maxToolCalls) && |plan.calls| > plan.constraints.maxToolCalls)
    || (exists i: nat :: i < |plan.calls| && RefersWrongly(e, plan.calls, i, catalog))
    || (exists c :: c in plan.calls && Knows(catalog, c.tool) && MustReferTo(e, c, ToolOf(catalog, c.tool).argContracts))
    || (exists c :: c in plan.calls && Knows(catalog, c.tool) && ArgsMisfit(e, c, ToolOf(catalog, c.tool), catalog))
    || ContractFault(e, plan, catalog, required)
  }

  lemma UnknownKindsAre(kinds: set<string>, required: set<string>, catalog: Catalog)
    ensures kinds == required - KnownKinds(catalog) <==> AreUnknown(kinds, required, catalog)
  {
    KnownKindsAre(catalog);
    hide KnownKinds;
    assert AreUnknown(required - KnownKinds(catalog), required, catalog);
  }

  lemma UnproducedKindsAre(kinds: set<string>, required: set<string>, plan: Plan, catalog: Catalog)
    ensures kinds == required - Produced(plan.calls, catalog) <==> AreNotProduced(kinds, required, plan, catalog)
  {
    hide Knows, ToolOf;
    assert AreNotProduced(required - Produced(plan.calls, catalog), required, plan, catalog);
  }

  lemma ContractFaultsAre(plan: Plan, catalog: Catalog, required: set<string>, e: PlanError)
    ensures e in OutputContractErrors(plan, catalog, required) + ProducibilityErrors(plan, catalog, required) <==>
            ContractFault(e, plan, catalog, required)
  {
    hide KnownKinds, Produced, CallTools, AreUnknown, AreNotProduced;
    if e.UnknownEvidence? { UnknownKindsAre(e.kinds, required, catalog); }
    if e.NotProducible? { UnproducedKindsAre(e.kinds, required, plan, catalog); }
  }

  /** The checks report an error if and only if it is due. */
  lemma PlanErrorsAre(plan: Plan, catalog: Catalog, required: set<string>, e: PlanError)
    ensures e in CatalogErrors(plan, catalog, required) <==> PlanFault(e, plan, catalog, required)
  {
    hide CallErrors, ReferenceErrors, RequiredReferenceErrors, ToolArgErrors, OutputContractErrors, ProducibilityErrors, Knows, ToolOf,
         CallFault, RefersWrongly, MustReferTo, ArgsMisfit, ContractFault;
    CallErrorsAre(plan.calls, catalog, e);
    ReferenceErrorsAre(plan.calls, catalog, e);
    RequiredReferenceErrorsAre(plan.calls, catalog, e);
    ToolArgErrorsAre(plan.calls, catalog, e);
    ContractFaultsAre(plan, catalog, required, e);
  }

  // ------------------------------------------------------------------ the whole decision

  /** A plan that feeds the controller through one tool and not through another, or asks for evidence besides. */
  ghost predicate RoutingFault(e: PlanError, plan: Plan, catalog: Catalog) {
    && (exists c :: c in plan.calls && GoesTo(c, catalog, ToControllerContext))
    && ((e == MixedDestinations && exists c :: c in plan.calls && GoesTo(c, catalog, ToEvidence))
        || (e == ContextPlanWantsEvidence && plan.requiredEvidence != []))
  }

  ghost predicate DecisionFault(e: PlanError, decision: Decision, catalog: Catalog) {
    match decision
    case DirectAnswer(_, metricsCovered) => e == DirectAnswerIncomplete && !metricsCovered
    case Clarification(_, fields) => e == NoMissingField && fields == {}
    case ContextMissing(_) => false
    case CapabilityBoundary(_) => false
    case ToolPlan(plan) =>
      if plan.calls == [] then e == EmptyPlan
      else if !RoutedWhole(plan, catalog) then RoutingFault(e, plan, catalog)
      else PlanFault(e, plan, catalog, Effective(plan, catalog))
  }

  /** A decision draws an error if and only if it is due; a misrouted plan is not looked at further. */
  lemma DecisionErrorsAre(decision: Decision, catalog: Catalog, e: PlanError)
    ensures e in DecisionErrors(decision, catalog) <==> DecisionFault(e, decision, catalog)
  {
    hide CatalogErrors, PlanFault, Effective, GoesTo, Destinations;
    match decision
    case ToolPlan(plan) =>
      DestinationsAre(plan, catalog);
      if ToControllerContext in Destinations(plan, catalog) { OnlyOneDestination(Destinations(plan, catalog)); }
      PlanErrorsAre(plan, catalog, Effective(plan, catalog), e);
    case _ =>
  }
}
