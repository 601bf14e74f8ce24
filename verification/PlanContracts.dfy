/** The deterministic checks every plan passes before anything runs. Each check is given as the list of
    errors it reports, computed by the loops of its method, together with what an empty list means. */
module PlanContracts {
  import opened Wrappers
  import opened Plans
  import opened References
  import Json

  datatype PlanError =
    | DuplicateId(id: string)
    | UnknownTool(tool: string)
    | MockAllowed
    | TooManyCalls(count: nat, limit: nat)
    | BadReference(call: string, arg: string, reference: string)
    | TargetNotPrevious(call: string, arg: string, reference: string)
    | PathNotDeclared(call: string, arg: string, tool: string, path: string)
    | ReferenceNotAccepted(call: string, arg: string, tool: string, path: string)
    | MustReference(tool: string, arg: string)
    | UnknownArgs(tool: string, names: set<string>)
    | InvalidArgs(tool: string)
    | UnknownContract(name: string)
    | UnknownEvidence(kinds: set<string>)
    | MissingContractEvidence(kinds: set<string>)
    | EvidenceNotAllowed(kinds: set<string>)
    | MissingContractTools(tools: set<string>)
    | NotProducible(kinds: set<string>)
    | DirectAnswerIncomplete
    | NoMissingField
    | EmptyPlan
    | MixedDestinations
    | ContextPlanWantsEvidence

  function When(c: bool, e: PlanError): seq<PlanError> { if c then [e] else [] }

  // ------------------------------------------------------------------ tool calls

  function CallErrors(calls: seq<ToolCall>, catalog: Catalog): seq<PlanError> {
    if calls == [] then [] else
      var before, call := calls[..|calls| - 1], calls[|calls| - 1];
      CallErrors(before, catalog) + When(call.id in CallIds(before), DuplicateId(call.id))
        + When(!Knows(catalog, call.tool), UnknownTool(call.tool))
  }

  function ToolCallErrors(plan: Plan, catalog: Catalog): seq<PlanError> {
    CallErrors(plan.calls, catalog) + When(plan.constraints.allowMock, MockAllowed)
      + When(|plan.calls| > plan.constraints.maxToolCalls, TooManyCalls(|plan.calls|, plan.constraints.maxToolCalls))
  }

  method ValidateToolCalls(plan: Plan, catalog: Catalog) returns (errors: seq<PlanError>)
    ensures errors == ToolCallErrors(plan, catalog)
  {
    hide Knows;
    errors := [];
    var seen: set<string> := {};
    for i := 0 to |plan.calls|
      invariant seen == CallIds(plan.calls[..i])
      invariant errors == CallErrors(plan.calls[..i], catalog)
    {
      var call := plan.calls[i];
      assert plan.calls[..i + 1] == plan.calls[..i] + [call];
      assert plan.calls[..i + 1][..i] == plan.calls[..i];
      if call.id in seen { errors := errors + [DuplicateId(call.id)]; }
      seen := seen + {call.id};
      if !Knows(catalog, call.tool) { errors := errors + [UnknownTool(call.tool)]; }
    }
    assert plan.calls[..|plan.calls|] == plan.calls;
    if plan.constraints.allowMock { errors := errors + [MockAllowed]; }
    if |plan.calls| > plan.constraints.maxToolCalls {
      errors := errors + [TooManyCalls(|plan.calls|, plan.constraints.maxToolCalls)];
    }
  }

  ghost predicate AllKnown(calls: seq<ToolCall>, catalog: Catalog) {
    forall c | c in calls :: Knows(catalog, c.tool)
  }

  lemma DistinctIdsSnoc(before: seq<ToolCall>, call: ToolCall)
    ensures DistinctIds(before + [call]) <==> DistinctIds(before) && call.id !in CallIds(before)
  {
    var calls := before + [call];
    assert forall i | 0 <= i < |before| :: calls[i] == before[i] && before[i].id in CallIds(before);
    if call.id in CallIds(before) {
      var c :| c in before && c.id == call.id;
      var i :| 0 <= i < |before| && before[i] == c;
      assert calls[i].id == calls[|before|].id;
      assert !DistinctIds(calls);
    }
    if DistinctIds(calls) {
      forall i, j | 0 <= i < j < |before| ensures before[i].id != before[j].id {
        assert calls[i].id != calls[j].id;
      }
    }
  }

  lemma {:induction false} NoCallErrors(calls: seq<ToolCall>, catalog: Catalog)
    ensures CallErrors(calls, catalog) == [] <==> DistinctIds(calls) && AllKnown(calls, catalog)
  {
    hide Knows, CallIds, DistinctIds;
    if calls == [] {
      assert DistinctIds(calls) by { DistinctIdsEmpty(); }
    } else {
      var before, call := calls[..|calls| - 1], calls[|calls| - 1];
      NoCallErrors(before, catalog);
      assert calls == before + [call];
      DistinctIdsSnoc(before, call);
    }
  }

  lemma DistinctIdsEmpty()
    ensures DistinctIds([])
  {}

  // ------------------------------------------------------------------ references

  function PreviousCalls(calls: seq<ToolCall>): (m: map<string, ToolCall>)
    ensures m.Keys == CallIds(calls)
  {
    if calls == [] then map[] else
      var last := calls[|calls| - 1];
      assert calls == calls[..|calls| - 1] + [last];
      PreviousCalls(calls[..|calls| - 1])[last.id := last]
  }

  function OutputFor(paths: seq<OutputPath>, path: string): Option<OutputPath> {
    if paths == [] then None else if paths[0].path == path then Some(paths[0]) else OutputFor(paths[1..], path)
  }

  /** A contract nobody wrote down accepts no reference and demands none. */
  function ContractFor(contracts: seq<ArgContract>, name: string): ArgContract {
    if contracts == [] then ArgContract(name, [], false)
    else if contracts[0].name == name then contracts[0]
    else ContractFor(contracts[1..], name)
  }

  predicate Accepts(contract: ArgContract, source: ToolDef, output: OutputPath) {
    AcceptedRef(source.name, output.path, output.kind) in contract.acceptsRefs
  }

  function ReferenceError(call: ToolCall, arg: string, contract: ArgContract, reference: string,
                          previous: map<string, ToolCall>, catalog: Catalog): seq<PlanError> {
    var parsed := Parse(reference);
    if parsed.None? then [BadReference(call.id, arg, reference)]
    else if parsed.value.callId !in previous then [TargetNotPrevious(call.id, arg, reference)]
    else
      var sourceCall := previous[parsed.value.callId];
      if !Knows(catalog, sourceCall.tool) then [] else
        var source := ToolOf(catalog, sourceCall.tool);
        var path := Join(parsed.value.path);
        var output := OutputFor(source.outputPaths, path);
        if output.None? then [PathNotDeclared(call.id, arg, sourceCall.tool, path)]
        else When(!Accepts(contract, source, output.value), ReferenceNotAccepted(call.id, arg, source.name, path))
  }

  function ArgErrors(call: ToolCall, arg: string, contract: ArgContract, references: seq<string>,
                     previous: map<string, ToolCall>, catalog: Catalog): seq<PlanError> {
    if references == [] then [] else
      ArgErrors(call, arg, contract, references[..|references| - 1], previous, catalog)
        + ReferenceError(call, arg, contract, references[|references| - 1], previous, catalog)
  }

  function ArgsErrors(call: ToolCall, args: seq<Json.Field>, definition: ToolDef,
                      previous: map<string, ToolCall>, catalog: Catalog): seq<PlanError> {
    if args == [] then [] else
      var arg := args[|args| - 1];
      ArgsErrors(call, args[..|args| - 1], definition, previous, catalog)
        + (if arg.key !in definition.inputFields then [] else
             ArgErrors(call, arg.key, ContractFor(definition.argContracts, arg.key), FindReferences(arg.value),
                       previous, catalog))
  }

  function ReferenceErrors(calls: seq<ToolCall>, catalog: Catalog): seq<PlanError> {
    if calls == [] then [] else
      var before, call := calls[..|calls| - 1], calls[|calls| - 1];
      ReferenceErrors(before, catalog)
        + (if !Knows(catalog, call.tool) then [] else
             ArgsErrors(call, call.args, ToolOf(catalog, call.tool), PreviousCalls(before), catalog))
  }

  method ValidateReferences(plan: Plan, catalog: Catalog) returns (errors: seq<PlanError>)
    ensures errors == ReferenceErrors(plan.calls, catalog)
  {
    errors := [];
    var previous: map<string, ToolCall> := map[];
    for i := 0 to |plan.calls|
      invariant previous == PreviousCalls(plan.calls[..i])
      invariant errors == ReferenceErrors(plan.calls[..i], catalog)
    {
      var call := plan.calls[i];
      assert plan.calls[..i + 1][..i] == plan.calls[..i];
      if Knows(catalog, call.tool) {
        var found := ValidateCallReferences(call, ToolOf(catalog, call.tool), previous, catalog);
        errors := errors + found;
      }
      previous := previous[call.id := call];
    }
    assert plan.calls[..|plan.calls|] == plan.calls;
  }

  /** The body of the loop above for one call: every argument, every reference in it. */
  method ValidateCallReferences(call: ToolCall, definition: ToolDef, previous: map<string, ToolCall>, catalog: Catalog)
    returns (errors: seq<PlanError>)
    ensures errors == ArgsErrors(call, call.args, definition, previous, catalog)
  {
    errors := [];
    for i := 0 to |call.args|
      invariant errors == ArgsErrors(call, call.args[..i], definition, previous, catalog)
    {
      var arg := call.args[i];
      assert call.args[..i + 1][..i] == call.args[..i];
      if arg.key in definition.inputFields {
        var contract := ContractFor(definition.argContracts, arg.key);
        var references := FindReferences(arg.value);
        var found := [];
        for k := 0 to |references|
          invariant found == ArgErrors(call, arg.key, contract, references[..k], previous, catalog)
        {
          assert references[..k + 1][..k] == references[..k];
          found := found + ReferenceError(call, arg.key, contract, references[k], previous, catalog);
        }
        assert references[..|references|] == references;
        errors := errors + found;
      }
    }
    assert call.args[..|call.args|] == call.args;
  }

  lemma {:induction false} NoArgErrors(call: ToolCall, arg: string, contract: ArgContract, references: seq<string>,
                                       previous: map<string, ToolCall>, catalog: Catalog)
    ensures ArgErrors(call, arg, contract, references, previous, catalog) == [] <==>
            forall r | r in references :: ReferenceError(call, arg, contract, r, previous, catalog) == []
  {
    if references != [] {
      assert references == references[..|references| - 1] + [references[|references| - 1]];
      NoArgErrors(call, arg, contract, references[..|references| - 1], previous, catalog);
    }
  }

  /** The latest of these calls with that id, as a dictionary filled in order keeps it. */
  ghost predicate Latest(calls: seq<ToolCall>, id: string, c: ToolCall) {
    exists j | 0 <= j < |calls| :: calls[j] == c && c.id == id && forall k | j < k < |calls| :: calls[k].id != id
  }

  /** The first declared output with this path has this kind. */
  ghost predicate Declares(outputs: seq<OutputPath>, path: string, kind: string) {
    exists k | 0 <= k < |outputs| :: outputs[k] == OutputPath(path, kind) && forall j | 0 <= j < k :: outputs[j].path != path
  }

  /** The first contract for this argument accepts the reference. */
  ghost predicate Lists(contracts: seq<ArgContract>, arg: string, accepted: AcceptedRef) {
    exists k | 0 <= k < |contracts| ::
      contracts[k].name == arg && accepted in contracts[k].acceptsRefs && forall j | 0 <= j < k :: contracts[j].name != arg
  }

  /** The tool declares the path, and the argument accepts this path of this tool with the declared kind. */
  ghost predicate Fits(outputs: seq<OutputPath>, contracts: seq<ArgContract>, arg: string, tool: string, path: string) {
    exists kind :: Declares(outputs, path, kind) && Lists(contracts, arg, AcceptedRef(tool, path, kind))
  }

  /** The reference parses, names an earlier call, and fits what that call's tool and the argument declare. */
  ghost predicate AllowedReference(reference: string, arg: string, contracts: seq<ArgContract>, before: seq<ToolCall>, catalog: Catalog) {
    var parsed := Parse(reference);
    && parsed.Some?
    && exists c :: Latest(before, parsed.value.callId, c)
         && (Knows(catalog, c.tool) ==> Fits(ToolOf(catalog, c.tool).outputPaths, contracts, arg, c.tool, Join(parsed.value.path)))
  }

  lemma LatestSnoc(before: seq<ToolCall>, last: ToolCall, id: string, c: ToolCall)
    ensures Latest(before + [last], id, c) <==> if last.id == id then c == last else Latest(before, id, c)
  {
    var calls, n := before + [last], |before|;
    if last.id == id {
      if c == last { assert calls[n] == c && c.id == id; }
      if Latest(calls, id, c) {
        var j :| 0 <= j < |calls| && calls[j] == c && c.id == id && forall k | j < k < |calls| :: calls[k].id != id;
        assert calls[n].id == id;
      }
    } else {
      if Latest(before, id, c) {
        var j :| 0 <= j < n && before[j] == c && c.id == id && forall k | j < k < n :: before[k].id != id;
        assert calls[j] == c && forall k | j < k < |calls| :: calls[k].id != id;
      }
      if Latest(calls, id, c) {
        var j :| 0 <= j < |calls| && calls[j] == c && c.id == id && forall k | j < k < |calls| :: calls[k].id != id;
        assert before[j] == c && forall k | j < k < n :: before[k] == calls[k];
      }
    }
  }

  lemma {:induction false} LatestIsPrevious(calls: seq<ToolCall>, id: string, c: ToolCall)
    ensures Latest(calls, id, c) <==> id in PreviousCalls(calls) && PreviousCalls(calls)[id] == c
  {
    if calls != [] {
      var before, last := calls[..|calls| - 1], calls[|calls| - 1];
      LatestIsPrevious(before, id, c);
      LatestSnoc(before, last, id, c);
      assert calls == before + [last];
      hide Latest;
    }
  }

  lemma {:induction false} DeclaresIsOutputFor(outputs: seq<OutputPath>, path: string, kind: string)
    ensures Declares(outputs, path, kind) <==> OutputFor(outputs, path) == Some(OutputPath(path, kind))
  {
    if outputs != [] {
      DeclaresIsOutputFor(outputs[1..], path, kind);
      if outputs[0].path == path {
        if outputs[0].kind == kind { assert outputs[0] == OutputPath(path, kind); }
      } else {
        if Declares(outputs[1..], path, kind) {
          var k :| 0 <= k < |outputs| - 1 && outputs[1..][k] == OutputPath(path, kind) && forall j | 0 <= j < k :: outputs[1..][j].path != path;
          assert outputs[k + 1] == OutputPath(path, kind) && forall j | 0 <= j < k + 1 :: outputs[j].path != path by {
            forall j | 0 <= j < k + 1 ensures outputs[j].path != path { if j > 0 { assert outputs[j] == outputs[1..][j - 1]; } }
          }
        }
        if Declares(outputs, path, kind) {
          var k :| 0 <= k < |outputs| && outputs[k] == OutputPath(path, kind) && forall j | 0 <= j < k :: outputs[j].path != path;
          assert outputs[1..][k - 1] == OutputPath(path, kind) && forall j | 0 <= j < k - 1 :: outputs[1..][j].path != path;
        }
      }
    }
  }

  lemma {:induction false} OutputIsNamed(outputs: seq<OutputPath>, path: string)
    ensures OutputFor(outputs, path).Some? ==> OutputFor(outputs, path).value.path == path
  {
    if outputs != [] { OutputIsNamed(outputs[1..], path); }
  }

  lemma {:induction false} ListsIsContractFor(contracts: seq<ArgContract>, arg: string, accepted: AcceptedRef)
    ensures Lists(contracts, arg, accepted) <==> accepted in ContractFor(contracts, arg).acceptsRefs
  {
    if contracts != [] {
      ListsIsContractFor(contracts[1..], arg, accepted);
      if contracts[0].name == arg {
        if accepted in contracts[0].acceptsRefs { assert contracts[0].name == arg; }
      } else {
        if Lists(contracts[1..], arg, accepted) {
          var k :| 0 <= k < |contracts| - 1 && contracts[1..][k].name == arg && accepted in contracts[1..][k].acceptsRefs
            && forall j | 0 <= j < k :: contracts[1..][j].name != arg;
          assert contracts[k + 1].name == arg && forall j | 0 <= j < k + 1 :: contracts[j].name != arg by {
            forall j | 0 <= j < k + 1 ensures contracts[j].name != arg { if j > 0 { assert contracts[j] == contracts[1..][j - 1]; } }
          }
        }
        if Lists(contracts, arg, accepted) {
          var k :| 0 <= k < |contracts| && contracts[k].name == arg && accepted in contracts[k].acceptsRefs
            && forall j | 0 <= j < k :: contracts[j].name != arg;
          assert contracts[1..][k - 1].name == arg && forall j | 0 <= j < k - 1 :: contracts[1..][j].name != arg;
        }
      }
    }
  }

  lemma FitsExactly(outputs: seq<OutputPath>, contracts: seq<ArgContract>, arg: string, tool: string, path: string)
    ensures Fits(outputs, contracts, arg, tool, path) <==>
      OutputFor(outputs, path).Some?
      && AcceptedRef(tool, path, OutputFor(outputs, path).value.kind) in ContractFor(contracts, arg).acceptsRefs
  {
    OutputIsNamed(outputs, path);
    forall kind ensures Declares(outputs, path, kind) <==> OutputFor(outputs, path) == Some(OutputPath(path, kind)) { DeclaresIsOutputFor(outputs, path, kind); }
    forall accepted ensures Lists(contracts, arg, accepted) <==> accepted in ContractFor(contracts, arg).acceptsRefs { ListsIsContractFor(contracts, arg, accepted); }
    hide Declares, Lists, OutputFor, ContractFor;
    if OutputFor(outputs, path).Some? { assert Declares(outputs, path, OutputFor(outputs, path).value.kind); }
  }

  /** A reference draws no error exactly when it is allowed. */
  lemma NoReferenceError(call: ToolCall, arg: string, contracts: seq<ArgContract>, reference: string, before: seq<ToolCall>, catalog: Catalog)
    ensures ReferenceError(call, arg, ContractFor(contracts, arg), reference, PreviousCalls(before), catalog) == [] <==>
            AllowedReference(reference, arg, contracts, before, catalog)
  {
    hide Parse, PreviousCalls, ContractFor, OutputFor, Find, Fits, Latest;
    var parsed := Parse(reference);
    if parsed.Some? {
      forall c ensures Latest(before, parsed.value.callId, c) <==>
        parsed.value.callId in PreviousCalls(before) && PreviousCalls(before)[parsed.value.callId] == c
      {
        LatestIsPrevious(before, parsed.value.callId, c);
      }
      if parsed.value.callId in PreviousCalls(before) {
        var source := PreviousCalls(before)[parsed.value.callId];
        if Knows(catalog, source.tool) {
          OutputIsNamed(ToolOf(catalog, source.tool).outputPaths, Join(parsed.value.path));
          FitsExactly(ToolOf(catalog, source.tool).outputPaths, contracts, arg, source.tool, Join(parsed.value.path));
        }
      }
    }
  }

  /** Every reference in a declared argument is allowed there. */
  ghost predicate GoodArg(arg: Json.Field, definition: ToolDef, before: seq<ToolCall>, catalog: Catalog) {
    arg.key in definition.inputFields ==>
      forall r | r in FindReferences(arg.value) :: AllowedReference(r, arg.key, definition.argContracts, before, catalog)
  }

  lemma {:induction false} NoArgsErrors(call: ToolCall, args: seq<Json.Field>, definition: ToolDef,
                                        before: seq<ToolCall>, catalog: Catalog)
    ensures ArgsErrors(call, args, definition, PreviousCalls(before), catalog) == [] <==>
            forall a | a in args :: GoodArg(a, definition, before, catalog)
  {
    hide AllowedReference, PreviousCalls, ReferenceError, FindReferences, ContractFor, ArgErrors;
    if args != [] {
      var first, arg := args[..|args| - 1], args[|args| - 1];
      assert args == first + [arg];
      NoArgsErrors(call, first, definition, before, catalog);
      var contract := ContractFor(definition.argContracts, arg.key);
      NoArgErrors(call, arg.key, contract, FindReferences(arg.value), PreviousCalls(before), catalog);
      forall r ensures ReferenceError(call, arg.key, contract, r, PreviousCalls(before), catalog) == [] <==>
                       AllowedReference(r, arg.key, definition.argContracts, before, catalog)
      {
        NoReferenceError(call, arg.key, definition.argContracts, r, before, catalog);
      }
      assert GoodArg(arg, definition, before, catalog) <==>
             (arg.key !in definition.inputFields
              || ArgErrors(call, arg.key, contract, FindReferences(arg.value), PreviousCalls(before), catalog) == []);
    }
  }

  ghost predicate GoodCall(calls: seq<ToolCall>, i: nat, catalog: Catalog)
    requires i < |calls|
  {
    Knows(catalog, calls[i].tool) ==>
      forall a | a in calls[i].args :: GoodArg(a, ToolOf(catalog, calls[i].tool), calls[..i], catalog)
  }

  lemma {:induction false} NoReferenceErrors(calls: seq<ToolCall>, catalog: Catalog)
    ensures ReferenceErrors(calls, catalog) == [] <==> forall i | 0 <= i < |calls| :: GoodCall(calls, i, catalog)
  {
    hide ArgsErrors, GoodArg, PreviousCalls, Knows, ToolOf;
    if calls != [] {
      var n := |calls| - 1;
      var before, call := calls[..n], calls[n];
      NoReferenceErrors(before, catalog);
      forall i | 0 <= i < n ensures GoodCall(calls, i, catalog) == GoodCall(before, i, catalog) {
        assert before[..i] == calls[..i];
      }
      var here := if Knows(catalog, call.tool)
        then ArgsErrors(call, call.args, ToolOf(catalog, call.tool), PreviousCalls(before), catalog) else [];
      if Knows(catalog, call.tool) {
        NoArgsErrors(call, call.args, ToolOf(catalog, call.tool), before, catalog);
      }
      assert GoodCall(calls, n, catalog) <==> here == [];
      assert ReferenceErrors(calls, catalog) == ReferenceErrors(before, catalog) + here;
    }
  }

  // ------------------------------------------------------------------ arguments that must be references

  function ContractErrors(call: ToolCall, contracts: seq<ArgContract>): seq<PlanError> {
    if contracts == [] then [] else
      var contract := contracts[|contracts| - 1];
      ContractErrors(call, contracts[..|contracts| - 1])
        + (if !contract.requiresReference || Json.FieldOf(call.args, contract.name).None? then [] else
             When(!IsReference(Json.FieldOf(call.args, contract.name).value), MustReference(call.tool, contract.name)))
  }

  function RequiredReferenceErrors(calls: seq<ToolCall>, catalog: Catalog): seq<PlanError> {
    if calls == [] then [] else
      var before, call := calls[..|calls| - 1], calls[|calls| - 1];
      RequiredReferenceErrors(before, catalog)
        + (if !Knows(catalog, call.tool) then [] else ContractErrors(call, ToolOf(catalog, call.tool).argContracts))
  }

  method ValidateRequiredReferences(plan: Plan, catalog: Catalog) returns (errors: seq<PlanError>)
    ensures errors == RequiredReferenceErrors(plan.calls, catalog)
  {
    errors := [];
    for i := 0 to |plan.calls|
      invariant errors == RequiredReferenceErrors(plan.calls[..i], catalog)
    {
      var call := plan.calls[i];
      assert plan.calls[..i + 1][..i] == plan.calls[..i];
      if Knows(catalog, call.tool) {
        var contracts := ToolOf(catalog, call.tool).argContracts;
        var found := [];
        for k := 0 to |contracts|
          invariant found == ContractErrors(call, contracts[..k])
        {
          assert contracts[..k + 1][..k] == contracts[..k];
          if contracts[k].requiresReference && Json.FieldOf(call.args, contracts[k].name).Some? {
            if !IsReference(Json.FieldOf(call.args, contracts[k].name).value) {
              found := found + [MustReference(call.tool, contracts[k].name)];
            }
          }
        }
        assert contracts[..|contracts|] == contracts;
        errors := errors + found;
      }
    }
    assert plan.calls[..|plan.calls|] == plan.calls;
  }

  /** The argument is a reference if its contract demands one and it is there at all. */
  ghost predicate RefersIfItMust(call: ToolCall, contract: ArgContract) {
    contract.requiresReference ==> forall v | HasEntry(call.args, contract.name, v) :: IsReference(v)
  }

  ghost predicate RefersWhereItMust(call: ToolCall, contracts: seq<ArgContract>) {
    forall k | k in contracts :: RefersIfItMust(call, k)
  }

  lemma OneContractError(call: ToolCall, contract: ArgContract)
    ensures !contract.requiresReference || Json.FieldOf(call.args, contract.name).None? || IsReference(Json.FieldOf(call.args, contract.name).value)
            <==> RefersIfItMust(call, contract)
  {
    forall v ensures HasEntry(call.args, contract.name, v) <==> Json.FieldOf(call.args, contract.name) == Some(v) {
      EntryFound(call.args, contract.name, v);
    }
    hide HasEntry, IsReference;
  }

  lemma {:induction false} NoContractErrors(call: ToolCall, contracts: seq<ArgContract>)
    ensures ContractErrors(call, contracts) == [] <==> RefersWhereItMust(call, contracts)
  {
    hide RefersIfItMust, IsReference;
    if contracts != [] {
      var before, contract := contracts[..|contracts| - 1], contracts[|contracts| - 1];
      NoContractErrors(call, before);
      OneContractError(call, contract);
      assert contracts == before + [contract];
    }
  }

  /** No error exactly when every known call refers where its tool demands it. */
  lemma {:induction false} NoRequiredReferenceErrors(calls: seq<ToolCall>, catalog: Catalog)
    ensures RequiredReferenceErrors(calls, catalog) == [] <==>
            forall c | c in calls && Knows(catalog, c.tool) :: RefersWhereItMust(c, ToolOf(catalog, c.tool).argContracts)
  {
    hide RefersWhereItMust, ContractErrors, Knows, ToolOf;
    if calls != [] {
      var before, call := calls[..|calls| - 1], calls[|calls| - 1];
      NoRequiredReferenceErrors(before, catalog);
      assert calls == before + [call];
      if Knows(catalog, call.tool) { NoContractErrors(call, ToolOf(catalog, call.tool).argContracts); }
    }
  }

  // ------------------------------------------------------------------ argument shapes

  function Keys(fields: seq<Json.Field>): set<string> { set f | f in fields :: f.key }

  function CallArgErrors(call: ToolCall, definition: ToolDef, catalog: Catalog): seq<PlanError> {
    var unknown := Keys(call.args) - definition.inputFields;
    if unknown != {} then [UnknownArgs(call.tool, unknown)]
    else When(!catalog.plannedArgsFit(call.tool, call.args), InvalidArgs(call.tool))
  }

  function ToolArgErrors(calls: seq<ToolCall>, catalog: Catalog): seq<PlanError> {
    if calls == [] then [] else
      var before, call := calls[..|calls| - 1], calls[|calls| - 1];
      ToolArgErrors(before, catalog)
        + (if !Knows(catalog, call.tool) then [] else CallArgErrors(call, ToolOf(catalog, call.tool), catalog))
  }

  method ValidateToolArgs(plan: Plan, catalog: Catalog) returns (errors: seq<PlanError>)
    ensures errors == ToolArgErrors(plan.calls, catalog)
  {
    errors := [];
    for i := 0 to |plan.calls|
      invariant errors == ToolArgErrors(plan.calls[..i], catalog)
    {
      assert plan.calls[..i + 1][..i] == plan.calls[..i];
      if Knows(catalog, plan.calls[i].tool) {
        errors := errors + CallArgErrors(plan.calls[i], ToolOf(catalog, plan.calls[i].tool), catalog);
      }
    }
    assert plan.calls[..|plan.calls|] == plan.calls;
  }

  /** Declared names only, and planned values that fit the tool's input model. */
  ghost predicate ArgsFit(call: ToolCall, definition: ToolDef, catalog: Catalog) {
    && (forall f | f in call.args :: f.key in definition.inputFields)
    && catalog.plannedArgsFit(call.tool, call.args)
  }

  lemma NoCallArgErrors(call: ToolCall, definition: ToolDef, catalog: Catalog)
    ensures CallArgErrors(call, definition, catalog) == [] <==> ArgsFit(call, definition, catalog)
  {
    NothingBeyond(Keys(call.args), definition.inputFields);
    assert forall f | f in call.args :: f.key in Keys(call.args);
  }

  lemma NothingBeyond(a: set<string>, b: set<string>)
    ensures a - b == {} <==> forall x | x in a :: x in b
  {
    if a - b == {} {
      forall x | x in a ensures x in b { assert x !in a - b; }
    }
  }

  lemma {:induction false} NoToolArgErrors(calls: seq<ToolCall>, catalog: Catalog)
    ensures ToolArgErrors(calls, catalog) == [] <==>
            forall c | c in calls && Knows(catalog, c.tool) :: ArgsFit(c, ToolOf(catalog, c.tool), catalog)
  {
    hide ArgsFit, CallArgErrors, Knows, ToolOf;
    if calls != [] {
      var before, call := calls[..|calls| - 1], calls[|calls| - 1];
      assert calls == before + [call];
      NoToolArgErrors(before, catalog);
      if Knows(catalog, call.tool) { NoCallArgErrors(call, ToolOf(catalog, call.tool), catalog); }
    }
  }

  // ------------------------------------------------------------------ contracts and evidence

  datatype ContractSpec = ContractSpec(requiredEvidence: set<string>, allowedEvidence: Option<set<string>>, requiredTools: set<string>)

  const NATURAL_LANGUAGE := "natural_language_answer"
  const CONTRACTS: map<string, ContractSpec> := map[NATURAL_LANGUAGE := ContractSpec({}, None, {})]

  function KnownKinds(catalog: Catalog): set<string> {
    set d, kind | d in catalog.tools && kind in d.evidenceKinds :: kind
  }

  function OutputContractErrors(plan: Plan, catalog: Catalog, required: set<string>): seq<PlanError> {
    if plan.outputContract !in CONTRACTS then [UnknownContract(plan.outputContract)] else
      var spec := CONTRACTS[plan.outputContract];
      var unknown := required - KnownKinds(catalog);
      var missing := spec.requiredEvidence - required;
      var invalid := if spec.allowedEvidence.Some? then required - spec.allowedEvidence.value else {};
      var missingTools := spec.requiredTools - CallTools(plan.calls);
      When(unknown != {}, UnknownEvidence(unknown)) + When(missing != {}, MissingContractEvidence(missing))
        + When(invalid != {}, EvidenceNotAllowed(invalid)) + When(missingTools != {}, MissingContractTools(missingTools))
  }

  /** The output contract exists; what is required is known, covers what the contract requires and stays within
      what it allows; and the contract's tools are called. */
  ghost predicate MeetsContract(plan: Plan, catalog: Catalog, required: set<string>) {
    && plan.outputContract in CONTRACTS
    && var spec := CONTRACTS[plan.outputContract];
       && (forall kind | kind in required :: exists d :: d in catalog.tools && kind in d.evidenceKinds)
       && (forall kind | kind in spec.requiredEvidence :: kind in required)
       && (spec.allowedEvidence.Some? ==> forall kind | kind in required :: kind in spec.allowedEvidence.value)
       && (forall tool | tool in spec.requiredTools :: exists c :: c in plan.calls && c.tool == tool)
  }

  lemma NoOutputContractErrors(plan: Plan, catalog: Catalog, required: set<string>)
    ensures OutputContractErrors(plan, catalog, required) == [] <==> MeetsContract(plan, catalog, required)
  {
    if plan.outputContract in CONTRACTS {
      var spec := CONTRACTS[plan.outputContract];
      KnownKindsAre(catalog);
      CallToolsAre(plan.calls);
      hide KnownKinds, CallTools;
      NothingBeyond(required, KnownKinds(catalog));
      NothingBeyond(spec.requiredEvidence, required);
      NothingBeyond(spec.requiredTools, CallTools(plan.calls));
    }
  }

  lemma KnownKindsAre(catalog: Catalog)
    ensures forall kind :: kind in KnownKinds(catalog) <==> exists d :: d in catalog.tools && kind in d.evidenceKinds
  {}

  lemma CallToolsAre(calls: seq<ToolCall>)
    ensures forall tool :: tool in CallTools(calls) <==> exists c :: c in calls && c.tool == tool
  {}

  function ProducibilityErrors(plan: Plan, catalog: Catalog, required: set<string>): seq<PlanError> {
    var missing := required - Produced(plan.calls, catalog);
    When(missing != {}, NotProducible(missing))
  }

  function CatalogErrors(plan: Plan, catalog: Catalog, required: set<string>): seq<PlanError> {
    ToolCallErrors(plan, catalog) + ReferenceErrors(plan.calls, catalog) + RequiredReferenceErrors(plan.calls, catalog)
      + ToolArgErrors(plan.calls, catalog) + OutputContractErrors(plan, catalog, required)
      + ProducibilityErrors(plan, catalog, required)
  }

  method ValidatePlanAgainstCatalog(plan: Plan, catalog: Catalog, required: set<string>) returns (errors: seq<PlanError>)
    ensures errors == CatalogErrors(plan, catalog, required)
  {
    errors := ValidateToolCalls(plan, catalog);
    var found := ValidateReferences(plan, catalog);
    errors := errors + found;
    found := ValidateRequiredReferences(plan, catalog);
    errors := errors + found;
    found := ValidateToolArgs(plan, catalog);
    errors := errors + found + OutputContractErrors(plan, catalog, required) + ProducibilityErrors(plan, catalog, required);
  }

  // ------------------------------------------------------------------ what a valid plan promises the executor

  lemma {:induction false} FoundInSomeField(fields: seq<Json.Field>, reference: string)
    requires reference in FindInFields(fields)
    ensures exists f :: f in fields && reference in FindReferences(f.value)
  {
    if reference in FindReferences(fields[0].value) {
      assert fields[0] in fields;
    } else {
      FoundInSomeField(fields[1..], reference);
    }
  }

  /** What the executor may rely on: known tools, distinct ids, and references that parse and point back. */
  ghost predicate Executable(plan: Plan, catalog: Catalog) {
    && DistinctIds(plan.calls)
    && AllKnown(plan.calls, catalog)
    && |plan.calls| <= plan.constraints.maxToolCalls
    && forall i | 0 <= i < |plan.calls| :: Targets(FindInFields(plan.calls[i].args), CallIds(plan.calls[..i]))
  }

  lemma GoodCallTargets(calls: seq<ToolCall>, i: nat, catalog: Catalog)
    requires i < |calls| && Knows(catalog, calls[i].tool) && GoodCall(calls, i, catalog)
    requires ArgsFit(calls[i], ToolOf(catalog, calls[i].tool), catalog)
    ensures Targets(FindInFields(calls[i].args), CallIds(calls[..i]))
  {
    hide Knows, ToolOf, Fits, FindInFields, Parse;
    var call := calls[i];
    forall r | r in FindInFields(call.args) ensures Parse(r).Some? && Parse(r).value.callId in CallIds(calls[..i]) {
      FoundInSomeField(call.args, r);
      var f :| f in call.args && r in FindReferences(f.value);
      assert GoodArg(f, ToolOf(catalog, call.tool), calls[..i], catalog);
    }
  }

  lemma ValidPlanIsExecutable(plan: Plan, catalog: Catalog, required: set<string>)
    requires CatalogErrors(plan, catalog, required) == []
    ensures Executable(plan, catalog)
    ensures required <= Produced(plan.calls, catalog)
  {
    PlanAccepted(plan, catalog, required);
    hide CatalogErrors, Knows, ToolOf, GoodCall, ArgsFit, RefersWhereItMust, MeetsContract, Targets, CallIds, Produced;
    forall i | 0 <= i < |plan.calls| ensures Targets(FindInFields(plan.calls[i].args), CallIds(plan.calls[..i])) {
      var call := plan.calls[i];
      assert call in plan.calls && Knows(catalog, call.tool);
      assert GoodCall(plan.calls, i, catalog);
      GoodCallTargets(plan.calls, i, catalog);
    }
  }

  /** A plan is accepted exactly when every single check is met. */
  lemma PlanAccepted(plan: Plan, catalog: Catalog, required: set<string>)
    ensures CatalogErrors(plan, catalog, required) == [] <==>
      (&& DistinctIds(plan.calls) && AllKnown(plan.calls, catalog)
       && !plan.constraints.allowMock && |plan.calls| <= plan.constraints.maxToolCalls
       && (forall i | 0 <= i < |plan.calls| :: GoodCall(plan.calls, i, catalog))
       && (forall c | c in plan.calls && Knows(catalog, c.tool) ::
             ArgsFit(c, ToolOf(catalog, c.tool), catalog) && RefersWhereItMust(c, ToolOf(catalog, c.tool).argContracts))
       && MeetsContract(plan, catalog, required)
       && forall kind | kind in required ::
            exists c :: c in plan.calls && Knows(catalog, c.tool) && kind in ToolOf(catalog, c.tool).evidenceKinds)
  {
    NoCallErrors(plan.calls, catalog);
    NoReferenceErrors(plan.calls, catalog);
    NoRequiredReferenceErrors(plan.calls, catalog);
    NoToolArgErrors(plan.calls, catalog);
    NoOutputContractErrors(plan, catalog, required);
    NothingBeyond(required, Produced(plan.calls, catalog));
    hide DistinctIds, AllKnown, GoodCall, ArgsFit, RefersWhereItMust, MeetsContract, CallErrors, ReferenceErrors, RequiredReferenceErrors,
         ToolArgErrors, OutputContractErrors, Knows, ToolOf, Produced;
  }
}
