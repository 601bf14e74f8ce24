/** Execution plans, the tools they name, and what running a tool leaves behind. */
module Plans {
  import opened Wrappers
  import Json

  datatype ToolCall = ToolCall(id: string, tool: string, args: seq<Json.Field>)

  datatype Constraints = Constraints(maxToolCalls: nat, allowMock: bool)

  datatype Plan = Plan(
    intent: string,
    goal: string,
    outputContract: string,
    context: Json.Value,
    calls: seq<ToolCall>,
    requiredEvidence: seq<string>,
    constraints: Constraints)

  datatype ResultStatus = Ok | Error

  datatype ToolResult = ToolResult(
    callId: string,
    tool: string,
    status: ResultStatus,
    data: Json.Value,
    source: Json.Value,
    latencyMs: nat,
    error: Option<string>,
    metadata: Json.Value)

  /** The dictionary a reference path walks. */
  function ResultFields(r: ToolResult): seq<Json.Field> {
    [Json.Field("tool_call_id", Json.Str(r.callId)),
     Json.Field("tool", Json.Str(r.tool)),
     Json.Field("status", Json.Str(if r.status.Ok? then "ok" else "error")),
     Json.Field("data", r.data),
     Json.Field("source", r.source),
     Json.Field("latency_ms", Json.Num(r.latencyMs)),
     Json.Field("error", if r.error.Some? then Json.Str(r.error.value) else Json.Null),
     Json.Field("metadata", r.metadata)]
  }

  datatype Destination = ToEvidence | ToControllerContext

  datatype AcceptedRef = AcceptedRef(fromTool: string, path: string, kind: string)

  datatype ArgContract = ArgContract(name: string, acceptsRefs: seq<AcceptedRef>, requiresReference: bool)

  datatype OutputPath = OutputPath(path: string, kind: string)

  datatype ToolDef = ToolDef(
    name: string,
    destination: Destination,
    inputFields: set<string>,
    evidenceKinds: set<string>,
    mandatoryEvidence: set<string>,
    argContracts: seq<ArgContract>,
    outputPaths: seq<OutputPath>,
    source: Json.Value,
    metadata: Json.Value)

  /** The frozen registry. The two predicates stand for the input models: whether planned arguments
      fit (references replaced by placeholders), and whether resolved arguments fit. */
  datatype Catalog = Catalog(
    tools: seq<ToolDef>,
    plannedArgsFit: (string, seq<Json.Field>) -> bool,
    argsFit: (string, seq<Json.Field>) -> bool)

  /** Registration refuses a second tool of the same name. */
  ghost predicate Registered(catalog: Catalog) {
    forall i, j | 0 <= i < j < |catalog.tools| :: catalog.tools[i].name != catalog.tools[j].name
  }

  function Find(tools: seq<ToolDef>, name: string): (r: Option<ToolDef>)
    ensures r.Some? ==> r.value in tools && r.value.name == name
    ensures r.None? ==> forall d | d in tools :: d.name != name
  {
    if tools == [] then None
    else if tools[0].name == name then Some(tools[0])
    else Find(tools[1..], name)
  }

  predicate Knows(catalog: Catalog, tool: string) { Find(catalog.tools, tool).Some? }

  function ToolOf(catalog: Catalog, tool: string): ToolDef
    requires Knows(catalog, tool)
  {
    Find(catalog.tools, tool).value
  }

  lemma {:induction false} FindAny(tools: seq<ToolDef>, d: ToolDef)
    requires d in tools
    requires forall i, j | 0 <= i < j < |tools| :: tools[i].name != tools[j].name
    ensures Find(tools, d.name) == Some(d)
  {
    if tools[0] != d {
      assert forall i, j | 0 <= i < j < |tools[1..]| :: tools[1..][i].name != tools[1..][j].name;
      FindAny(tools[1..], d);
    }
  }

  function CallIds(calls: seq<ToolCall>): (ids: set<string>) {
    set c | c in calls :: c.id
  }

  function CallTools(calls: seq<ToolCall>): (tools: set<string>) {
    set c | c in calls :: c.tool
  }

  /** Every evidence kind the registered tools among these calls can produce. */
  function Produced(calls: seq<ToolCall>, catalog: Catalog): (kinds: set<string>)
    ensures forall kind :: kind in kinds <==>
      exists c :: c in calls && Knows(catalog, c.tool) && kind in ToolOf(catalog, c.tool).evidenceKinds
  {
    set c, kind | c in calls && Knows(catalog, c.tool) && kind in ToolOf(catalog, c.tool).evidenceKinds :: kind
  }

  ghost predicate DistinctIds(calls: seq<ToolCall>) {
    forall i, j | 0 <= i < j < |calls| :: calls[i].id != calls[j].id
  }
}
