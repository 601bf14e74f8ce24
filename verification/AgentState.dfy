/** The state of one agent run and the single rule that turns it into a terminal outcome. */
module AgentState {
  import opened Wrappers
  import opened Plans
  import opened References
  import opened PlanContracts
  import opened Decisions
  import opened ToolExecution
  import opened ContextMessages

  datatype Status = Fine | ClarificationRequired | InsufficientContext | InsufficientTools | InsufficientEvidence | WaitingInput | Failing

  datatype Stage = InController | InDecisionValidation | InPlanValidation | InConversationAnswer | InToolExecution | InEvidence | InAnswer | InCritic | InExecution

  datatype ResponseType =
    | PlanningFailed | DecisionInvalid | ToolFailed | AnswerFailed | Runtime(code: RuntimeFailure) | ExecutionFailed
    | EvidenceInsufficient | ReplanExhausted
    | Clarify | ContextIsMissing | Boundary | Direct
    | Contract(name: string) | UnsupportedAnswer | RawToolResults

  datatype AnswerStatus = AnswerOk | AnswerError | AnswerInsufficient | AnswerUnsupported

  datatype Answer = DirectResult(summary: string) | Synthesized(answerType: string, status: AnswerStatus)

  function StatusOf(a: Answer): AnswerStatus { if a.DirectResult? then AnswerOk else a.status }

  /** `max_replans` is fixed at one. */
  datatype Limits = Limits(maxTools: nat, maxController: nat, maxAnswer: nat)

  datatype Budget = Budget(limits: Limits, replansUsed: nat, toolsUsed: nat, controllerUsed: nat, answerUsed: nat)

  datatype Resource = Replans | Tools | ControllerCalls | AnswerCalls

  function Remaining(b: Budget, resource: Resource): nat {
    var (limit, used) := match resource
      case Replans => (1, b.replansUsed)
      case Tools => (b.limits.maxTools, b.toolsUsed)
      case ControllerCalls => (b.limits.maxController, b.controllerUsed)
      case AnswerCalls => (b.limits.maxAnswer, b.answerUsed);
    if used >= limit then 0 else limit - used
  }

  predicate Exhausted(b: Budget, resource: Resource) { Remaining(b, resource) == 0 }

  datatype Outcome = Outcome(status: Status, responseType: ResponseType, reason: string, terminalStage: Stage, failureStage: Option<Stage>)

  datatype CallSummary = CallSummary(callId: string, tool: string, status: ResultStatus, handlerEntered: bool,
                                     stage: DispatchStage, errorCode: Option<ToolErrorCode>, reused: bool)

  datatype AttemptRecord = AttemptRecord(index: nat, decision: Option<Decision>, calls: seq<CallSummary>, outcome: Outcome, recovered: bool)

  datatype RecoveryAction = Replan | Terminal

  datatype Response = Response(status: Status, responseType: Option<ResponseType>, errorCode: Option<ResponseType>,
                               plan: Option<Plan>, results: seq<ToolResult>, errors: seq<string>)

  /** `decision` carries its kind. The last three fields are history: fingerprints whose handler ran, how
      many of them for context plans, and the results of the attempt a replan started from. */
  datatype State = State(
    initialized: bool,
    budget: Budget,
    attemptIndex: nat,
    attempts: seq<AttemptRecord>,
    recoveryAction: Option<RecoveryAction>,
    feedback: Option<Feedback>,
    baseline: Option<Plan>,
    cache: Cache,
    contextCount: nat,
    retrieved: seq<Message>,
    runtimeFailure: Option<RuntimeFailure>,
    failureStage: Option<Stage>,
    terminalStage: Option<Stage>,
    durationKnown: bool,
    validationFailed: bool,
    safeFailure: bool,
    controllerResult: Option<ControllerResult>,
    decision: Option<Decision>,
    plan: Option<Plan>,
    effective: set<string>,
    results: seq<ToolResult>,
    records: seq<DispatchRecord>,
    missing: Option<seq<string>>,
    answer: Option<Answer>,
    reviewPassed: Option<bool>,
    status: Status,
    reason: string,
    errors: seq<string>,
    responseType: Option<ResponseType>,
    response: Option<Response>,
    checkpointed: bool,
    entered: seq<string>,
    contextEntered: nat,
    firstResults: seq<ToolResult>)

  // ------------------------------------------------------------------ terminal outcome

  function StableReason(t: ResponseType, reason: string): string {
    match t
    case PlanningFailed => "planning failed"
    case DecisionInvalid => "decision validation failed"
    case ToolFailed => "tool execution failed"
    case AnswerFailed => "answer generation failed"
    case ExecutionFailed => "execution failed"
    case Runtime(code) => FailureReason(code)
    case EvidenceInsufficient => "insufficient evidence"
    case ReplanExhausted => "replan exhausted"
    case _ => reason
  }

  function Ending(status: Status, t: ResponseType, terminal: Stage, failure: Option<Stage>, reason: string): Outcome {
    Outcome(status, t, StableReason(t, reason), terminal, failure)
  }

  function Or(stage: Option<Stage>, fallback: Stage): Stage { if stage.Some? then stage.value else fallback }

  predicate EvidenceMissing(s: State) { s.missing.Some? && s.missing.value != [] }

  function SuccessfulType(answer: Option<Answer>): ResponseType {
    if answer.None? || answer.value.DirectResult? then RawToolResults
    else if answer.value.status == AnswerOk && answer.value.answerType in CONTRACTS then Contract(answer.value.answerType)
    else if answer.value.status == AnswerUnsupported then UnsupportedAnswer
    else RawToolResults
  }

  predicate SomeToolFailed(results: seq<ToolResult>) { exists r | r in results :: r.status == Error }

  /** What the outcome depends on. */
  datatype Signals = Signals(
    controllerFailure: Option<FailureType>, validationFailed: bool, failureStage: Option<Stage>, toolFailed: bool,
    answer: Option<Answer>, runtimeFailure: Option<RuntimeFailure>, missing: bool, responseType: Option<ResponseType>,
    reviewPassed: Option<bool>, status: Status, reason: string)

  function SignalsOf(s: State): Signals {
    Signals(if s.controllerResult.Some? && s.controllerResult.value.Failed? then Some(s.controllerResult.value.failure) else None,
            s.validationFailed, s.failureStage, SomeToolFailed(s.results), s.answer, s.runtimeFailure, EvidenceMissing(s),
            s.responseType, s.reviewPassed, s.status, s.reason)
  }

  /** The first rule that applies decides. */
  function OutcomeOf(x: Signals): Outcome {
    if x.controllerFailure.Some? then
      if x.controllerFailure.value.DecisionValidationError?
      then Ending(Failing, DecisionInvalid, InController, Some(InDecisionValidation), "")
      else Ending(Failing, PlanningFailed, InController, Some(InController), "")
    else if x.validationFailed then
      var stage := Or(x.failureStage, InDecisionValidation);
      Ending(Failing, DecisionInvalid, stage, Some(stage), "")
    else if x.toolFailed then Ending(Failing, ToolFailed, InToolExecution, Some(InToolExecution), "")
    else if x.answer.Some? && StatusOf(x.answer.value) == AnswerError then Ending(Failing, AnswerFailed, InAnswer, Some(InAnswer), "")
    else if x.runtimeFailure.Some? then
      var stage := Or(x.failureStage, InExecution);
      Ending(Failing, Runtime(x.runtimeFailure.value), stage, Some(stage), "")
    else if x.missing then
      Ending(InsufficientEvidence, if x.responseType == Some(ReplanExhausted) then ReplanExhausted else EvidenceInsufficient,
             InEvidence, Some(InEvidence), "")
    else if x.answer.Some? && StatusOf(x.answer.value) == AnswerInsufficient then
      Ending(InsufficientEvidence, EvidenceInsufficient, InEvidence, Some(InEvidence), "")
    else if x.reviewPassed == Some(false) then Ending(InsufficientEvidence, EvidenceInsufficient, InCritic, Some(InCritic), "")
    else if x.status == ClarificationRequired then Ending(x.status, Clarify, InDecisionValidation, None, x.reason)
    else if x.status == InsufficientContext then Ending(x.status, ContextIsMissing, InDecisionValidation, None, x.reason)
    else if x.status == InsufficientTools then Ending(x.status, Boundary, InDecisionValidation, None, x.reason)
    else if x.answer.Some? && x.answer.value.DirectResult? then Ending(Fine, Direct, InConversationAnswer, None, x.reason)
    else if x.status == Failing then Ending(Failing, ExecutionFailed, InExecution, Some(InExecution), "")
    else Ending(Fine, SuccessfulType(x.answer), if x.reviewPassed.Some? then InCritic else InAnswer, None, x.reason)
  }

  function ResolveOutcome(s: State): Outcome { OutcomeOf(SignalsOf(s)) }

  function ApplyOutcome(s: State, o: Outcome): State {
    s.(status := o.status, responseType := Some(o.responseType), reason := o.reason,
       terminalStage := Some(o.terminalStage), failureStage := o.failureStage)
  }

  lemma SignalsSettle(x: Signals)
    ensures var o := OutcomeOf(x);
      OutcomeOf(x.(status := o.status, responseType := Some(o.responseType), reason := o.reason, failureStage := o.failureStage)) == o
  {
    hide SuccessfulType, StatusOf;
    SuccessIsPlain(x.answer, x.reason);
  }

  /** A successful response keeps the reason it was given. */
  lemma SuccessIsPlain(answer: Option<Answer>, reason: string)
    ensures StableReason(SuccessfulType(answer), reason) == reason && SuccessfulType(answer) != ReplanExhausted
  {}

  /** Resolving again after the outcome was written into the state changes nothing. */
  lemma OutcomeIsStable(s: State)
    ensures ResolveOutcome(ApplyOutcome(s, ResolveOutcome(s))) == ResolveOutcome(s)
  {
    hide OutcomeOf, SomeToolFailed;
    SignalsSettle(SignalsOf(s));
  }

  // ------------------------------------------------------------------ attempt records

  function RecordFor(records: seq<DispatchRecord>, id: string): Option<DispatchRecord> {
    if records == [] then None
    else if records[|records| - 1].callId == id then Some(records[|records| - 1])
    else RecordFor(records[..|records| - 1], id)
  }

  function Summary(result: ToolResult, record: DispatchRecord): CallSummary {
    CallSummary(result.callId, result.tool, result.status, record.handlerEntered, record.stage, record.errorCode,
                record.stage == CacheReuse)
  }

  /** None when a result has no dispatch record. */
  function Summaries(results: seq<ToolResult>, records: seq<DispatchRecord>): Option<seq<CallSummary>> {
    if results == [] then Some([]) else
      var before := Summaries(results[..|results| - 1], records);
      var record := RecordFor(records, results[|results| - 1].callId);
      if before.None? || record.None? then None
      else Some(before.value + [Summary(results[|results| - 1], record.value)])
  }

  predicate UniqueRecords(records: seq<DispatchRecord>) {
    forall i, j | 0 <= i < j < |records| :: records[i].callId != records[j].callId
  }

  ghost predicate Matching(results: seq<ToolResult>, records: seq<DispatchRecord>) {
    |results| == |records| && forall i | 0 <= i < |results| :: results[i].callId == records[i].callId
  }

  lemma {:induction false} RecordIsFound(records: seq<DispatchRecord>, i: nat)
    requires UniqueRecords(records) && i < |records|
    ensures RecordFor(records, records[i].callId) == Some(records[i])
  {
    var n := |records| - 1;
    if i < n {
      assert records[i].callId != records[n].callId;
      RecordIsFound(records[..n], i);
    }
  }

  /** With matching and unique records every call is summarised by its own record, in order. */
  lemma {:induction false} SummariesExist(results: seq<ToolResult>, records: seq<DispatchRecord>, n: nat)
    requires Matching(results, records) && UniqueRecords(records) && n <= |results|
    ensures var r := Summaries(results[..n], records);
      r.Some? && |r.value| == n && forall i | 0 <= i < n :: r.value[i] == Summary(results[i], records[i])
  {
    if n > 0 {
      SummariesExist(results, records, n - 1);
      assert results[..n][..n - 1] == results[..n - 1];
      RecordIsFound(records, n - 1);
    }
  }
}
