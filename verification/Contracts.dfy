/** The immutable records exchanged between a run, its driver and the application,
    and the exceptions they raise. */
module Contracts {

  datatype Option<+T> = None | Some(value: T)

  /** What a call ends with: a value, or an exception. */
  datatype Outcome<+T> = Ok(value: T) | Raised(error: Error)

  /** A value whose Python type is checked at run time. */
  datatype Dynamic<+T> = Instance(value: T) | Foreign

  // ---------------------------------------------------------------- exceptions

  /** The exception classes the code distinguishes. */
  datatype ErrorClass =
    | PlainValueError
    | ContractError
    | ProposalRejected
    | InferenceRejected
    | InferenceFailure
    | BudgetExhausted
    | UnresolvedEffect
    | DispatchDenied
    | CancelledError
    | InferenceCancelled
    | TimeoutError
    | OtherError

  /** Why the library itself refuses a call. */
  datatype Reason =
    | RunEnded
    | RecoveryRequired
    | EffectUnknown
    | ClockMovedBackwards
    | WallTimeExhausted
    | BadGuardIdentities
    | ReservationRequired
    | ReservationUnexpected
    | CeilingMismatch
    | OutputUnsettled
    | OutputExceedsBudget
    | StaleRequest
    | EmptyOperationId
    | DuplicateKey
    | CapacityExhausted(resource: Resource)
    | WrongStage
    | WrongType
    | NotAnEvaluation
    | GuardNotRequired
    | GuardNotAllowed
    | OutputBreached
    | EvaluationUnbound
    | EvaluationIncomplete
    | StaleCandidate
    | NotAbandonable
    | BlankText
    | GrantsExpanded
    | StateSubstituted
    | AuthorityExpanded
    | AdapterUnbounded
    | PlanExpandsCeiling
    | ToolNotGranted
    | ToolNotRegistered
    | InvalidArguments
    | BadToolName
    | ContextBudgetNotPositive
    | ContextIdsRepeated
    | RequiredContextTooLong(id: string)

  /** ProcessDeath stands for the process ending on the spot: no handler runs. */
  datatype Error =
    | Refused(reason: Reason)
    | Thrown(kind: ErrorClass, name: TypeName, tag: nat, usage: Option<Dynamic<Usage>>)
    | ProcessDeath
  {
    function Class(): ErrorClass {
      match this
      case Thrown(kind, _, _, _) => kind
      case ProcessDeath => OtherError
      case Refused(reason) =>
        match reason
        case WallTimeExhausted => BudgetExhausted
        case OutputUnsettled => BudgetExhausted
        case OutputExceedsBudget => BudgetExhausted
        case CapacityExhausted(_) => BudgetExhausted
        case EffectUnknown => UnresolvedEffect
        case GuardNotAllowed => DispatchDenied
        case InvalidArguments => ProposalRejected
        case DuplicateKey => OtherError
        case NotAnEvaluation => OtherError
        case ContextBudgetNotPositive => PlainValueError
        case ContextIdsRepeated => PlainValueError
        case RequiredContextTooLong(_) => PlainValueError
        case _ => ContractError
    }

    /** The name of its Python type. */
    function Type(): TypeName {
      match this
      case Thrown(_, name, _, _) => name
      case ProcessDeath => DEATH_NAME
      case Refused(reason) =>
        match Class()
        case BudgetExhausted => BUDGET_NAME
        case UnresolvedEffect => EFFECT_NAME
        case DispatchDenied => DENIED_NAME
        case ProposalRejected => PROPOSAL_NAME
        case PlainValueError => VALUE_NAME
        case OtherError => if reason.DuplicateKey? then INTEGRITY_NAME else ATTRIBUTE_NAME
        case _ => CONTRACT_NAME
    }

    predicate IsValueError() {
      Class() !in {CancelledError, InferenceCancelled, TimeoutError, OtherError}
    }

    predicate IsInferenceRejected() { Class() == InferenceRejected }

    predicate IsProposalRejected() { Class() == ProposalRejected }

    /** InferenceFailure, its subclass InferenceRejected, and InferenceCancelled carry usage. */
    predicate CarriesUsage() {
      Thrown? && Class() in {InferenceFailure, InferenceRejected, InferenceCancelled} && usage.Some?
    }
  }

  /** type(error).__name__ */
  type TypeName = s: string | NonBlank(s) witness "E"

  const CONTRACT_NAME: TypeName := "ContractError"
  const BUDGET_NAME: TypeName := "BudgetExhausted"
  const EFFECT_NAME: TypeName := "UnresolvedEffect"
  const DENIED_NAME: TypeName := "DispatchDenied"
  const PROPOSAL_NAME: TypeName := "ProposalRejected"
  const VALUE_NAME: TypeName := "ValueError"
  const INTEGRITY_NAME: TypeName := "IntegrityError"
  const ATTRIBUTE_NAME: TypeName := "AttributeError"
  const TIMEOUT_NAME: TypeName := "TimeoutError"

  /** For the process's end, which leaves no record. */
  const DEATH_NAME: TypeName := "BaseException"

  // ------------------------------------------------------------------- records

  predicate IsSpace(c: char) {
    var n := c as int;
    0x09 <= n <= 0x0d || 0x1c <= n <= 0x20 || n in {0x85, 0xa0, 0x1680, 0x2028, 0x2029, 0x202f, 0x205f, 0x3000}
    || 0x2000 <= n <= 0x200a
  }

  /** str.strip() leaves something. */
  predicate NonBlank(s: string) {
    s != "" && (!IsSpace(s[0]) || NonBlank(s[1..]))
  }

  const INT64_BOUND: int := 0x8000_0000_0000_0000

  predicate SqliteCount(n: int) { 0 <= n < INT64_BOUND }

  datatype State = State(revision: int, value: string)

  datatype ToolCall = ToolCall(name: string, arguments: string)

  datatype ToolSpec = ToolSpec(name: string, description: string, parametersJson: string)

  datatype Invocation = Model | Scripted

  datatype UsageStatus = Known | Unknown | NotApplicable

  datatype InferenceUsage = InferenceUsage(
    kind: Invocation,
    status: UsageStatus,
    requestStarted: bool,
    provider: Option<string>,
    model: Option<string>,
    responseId: Option<string>,
    finishReason: Option<string>,
    inputTokens: Option<int>,
    outputTokens: Option<int>,
    responseModel: Option<string>,
    configurationSha256: Option<string>)
  {
    /** The constructor's checks: it raises exactly when this is false. */
    predicate Valid() {
      && Named(provider) && Named(model) && Named(responseId) && Named(finishReason) && Named(responseModel)
      && (configurationSha256.Some? ==> IsSha256(configurationSha256.value))
      && (inputTokens.Some? ==> SqliteCount(inputTokens.value))
      && (outputTokens.Some? ==> SqliteCount(outputTokens.value))
      && match kind
         case Scripted =>
           && status.NotApplicable? && !requestStarted
           && provider.None? && model.None? && responseId.None? && finishReason.None?
           && responseModel.None? && configurationSha256.None?
           && inputTokens.None? && outputTokens.None?
         case Model =>
           && provider.Some? && model.Some?
           && !status.NotApplicable?
           && (status.Known? <==> inputTokens.Some? && outputTokens.Some?)
           && (!requestStarted ==> inputTokens == Some(0) && outputTokens == Some(0))
    }
  }

  predicate Named(field: Option<string>) { field.Some? ==> NonBlank(field.value) }

  predicate IsSha256(digest: string) {
    |digest| == 64 && forall i :: 0 <= i < |digest| ==> digest[i] in "0123456789abcdef"
  }

  const SCRIPTED_USAGE: InferenceUsage :=
    InferenceUsage(Scripted, NotApplicable, false, None, None, None, None, None, None, None, None)

  /** A usage report that its constructor accepted. */
  type Usage = u: InferenceUsage | u.Valid() witness SCRIPTED_USAGE

  datatype OutputReservation = OutputReservation(kind: Invocation, tokens: int) {
    predicate Valid() { SqliteCount(tokens) && (kind.Scripted? <==> tokens == 0) }
  }

  type Reservation = r: OutputReservation | r.Valid() witness OutputReservation(Scripted, 0)

  /** limit and available are None in a run without an output cap. */
  datatype OutputBudget = OutputBudget(
    limit: Option<int>, available: Option<int>, spent: int, held: int, unresolved: int, breached: int)

  datatype InferenceResult = InferenceResult(call: Dynamic<ToolCall>, usage: Dynamic<Usage>)

  datatype InferenceRequest = InferenceRequest(
    objective: string,
    base: State,
    allowedTools: seq<string>,
    observation: Option<string>,
    tools: seq<ToolSpec>,
    maxOutputTokens: Option<int>)

  datatype Candidate = Candidate(id: string, base: State, call: ToolCall, output: string)

  datatype Verdict = Satisfied | Failed | Unavailable

  datatype Evaluation = Evaluation(
    candidate: Candidate, evaluator: string, scope: string, verdict: Verdict, reason: string,
    stateUpdate: Option<string>)
  {
    /** The state this evaluation publishes, if any. */
    function Published(): Option<string> {
      if verdict.Satisfied? then stateUpdate else None
    }
  }

  datatype StepResult = StepResult(candidate: Candidate, evaluation: Evaluation, state: State, committed: bool)

  datatype RawGuardDecision = GuardDecision(allowed: bool, reason: string) {
    predicate Valid() { NonBlank(reason) }
  }

  type GuardDecision = d: RawGuardDecision | d.Valid() witness RawGuardDecision.GuardDecision(false, "?")

  datatype Resource = InferenceUse | ToolUse | ExternalUse

  datatype RunLimits = RunLimits(
    inferenceCalls: int, toolCalls: int, externalActions: int,
    wallTimeSeconds: Option<real>, outputTokens: Option<int>)
  {
    predicate Valid() {
      && SqliteCount(inferenceCalls) && SqliteCount(toolCalls) && SqliteCount(externalActions)
      && (outputTokens.Some? ==> SqliteCount(outputTokens.value))
      && (wallTimeSeconds.Some? ==> wallTimeSeconds.value > 0.0)
    }

    function Of(resource: Resource): int {
      match resource
      case InferenceUse => inferenceCalls
      case ToolUse => toolCalls
      case ExternalUse => externalActions
    }
  }

  type Limits = l: RunLimits | l.Valid() witness RunLimits(0, 0, 0, None, None)

  datatype TerminationKind = Stopped | OutOfBudget | TimedOut | WasCancelled | DidFail

  /** The reason is the application's own words, or the type name of the exception that ended the session. */
  datatype SessionTermination = SessionTermination(kind: TerminationKind, reason: string, completedSteps: nat)

  /** A termination that its constructor accepted. */
  type Termination = t: SessionTermination | NonBlank(t.reason) witness SessionTermination(Stopped, "?", 0)

  /** A run's terminal outcome: the application's text, or the record a session leaves. */
  datatype Ending = ApplicationText(text: string) | SessionRecord(termination: Termination) {
    predicate Nonempty() { ApplicationText? ==> NonBlank(text) }
  }

  /** check_evaluation: the refusal, if any, of an evaluation offered for a candidate. */
  function CheckEvaluation(candidate: Candidate, evaluation: Evaluation): Option<Error> {
    if evaluation.candidate != candidate then Some(Refused(EvaluationUnbound))
    else if !NonBlank(evaluation.evaluator) || !NonBlank(evaluation.scope) || !NonBlank(evaluation.reason) then
      Some(Refused(EvaluationIncomplete))
    else None
  }

  /** White space is not what prints in ASCII, and all of ASCII's blanks, tabs, separators and line ends. */
  lemma AsciiSpaces(c: char)
    requires c as int < 0x80
    ensures IsSpace(c) <==> c in "\t\n\r " || c as int in {0x0b, 0x0c, 0x1c, 0x1d, 0x1e, 0x1f}
  {
  }

  /** A text is blank exactly when every character of it is white space. */
  lemma {:induction false} NonBlankHasText(s: string)
    ensures NonBlank(s) <==> exists i :: 0 <= i < |s| && !IsSpace(s[i])
  {
    if s != "" && IsSpace(s[0]) {
      NonBlankHasText(s[1..]);
      assert forall i :: 1 <= i < |s| ==> s[i] == s[1..][i - 1];
    }
  }

  /** An evaluation is refused as unbound unless it is of exactly this candidate, and then unless its evaluator, its scope
      and its reason all say something; its verdict and its state update are never looked at. */
  lemma EvaluationChecked(candidate: Candidate, evaluation: Evaluation)
    ensures CheckEvaluation(candidate, evaluation).None? <==>
      && evaluation.candidate == candidate
      && NonBlank(evaluation.evaluator) && NonBlank(evaluation.scope) && NonBlank(evaluation.reason)
    ensures evaluation.candidate != candidate ==> CheckEvaluation(candidate, evaluation) == Some(Refused(EvaluationUnbound))
    ensures var e := CheckEvaluation(candidate, evaluation);
      evaluation.candidate == candidate && e.Some? ==> e == Some(Refused(EvaluationIncomplete)) && e.value.Class() == ContractError
  {
  }

  /** The library's own refusals, by the name of the Python type that carries them. */
  lemma RefusalsByType(reason: Reason)
    ensures Refused(reason).Type() ==
      match reason
      case WallTimeExhausted | OutputUnsettled | OutputExceedsBudget | CapacityExhausted(_) => "BudgetExhausted"
      case EffectUnknown => "UnresolvedEffect"
      case GuardNotAllowed => "DispatchDenied"
      case InvalidArguments => "ProposalRejected"
      case DuplicateKey => "IntegrityError"
      case NotAnEvaluation => "AttributeError"
      case ContextBudgetNotPositive | ContextIdsRepeated | RequiredContextTooLong(_) => "ValueError"
      case _ => "ContractError"
    ensures Refused(reason).IsValueError() <==> !reason.DuplicateKey? && !reason.NotAnEvaluation?
    ensures !Refused(reason).CarriesUsage()
  {
  }

  /** Of what others raise, a cancellation, a timeout and foreign classes are no ValueError; exactly an inference failure,
      its rejection and a cancelled inference may carry a report. */
  lemma ThrownByKind(kind: ErrorClass, name: TypeName, tag: nat, usage: Option<Dynamic<Usage>>)
    ensures var e := Thrown(kind, name, tag, usage);
      && e.Class() == kind && e.Type() == name
      && (e.IsValueError() <==>
            kind == PlainValueError || kind == ContractError || kind == ProposalRejected || kind == InferenceRejected
            || kind == InferenceFailure || kind == BudgetExhausted || kind == UnresolvedEffect || kind == DispatchDenied)
      && (e.IsInferenceRejected() <==> kind == InferenceRejected) && (e.IsProposalRejected() <==> kind == ProposalRejected)
      && (e.CarriesUsage() <==>
            usage.Some? && (kind == InferenceFailure || kind == InferenceRejected || kind == InferenceCancelled))
  {
  }
}
