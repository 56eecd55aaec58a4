/** One run as a value: its derived reads, and what every transaction refuses or writes. */
module Journals {
  import opened Contracts
  import opened Tables
  import opened OutputBudgets

  // -------------------------------------------------------------- derived reads

  /** The commit with the greatest revision. */
  function NewestCommit(commits: seq<CommitRow>): Option<CommitRow> {
    if commits == [] then None
    else
      var n := |commits| - 1;
      var newest := NewestCommit(commits[..n]);
      if newest.None? || commits[n].revision > newest.value.revision then Some(commits[n]) else newest
  }

  function Read(j: Journal): State {
    match NewestCommit(j.commits)
    case Some(c) => State(c.revision, c.value)
    case None => State(0, j.initialState)
  }

  function LatestOutput(operations: seq<Operation>): Option<string> {
    if operations == [] then None
    else
      var op := operations[|operations| - 1];
      if op.observation && op.output.Some? then op.output else LatestOutput(operations[..|operations| - 1])
  }

  function LatestObservation(j: Journal): Option<string> {
    var latest := LatestOutput(j.operations);
    if latest.Some? then latest else j.initialObservation
  }

  function FirstOpen(operations: seq<Operation>): Option<Operation> {
    if operations == [] then None
    else
      var n := |operations| - 1;
      var first := FirstOpen(operations[..n]);
      if first.Some? then first else if operations[n].stage.Open() then Some(operations[n]) else None
  }

  function CandidateOf(op: Operation): Candidate {
    Candidate(op.id, op.request.base,
              if op.call.Some? then op.call.value else ToolCall("", ""),
              if op.output.Some? then op.output.value else "")
  }

  datatype PendingOperation = PendingOperation(id: string, stage: Stage, candidate: Option<Candidate>)

  function Pending(j: Journal): Option<PendingOperation> {
    match FirstOpen(j.operations)
    case None => None
    case Some(op) =>
      Some(PendingOperation(op.id, op.stage, if op.stage.Returned? then Some(CandidateOf(op)) else None))
  }

  function Remaining(j: Journal, resource: Resource): int {
    j.limits.Of(resource) - CountOf(j.reservations, resource)
  }

  function CompletedIn(operations: seq<Operation>): nat {
    if operations == [] then 0
    else
      var n := |operations| - 1;
      CompletedIn(operations[..n]) + if operations[n].stage.Completed? then 1 else 0
  }

  function Budget(j: Journal): OutputBudget { BudgetOf(j.limits.outputTokens, j.outputs, j.usage) }

  // --------------------------------------------------------------------- clocks

  datatype Now = Now(wall: real, monotonic: real)

  /** Stands for the clock in calls that do not read it. */
  const UNREAD: Now := Now(0.0, 0.0)

  function Max(a: real, b: real): real { if a < b then b else a }

  /** seconds_remaining, for an owner holding the given monotonic deadline. */
  function SecondsRemaining(deadline: Option<real>, now: Now): Option<real> {
    if deadline.None? then None else Some(Max(0.0, deadline.value - now.monotonic))
  }

  /** _bind_clock: refused when the wall clock is behind the journal. */
  function BoundDeadline(j: Journal, now: Now): Outcome<Option<real>> {
    if now.wall < j.lastClock then Raised(Refused(ClockMovedBackwards))
    else if j.deadline.None? then Ok(None)
    else Ok(Some(now.monotonic + Max(0.0, j.deadline.value - now.wall)))
  }

  // -------------------------------------------------------------------- actions

  /** One call on the store that may change the tables. */
  datatype Action =
    | Start(id: string, request: InferenceRequest, reservation: Option<Reservation>, guards: seq<string>)
    | RecordGuard(id: string, guard: string, decision: GuardDecision)
    | RecordEvent(id: string, stage: string, detail: string)
    | RecordUsage(id: string, usage: Usage)
    | Propose(id: string, call: ToolCall)
    | Dispatch(id: string, observation: bool, external: bool)
    | Return(id: string, output: string)
    | Complete(evaluation: Evaluation)
    | Fail(id: string, error: string)
    | Abandon(id: string)
    | Finish(outcome: Ending)

  predicate Distinct<T(==)>(s: seq<T>) {
    forall i, k :: 0 <= i < k < |s| ==> s[i] != s[k]
  }

  predicate GuardIdentities(guards: seq<string>) {
    (forall i :: 0 <= i < |guards| ==> NonBlank(guards[i])) && Distinct(guards)
  }

  function Ready(j: Journal): Option<Error> {
    if j.outcome.Some? then Some(Refused(RunEnded))
    else
      match Pending(j)
      case None => None
      case Some(p) => Some(Refused(if p.stage.Dispatched? then EffectUnknown else RecoveryRequired))
  }

  function OnTime(j: Journal, deadline: Option<real>, now: Now): Option<Error> {
    if j.outcome.Some? then Some(Refused(RunEnded))
    else if now.wall < j.lastClock then Some(Refused(ClockMovedBackwards))
    else if SecondsRemaining(deadline, now) == Some(0.0) then Some(Refused(WallTimeExhausted))
    else None
  }

  /** Admission of a new operation's output reservation. */
  function Admission(budget: OutputBudget, request: InferenceRequest, output: Option<Reservation>): Option<Error> {
    match budget.limit
    case None => if output.Some? then Some(Refused(ReservationUnexpected)) else None
    case Some(_) =>
      if output.None? then Some(Refused(ReservationRequired))
      else if request.maxOutputTokens != Some(output.value.tokens) then Some(Refused(CeilingMismatch))
      else if output.value.kind.Scripted? then None
      else if budget.unresolved != 0 || budget.breached != 0 then Some(Refused(OutputUnsettled))
      else if budget.available.None? || output.value.tokens > budget.available.value then
        Some(Refused(OutputExceedsBudget))
      else None
  }

  function Standing(j: Journal, id: string, stage: Stage): Option<Error> {
    match Find(j.operations, id)
    case None => Some(Refused(WrongStage))
    case Some(i) => if j.operations[i].stage == stage then None else Some(Refused(WrongStage))
  }

  function Reserving(j: Journal, id: string, resource: Resource): Option<Error> {
    if Remaining(j, resource) <= 0 then Some(Refused(CapacityExhausted(resource)))
    else if ReservationRow(id, resource) in j.reservations then Some(Refused(DuplicateKey))
    else None
  }

  /** Every guard required of the operation has a recorded decision that allows it. */
  predicate GuardsAllow(requirements: seq<RequirementRow>, decisions: seq<DecisionRow>, id: string) {
    forall row :: row in requirements && row.operation == id ==>
      var d := DecisionOf(decisions, id, row.guard); d.Some? && d.value.allowed
  }

  /** The first error that holds, in order. */
  function First(a: Option<Error>, b: Option<Error>): Option<Error> { if a.Some? then a else b }

  function Refuse(condition: bool, reason: Reason): Option<Error> {
    if condition then Some(Refused(reason)) else None
  }

  function IsOpen(j: Journal): Option<Error> { Refuse(j.outcome.Some?, RunEnded) }

  function CompleteRefusal(j: Journal, evaluation: Evaluation): Option<Error> {
    match Find(j.operations, evaluation.candidate.id)
    case None => Some(Refused(WrongStage))
    case Some(i) =>
      var op := j.operations[i];
      if !op.stage.Returned? then Some(Refused(WrongStage))
      else
        First(CheckEvaluation(CandidateOf(op), evaluation),
        First(Refuse(Read(j) != op.request.base, StaleCandidate),
              Refuse(EvaluationOf(j.evaluations, op.id).Some? || exists c :: c in j.commits && c.operation == op.id,
                     DuplicateKey)))
  }

  function StartRefusal(j: Journal, deadline: Option<real>, now: Now, id: string, request: InferenceRequest,
                        reservation: Option<Reservation>, guards: seq<string>): Option<Error>
  {
    First(Refuse(!GuardIdentities(guards), BadGuardIdentities),
    First(Ready(j),
    First(OnTime(j, deadline, now),
    First(Admission(Budget(j), request, reservation),
    First(Refuse(request.base != Read(j), StaleRequest),
    First(Refuse(id == "", EmptyOperationId),
    First(Refuse(Find(j.operations, id).Some?, DuplicateKey),
          Reserving(j, id, InferenceUse))))))))
  }

  function GuardRefusal(j: Journal, id: string, guard: string): Option<Error> {
    First(IsOpen(j),
    First(Standing(j, id, Proposed),
    First(Refuse(RequirementRow(id, guard) !in j.requirements, GuardNotRequired),
          Refuse(DecisionOf(j.decisions, id, guard).Some?, DuplicateKey))))
  }

  function UsageRefusal(j: Journal, id: string): Option<Error> {
    First(IsOpen(j), First(Standing(j, id, Inference), Refuse(UsageOf(j.usage, id).Some?, DuplicateKey)))
  }

  function DispatchRefusal(j: Journal, deadline: Option<real>, now: Now, id: string, external: bool): Option<Error> {
    First(OnTime(j, deadline, now),
    First(Standing(j, id, Proposed),
    First(Refuse(!GuardsAllow(j.requirements, j.decisions, id), GuardNotAllowed),
    First(Reserving(j, id, ToolUse),
          if external then Reserving(j, id, ExternalUse) else None))))
  }

  function AbandonRefusal(j: Journal, id: string): Option<Error> {
    First(IsOpen(j),
      match Find(j.operations, id)
      case None => Some(Refused(WrongStage))
      case Some(i) => Refuse(!j.operations[i].stage.PreDispatch(), NotAbandonable))
  }

  /** The exception that rolls the transaction back, if any. deadline is the owner's monotonic deadline. */
  function Refusal(j: Journal, deadline: Option<real>, now: Now, a: Action): Option<Error> {
    match a
    case Start(id, request, reservation, guards) => StartRefusal(j, deadline, now, id, request, reservation, guards)
    case RecordGuard(id, guard, _) => GuardRefusal(j, id, guard)
    case RecordEvent(id, stage, _) =>
      First(Refuse(stage == "", WrongType),
      First(IsOpen(j), Refuse(Find(j.operations, id).None?, WrongStage)))
    case RecordUsage(id, _) => UsageRefusal(j, id)
    case Propose(id, _) => First(IsOpen(j), Standing(j, id, Inference))
    case Dispatch(id, _, external) => DispatchRefusal(j, deadline, now, id, external)
    case Return(id, _) => Standing(j, id, Dispatched)
    case Complete(evaluation) => First(OnTime(j, deadline, now), CompleteRefusal(j, evaluation))
    case Fail(id, _) => Refuse(Find(j.operations, id).None?, WrongStage)
    case Abandon(id) => AbandonRefusal(j, id)
    case Finish(outcome) => First(Refuse(!outcome.Nonempty(), BlankText), IsOpen(j))
  }

  /** The new row of an operation; other operations keep theirs. */
  function Rewrite(op: Operation, a: Action): Operation {
    match a
    case Propose(_, call) => op.(stage := Proposed, call := Some(call))
    case Dispatch(_, observation, _) => op.(stage := Dispatched, observation := observation)
    case Return(_, output) => op.(stage := Returned, output := Some(output))
    case Complete(_) => op.(stage := Completed)
    case Fail(_, error) => op.(stage := if op.stage.PreDispatch() then Stage.Failed else op.stage, error := Some(error))
    case Abandon(_) => op.(stage := Stage.Failed, error := Some("recovered before dispatch"))
    case _ => op
  }

  function RewriteOf(operations: seq<Operation>, id: string, a: Action): seq<Operation> {
    match Find(operations, id)
    case None => operations
    case Some(i) => operations[i := Rewrite(operations[i], a)]
  }

  function RequirementRows(id: string, guards: seq<string>): seq<RequirementRow> {
    seq(|guards|, i requires 0 <= i < |guards| => RequirementRow(id, guards[i]))
  }

  function Started(j: Journal, now: Now, id: string, request: InferenceRequest,
                   reservation: Option<Reservation>, guards: seq<string>): Journal
  {
    j.(lastClock := now.wall,
       operations := j.operations + [Operation(id, Inference, request, None, false, None, None)],
       requirements := j.requirements + RequirementRows(id, guards),
       reservations := j.reservations + [ReservationRow(id, InferenceUse)],
       outputs := j.outputs + if reservation.Some? then [OutputRow(id, reservation.value)] else [])
  }

  function DispatchRows(id: string, external: bool): seq<ReservationRow> {
    [ReservationRow(id, ToolUse)] + if external then [ReservationRow(id, ExternalUse)] else []
  }

  function CommitRows(current: State, evaluation: Evaluation): seq<CommitRow> {
    match evaluation.Published()
    case Some(value) =>
      [CommitRow(current.revision + 1, evaluation.candidate.id, evaluation.candidate.base.revision, value)]
    case None => []
  }

  /** The tables after a transaction that was not refused. */
  function Effect(j: Journal, now: Now, a: Action): Journal {
    match a
    case Start(id, request, reservation, guards) => Started(j, now, id, request, reservation, guards)
    case RecordGuard(id, guard, decision) => j.(decisions := j.decisions + [DecisionRow(id, guard, decision)])
    case RecordEvent(id, stage, detail) => j.(events := j.events + [EventRow(id, stage, detail)])
    case RecordUsage(id, usage) => j.(usage := j.usage + [UsageRow(id, usage)])
    case Propose(id, _) => j.(operations := RewriteOf(j.operations, id, a))
    case Dispatch(id, _, external) =>
      j.(lastClock := now.wall,
         operations := RewriteOf(j.operations, id, a),
         reservations := j.reservations + DispatchRows(id, external))
    case Return(id, _) => j.(operations := RewriteOf(j.operations, id, a))
    case Complete(evaluation) =>
      j.(lastClock := now.wall,
         operations := RewriteOf(j.operations, evaluation.candidate.id, a),
         evaluations := j.evaluations + [EvaluationRow(evaluation.candidate.id, evaluation)],
         commits := j.commits + CommitRows(Read(j), evaluation))
    case Fail(id, _) => j.(operations := RewriteOf(j.operations, id, a))
    case Abandon(id) => j.(operations := RewriteOf(j.operations, id, a))
    case Finish(outcome) => j.(outcome := Some(outcome))
  }

  /** A refused transaction writes nothing. */
  function Apply(j: Journal, deadline: Option<real>, now: Now, a: Action): Journal {
    if Refusal(j, deadline, now, a).Some? then j else Effect(j, now, a)
  }

  /** record_usage keeps its report and then still raises when the reservation is breached. */
  predicate Breaches(j: Journal, id: string, usage: Usage) {
    var reserved := OutputOf(j.outputs, id);
    reserved.Some? && (usage.kind != reserved.value.kind || Tokens(usage) > reserved.value.tokens)
  }

  /** The exception a caller sees, if any. */
  function Complaint(j: Journal, deadline: Option<real>, now: Now, a: Action): Option<Error> {
    First(Refusal(j, deadline, now, a),
          if a.RecordUsage? then Refuse(Breaches(j, a.id, a.usage), OutputBreached) else None)
  }

  // ------------------------------------------------------------------ new runs

  function Create(initialState: string, initialObservation: Option<string>, limits: Limits, now: Now): Journal {
    Journal(initialState, initialObservation, limits,
            if limits.wallTimeSeconds.None? then None else Some(now.wall + limits.wallTimeSeconds.value),
            now.wall, None, [], [], [], [], [], [], [], [], [])
  }
}
