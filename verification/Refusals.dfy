/** What every store call refuses and writes, read off the rows of the tables. In a file that satisfies the invariant a
    call raises exactly the first of these grounds that holds, and nothing else. */
module Refusals {
  import opened Contracts
  import opened Tables
  import opened OutputBudgets
  import opened Journals
  import opened Invariants
  import Preservation
  import Publishing
  import Workings

  // ------------------------------------------------------------- rows of the tables

  ghost predicate Exists(j: Journal, id: string) { exists op :: op in j.operations && op.id == id }

  ghost predicate Stands(j: Journal, id: string, stage: Stage) {
    exists op :: op in j.operations && op.id == id && op.stage == stage
  }

  ghost predicate Anywhere(j: Journal, stage: Stage) { exists op :: op in j.operations && op.stage == stage }

  /** The newest decision of the guard allows the operation. */
  ghost predicate Allowed(decisions: seq<DecisionRow>, id: string, guard: string) {
    exists i :: 0 <= i < |decisions| && decisions[i].operation == id && decisions[i].guard == guard
      && decisions[i].decision.allowed
      && forall k :: i < k < |decisions| ==> !(decisions[k].operation == id && decisions[k].guard == guard)
  }

  function TakenAt(rows: seq<ReservationRow>, resource: Resource): set<int> {
    set i | 0 <= i < |rows| && rows[i].resource == resource
  }

  /** As many rows of the table reserve the resource. */
  function Taken(rows: seq<ReservationRow>, resource: Resource): nat { |TakenAt(rows, resource)| }

  lemma TakenNext(rows: seq<ReservationRow>, resource: Resource)
    requires rows != []
    ensures var n := |rows| - 1;
      && n !in TakenAt(rows[..n], resource)
      && TakenAt(rows, resource) == TakenAt(rows[..n], resource) + if rows[n].resource == resource then {n} else {}
  {
    var n := |rows| - 1;
    forall i ensures i in TakenAt(rows, resource) <==> i in TakenAt(rows[..n], resource) || (i == n && rows[n].resource == resource) {
      if 0 <= i < n {
        assert rows[..n][i] == rows[i];
      }
    }
  }

  lemma {:induction false} CountIsTaken(rows: seq<ReservationRow>, resource: Resource)
    ensures CountOf(rows, resource) == Taken(rows, resource)
  {
    if rows != [] {
      hide TakenAt;
      CountIsTaken(rows[..|rows| - 1], resource);
      TakenNext(rows, resource);
    }
  }

  /** What remains of a resource is its limit less the rows that reserve it. */
  lemma RemainingIsExact(j: Journal)
    ensures Remaining(j, InferenceUse) == j.limits.inferenceCalls - Taken(j.reservations, InferenceUse)
    ensures Remaining(j, ToolUse) == j.limits.toolCalls - Taken(j.reservations, ToolUse)
    ensures Remaining(j, ExternalUse) == j.limits.externalActions - Taken(j.reservations, ExternalUse)
  {
    hide CountOf, Taken;
    CountIsTaken(j.reservations, InferenceUse);
    CountIsTaken(j.reservations, ToolUse);
    CountIsTaken(j.reservations, ExternalUse);
  }

  function AtStages(operations: seq<Operation>, stages: set<Stage>): set<int> {
    set i | 0 <= i < |operations| && operations[i].stage in stages
  }

  lemma AtStagesNext(operations: seq<Operation>, stages: set<Stage>)
    requires operations != []
    ensures var n := |operations| - 1;
      && n !in AtStages(operations[..n], stages)
      && AtStages(operations, stages) == AtStages(operations[..n], stages) + if operations[n].stage in stages then {n} else {}
  {
    var n := |operations| - 1;
    forall i
      ensures i in AtStages(operations, stages) <==>
        i in AtStages(operations[..n], stages) || (i == n && operations[n].stage in stages)
    {
      if 0 <= i < n {
        assert operations[..n][i] == operations[i];
      }
    }
  }

  /** The two counts of operations are the numbers of rows at those stages. */
  lemma {:induction false} CountedByStage(operations: seq<Operation>)
    ensures CompletedIn(operations) == |AtStages(operations, {Completed})|
    ensures DispatchedIn(operations) == |AtStages(operations, {Dispatched, Returned, Completed})|
  {
    if operations != [] {
      hide AtStages;
      CountedByStage(operations[..|operations| - 1]);
      AtStagesNext(operations, {Completed});
      AtStagesNext(operations, {Dispatched, Returned, Completed});
    }
  }

  lemma DecisionKnown(decisions: seq<DecisionRow>, id: string, guard: string)
    ensures DecisionOf(decisions, id, guard).Some? <==>
      exists row :: row in decisions && row.operation == id && row.guard == guard
  {
    if row :| row in decisions && row.operation == id && row.guard == guard {
      DecisionFound(decisions, row);
    }
    if DecisionOf(decisions, id, guard).Some? {
      Workings.DecisionKnown(decisions, id, guard);
    }
  }

  lemma {:induction false} DecisionFound(decisions: seq<DecisionRow>, row: DecisionRow)
    requires row in decisions
    ensures DecisionOf(decisions, row.operation, row.guard).Some?
  {
    var n := |decisions| - 1;
    if decisions[n] != row {
      assert row in decisions[..n];
      DecisionFound(decisions[..n], row);
    }
  }

  lemma {:induction false} DecisionIsNewest(decisions: seq<DecisionRow>, id: string, guard: string)
    ensures DecisionOf(decisions, id, guard).Some? && DecisionOf(decisions, id, guard).value.allowed <==>
      Allowed(decisions, id, guard)
  {
    if decisions != [] {
      var n := |decisions| - 1;
      DecisionIsNewest(decisions[..n], id, guard);
      assert decisions == decisions[..n] + [decisions[n]];
      AllowedNext(decisions[..n], decisions[n], id, guard);
    }
  }

  lemma AllowedNext(decisions: seq<DecisionRow>, row: DecisionRow, id: string, guard: string)
    ensures Allowed(decisions + [row], id, guard)
       <==> if row.operation == id && row.guard == guard then row.decision.allowed else Allowed(decisions, id, guard)
  {
    var n, all := |decisions|, decisions + [row];
    assert all[n] == row && forall k :: 0 <= k < n ==> all[k] == decisions[k];
  }

  lemma StandsExactly(j: Journal, id: string, stage: Stage)
    requires UniqueIds(j.operations)
    ensures Standing(j, id, stage) == (if Stands(j, id, stage) then None else Some(Refused(WrongStage)))
    ensures Find(j.operations, id).Some? <==> Exists(j, id)
  {
    if Exists(j, id) {
      var i :| 0 <= i < |j.operations| && j.operations[i].id == id;
      FindUnique(j.operations, i);
    }
    if Stands(j, id, stage) {
      var i :| 0 <= i < |j.operations| && j.operations[i].id == id && j.operations[i].stage == stage;
      FindUnique(j.operations, i);
    }
  }

  // -------------------------------------------------------------------- the grounds

  ghost function Ended(j: Journal): Option<Reason> { if j.outcome.Some? then Some(RunEnded) else None }

  ghost function Else(first: Option<Reason>, second: Option<Reason>): Option<Reason> {
    if first.Some? then first else second
  }

  /** A new operation waits for the open one: an unknown effect needs evidence, anything else a recovery. */
  ghost function Waiting(j: Journal): Option<Reason> {
    if Anywhere(j, Dispatched) then Some(EffectUnknown)
    else if Anywhere(j, Inference) || Anywhere(j, Proposed) || Anywhere(j, Returned) then Some(RecoveryRequired)
    else None
  }

  ghost function OutOfTime(j: Journal, deadline: Option<real>, now: Now): Option<Reason> {
    if now.wall < j.lastClock then Some(ClockMovedBackwards)
    else if deadline.Some? && deadline.value <= now.monotonic then Some(WallTimeExhausted)
    else None
  }

  /** A model reservation has to fit the cap with the output reported so far, once every earlier one is settled. */
  ghost function Unaffordable(j: Journal, request: InferenceRequest, reservation: Option<Reservation>): Option<Reason> {
    if j.limits.outputTokens.None? then if reservation.Some? then Some(ReservationUnexpected) else None
    else if reservation.None? then Some(ReservationRequired)
    else if request.maxOutputTokens != Some(reservation.value.tokens) then Some(CeilingMismatch)
    else if reservation.value.kind == Scripted then None
    else if exists row :: row in j.outputs && !Clear(row, j.usage) then Some(OutputUnsettled)
    else if KnownOutput(j.usage) + reservation.value.tokens > j.limits.outputTokens.value then Some(OutputExceedsBudget)
    else None
  }

  ghost predicate BadGuards(guards: seq<string>) {
    exists i :: 0 <= i < |guards| && (!NonBlank(guards[i]) || exists k :: 0 <= k < i && guards[k] == guards[i])
  }

  ghost function StartGround(j: Journal, deadline: Option<real>, now: Now, id: string, request: InferenceRequest,
                             reservation: Option<Reservation>, guards: seq<string>): Option<Reason>
  {
    if BadGuards(guards) then Some(BadGuardIdentities)
    else
      Else(Ended(j), Else(Waiting(j), Else(OutOfTime(j, deadline, now), Else(Unaffordable(j, request, reservation),
        if request.base != Read(j) then Some(StaleRequest)
        else if id == "" then Some(EmptyOperationId)
        else if Exists(j, id) then Some(DuplicateKey)
        else if |j.operations| >= j.limits.inferenceCalls then Some(CapacityExhausted(InferenceUse))
        else None))))
  }

  ghost function DispatchGround(j: Journal, deadline: Option<real>, now: Now, id: string, external: bool): Option<Reason> {
    Else(Ended(j), Else(OutOfTime(j, deadline, now),
      if !Stands(j, id, Proposed) then Some(WrongStage)
      else if exists row :: row in j.requirements && row.operation == id && !Allowed(j.decisions, id, row.guard) then
        Some(GuardNotAllowed)
      else if DispatchedIn(j.operations) >= j.limits.toolCalls then Some(CapacityExhausted(ToolUse))
      else if external && Taken(j.reservations, ExternalUse) >= j.limits.externalActions then
        Some(CapacityExhausted(ExternalUse))
      else None))
  }

  /** The candidate is the returned operation itself: its identity, base, call and output. */
  ghost predicate IsCandidate(j: Journal, candidate: Candidate) {
    exists op :: op in j.operations && op.stage == Returned && op.id == candidate.id && op.request.base == candidate.base
      && op.call == Some(candidate.call) && op.output == Some(candidate.output)
  }

  ghost function CompleteGround(j: Journal, deadline: Option<real>, now: Now, evaluation: Evaluation): Option<Reason> {
    Else(Ended(j), Else(OutOfTime(j, deadline, now),
      if !Stands(j, evaluation.candidate.id, Returned) then Some(WrongStage)
      else if !IsCandidate(j, evaluation.candidate) then Some(EvaluationUnbound)
      else if !NonBlank(evaluation.evaluator) || !NonBlank(evaluation.scope) || !NonBlank(evaluation.reason) then
        Some(EvaluationIncomplete)
      else None))
  }

  ghost function Ground(j: Journal, deadline: Option<real>, now: Now, a: Action): Option<Reason> {
    match a
    case Start(id, request, reservation, guards) => StartGround(j, deadline, now, id, request, reservation, guards)
    case RecordGuard(id, guard, _) =>
      Else(Ended(j),
        if !Stands(j, id, Proposed) then Some(WrongStage)
        else if RequirementRow(id, guard) !in j.requirements then Some(GuardNotRequired)
        else if exists row :: row in j.decisions && row.operation == id && row.guard == guard then Some(DuplicateKey)
        else None)
    case RecordEvent(id, stage, _) =>
      if stage == "" then Some(WrongType) else Else(Ended(j), if Exists(j, id) then None else Some(WrongStage))
    case RecordUsage(id, _) =>
      Else(Ended(j),
        if !Stands(j, id, Inference) then Some(WrongStage)
        else if exists row :: row in j.usage && row.operation == id then Some(DuplicateKey)
        else None)
    case Propose(id, _) => Else(Ended(j), if Stands(j, id, Inference) then None else Some(WrongStage))
    case Dispatch(id, _, external) => DispatchGround(j, deadline, now, id, external)
    case Return(id, _) => if Stands(j, id, Dispatched) then None else Some(WrongStage)
    case Complete(evaluation) => CompleteGround(j, deadline, now, evaluation)
    case Fail(id, _) => if Exists(j, id) then None else Some(WrongStage)
    case Abandon(id) =>
      Else(Ended(j),
        if !Exists(j, id) then Some(WrongStage)
        else if !Stands(j, id, Inference) && !Stands(j, id, Proposed) then Some(NotAbandonable)
        else None)
    case Finish(outcome) =>
      if outcome.ApplicationText? && !NonBlank(outcome.text) then Some(BlankText) else Ended(j)
  }

  ghost function Raises(ground: Option<Reason>): Option<Error> { if ground.Some? then Some(Refused(ground.value)) else None }

  /** A call raises exactly the first ground that holds, and none when none does. */
  lemma RefusedExactly(j: Journal, deadline: Option<real>, now: Now, a: Action)
    requires Valid(j)
    ensures Refusal(j, deadline, now, a) == Raises(Ground(j, deadline, now, a))
  {
    hide Valid, StartRefusal, StartGround, DispatchRefusal, DispatchGround, CompleteRefusal, CompleteGround, Standing, Stands,
      Find, DecisionOf, UsageOf, Exists, OnTime, OutOfTime;
    IdsWhenValid(j);
    match a
    case Start(id, request, reservation, guards) => StartGrounds(j, deadline, now, id, request, reservation, guards);
    case Dispatch(id, _, external) => DispatchGrounds(j, deadline, now, id, external);
    case Complete(evaluation) => CompleteGrounds(j, deadline, now, evaluation);
    case _ => NoteGrounds(j, deadline, now, a);
  }

  lemma NoteGrounds(j: Journal, deadline: Option<real>, now: Now, a: Action)
    requires UniqueIds(j.operations) && !a.Start? && !a.Dispatch? && !a.Complete?
    ensures Refusal(j, deadline, now, a) == Raises(Ground(j, deadline, now, a))
  {
    hide Standing, Stands, Find, DecisionOf, UsageOf, Exists;
    match a
    case RecordGuard(id, guard, _) =>
      StandsExactly(j, id, Proposed);
      DecisionKnown(j.decisions, id, guard);
    case RecordUsage(id, _) =>
      StandsExactly(j, id, Inference);
      Preservation.UsageKnown(j.usage, id);
    case RecordEvent(id, _, _) => StandsExactly(j, id, Inference);
    case Propose(id, _) => StandsExactly(j, id, Inference);
    case Return(id, _) => StandsExactly(j, id, Dispatched);
    case Fail(id, _) => StandsExactly(j, id, Inference);
    case Abandon(id) => AbandonGrounds(j, id);
    case Finish(_) =>
  }

  lemma AbandonGrounds(j: Journal, id: string)
    requires UniqueIds(j.operations)
    ensures AbandonRefusal(j, id) == Raises(Ground(j, None, UNREAD, Abandon(id)))
  {
    hide Find, Stands, Exists;
    StandsExactly(j, id, Inference);
    StandsExactly(j, id, Proposed);
  }

  lemma TimeGrounds(j: Journal, deadline: Option<real>, now: Now)
    ensures OnTime(j, deadline, now) == Raises(Else(Ended(j), OutOfTime(j, deadline, now)))
  {
  }

  lemma ReadyGrounds(j: Journal)
    requires OnlyLastOpen(j.operations)
    ensures Ready(j) == Raises(Else(Ended(j), Waiting(j)))
  {
    Preservation.NothingOpen(j.operations);
    if i: nat :| i < |j.operations| && j.operations[i].stage.Open() {
      Publishing.FirstOpenIsLast(j.operations, i);
      assert forall op :: op in j.operations && op.stage.Open() ==> op == j.operations[i];
    }
  }

  lemma GuardGrounds(guards: seq<string>)
    ensures GuardIdentities(guards) <==> !BadGuards(guards)
  {
    if !Distinct(guards) {
      var k, i :| 0 <= k < i < |guards| && guards[k] == guards[i];
      assert exists k :: 0 <= k < i && guards[k] == guards[i];
    }
  }

  lemma AdmissionGrounds(j: Journal, request: InferenceRequest, reservation: Option<Reservation>)
    requires Settles(j.limits.outputTokens, j.outputs, j.usage)
    ensures Admission(Budget(j), request, reservation) == Raises(Unaffordable(j, request, reservation))
  {
    hide TallyOf, EarlierSettled, KnownOutput, UsageOf;
    CountersMeaning(j.outputs, j.usage);
    TallyNonNegative(j.outputs, j.usage);
    if forall row :: row in j.outputs ==> Clear(row, j.usage) {
      assert AllWithin(j.outputs, j.usage);
      ClearHoldsNothing(j.outputs, j.usage);
    }
  }

  lemma StartGrounds(j: Journal, deadline: Option<real>, now: Now, id: string, request: InferenceRequest,
                     reservation: Option<Reservation>, guards: seq<string>)
    requires Valid(j)
    ensures StartRefusal(j, deadline, now, id, request, reservation, guards)
         == Raises(StartGround(j, deadline, now, id, request, reservation, guards))
  {
    hide Valid, GuardIdentities, BadGuards, Ready, Waiting, OnTime, OutOfTime, Admission, Unaffordable, Find, Exists, Read,
      Reserving;
    IdsWhenValid(j);
    GuardGrounds(guards);
    ReadyGrounds(j);
    TimeGrounds(j, deadline, now);
    AdmissionWhenValid(j, request, reservation);
    StandsExactly(j, id, Inference);
    if !Exists(j, id) {
      InferenceGrounds(j, id);
    }
  }

  lemma AdmissionWhenValid(j: Journal, request: InferenceRequest, reservation: Option<Reservation>)
    requires Valid(j)
    ensures Admission(Budget(j), request, reservation) == Raises(Unaffordable(j, request, reservation))
  {
    hide Settles, Admission, Unaffordable;
    AdmissionGrounds(j, request, reservation);
  }

  lemma InferenceGrounds(j: Journal, id: string)
    requires Valid(j) && !Exists(j, id)
    ensures Reserving(j, id, InferenceUse)
         == if |j.operations| >= j.limits.inferenceCalls then Some(Refused(CapacityExhausted(InferenceUse))) else None
  {
    hide Valid;
    ReservedWhenValid(j);
  }

  lemma DispatchGrounds(j: Journal, deadline: Option<real>, now: Now, id: string, external: bool)
    requires Valid(j)
    ensures DispatchRefusal(j, deadline, now, id, external) == Raises(DispatchGround(j, deadline, now, id, external))
  {
    hide Valid, OnTime, OutOfTime, Stands, Standing, GuardsAllow, Allowed, Taken, CountOf, DispatchedIn, Find, Reserved;
    IdsWhenValid(j);
    TimeGrounds(j, deadline, now);
    StandsExactly(j, id, Proposed);
    DecisionGrounds(j, id);
    if Stands(j, id, Proposed) {
      ToolGrounds(j, id);
    }
  }

  lemma DecisionGrounds(j: Journal, id: string)
    ensures GuardsAllow(j.requirements, j.decisions, id) <==>
      !exists row :: row in j.requirements && row.operation == id && !Allowed(j.decisions, id, row.guard)
  {
    hide DecisionOf, Allowed;
    forall guard
      ensures DecisionOf(j.decisions, id, guard).Some? && DecisionOf(j.decisions, id, guard).value.allowed <==>
        Allowed(j.decisions, id, guard)
    {
      DecisionIsNewest(j.decisions, id, guard);
    }
  }

  lemma ToolGrounds(j: Journal, id: string)
    requires Valid(j) && Stands(j, id, Proposed)
    ensures Reserving(j, id, ToolUse)
         == if DispatchedIn(j.operations) >= j.limits.toolCalls then Some(Refused(CapacityExhausted(ToolUse))) else None
    ensures Reserving(j, id, ExternalUse)
         == if Taken(j.reservations, ExternalUse) >= j.limits.externalActions then Some(Refused(CapacityExhausted(ExternalUse)))
            else None
  {
    hide Valid, CountOf, Taken, DispatchedIn;
    ReservedWhenValid(j);
    CountIsTaken(j.reservations, ExternalUse);
    var i :| 0 <= i < |j.operations| && j.operations[i].id == id && j.operations[i].stage == Proposed;
    assert ReservedRow(j.operations[i], j.reservations);
  }

  lemma CompleteGrounds(j: Journal, deadline: Option<real>, now: Now, evaluation: Evaluation)
    requires Valid(j)
    ensures First(OnTime(j, deadline, now), CompleteRefusal(j, evaluation))
         == Raises(CompleteGround(j, deadline, now, evaluation))
  {
    hide Valid, OnTime, OutOfTime, CompleteRefusal, IsCandidate, Find, CheckEvaluation, NonBlank;
    IdsWhenValid(j);
    TimeGrounds(j, deadline, now);
    Publishing.CompleteNeverStale(j, evaluation);
    StandsExactly(j, evaluation.candidate.id, Returned);
    var found := Find(j.operations, evaluation.candidate.id);
    if found.Some? && j.operations[found.value].stage.Returned? {
      CandidateGrounds(j, found.value, evaluation.candidate);
      EvaluationChecked(CandidateOf(j.operations[found.value]), evaluation);
    }
  }

  lemma CandidateGrounds(j: Journal, i: nat, candidate: Candidate)
    requires Valid(j) && i < |j.operations| && j.operations[i].stage.Returned? && j.operations[i].id == candidate.id
    ensures IsCandidate(j, candidate) <==> candidate == CandidateOf(j.operations[i])
  {
    hide Valid;
    IdsWhenValid(j);
    ShapedWhenValid(j, i);
    if IsCandidate(j, candidate) {
      var k :| 0 <= k < |j.operations| && j.operations[k].stage == Returned && j.operations[k].id == candidate.id
        && j.operations[k].request.base == candidate.base && j.operations[k].call == Some(candidate.call)
        && j.operations[k].output == Some(candidate.output);
      assert k == i;
    } else {
      assert j.operations[i] in j.operations;
    }
  }

  lemma ShapedWhenValid(j: Journal, i: nat)
    requires Valid(j) && i < |j.operations|
    ensures Shaped(j.operations[i])
  {
  }

  // --------------------------------------------------------------------- the writes

  /** The one operation a call is about; it may not exist. */
  function Target(a: Action): string {
    match a
    case Complete(evaluation) => evaluation.candidate.id
    case Finish(_) => ""
    case _ => a.id
  }

  /** The row of the operation a call is about, field by field. */
  function RowAfter(op: Operation, a: Action): Operation {
    var Operation(id, stage, request, call, observation, output, error) := op;
    match a
    case Propose(_, proposed) => Operation(id, Proposed, request, Some(proposed), observation, output, error)
    case Dispatch(_, observes, _) => Operation(id, Dispatched, request, call, observes, output, error)
    case Return(_, returned) => Operation(id, Returned, request, call, observation, Some(returned), error)
    case Complete(_) => Operation(id, Completed, request, call, observation, output, error)
    case Fail(_, text) =>
      Operation(id, if stage in {Inference, Proposed} then Stage.Failed else stage, request, call, observation, output, Some(text))
    case Abandon(_) => Operation(id, Stage.Failed, request, call, observation, output, Some("recovered before dispatch"))
    case _ => op
  }

  /** A transaction rewrites the row of its own operation and no other, adds one only at start, stamps the clock only when
      it authorises work, and never touches what the run was created with. */
  lemma OperationsWritten(j: Journal, now: Now, a: Action, i: nat)
    requires UniqueIds(j.operations) && i < |j.operations|
    ensures var k := Effect(j, now, a);
      && k.operations[..|j.operations|][i]
         == (if j.operations[i].id == Target(a) then RowAfter(j.operations[i], a) else j.operations[i])
      && k.operations[|j.operations|..]
         == (if a.Start? then [Operation(a.id, Inference, a.request, None, false, None, None)] else [])
  {
    FindUnique(j.operations, i);
  }

  lemma TablesWritten(j: Journal, now: Now, a: Action)
    ensures var k := Effect(j, now, a);
      && k.initialState == j.initialState && k.initialObservation == j.initialObservation
      && k.limits == j.limits && k.deadline == j.deadline
      && k.lastClock == (if a.Start? || a.Dispatch? || a.Complete? then now.wall else j.lastClock)
      && k.outcome == (if a.Finish? then Some(a.outcome) else j.outcome)
      && k.reservations == j.reservations
         + (if a.Start? then [ReservationRow(a.id, InferenceUse)]
            else if a.Dispatch? && a.external then [ReservationRow(a.id, ToolUse), ReservationRow(a.id, ExternalUse)]
            else if a.Dispatch? then [ReservationRow(a.id, ToolUse)]
            else [])
      && k.outputs == j.outputs
         + (if a.Start? && a.reservation.Some? then [OutputRow(a.id, a.reservation.value)] else [])
      && k.evaluations == j.evaluations
         + (if a.Complete? then [EvaluationRow(a.evaluation.candidate.id, a.evaluation)] else [])
      && k.commits == j.commits
         + (if a.Complete? && a.evaluation.verdict == Satisfied && a.evaluation.stateUpdate.Some?
            then [CommitRow(Read(j).revision + 1, a.evaluation.candidate.id, a.evaluation.candidate.base.revision,
                            a.evaluation.stateUpdate.value)]
            else [])
      && k.usage == j.usage + (if a.RecordUsage? then [UsageRow(a.id, a.usage)] else [])
      && k.decisions == j.decisions + (if a.RecordGuard? then [DecisionRow(a.id, a.guard, a.decision)] else [])
      && k.events == j.events + (if a.RecordEvent? then [EventRow(a.id, a.stage, a.detail)] else [])
      && k.requirements[..|j.requirements|] == j.requirements
      && |k.requirements| == |j.requirements| + (if a.Start? then |a.guards| else 0)
      && (a.Start? ==> forall g :: 0 <= g < |a.guards| ==> k.requirements[|j.requirements| + g] == RequirementRow(a.id, a.guards[g]))
  {
    hide Read, RewriteOf;
  }

  lemma {:induction false} OutputIsRow(outputs: seq<OutputRow>, i: nat)
    requires i < |outputs| && forall k :: i < k < |outputs| ==> outputs[k].operation != outputs[i].operation
    ensures OutputOf(outputs, outputs[i].operation) == Some(outputs[i].reservation)
  {
    if i < |outputs| - 1 {
      OutputIsRow(outputs[..|outputs| - 1], i);
    }
  }

  lemma {:induction false} OutputKnown(outputs: seq<OutputRow>, id: string)
    requires OutputOf(outputs, id).Some?
    ensures exists i :: 0 <= i < |outputs| && outputs[i].operation == id
  {
    var n := |outputs| - 1;
    if outputs[n].operation != id {
      OutputKnown(outputs[..n], id);
    }
  }

  /** A report that is taken raises all the same exactly when it belies the reservation of its operation: by its kind, or
      by more output than was reserved. */
  lemma ReportRaises(j: Journal, deadline: Option<real>, now: Now, id: string, usage: Usage)
    requires Valid(j) && Refusal(j, deadline, now, RecordUsage(id, usage)).None?
    ensures Complaint(j, deadline, now, RecordUsage(id, usage)) ==
      if exists row :: row in j.outputs && row.operation == id
           && (row.reservation.kind != usage.kind
               || (usage.outputTokens.Some? && usage.outputTokens.value > row.reservation.tokens))
      then Some(Refused(OutputBreached)) else None
  {
    hide Valid, Refusal, OutputOf;
    OutputsWhenValid(j);
    if OutputOf(j.outputs, id).Some? {
      OutputKnown(j.outputs, id);
    }
    if row :| row in j.outputs && row.operation == id {
      var i :| 0 <= i < |j.outputs| && j.outputs[i] == row;
      OutputIsRow(j.outputs, i);
    }
  }

  lemma OutputsWhenValid(j: Journal)
    requires Valid(j)
    ensures forall i, k :: 0 <= i < k < |j.outputs| ==> j.outputs[i].operation != j.outputs[k].operation
  {
  }
}
