/** The operation a step is working on, as the last row of the tables. */
module Workings {
  import opened Contracts
  import opened Tables
  import opened OutputBudgets
  import opened Journals
  import opened Invariants
  import opened Preservation
  import Publishing

  /** j is before plus one operation that is being worked on. */
  ghost predicate Working(before: Journal, j: Journal, op: Operation) {
    && Valid(j)
    && j.operations == before.operations + [op]
    && j.outcome.None?
    && j.limits == before.limits && j.initialState == before.initialState
    && before.reservations <= j.reservations
    && (!op.stage.Completed? ==> j.evaluations == before.evaluations && j.commits == before.commits)
  }

  /** The same tables but for notes: reports, decisions, events and the working row. */
  ghost predicate SameButNotes(j: Journal, k: Journal) {
    k == j.(operations := k.operations, usage := k.usage, decisions := k.decisions, events := k.events)
  }

  /** No report and no decision names the operation yet; its guards are exactly these. */
  ghost predicate Untouched(j: Journal, id: string, guards: seq<string>) {
    && UsageOf(j.usage, id).None?
    && (forall guard :: DecisionOf(j.decisions, id, guard).None?)
    && (forall guard :: RequirementRow(id, guard) in j.requirements <==> guard in guards)
  }

  lemma {:induction false} DecisionKnown(decisions: seq<DecisionRow>, id: string, guard: string)
    requires DecisionOf(decisions, id, guard).Some?
    ensures exists row :: row in decisions && row.operation == id && row.guard == guard
  {
    var n := |decisions| - 1;
    if decisions[n].operation == id && decisions[n].guard == guard {
      assert decisions[n] in decisions;
    } else {
      DecisionKnown(decisions[..n], id, guard);
      assert forall row :: row in decisions[..n] ==> row in decisions;
    }
  }

  lemma StartLeavesUntouched(j: Journal, now: Now, id: string, request: InferenceRequest,
                             reservation: Option<Reservation>, guards: seq<string>)
    requires Guarded(j.operations, j.requirements, j.decisions) && Reported(j.operations, j.usage) && id !in Ids(j.operations)
    ensures Untouched(Started(j, now, id, request, reservation, guards), id, guards)
  {
    UsageKnown(j.usage, id);
    forall guard ensures DecisionOf(j.decisions, id, guard).None? {
      if DecisionOf(j.decisions, id, guard).Some? {
        DecisionKnown(j.decisions, id, guard);
        assert false;
      }
    }
    forall guard ensures RequirementRow(id, guard) in RequirementRows(id, guards) <==> guard in guards {
      RequirementIn(id, guards, RequirementRow(id, guard));
    }
  }

  lemma StartWorks(j: Journal, deadline: Option<real>, now: Now, id: string, request: InferenceRequest,
                   reservation: Option<Reservation>, guards: seq<string>)
    requires Valid(j) && StartRefusal(j, deadline, now, id, request, reservation, guards).None?
    ensures var k := Started(j, now, id, request, reservation, guards);
      Working(j, k, Operation(id, Inference, request, None, false, None, None)) && Untouched(k, id, guards)
  {
    StartKeepsValid(j, deadline, now, id, request, reservation, guards);
    StartChecks(j, deadline, now, id, request, reservation, guards);
    StartLeavesUntouched(j, now, id, request, reservation, guards);
    StartOpen(j, deadline, now, id, request, reservation, guards);
  }

  lemma StartOpen(j: Journal, deadline: Option<real>, now: Now, id: string, request: InferenceRequest,
                  reservation: Option<Reservation>, guards: seq<string>)
    requires StartRefusal(j, deadline, now, id, request, reservation, guards).None?
    ensures j.outcome.None? && FirstOpen(j.operations).None?
  {
  }

  lemma FindsWorking(before: Journal, j: Journal, op: Operation)
    requires Working(before, j, op)
    ensures Find(j.operations, op.id) == Some(|before.operations|) && j.operations[|before.operations|] == op
    ensures forall stage :: Standing(j, op.id, stage).None? <==> op.stage == stage
  {
    hide Valid;
    IdsWhenValid(j);
    FindUnique(j.operations, |before.operations|);
  }

  lemma RewritesWorking(before: Journal, j: Journal, op: Operation, a: Action)
    requires Working(before, j, op)
    ensures RewriteOf(j.operations, op.id, a) == before.operations + [Rewrite(op, a)]
  {
    hide Valid, Find, Rewrite;
    FindsWorking(before, j, op);
  }

  /** The calls a step makes for its working operation that are neither refused nor authorising. */
  lemma NoteWorks(before: Journal, j: Journal, op: Operation, deadline: Option<real>, now: Now, a: Action)
    requires Working(before, j, op) && !a.Complete? && !a.Finish? && a.id == op.id
    requires match a
      case RecordEvent(_, stage, _) => stage != ""
      case RecordUsage(_, _) => op.stage.Inference? && UsageOf(j.usage, op.id).None?
      case RecordGuard(_, guard, _) => op.stage.Proposed? && RequirementRow(op.id, guard) in j.requirements
                                       && DecisionOf(j.decisions, op.id, guard).None?
      case Propose(_, _) => op.stage.Inference?
      case Return(_, _) => op.stage.Dispatched?
      case Fail(_, _) => true
      case _ => false
    ensures Refusal(j, deadline, now, a).None?
    ensures var k := Effect(j, now, a);
      && Working(before, k, if Rewrites(a) then Rewrite(op, a) else op) && SameButNotes(j, k)
      && k.usage == (if a.RecordUsage? then j.usage + [UsageRow(a.id, a.usage)] else j.usage)
      && k.decisions == (if a.RecordGuard? then j.decisions + [DecisionRow(a.id, a.guard, a.decision)] else j.decisions)
      && k.events == (if a.RecordEvent? then j.events + [EventRow(a.id, a.stage, a.detail)] else j.events)
  {
    hide Valid, Refusal, Find, RewriteOf;
    FindsWorking(before, j, op);
    RewritesWorking(before, j, op, a);
    NoteRefusal(j, deadline, now, a);
    EffectKeepsValid(j, deadline, now, a);
  }

  lemma NoteRefusal(j: Journal, deadline: Option<real>, now: Now, a: Action)
    requires j.outcome.None? && !a.Complete? && !a.Finish?
    requires Find(j.operations, a.id).Some?
    requires match a
      case RecordEvent(_, stage, _) => stage != ""
      case RecordUsage(id, _) => Standing(j, id, Inference).None? && UsageOf(j.usage, id).None?
      case RecordGuard(id, guard, _) => Standing(j, id, Proposed).None? && RequirementRow(id, guard) in j.requirements
                                        && DecisionOf(j.decisions, id, guard).None?
      case Propose(id, _) => Standing(j, id, Inference).None?
      case Return(id, _) => Standing(j, id, Dispatched).None?
      case Fail(_, _) => true
      case _ => false
    ensures Refusal(j, deadline, now, a).None?
  {
  }

  predicate Rewrites(a: Action) {
    a.Propose? || a.Dispatch? || a.Return? || a.Complete? || a.Fail? || a.Abandon?
  }

  /** What can stop the dispatch of a proposed operation whose guards all allow it. */
  function DispatchFault(j: Journal, deadline: Option<real>, now: Now, external: bool): Option<Error> {
    First(OnTime(j, deadline, now),
    First(Refuse(Remaining(j, ToolUse) <= 0, CapacityExhausted(ToolUse)),
          Refuse(external && Remaining(j, ExternalUse) <= 0, CapacityExhausted(ExternalUse))))
  }

  lemma DispatchRefusalIs(j: Journal, deadline: Option<real>, now: Now, id: string, external: bool)
    requires Standing(j, id, Proposed).None? && GuardsAllow(j.requirements, j.decisions, id)
    requires Reserved(j.operations, j.reservations)
    ensures DispatchRefusal(j, deadline, now, id, external) == DispatchFault(j, deadline, now, external)
  {
    assert ReservedRow(j.operations[Find(j.operations, id).value], j.reservations);
  }

  lemma DispatchWorks(before: Journal, j: Journal, op: Operation, deadline: Option<real>, now: Now, observation: bool, external: bool)
    requires Working(before, j, op) && op.stage.Proposed? && GuardsAllow(j.requirements, j.decisions, op.id)
    ensures DispatchRefusal(j, deadline, now, op.id, external) == DispatchFault(j, deadline, now, external)
    ensures DispatchFault(j, deadline, now, external).None? ==>
      var k := Effect(j, now, Dispatch(op.id, observation, external));
      && Working(before, k, op.(stage := Stage.Dispatched, observation := observation))
      && k == j.(lastClock := now.wall, operations := k.operations, reservations := j.reservations + DispatchRows(op.id, external))
  {
    hide Valid, DispatchRefusal, DispatchFault, Find, Standing, Reserved, RewriteOf, DispatchRows;
    FindsWorking(before, j, op);
    RewritesWorking(before, j, op, Dispatch(op.id, observation, external));
    ReservedWhenValid(j);
    DispatchRefusalIs(j, deadline, now, op.id, external);
    if DispatchFault(j, deadline, now, external).None? {
      DispatchKeepsValid(j, deadline, now, op.id, observation, external);
    }
  }

  /** What can stop the publication of an evaluation offered for a returned candidate. */
  function PublishFault(candidate: Candidate, evaluation: Evaluation): Option<Error> {
    if evaluation.candidate.id != candidate.id then Some(Refused(WrongStage)) else CheckEvaluation(candidate, evaluation)
  }

  lemma OnlyWorkingReturned(before: Journal, j: Journal, op: Operation, i: nat)
    requires Working(before, j, op) && i < |before.operations|
    ensures !j.operations[i].stage.Open()
  {
  }

  lemma CompleteRefusalIs(before: Journal, j: Journal, op: Operation, evaluation: Evaluation)
    requires Working(before, j, op) && op.stage.Returned?
    ensures CompleteRefusal(j, evaluation) == PublishFault(CandidateOf(op), evaluation)
  {
    hide Valid, CompleteRefusal, CheckEvaluation;
    FindsWorking(before, j, op);
    Publishing.CompleteNeverStale(j, evaluation);
    var found := Find(j.operations, evaluation.candidate.id);
    if found.Some? && found.value < |before.operations| {
      OnlyWorkingReturned(before, j, op, found.value);
    }
  }

  lemma CompleteWorks(before: Journal, j: Journal, op: Operation, now: Now, evaluation: Evaluation)
    requires Working(before, j, op) && op.stage.Returned?
    requires PublishFault(CandidateOf(op), evaluation).None?
    ensures var k := Effect(j, now, Complete(evaluation));
      && Working(before, k, op.(stage := Stage.Completed))
      && k == j.(lastClock := now.wall, operations := k.operations,
                 evaluations := j.evaluations + [EvaluationRow(op.id, evaluation)],
                 commits := j.commits + CommitRows(Read(j), evaluation))
  {
    hide Valid, CompleteRefusal, Find, Read, CommitRows, RewriteOf, CheckEvaluation;
    CompleteRefusalIs(before, j, op, evaluation);
    RewritesWorking(before, j, op, Complete(evaluation));
    CompleteKeepsValid(j, now, evaluation);
  }
}
