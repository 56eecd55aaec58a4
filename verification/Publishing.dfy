/** What the tables say about accepted state, capacity and guards, in every reachable run. */
module Publishing {
  import opened Contracts
  import opened Tables
  import opened Journals
  import opened Invariants
  import opened Preservation
  import opened Histories

  // --------------------------------------------------------------- accepted state

  /** The commit table refines replay: read() is the fold of the published updates of completed
      operations in order, revisions are 1, 2, ... on consecutive bases, and every operation was
      requested on the replay of the operations before it. */
  lemma AcceptedStateIsReplay(j: Journal)
    requires Reachable(j)
    ensures Read(j) == Replay(j.initialState, j.operations, j.evaluations)
    ensures Read(j).revision == |j.commits|
    ensures forall k :: 0 <= k < |j.commits| ==> j.commits[k].revision == k + 1 && j.commits[k].baseRevision == k
    ensures forall i :: 0 <= i < |j.operations| ==>
      j.operations[i].request.base == Replay(j.initialState, j.operations[..i], j.evaluations)
  {
    ReachableIsValid(j);
    CommitsAreReplay(j.initialState, j.operations, j.evaluations);
  }

  /** What a publication writes: a satisfied verdict with a state update becomes the next revision, on the candidate's
      base; any other verdict, and a satisfied one without an update, leaves commits and accepted state alone. */
  lemma PublishesExactly(j: Journal, now: Now, e: Evaluation)
    ensures var k := Effect(j, now, Complete(e));
      && k.evaluations == j.evaluations + [EvaluationRow(e.candidate.id, e)]
      && (match (e.verdict, e.stateUpdate)
          case (Satisfied, Some(value)) =>
            && k.commits == j.commits + [CommitRow(Read(j).revision + 1, e.candidate.id, e.candidate.base.revision, value)]
            && Read(k) == State(Read(j).revision + 1, value)
          case _ => k.commits == j.commits && Read(k) == Read(j))
  {
    var k := Effect(j, now, Complete(e));
    if k.commits != j.commits {
      assert k.commits[..|j.commits|] == j.commits;
    }
  }

  lemma {:induction false} EvaluationIsRow(evaluations: seq<EvaluationRow>, id: string)
    requires EvaluationOf(evaluations, id).Some?
    ensures EvaluationRow(id, EvaluationOf(evaluations, id).value) in evaluations
  {
    var n := |evaluations| - 1;
    if evaluations[n].operation != id {
      EvaluationIsRow(evaluations[..n], id);
      assert forall row :: row in evaluations[..n] ==> row in evaluations;
    }
  }

  /** The evaluation a commit stands for: of its operation, satisfied, with its value as the update. */
  predicate CommitsFor(c: CommitRow, row: EvaluationRow) {
    row.operation == c.operation && row.evaluation.verdict.Satisfied? && row.evaluation.stateUpdate == Some(c.value)
  }

  lemma {:induction false} CommitHasEvaluation(operations: seq<Operation>, evaluations: seq<EvaluationRow>, c: CommitRow)
    requires c in CommitsOf(operations, evaluations)
    ensures exists row :: row in evaluations && CommitsFor(c, row)
  {
    var n := |operations| - 1;
    if c in CommitsOf(operations[..n], evaluations) {
      CommitHasEvaluation(operations[..n], evaluations, c);
    } else {
      EvaluationIsRow(evaluations, operations[n].id);
      assert CommitsFor(c, EvaluationRow(operations[n].id, EvaluationOf(evaluations, operations[n].id).value));
    }
  }

  lemma {:induction false} EvaluationHasCommit(operations: seq<Operation>, evaluations: seq<EvaluationRow>, i: nat, value: string)
    requires i < |operations| && operations[i].stage.Completed?
    requires var e := EvaluationOf(evaluations, operations[i].id);
      e.Some? && e.value.verdict.Satisfied? && e.value.stateUpdate == Some(value)
    ensures exists c :: c in CommitsOf(operations, evaluations) && c.operation == operations[i].id && c.value == value
  {
    var n := |operations| - 1;
    if i < n {
      EvaluationHasCommit(operations[..n], evaluations, i, value);
      var c :| c in CommitsOf(operations[..n], evaluations) && c.operation == operations[i].id && c.value == value;
      assert c in CommitsOf(operations, evaluations);
    } else {
      assert CommitsOf(operations, evaluations)[|CommitsOf(operations[..n], evaluations)|].operation == operations[n].id;
    }
  }

  lemma {:induction false} RowIsEvaluation(evaluations: seq<EvaluationRow>, row: EvaluationRow)
    requires EvaluatedOnce(evaluations) && row in evaluations
    ensures EvaluationOf(evaluations, row.operation) == Some(row.evaluation)
  {
    var n := |evaluations| - 1;
    if evaluations[n] != row {
      var i :| 0 <= i < |evaluations| && evaluations[i] == row;
      assert evaluations[i].operation != evaluations[n].operation && evaluations[..n][i] == row;
      RowIsEvaluation(evaluations[..n], row);
    }
  }

  /** In every reachable run the commits are the satisfied evaluations that carry a state update: no more and no fewer. */
  lemma CommitsAreSatisfied(j: Journal)
    requires Reachable(j)
    ensures forall c :: c in j.commits ==> exists row :: row in j.evaluations && CommitsFor(c, row)
    ensures forall row :: row in j.evaluations && row.evaluation.verdict.Satisfied? && row.evaluation.stateUpdate.Some? ==>
      exists c :: c in j.commits && CommitsFor(c, row)
  {
    hide Reachable;
    ReachableIsValid(j);
    EvaluatedWhenValid(j);
    hide Valid, Evaluated, CommitsOf, CommitsFor;
    forall c | c in j.commits ensures exists row :: row in j.evaluations && CommitsFor(c, row) {
      CommitHasEvaluation(j.operations, j.evaluations, c);
    }
    forall row | row in j.evaluations && row.evaluation.verdict.Satisfied? && row.evaluation.stateUpdate.Some?
      ensures exists c :: c in j.commits && CommitsFor(c, row)
    {
      SatisfiedIsCommitted(j.operations, j.evaluations, row);
    }
  }

  lemma SatisfiedIsCommitted(operations: seq<Operation>, evaluations: seq<EvaluationRow>, row: EvaluationRow)
    requires Evaluated(operations, evaluations)
    requires row in evaluations && row.evaluation.verdict.Satisfied? && row.evaluation.stateUpdate.Some?
    ensures exists c :: c in CommitsOf(operations, evaluations) && CommitsFor(c, row)
  {
    RowIsEvaluation(evaluations, row);
    var i :| 0 <= i < |operations| && operations[i].id == row.operation;
    assert EvaluatedRow(operations[i], evaluations);
    EvaluationHasCommit(operations, evaluations, i, row.evaluation.stateUpdate.value);
    var c :| c in CommitsOf(operations, evaluations) && c.operation == row.operation && c.value == row.evaluation.stateUpdate.value;
    assert CommitsFor(c, row);
  }

  lemma EvaluatedWhenValid(j: Journal)
    requires Valid(j)
    ensures Evaluated(j.operations, j.evaluations) && j.commits == CommitsOf(j.operations, j.evaluations)
  {
  }

  lemma FirstOpenIsLast(operations: seq<Operation>, i: nat)
    requires OnlyLastOpen(operations) && i < |operations| && operations[i].stage.Open()
    ensures i == |operations| - 1 && FirstOpen(operations) == Some(operations[i])
  {
    NothingOpen(operations[..i]);
  }

  /** At most one operation is open; it is the last, and it was requested on the accepted state. */
  lemma OnePending(j: Journal, i: nat)
    requires Valid(j) && i < |j.operations| && j.operations[i].stage.Open()
    ensures i == |j.operations| - 1
    ensures j.operations[i].request.base == Read(j)
    ensures Pending(j).Some? && Pending(j).value.id == j.operations[i].id && Pending(j).value.stage == j.operations[i].stage
  {
    hide Read, FirstOpen;
    FirstOpenIsLast(j.operations, i);
    OpenOnAccepted(j);
  }

  /** A commit belongs to a completed operation. */
  lemma {:induction false} CommitsOfCompleted(operations: seq<Operation>, evaluations: seq<EvaluationRow>, c: CommitRow)
    requires c in CommitsOf(operations, evaluations)
    ensures exists i :: 0 <= i < |operations| && operations[i].id == c.operation && operations[i].stage.Completed?
  {
    var n := |operations| - 1;
    if c in CommitsOf(operations[..n], evaluations) {
      CommitsOfCompleted(operations[..n], evaluations, c);
      var i :| 0 <= i < n && operations[..n][i].id == c.operation && operations[..n][i].stage.Completed?;
      assert operations[i].id == c.operation;
    } else {
      assert operations[n].id == c.operation;
    }
  }

  /** The stale-base refusal and the duplicate-row refusals of complete can never be what stops an
      evaluation: for a returned operation it is refused exactly when check_evaluation fails. */
  lemma CompleteNeverStale(j: Journal, evaluation: Evaluation)
    requires Valid(j)
    ensures CompleteRefusal(j, evaluation) ==
      match Find(j.operations, evaluation.candidate.id)
      case None => Some(Refused(WrongStage))
      case Some(i) =>
        if !j.operations[i].stage.Returned? then Some(Refused(WrongStage))
        else CheckEvaluation(CandidateOf(j.operations[i]), evaluation)
  {
    var found := Find(j.operations, evaluation.candidate.id);
    if found.Some? && j.operations[found.value].stage.Returned? {
      var i := found.value;
      OnePending(j, i);
      assert EvaluatedRow(j.operations[i], j.evaluations);
      forall c | c in j.commits ensures c.operation != j.operations[i].id {
        CommitsOfCompleted(j.operations, j.evaluations, c);
      }
    }
  }

  /** The only keys a caller can collide with: an operation identity it chose itself, a guard
      already decided, a report already made. */
  lemma DuplicateKeys(j: Journal, deadline: Option<real>, now: Now, a: Action)
    requires Reachable(j) && Refusal(j, deadline, now, a) == Some(Refused(DuplicateKey))
    ensures match a
      case Start(id, _, _, _) => id in Ids(j.operations)
      case RecordGuard(id, guard, _) => DecisionOf(j.decisions, id, guard).Some?
      case RecordUsage(id, _) => UsageOf(j.usage, id).Some?
      case _ => false
  {
    hide Reachable, Valid, StartRefusal, DispatchRefusal, CompleteRefusal, GuardRefusal, UsageRefusal, AbandonRefusal, Reserved,
      Counted, Ids, Find, SecondsRemaining;
    ReachableIsValid(j);
    ReservedWhenValid(j);
    match a
    case Start(id, request, reservation, guards) => StartCollision(j, deadline, now, id, request, reservation, guards);
    case Dispatch(id, observation, external) => DispatchCollision(j, deadline, now, id, external);
    case Complete(evaluation) => CompleteCollision(j, evaluation);
    case RecordGuard(id, guard, decision) => RecordCollision(j, id, guard);
    case RecordUsage(id, usage) => RecordCollision(j, id, "");
    case Abandon(id) => RecordCollision(j, id, "");
    case _ =>
  }

  lemma CompleteCollision(j: Journal, evaluation: Evaluation)
    requires Valid(j)
    ensures CompleteRefusal(j, evaluation) != Some(Refused(DuplicateKey))
  {
    hide Valid, CompleteRefusal;
    CompleteNeverStale(j, evaluation);
  }

  lemma RecordCollision(j: Journal, id: string, guard: string)
    ensures GuardRefusal(j, id, guard) == Some(Refused(DuplicateKey)) ==> DecisionOf(j.decisions, id, guard).Some?
    ensures UsageRefusal(j, id) == Some(Refused(DuplicateKey)) ==> UsageOf(j.usage, id).Some?
    ensures AbandonRefusal(j, id) != Some(Refused(DuplicateKey))
  {
  }

  lemma StartCollision(j: Journal, deadline: Option<real>, now: Now, id: string, request: InferenceRequest,
                       reservation: Option<Reservation>, guards: seq<string>)
    requires Reserved(j.operations, j.reservations)
    requires StartRefusal(j, deadline, now, id, request, reservation, guards) == Some(Refused(DuplicateKey))
    ensures id in Ids(j.operations)
  {
    FindIds(j.operations, id);
  }

  lemma DispatchCollision(j: Journal, deadline: Option<real>, now: Now, id: string, external: bool)
    requires Reserved(j.operations, j.reservations)
    ensures DispatchRefusal(j, deadline, now, id, external) != Some(Refused(DuplicateKey))
  {
    var found := Find(j.operations, id);
    if found.Some? {
      assert ReservedRow(j.operations[found.value], j.reservations);
    }
  }

  /** The latest observation is the output of the last operation that was dispatched as an observation and returned,
      and the initial one until there is such an operation. */
  lemma LatestObservationIsNewest(j: Journal, i: nat)
    requires i < |j.operations| && j.operations[i].observation && j.operations[i].output.Some?
    requires forall k :: i < k < |j.operations| ==> !(j.operations[k].observation && j.operations[k].output.Some?)
    ensures LatestObservation(j) == j.operations[i].output
  {
    NewestOutput(j.operations, i);
  }

  lemma {:induction false} NewestOutput(operations: seq<Operation>, i: nat)
    requires i < |operations| && operations[i].observation && operations[i].output.Some?
    requires forall k :: i < k < |operations| ==> !(operations[k].observation && operations[k].output.Some?)
    ensures LatestOutput(operations) == operations[i].output
  {
    var n := |operations| - 1;
    if i < n {
      assert !(operations[n].observation && operations[n].output.Some?);
      NewestOutput(operations[..n], i);
    }
  }

  lemma {:induction false} NoObservation(j: Journal)
    requires forall k :: 0 <= k < |j.operations| ==> !(j.operations[k].observation && j.operations[k].output.Some?)
    ensures LatestObservation(j) == j.initialObservation
    decreases |j.operations|
  {
    if j.operations != [] {
      var n := |j.operations| - 1;
      assert !(j.operations[n].observation && j.operations[n].output.Some?);
      NoObservation(j.(operations := j.operations[..n]));
    }
  }

  // --------------------------------------------------------------------- capacity

  /** Capacity accounting is exact, and nothing is ever overdrawn. */
  lemma ExactCapacity(j: Journal)
    requires Reachable(j)
    ensures Remaining(j, InferenceUse) == j.limits.inferenceCalls - |j.operations|
    ensures Remaining(j, ToolUse) == j.limits.toolCalls - DispatchedIn(j.operations)
    ensures forall resource :: Remaining(j, resource) >= 0
    ensures forall i :: 0 <= i < |j.operations| ==>
      (ReservationRow(j.operations[i].id, ToolUse) in j.reservations <==> j.operations[i].stage.PastDispatch())
    ensures forall id :: ReservationRow(id, ExternalUse) in j.reservations ==> ReservationRow(id, ToolUse) in j.reservations
  {
    hide Reachable, BasesReplay, CommitsOf, Evaluated, Guarded, Settles, Lockstep, Reported;
    ReachableIsValid(j);
    forall i | 0 <= i < |j.operations| ensures ReservedRow(j.operations[i], j.reservations) { }
    forall id | ReservationRow(id, ExternalUse) in j.reservations ensures ReservationRow(id, ToolUse) in j.reservations {
      var i :| 0 <= i < |j.operations| && j.operations[i].id == id;
      assert ReservedRow(j.operations[i], j.reservations);
    }
  }

  lemma {:induction false} CountGrows(rows: seq<ReservationRow>, later: seq<ReservationRow>, resource: Resource)
    requires rows <= later
    ensures CountOf(rows, resource) <= CountOf(later, resource)
  {
    if |rows| < |later| {
      CountGrows(rows, later[..|later| - 1], resource);
    } else {
      assert rows == later;
    }
  }

  /** No call, crash or reopening gives capacity back. */
  lemma RemainingNeverGrows(w: World, events: seq<Event>, resource: Resource)
    requires Reachable(w.journal)
    ensures Remaining(Run(w, events).journal, resource) <= Remaining(w.journal, resource)
  {
    ReachableIsValid(w.journal);
    RunExtends(w, events);
    CountGrows(w.journal.reservations, Run(w, events).journal.reservations, resource);
  }

  // ----------------------------------------------------------------------- guards

  /** Whatever was dispatched had, and keeps, an allow for every guard required when it started. */
  lemma DispatchedIsAllowed(w: World, events: seq<Event>, i: nat, guard: string)
    requires Reachable(w.journal) && i < |w.journal.operations| && w.journal.operations[i].stage.PastDispatch()
    requires RequirementRow(w.journal.operations[i].id, guard) in w.journal.requirements
    ensures var id := w.journal.operations[i].id;
      var d := DecisionOf(w.journal.decisions, id, guard);
      d.Some? && d.value.allowed && DecisionOf(Run(w, events).journal.decisions, id, guard) == d
  {
    ReachableIsValid(w.journal);
    RunExtends(w, events);
    assert GuardsAllow(w.journal.requirements, w.journal.decisions, w.journal.operations[i].id);
  }

  lemma DispatchNeedsAllow(j: Journal, i: nat, guard: string)
    requires Guarded(j.operations, j.requirements, j.decisions) && i < |j.operations|
    requires RequirementRow(j.operations[i].id, guard) in j.requirements
    ensures j.operations[i].stage.PastDispatch() ==>
      var d := DecisionOf(j.decisions, j.operations[i].id, guard); d.Some? && d.value.allowed
  {
  }

  /** One recorded refusal and the operation is never dispatched, whatever is called afterwards. */
  lemma DeniedNeverDispatches(w: World, events: seq<Event>, i: nat, guard: string)
    requires Reachable(w.journal) && i < |w.journal.operations|
    requires RequirementRow(w.journal.operations[i].id, guard) in w.journal.requirements
    requires var d := DecisionOf(w.journal.decisions, w.journal.operations[i].id, guard); d.Some? && !d.value.allowed
    ensures var later := Run(w, events).journal;
      i < |later.operations| && later.operations[i].id == w.journal.operations[i].id && !later.operations[i].stage.PastDispatch()
  {
    ReachableIsValid(w.journal);
    RunExtends(w, events);
    RunIsValid(w, events);
    var later := Run(w, events).journal;
    assert RowFollows(w.journal.operations[i], later.operations[i]);
    DispatchNeedsAllow(later, i, guard);
  }

  /** The guard rows of the operations j knows, as k has them. */
  ghost predicate GuardsFixed(j: Journal, k: Journal) {
    && (forall row :: row in k.requirements && row.operation in Ids(j.operations) ==> row in j.requirements)
    && (forall i, row :: 0 <= i < |j.operations| && row in k.decisions ==>
          j.operations[i].stage.PastDispatch() && row.operation == j.operations[i].id ==> row in j.decisions)
  }

  lemma CallFixesGuards(j: Journal, deadline: Option<real>, now: Now, a: Action)
    requires Valid(j)
    ensures GuardsFixed(j, Apply(j, deadline, now, a))
  {
    hide Valid;
    if Refusal(j, deadline, now, a).None? {
      match a
      case Start(id, request, reservation, guards) =>
        FindIds(j.operations, id);
        forall row | row in RequirementRows(id, guards) ensures row.operation == id { RequirementIn(id, guards, row); }
      case RecordGuard(id, guard, decision) => DecidesUndispatched(j, id, guard);
      case _ =>
    }
  }

  lemma DecidesUndispatched(j: Journal, id: string, guard: string)
    requires Valid(j) && GuardRefusal(j, id, guard).None?
    ensures forall i :: 0 <= i < |j.operations| && j.operations[i].stage.PastDispatch() ==> j.operations[i].id != id
  {
    FindUniqueForall(j.operations, Find(j.operations, id).value);
  }

  lemma IdsGrow(operations: seq<Operation>, later: seq<Operation>)
    requires RowsFollow(operations, later)
    ensures Ids(operations) <= Ids(later)
  {
    forall id | id in Ids(operations) ensures id in Ids(later) {
      var i :| 0 <= i < |operations| && operations[i].id == id;
      assert RowFollows(operations[i], later[i]) && later[i] in later;
    }
  }

  /** No later call adds a guard to an operation, or a decision to a dispatched one. */
  lemma {:induction false} RunFixesGuards(w: World, events: seq<Event>)
    requires Valid(w.journal)
    ensures GuardsFixed(w.journal, Run(w, events).journal)
  {
    hide Apply, Valid, RowFollows;
    if events != [] {
      var n := |events| - 1;
      var before := Run(w, events[..n]);
      RunFixesGuards(w, events[..n]);
      RunIsValid(w, events[..n]);
      RunExtends(w, events[..n]);
      IdsGrow(w.journal.operations, before.journal.operations);
      if events[n].Call? && before.owner.Some? {
        CallFixesGuards(before.journal, before.owner.value.deadline, events[n].now, events[n].action);
        FixedTransitive(w.journal, before.journal, Run(w, events).journal);
      }
    }
  }

  lemma FixedTransitive(j: Journal, k: Journal, l: Journal)
    requires GuardsFixed(j, k) && GuardsFixed(k, l) && RowsFollow(j.operations, k.operations)
    ensures GuardsFixed(j, l)
  {
    IdsGrow(j.operations, k.operations);
    forall i, row | 0 <= i < |j.operations| && j.operations[i].stage.PastDispatch()
      && row in l.decisions && row.operation == j.operations[i].id
      ensures row in j.decisions
    {
      assert RowFollows(j.operations[i], k.operations[i]);
    }
  }
}
