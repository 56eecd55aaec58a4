/** Every transaction that is not refused keeps Invariants.Valid. */
module Preservation {
  import opened Contracts
  import opened Tables
  import opened OutputBudgets
  import opened Journals
  import opened Invariants

  // ------------------------------------------------------------ operations table

  lemma {:induction false} NothingOpen(operations: seq<Operation>)
    ensures FirstOpen(operations).None? <==> forall i :: 0 <= i < |operations| ==> !operations[i].stage.Open()
  {
    if operations != [] {
      var n := |operations| - 1;
      NothingOpen(operations[..n]);
      assert forall i :: 0 <= i < n ==> operations[..n][i] == operations[i];
    }
  }

  /** A row may change everything but its identity and request; its stage only if it is the last. */
  predicate Follows(operations: seq<Operation>, i: nat, op: Operation)
    requires i < |operations|
  {
    && op.id == operations[i].id && op.request == operations[i].request
    && (op.stage != operations[i].stage ==> i == |operations| - 1)
    && Shaped(op)
  }

  lemma RewriteKeepsOperations(operations: seq<Operation>, i: nat, op: Operation)
    requires UniqueIds(operations) && OnlyLastOpen(operations) && Shapes(operations)
    requires i < |operations| && Follows(operations, i, op)
    ensures UniqueIds(operations[i := op]) && OnlyLastOpen(operations[i := op]) && Shapes(operations[i := op])
  {
  }

  // ---------------------------------------------------------- commits and replay

  /** The same operations up to changes that replay does not see. */
  predicate SamePublished(before: seq<Operation>, after: seq<Operation>) {
    && |before| == |after|
    && forall i :: 0 <= i < |before| ==>
         before[i].id == after[i].id && (before[i].stage.Completed? <==> after[i].stage.Completed?)
  }

  lemma {:induction false} ReplaySame(initial: string, before: seq<Operation>, after: seq<Operation>, evaluations: seq<EvaluationRow>)
    requires SamePublished(before, after)
    ensures Replay(initial, before, evaluations) == Replay(initial, after, evaluations)
    ensures CommitsOf(before, evaluations) == CommitsOf(after, evaluations)
  {
    if before != [] {
      var n := |before| - 1;
      ReplaySame(initial, before[..n], after[..n], evaluations);
    }
  }

  lemma EvaluationFrame(evaluations: seq<EvaluationRow>, row: EvaluationRow, id: string)
    ensures EvaluationOf(evaluations + [row], id)
         == if id == row.operation then Some(row.evaluation) else EvaluationOf(evaluations, id)
  {
    assert (evaluations + [row])[..|evaluations|] == evaluations;
  }

  lemma NotAmong(operations: seq<Operation>, id: string)
    requires operations != [] && id !in Ids(operations)
    ensures var n := |operations| - 1; operations[n].id != id && id !in Ids(operations[..n])
  {
    var n := |operations| - 1;
    assert operations[n] in operations;
    assert forall op :: op in operations[..n] ==> op in operations;
  }

  lemma {:induction false} ReplayFrame(initial: string, operations: seq<Operation>, evaluations: seq<EvaluationRow>, row: EvaluationRow)
    requires row.operation !in Ids(operations)
    ensures Replay(initial, operations, evaluations + [row]) == Replay(initial, operations, evaluations)
    ensures CommitsOf(operations, evaluations + [row]) == CommitsOf(operations, evaluations)
  {
    hide Ids, EvaluationOf;
    if operations != [] {
      var n := |operations| - 1;
      NotAmong(operations, row.operation);
      ReplayFrame(initial, operations[..n], evaluations, row);
      EvaluationFrame(evaluations, row, operations[n].id);
    }
  }

  /** An evaluated id is a known id. */
  lemma {:induction false} EvaluationKnown(evaluations: seq<EvaluationRow>, id: string)
    ensures EvaluationOf(evaluations, id).Some? <==> exists row :: row in evaluations && row.operation == id
  {
    if evaluations != [] {
      var n := |evaluations| - 1;
      EvaluationKnown(evaluations[..n], id);
      assert evaluations == evaluations[..n] + [evaluations[n]];
    }
  }

  /** read() is the replay of all operations, and the commits are numbered 1, 2, 3, ... */
  lemma {:induction false} CommitsAreReplay(initial: string, operations: seq<Operation>, evaluations: seq<EvaluationRow>)
    ensures var commits := CommitsOf(operations, evaluations);
      var state := Replay(initial, operations, evaluations);
      && state.revision == |commits|
      && (commits != [] ==> NewestCommit(commits) == Some(commits[|commits| - 1])
                            && commits[|commits| - 1].value == state.value)
      && (commits == [] ==> state.value == initial)
      && forall k :: 0 <= k < |commits| ==> commits[k].revision == k + 1 && commits[k].baseRevision == k
  {
    if operations != [] {
      var n := |operations| - 1;
      CommitsAreReplay(initial, operations[..n], evaluations);
      var before, commits := CommitsOf(operations[..n], evaluations), CommitsOf(operations, evaluations);
      assert commits[..|before|] == before;
    }
  }

  lemma ReadIsReplay(j: Journal)
    requires j.commits == CommitsOf(j.operations, j.evaluations)
    ensures Read(j) == Replay(j.initialState, j.operations, j.evaluations)
  {
    CommitsAreReplay(j.initialState, j.operations, j.evaluations);
  }

  /** A pending operation was asked for on top of the accepted state. */
  lemma OpenOnAccepted(j: Journal)
    requires Valid(j) && j.operations != [] && j.operations[|j.operations| - 1].stage.Open()
    ensures j.operations[|j.operations| - 1].request.base == Read(j)
  {
    ReadIsReplay(j);
  }

  predicate Replayed(initial: string, operations: seq<Operation>, evaluations: seq<EvaluationRow>, commits: seq<CommitRow>) {
    && commits == CommitsOf(operations, evaluations)
    && BasesReplay(initial, operations, evaluations)
    && Evaluated(operations, evaluations)
  }

  /** Moving a row to another stage, short of completing it, leaves the replay alone. */
  lemma RewriteKeepsReplay(initial: string, operations: seq<Operation>, evaluations: seq<EvaluationRow>, commits: seq<CommitRow>,
                           i: nat, op: Operation)
    requires Replayed(initial, operations, evaluations, commits)
    requires i < |operations| && op.id == operations[i].id && op.request == operations[i].request
    requires op.stage.Completed? <==> operations[i].stage.Completed?
    requires op.stage.Completed? ==> CandidateOf(op) == CandidateOf(operations[i])
    ensures Replayed(initial, operations[i := op], evaluations, commits)
  {
    hide Replay, CommitsOf, CheckEvaluation;
    var after := operations[i := op];
    IdsOfRewrite(operations, i, op);
    ReplaySame(initial, operations, after, evaluations);
    forall k | 0 <= k < |after| ensures after[k].request.base == Replay(initial, after[..k], evaluations) {
      assert operations[k].request.base == Replay(initial, operations[..k], evaluations);
      ReplaySame(initial, operations[..k], after[..k], evaluations);
    }
    assert EvaluatedRow(operations[i], evaluations);
  }

  lemma StartKeepsBases(initial: string, operations: seq<Operation>, evaluations: seq<EvaluationRow>, op: Operation)
    requires BasesReplay(initial, operations, evaluations)
    requires op.request.base == Replay(initial, operations, evaluations)
    ensures BasesReplay(initial, operations + [op], evaluations)
  {
    hide Replay;
    var after, n := operations + [op], |operations|;
    assert after[..n] == operations;
    forall k | 0 <= k < |after| ensures after[k].request.base == Replay(initial, after[..k], evaluations) {
      if k < n {
        assert operations[k].request.base == Replay(initial, operations[..k], evaluations);
        assert after[..k] == operations[..k];
      }
    }
  }

  lemma StartKeepsEvaluated(operations: seq<Operation>, evaluations: seq<EvaluationRow>, op: Operation)
    requires Evaluated(operations, evaluations) && op.stage.Inference? && op.id !in Ids(operations)
    ensures Evaluated(operations + [op], evaluations)
  {
    hide CheckEvaluation, CandidateOf, EvaluationOf;
    EvaluationKnown(evaluations, op.id);
    IdsOfAppend(operations, op);
  }

  lemma StartKeepsReplay(initial: string, operations: seq<Operation>, evaluations: seq<EvaluationRow>, commits: seq<CommitRow>,
                         op: Operation)
    requires Replayed(initial, operations, evaluations, commits)
    requires op.stage.Inference? && op.id !in Ids(operations)
    requires op.request.base == Replay(initial, operations, evaluations)
    ensures Replayed(initial, operations + [op], evaluations, commits)
  {
    hide Replay, BasesReplay, Evaluated, EvaluationOf;
    StartKeepsBases(initial, operations, evaluations, op);
    StartKeepsEvaluated(operations, evaluations, op);
    assert (operations + [op])[..|operations|] == operations;
  }

  /** The last row once completed. */
  function Concluded(operations: seq<Operation>): seq<Operation>
    requires operations != []
  {
    operations[|operations| - 1 := operations[|operations| - 1].(stage := Completed)]
  }

  /** Replay of a prefix does not see the evaluation of the last operation. */
  lemma PrefixFrame(initial: string, operations: seq<Operation>, evaluations: seq<EvaluationRow>, row: EvaluationRow, k: nat)
    requires UniqueIds(operations) && k < |operations| && row.operation == operations[|operations| - 1].id
    ensures Replay(initial, operations[..k], evaluations + [row]) == Replay(initial, operations[..k], evaluations)
    ensures CommitsOf(operations[..k], evaluations + [row]) == CommitsOf(operations[..k], evaluations)
  {
    ReplayFrame(initial, operations[..k], evaluations, row);
  }

  lemma CompleteKeepsBases(initial: string, operations: seq<Operation>, evaluations: seq<EvaluationRow>, row: EvaluationRow)
    requires UniqueIds(operations) && operations != [] && row.operation == operations[|operations| - 1].id
    requires BasesReplay(initial, operations, evaluations)
    ensures BasesReplay(initial, Concluded(operations), evaluations + [row])
  {
    hide Replay, CommitsOf, UniqueIds;
    var after := Concluded(operations);
    forall k | 0 <= k < |after| ensures after[k].request.base == Replay(initial, after[..k], evaluations + [row]) {
      assert operations[k].request.base == Replay(initial, operations[..k], evaluations);
      assert after[..k] == operations[..k];
      PrefixFrame(initial, operations, evaluations, row, k);
    }
  }

  /** Completing the last operation appends exactly the commit that replay expects. */
  lemma CompleteKeepsCommits(initial: string, operations: seq<Operation>, evaluations: seq<EvaluationRow>, evaluation: Evaluation)
    requires UniqueIds(operations) && operations != []
    requires var op := operations[|operations| - 1];
      !op.stage.Completed? && evaluation.candidate.id == op.id && evaluation.candidate.base == Replay(initial, operations, evaluations)
    ensures CommitsOf(Concluded(operations), evaluations + [EvaluationRow(evaluation.candidate.id, evaluation)])
         == CommitsOf(operations, evaluations) + CommitRows(Replay(initial, operations, evaluations), evaluation)
  {
    hide UniqueIds, NewestCommit, EvaluationOf, Ids;
    var n := |operations| - 1;
    var row := EvaluationRow(operations[n].id, evaluation);
    assert Concluded(operations)[..n] == operations[..n];
    PrefixFrame(initial, operations, evaluations, row, n);
    EvaluationFrame(evaluations, row, operations[n].id);
    CommitsAreReplay(initial, operations, evaluations);
  }

  lemma AppendKeepsOnce(evaluations: seq<EvaluationRow>, row: EvaluationRow)
    requires EvaluatedOnce(evaluations) && EvaluationOf(evaluations, row.operation).None?
    ensures EvaluatedOnce(evaluations + [row])
  {
    EvaluationKnown(evaluations, row.operation);
    assert forall i :: 0 <= i < |evaluations| ==> evaluations[i] in evaluations;
  }

  lemma CompleteKeepsEvaluated(operations: seq<Operation>, evaluations: seq<EvaluationRow>, evaluation: Evaluation)
    requires UniqueIds(operations) && operations != [] && Evaluated(operations, evaluations)
    requires !operations[|operations| - 1].stage.Completed?
    requires CheckEvaluation(CandidateOf(operations[|operations| - 1]), evaluation).None?
    ensures Evaluated(Concluded(operations), evaluations + [EvaluationRow(evaluation.candidate.id, evaluation)])
  {
    var n := |operations| - 1;
    var row, after := EvaluationRow(operations[n].id, evaluation), Concluded(operations);
    assert EvaluatedRow(operations[n], evaluations);
    AppendKeepsOnce(evaluations, row);
    IdsOfRewrite(operations, n, after[n]);
    assert operations[n] in operations;
    forall k | 0 <= k < |after| ensures EvaluatedRow(after[k], evaluations + [row]) {
      assert EvaluatedRow(operations[k], evaluations);
      EvaluationFrame(evaluations, row, operations[k].id);
    }
  }

  // -------------------------------------------------------------------- capacity

  lemma CountAppend(rows: seq<ReservationRow>, row: ReservationRow, resource: Resource)
    ensures CountOf(rows + [row], resource) == CountOf(rows, resource) + if row.resource == resource then 1 else 0
  {
    assert (rows + [row])[..|rows|] == rows;
  }

  lemma {:induction false} DispatchedRewrite(operations: seq<Operation>, i: nat, op: Operation)
    requires i < |operations|
    ensures DispatchedIn(operations[i := op])
         == DispatchedIn(operations) - (if operations[i].stage.PastDispatch() then 1 else 0)
                                     + (if op.stage.PastDispatch() then 1 else 0)
  {
    var n := |operations| - 1;
    if i < n {
      DispatchedRewrite(operations[..n], i, op);
      assert operations[i := op][..n] == operations[..n][i := op];
    } else {
      assert operations[i := op][..n] == operations[..n];
    }
  }

  lemma RewriteKeepsReserved(operations: seq<Operation>, reservations: seq<ReservationRow>, i: nat, op: Operation)
    requires Reserved(operations, reservations)
    requires i < |operations| && op.id == operations[i].id
    requires op.stage.PastDispatch() <==> operations[i].stage.PastDispatch()
    ensures Reserved(operations[i := op], reservations)
    ensures DispatchedIn(operations[i := op]) == DispatchedIn(operations)
  {
    IdsOfRewrite(operations, i, op);
    DispatchedRewrite(operations, i, op);
    assert ReservedRow(operations[i], reservations);
  }

  lemma StartKeepsReserved(operations: seq<Operation>, reservations: seq<ReservationRow>, op: Operation)
    requires Reserved(operations, reservations)
    requires op.stage.Inference? && op.id !in Ids(operations)
    ensures Reserved(operations + [op], reservations + [ReservationRow(op.id, InferenceUse)])
    ensures DispatchedIn(operations + [op]) == DispatchedIn(operations)
  {
    var after := operations + [op];
    assert after[..|operations|] == operations;
    IdsOfAppend(operations, op);
    forall k | 0 <= k < |after| ensures ReservedRow(after[k], reservations + [ReservationRow(op.id, InferenceUse)]) {
      if k < |operations| {
        assert ReservedRow(operations[k], reservations);
      }
    }
  }

  lemma DispatchKeepsReserved(operations: seq<Operation>, reservations: seq<ReservationRow>, i: nat, op: Operation, external: bool)
    requires Reserved(operations, reservations) && UniqueIds(operations)
    requires i < |operations| && op.id == operations[i].id
    requires op.stage.Dispatched? && !operations[i].stage.PastDispatch()
    ensures Reserved(operations[i := op], reservations + DispatchRows(op.id, external))
    ensures DispatchedIn(operations[i := op]) == DispatchedIn(operations) + 1
  {
    hide DispatchedIn;
    var after, rows := operations[i := op], reservations + DispatchRows(op.id, external);
    IdsOfRewrite(operations, i, op);
    DispatchedRewrite(operations, i, op);
    assert operations[i] in operations;
    assert ReservationRow(op.id, ToolUse) in DispatchRows(op.id, external);
    forall k | 0 <= k < |after| ensures ReservedRow(after[k], rows) {
      assert ReservedRow(operations[k], reservations);
      assert k != i ==> operations[k].id != op.id;
    }
  }

  lemma DispatchCounts(reservations: seq<ReservationRow>, id: string, external: bool, resource: Resource)
    ensures CountOf(reservations + DispatchRows(id, external), resource)
         == CountOf(reservations, resource) + (if resource == ToolUse then 1 else 0)
            + (if external && resource == ExternalUse then 1 else 0)
  {
    var tool := ReservationRow(id, ToolUse);
    CountAppend(reservations, tool, resource);
    CountAppend(reservations + [tool], ReservationRow(id, ExternalUse), resource);
    assert reservations + DispatchRows(id, external)
        == if external then reservations + [tool] + [ReservationRow(id, ExternalUse)] else reservations + [tool];
  }

  // ---------------------------------------------------------------------- guards

  lemma DecisionFrame(rows: seq<DecisionRow>, row: DecisionRow, id: string, guard: string)
    ensures DecisionOf(rows + [row], id, guard)
         == if row.operation == id && row.guard == guard then Some(row.decision) else DecisionOf(rows, id, guard)
  {
    assert (rows + [row])[..|rows|] == rows;
  }

  lemma RewriteKeepsGuarded(operations: seq<Operation>, requirements: seq<RequirementRow>, decisions: seq<DecisionRow>,
                            i: nat, op: Operation)
    requires Guarded(operations, requirements, decisions)
    requires i < |operations| && op.id == operations[i].id
    requires op.stage.PastDispatch() ==> operations[i].stage.PastDispatch() || GuardsAllow(requirements, decisions, op.id)
    ensures Guarded(operations[i := op], requirements, decisions)
  {
    IdsOfRewrite(operations, i, op);
  }

  lemma RequirementIn(id: string, guards: seq<string>, row: RequirementRow)
    ensures row in RequirementRows(id, guards) <==> row.operation == id && row.guard in guards
  {
    var rows := RequirementRows(id, guards);
    if row.operation == id && row.guard in guards {
      var i :| 0 <= i < |guards| && guards[i] == row.guard;
      assert rows[i] == row;
    }
  }

  lemma StartKeepsGuarded(operations: seq<Operation>, requirements: seq<RequirementRow>, decisions: seq<DecisionRow>,
                          op: Operation, guards: seq<string>)
    requires Guarded(operations, requirements, decisions)
    requires op.stage.Inference? && op.id !in Ids(operations)
    ensures Guarded(operations + [op], requirements + RequirementRows(op.id, guards), decisions)
  {
    var after, rows := operations + [op], requirements + RequirementRows(op.id, guards);
    IdsOfAppend(operations, op);
    forall row | row in RequirementRows(op.id, guards) ensures row.operation == op.id {
      RequirementIn(op.id, guards, row);
    }
    forall k | 0 <= k < |after| && after[k].stage.PastDispatch() ensures GuardsAllow(rows, decisions, after[k].id) {
      assert after[k] == operations[k] && operations[k] in operations;
      assert GuardsAllow(requirements, decisions, operations[k].id);
    }
  }

  /** A decision about an operation that has not been dispatched leaves dispatched ones alone. */
  lemma DecisionKeepsGuarded(operations: seq<Operation>, requirements: seq<RequirementRow>, decisions: seq<DecisionRow>,
                             row: DecisionRow)
    requires Guarded(operations, requirements, decisions)
    requires RequirementRow(row.operation, row.guard) in requirements
    requires forall i :: 0 <= i < |operations| && operations[i].stage.PastDispatch() ==> operations[i].id != row.operation
    ensures Guarded(operations, requirements, decisions + [row])
  {
    forall k | 0 <= k < |operations| && operations[k].stage.PastDispatch()
      ensures GuardsAllow(requirements, decisions + [row], operations[k].id)
    {
      var id := operations[k].id;
      assert GuardsAllow(requirements, decisions, id);
      forall r | r in requirements && r.operation == id
        ensures DecisionOf(decisions + [row], id, r.guard) == DecisionOf(decisions, id, r.guard)
      {
        DecisionFrame(decisions, row, id, r.guard);
      }
    }
  }

  // --------------------------------------------------------------- output tokens

  lemma {:induction false} UsageKnown(usage: seq<UsageRow>, id: string)
    ensures UsageOf(usage, id).Some? <==> exists row :: row in usage && row.operation == id
  {
    if usage != [] {
      var n := |usage| - 1;
      UsageKnown(usage[..n], id);
      assert usage == usage[..n] + [usage[n]];
    }
  }

  /** An admitted reservation: a model one comes after settled ones only and fits what is left. */
  lemma StartKeepsSettles(cap: Option<int>, outputs: seq<OutputRow>, usage: seq<UsageRow>, row: OutputRow)
    requires Settles(cap, outputs, usage) && cap.Some?
    requires UsageOf(usage, row.operation).None?
    requires row.reservation.kind.Model? ==>
      var b := BudgetOf(cap, outputs, usage);
      b.unresolved == 0 && b.breached == 0 && row.reservation.tokens <= b.available.value
    ensures Settles(cap, outputs + [row], usage)
  {
    var after := outputs + [row];
    assert after[..|outputs|] == outputs;
    if row.reservation.kind.Model? {
      CountersMeaning(outputs, usage);
      assert forall r :: r in outputs ==> Clear(r, usage);
      forall r | r in outputs ensures WithinBound(r, usage) {
        assert Clear(r, usage);
      }
      assert forall i :: 0 <= i < |outputs| ==> outputs[i] in outputs;
    } else if AllWithin(after, usage) {
      assert forall r :: r in outputs ==> r in after;
    }
  }

  /** A report moves tokens from held to spent for the last reservation alone. */
  lemma UsageKeepsSettles(cap: Option<int>, outputs: seq<OutputRow>, usage: seq<UsageRow>, row: UsageRow)
    requires Settles(cap, outputs, usage) && cap.Some? && outputs != []
    requires outputs[|outputs| - 1].operation == row.operation && UsageOf(usage, row.operation).None?
    requires forall i :: 0 <= i < |outputs| - 1 ==> outputs[i].operation != row.operation
    ensures Settles(cap, outputs, usage + [row])
  {
    var n, after := |outputs| - 1, usage + [row];
    assert after[..|usage|] == usage;
    TallyFrame(outputs[..n], usage, row);
    UsageFrame(usage, row, row.operation);
    forall k | 0 <= k < n ensures UsageOf(after, outputs[k].operation) == UsageOf(usage, outputs[k].operation) {
      UsageFrame(usage, row, outputs[k].operation);
    }
    if AllWithin(outputs, after) {
      forall r | r in outputs ensures WithinBound(r, usage) {
        assert WithinBound(r, after);
      }
      assert WithinBound(outputs[n], after);
    }
  }

  lemma RewriteKeepsTokens(cap: Option<int>, operations: seq<Operation>, outputs: seq<OutputRow>, usage: seq<UsageRow>,
                           i: nat, op: Operation)
    requires Lockstep(cap, operations, outputs) && Reported(operations, usage)
    requires i < |operations| && op.id == operations[i].id && op.request == operations[i].request
    ensures Lockstep(cap, operations[i := op], outputs) && Reported(operations[i := op], usage)
  {
    IdsOfRewrite(operations, i, op);
  }

  // ------------------------------------------------------------- per transaction

  /** The rewrites that neither reserve nor evaluate. */
  lemma RewriteKeepsValid(j: Journal, i: nat, op: Operation)
    requires Valid(j) && i < |j.operations| && Follows(j.operations, i, op)
    requires op.stage.Completed? <==> j.operations[i].stage.Completed?
    requires op.stage.PastDispatch() <==> j.operations[i].stage.PastDispatch()
    requires op.stage.Completed? ==> CandidateOf(op) == CandidateOf(j.operations[i])
    ensures Valid(j.(operations := j.operations[i := op]))
  {
    RewriteKeepsOperations(j.operations, i, op);
    RewriteKeepsReplay(j.initialState, j.operations, j.evaluations, j.commits, i, op);
    RewriteKeepsReserved(j.operations, j.reservations, i, op);
    RewriteKeepsGuarded(j.operations, j.requirements, j.decisions, i, op);
    RewriteKeepsTokens(j.limits.outputTokens, j.operations, j.outputs, j.usage, i, op);
  }

  lemma AppendKeepsOperations(operations: seq<Operation>, op: Operation)
    requires UniqueIds(operations) && OnlyLastOpen(operations) && Shapes(operations)
    requires FirstOpen(operations).None? && op.id !in Ids(operations) && Shaped(op)
    ensures UniqueIds(operations + [op]) && OnlyLastOpen(operations + [op]) && Shapes(operations + [op])
  {
    NothingOpen(operations);
    assert forall i :: 0 <= i < |operations| ==> operations[i] in operations;
  }

  lemma StartKeepsCounted(limits: Limits, operations: seq<Operation>, reservations: seq<ReservationRow>, op: Operation)
    requires Counted(limits, operations, reservations) && CountOf(reservations, InferenceUse) < limits.inferenceCalls
    requires op.stage.Inference?
    ensures Counted(limits, operations + [op], reservations + [ReservationRow(op.id, InferenceUse)])
  {
    assert (operations + [op])[..|operations|] == operations;
    forall resource { CountAppend(reservations, ReservationRow(op.id, InferenceUse), resource); }
  }

  lemma StartKeepsLockstep(cap: Option<int>, operations: seq<Operation>, outputs: seq<OutputRow>, usage: seq<UsageRow>,
                           op: Operation, reservation: Option<Reservation>)
    requires Lockstep(cap, operations, outputs) && Reported(operations, usage)
    requires cap.Some? <==> reservation.Some?
    requires reservation.Some? ==> op.request.maxOutputTokens == Some(reservation.value.tokens)
    ensures Reported(operations + [op], usage)
    ensures Lockstep(cap, operations + [op], outputs + if reservation.Some? then [OutputRow(op.id, reservation.value)] else [])
  {
    IdsOfAppend(operations, op);
  }

  lemma StartSettlesFresh(cap: Option<int>, operations: seq<Operation>, outputs: seq<OutputRow>, usage: seq<UsageRow>,
                          id: string, reservation: Option<Reservation>, request: InferenceRequest)
    requires Settles(cap, outputs, usage) && Reported(operations, usage) && id !in Ids(operations)
    requires Admission(BudgetOf(cap, outputs, usage), request, reservation).None?
    ensures Settles(cap, outputs + if reservation.Some? then [OutputRow(id, reservation.value)] else [], usage)
  {
    UsageKnown(usage, id);
    if reservation.Some? {
      StartKeepsSettles(cap, outputs, usage, OutputRow(id, reservation.value));
    }
  }

  /** What an accepted start has checked. */
  lemma StartChecks(j: Journal, deadline: Option<real>, now: Now, id: string, request: InferenceRequest,
                    reservation: Option<Reservation>, guards: seq<string>)
    requires StartRefusal(j, deadline, now, id, request, reservation, guards).None?
    ensures FirstOpen(j.operations).None? && id !in Ids(j.operations) && request.base == Read(j)
    ensures CountOf(j.reservations, InferenceUse) < j.limits.inferenceCalls
    ensures Admission(BudgetOf(j.limits.outputTokens, j.outputs, j.usage), request, reservation).None?
    ensures j.limits.outputTokens.Some? <==> reservation.Some?
    ensures reservation.Some? ==> request.maxOutputTokens == Some(reservation.value.tokens)
  {
    FindIds(j.operations, id);
  }

  lemma StartKeepsValid(j: Journal, deadline: Option<real>, now: Now, id: string, request: InferenceRequest,
                        reservation: Option<Reservation>, guards: seq<string>)
    requires Valid(j) && StartRefusal(j, deadline, now, id, request, reservation, guards).None?
    ensures Valid(Started(j, now, id, request, reservation, guards))
  {
    var op := Operation(id, Inference, request, None, false, None, None);
    StartChecks(j, deadline, now, id, request, reservation, guards);
    ReadIsReplay(j);
    AppendKeepsOperations(j.operations, op);
    StartKeepsReplay(j.initialState, j.operations, j.evaluations, j.commits, op);
    StartKeepsReserved(j.operations, j.reservations, op);
    StartKeepsCounted(j.limits, j.operations, j.reservations, op);
    StartKeepsGuarded(j.operations, j.requirements, j.decisions, op, guards);
    StartKeepsLockstep(j.limits.outputTokens, j.operations, j.outputs, j.usage, op, reservation);
    StartSettlesFresh(j.limits.outputTokens, j.operations, j.outputs, j.usage, id, reservation, request);
  }

  /** The row an operation's stage singles out: an open operation is the last one. */
  lemma OpenIsLast(operations: seq<Operation>, id: string, i: nat)
    requires UniqueIds(operations) && OnlyLastOpen(operations)
    requires Find(operations, id) == Some(i) && operations[i].stage.Open()
    ensures i == |operations| - 1
  {
  }

  lemma GuardKeepsValid(j: Journal, row: DecisionRow)
    requires Valid(j) && GuardRefusal(j, row.operation, row.guard).None?
    ensures Valid(j.(decisions := j.decisions + [row]))
  {
    var i := Find(j.operations, row.operation).value;
    FindUniqueForall(j.operations, i);
    DecisionKeepsGuarded(j.operations, j.requirements, j.decisions, row);
  }

  lemma FindUniqueForall(operations: seq<Operation>, i: nat)
    requires UniqueIds(operations) && i < |operations|
    ensures forall k :: 0 <= k < |operations| && operations[k].id == operations[i].id ==> k == i
  {
  }

  lemma UsageKeepsReported(operations: seq<Operation>, usage: seq<UsageRow>, row: UsageRow)
    requires Reported(operations, usage) && row.operation in Ids(operations) && UsageOf(usage, row.operation).None?
    ensures Reported(operations, usage + [row])
  {
    UsageKnown(usage, row.operation);
    assert forall k :: 0 <= k < |usage| ==> usage[k] in usage;
  }

  lemma UsageKeepsTokens(cap: Option<int>, operations: seq<Operation>, outputs: seq<OutputRow>, usage: seq<UsageRow>, row: UsageRow)
    requires Settles(cap, outputs, usage) && Lockstep(cap, operations, outputs) && UniqueIds(operations)
    requires operations != [] && operations[|operations| - 1].id == row.operation && UsageOf(usage, row.operation).None?
    ensures Settles(cap, outputs, usage + [row])
  {
    if cap.Some? {
      UsageKeepsSettles(cap, outputs, usage, row);
    }
  }

  lemma UsageKeepsValid(j: Journal, row: UsageRow)
    requires Valid(j) && UsageRefusal(j, row.operation).None?
    ensures Valid(j.(usage := j.usage + [row]))
  {
    hide Shapes, CommitsOf, BasesReplay, Evaluated, Reserved, Counted, Guarded, Reported, Lockstep, Settles, UsageOf;
    OpenIsLast(j.operations, row.operation, Find(j.operations, row.operation).value);
    FindIds(j.operations, row.operation);
    UsageKeepsReported(j.operations, j.usage, row);
    UsageKeepsTokens(j.limits.outputTokens, j.operations, j.outputs, j.usage, row);
  }

  lemma DispatchKeepsCounted(limits: Limits, operations: seq<Operation>, reservations: seq<ReservationRow>,
                             i: nat, op: Operation, external: bool)
    requires Counted(limits, operations, reservations) && i < |operations|
    requires op.stage.Dispatched? && !operations[i].stage.PastDispatch()
    requires CountOf(reservations, ToolUse) < limits.toolCalls
    requires external ==> CountOf(reservations, ExternalUse) < limits.externalActions
    ensures Counted(limits, operations[i := op], reservations + DispatchRows(op.id, external))
  {
    DispatchedRewrite(operations, i, op);
    forall resource { DispatchCounts(reservations, op.id, external, resource); }
  }

  /** The tables once operation i, with its new row, is dispatched. */
  function Sent(j: Journal, now: Now, i: nat, op: Operation, external: bool): Journal
    requires i < |j.operations|
  {
    j.(lastClock := now.wall,
       operations := j.operations[i := op],
       reservations := j.reservations + DispatchRows(op.id, external))
  }

  lemma DispatchChecks(j: Journal, deadline: Option<real>, now: Now, id: string, observation: bool, external: bool)
    returns (i: nat, op: Operation)
    requires UniqueIds(j.operations) && OnlyLastOpen(j.operations) && Shapes(j.operations)
    requires DispatchRefusal(j, deadline, now, id, external).None?
    ensures i == |j.operations| - 1 && Find(j.operations, id) == Some(i) && j.operations[i].id == id
    ensures j.operations[i].stage.Proposed? && Follows(j.operations, i, op)
    ensures op == j.operations[i].(stage := Dispatched, observation := observation)
    ensures Effect(j, now, Dispatch(id, observation, external)) == Sent(j, now, i, op, external)
    ensures GuardsAllow(j.requirements, j.decisions, id)
    ensures CountOf(j.reservations, ToolUse) < j.limits.toolCalls
    ensures external ==> CountOf(j.reservations, ExternalUse) < j.limits.externalActions
  {
    i := Find(j.operations, id).value;
    op := j.operations[i].(stage := Dispatched, observation := observation);
    assert Shaped(j.operations[i]);
    OpenIsLast(j.operations, id, i);
  }

  lemma SentKeepsValid(j: Journal, now: Now, i: nat, op: Operation, external: bool)
    requires Valid(j) && i < |j.operations| && Follows(j.operations, i, op)
    requires op.stage.Dispatched? && j.operations[i].stage.Proposed?
    requires GuardsAllow(j.requirements, j.decisions, op.id)
    requires CountOf(j.reservations, ToolUse) < j.limits.toolCalls
    requires external ==> CountOf(j.reservations, ExternalUse) < j.limits.externalActions
    ensures Valid(Sent(j, now, i, op, external))
  {
    RewriteKeepsOperations(j.operations, i, op);
    RewriteKeepsReplay(j.initialState, j.operations, j.evaluations, j.commits, i, op);
    DispatchKeepsReserved(j.operations, j.reservations, i, op, external);
    DispatchKeepsCounted(j.limits, j.operations, j.reservations, i, op, external);
    RewriteKeepsGuarded(j.operations, j.requirements, j.decisions, i, op);
    RewriteKeepsTokens(j.limits.outputTokens, j.operations, j.outputs, j.usage, i, op);
  }

  lemma DispatchKeepsValid(j: Journal, deadline: Option<real>, now: Now, id: string, observation: bool, external: bool)
    requires Valid(j) && DispatchRefusal(j, deadline, now, id, external).None?
    ensures Valid(Effect(j, now, Dispatch(id, observation, external)))
  {
    var i, op := DispatchChecks(j, deadline, now, id, observation, external);
    SentKeepsValid(j, now, i, op, external);
  }

  /** The tables once the last operation is evaluated. */
  function Judged(j: Journal, now: Now, evaluation: Evaluation): Journal
    requires j.operations != []
  {
    j.(lastClock := now.wall,
       operations := Concluded(j.operations),
       evaluations := j.evaluations + [EvaluationRow(evaluation.candidate.id, evaluation)],
       commits := j.commits + CommitRows(Read(j), evaluation))
  }

  lemma CompleteChecks(j: Journal, now: Now, evaluation: Evaluation) returns (i: nat)
    requires UniqueIds(j.operations) && OnlyLastOpen(j.operations)
    requires CompleteRefusal(j, evaluation).None?
    ensures i == |j.operations| - 1 && Find(j.operations, evaluation.candidate.id) == Some(i)
    ensures j.operations[i].stage.Returned? && j.operations[i].id == evaluation.candidate.id
    ensures CheckEvaluation(CandidateOf(j.operations[i]), evaluation).None?
    ensures Effect(j, now, Complete(evaluation)) == Judged(j, now, evaluation)
  {
    i := Find(j.operations, evaluation.candidate.id).value;
    OpenIsLast(j.operations, evaluation.candidate.id, i);
  }

  lemma JudgedKeepsOperations(j: Journal)
    requires Valid(j) && j.operations != [] && j.operations[|j.operations| - 1].stage.Returned?
    ensures var after := Concluded(j.operations);
      && UniqueIds(after) && OnlyLastOpen(after) && Shapes(after)
      && Reserved(after, j.reservations) && Counted(j.limits, after, j.reservations)
      && Guarded(after, j.requirements, j.decisions)
      && Lockstep(j.limits.outputTokens, after, j.outputs) && Reported(after, j.usage)
  {
    hide BasesReplay, Evaluated, Settles, Reserved, Guarded, Lockstep, Reported, CommitsOf;
    var i := |j.operations| - 1;
    var op := j.operations[i].(stage := Completed);
    assert Shaped(j.operations[i]);
    RewriteKeepsOperations(j.operations, i, op);
    RewriteKeepsReserved(j.operations, j.reservations, i, op);
    RewriteKeepsGuarded(j.operations, j.requirements, j.decisions, i, op);
    RewriteKeepsTokens(j.limits.outputTokens, j.operations, j.outputs, j.usage, i, op);
  }

  lemma JudgedKeepsValid(j: Journal, now: Now, evaluation: Evaluation)
    requires Valid(j) && j.operations != [] && j.operations[|j.operations| - 1].stage.Returned?
    requires CheckEvaluation(CandidateOf(j.operations[|j.operations| - 1]), evaluation).None?
    ensures Valid(Judged(j, now, evaluation))
  {
    OpenOnAccepted(j);
    ReadIsReplay(j);
    JudgedKeepsOperations(j);
    CompleteKeepsBases(j.initialState, j.operations, j.evaluations, EvaluationRow(evaluation.candidate.id, evaluation));
    CompleteKeepsCommits(j.initialState, j.operations, j.evaluations, evaluation);
    CompleteKeepsEvaluated(j.operations, j.evaluations, evaluation);
  }

  lemma CompleteKeepsValid(j: Journal, now: Now, evaluation: Evaluation)
    requires Valid(j) && CompleteRefusal(j, evaluation).None?
    ensures Valid(Effect(j, now, Complete(evaluation)))
  {
    var i := CompleteChecks(j, now, evaluation);
    JudgedKeepsValid(j, now, evaluation);
  }

  /** The actions RewriteKeepsValid covers. */
  predicate PlainRewrite(a: Action) { a.Propose? || a.Return? || a.Fail? || a.Abandon? }

  lemma PlainRewriteChecks(j: Journal, deadline: Option<real>, now: Now, a: Action) returns (i: nat, op: Operation)
    requires PlainRewrite(a) && Refusal(j, deadline, now, a).None?
    requires UniqueIds(j.operations) && OnlyLastOpen(j.operations) && Shapes(j.operations)
    ensures i < |j.operations| && Find(j.operations, a.id) == Some(i) && op == Rewrite(j.operations[i], a)
    ensures Effect(j, now, a) == j.(operations := j.operations[i := op])
    ensures Follows(j.operations, i, op)
    ensures op.stage.Completed? <==> j.operations[i].stage.Completed?
    ensures op.stage.PastDispatch() <==> j.operations[i].stage.PastDispatch()
    ensures op.stage.Completed? ==> CandidateOf(op) == CandidateOf(j.operations[i])
  {
    i := Find(j.operations, a.id).value;
    op := Rewrite(j.operations[i], a);
    assert Shaped(j.operations[i]);
    if j.operations[i].stage.Open() {
      OpenIsLast(j.operations, a.id, i);
    }
  }

  lemma PlainRewriteKeepsValid(j: Journal, deadline: Option<real>, now: Now, a: Action)
    requires Valid(j) && PlainRewrite(a) && Refusal(j, deadline, now, a).None?
    ensures Valid(Effect(j, now, a))
  {
    var i, op := PlainRewriteChecks(j, deadline, now, a);
    RewriteKeepsValid(j, i, op);
  }

  // ------------------------------------------------------------------- together

  lemma NoteKeepsValid(j: Journal, row: EventRow)
    requires Valid(j)
    ensures Valid(j.(events := j.events + [row]))
  {
  }

  lemma FinishKeepsValid(j: Journal, outcome: Ending)
    requires Valid(j)
    ensures Valid(j.(outcome := Some(outcome)))
  {
  }

  lemma EffectKeepsValid(j: Journal, deadline: Option<real>, now: Now, a: Action)
    requires Valid(j) && Refusal(j, deadline, now, a).None?
    ensures Valid(Effect(j, now, a))
  {
    hide Valid, StartRefusal, GuardRefusal, UsageRefusal, DispatchRefusal, CompleteRefusal;
    match a
    case Start(id, request, reservation, guards) => StartKeepsValid(j, deadline, now, id, request, reservation, guards);
    case RecordGuard(id, guard, decision) => GuardKeepsValid(j, DecisionRow(id, guard, decision));
    case RecordUsage(id, usage) => UsageKeepsValid(j, UsageRow(id, usage));
    case Dispatch(id, observation, external) => DispatchKeepsValid(j, deadline, now, id, observation, external);
    case Complete(evaluation) => CompleteKeepsValid(j, now, evaluation);
    case RecordEvent(id, stage, detail) => NoteKeepsValid(j, EventRow(id, stage, detail));
    case Finish(outcome) => FinishKeepsValid(j, outcome);
    case _ => PlainRewriteKeepsValid(j, deadline, now, a);
  }

  /** No call, refused or not, with whatever arguments and clock, breaks the invariant. */
  lemma KeepsValid(j: Journal, deadline: Option<real>, now: Now, a: Action)
    requires Valid(j)
    ensures Valid(Apply(j, deadline, now, a))
  {
    if Refusal(j, deadline, now, a).None? {
      EffectKeepsValid(j, deadline, now, a);
    }
  }

  lemma CreatedIsValid(initialState: string, initialObservation: Option<string>, limits: Limits, now: Now)
    ensures Valid(Create(initialState, initialObservation, limits, now))
  {
  }
}
