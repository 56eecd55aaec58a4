/** What every transaction keeps, whatever the caller passes and in whatever order it calls. */
module Invariants {
  import opened Contracts
  import opened Tables
  import opened OutputBudgets
  import opened Journals

  function Ids(operations: seq<Operation>): set<string> { set op | op in operations :: op.id }

  predicate UniqueIds(operations: seq<Operation>) {
    forall i, k :: 0 <= i < k < |operations| ==> operations[i].id != operations[k].id
  }

  /** Only the last operation may still be open. */
  predicate OnlyLastOpen(operations: seq<Operation>) {
    forall i :: 0 <= i < |operations| - 1 ==> !operations[i].stage.Open()
  }

  /** The fields each stage leaves set. */
  predicate Shaped(op: Operation) {
    && (op.stage.Inference? ==> op.call.None?)
    && (op.stage.Proposed? || op.stage.PastDispatch() ==> op.call.Some?)
    && (op.stage.Returned? || op.stage.Completed? <==> op.output.Some?)
    && (op.observation ==> op.stage.PastDispatch())
  }

  predicate Shapes(operations: seq<Operation>) {
    forall i :: 0 <= i < |operations| ==> Shaped(operations[i])
  }

  // ------------------------------------------------------------------- replay

  /** The state an operation publishes, if any. */
  function Publication(op: Operation, evaluations: seq<EvaluationRow>): Option<string> {
    var e := EvaluationOf(evaluations, op.id);
    if op.stage.Completed? && e.Some? then e.value.Published() else None
  }

  /** Accepted state after the operations, replaying published updates in sequence order. */
  function Replay(initial: string, operations: seq<Operation>, evaluations: seq<EvaluationRow>): State {
    if operations == [] then State(0, initial)
    else
      var n := |operations| - 1;
      var before := Replay(initial, operations[..n], evaluations);
      match Publication(operations[n], evaluations)
      case Some(value) => State(before.revision + 1, value)
      case None => before
  }

  /** The commit table that replaying the operations writes. */
  function CommitsOf(operations: seq<Operation>, evaluations: seq<EvaluationRow>): seq<CommitRow> {
    if operations == [] then []
    else
      var n := |operations| - 1;
      var before := CommitsOf(operations[..n], evaluations);
      match Publication(operations[n], evaluations)
      case Some(value) => before + [CommitRow(|before| + 1, operations[n].id, |before|, value)]
      case None => before
  }

  /** Each operation was asked for on top of what the operations before it published. */
  predicate BasesReplay(initial: string, operations: seq<Operation>, evaluations: seq<EvaluationRow>) {
    forall i :: 0 <= i < |operations| ==> operations[i].request.base == Replay(initial, operations[..i], evaluations)
  }

  predicate EvaluatedOnce(evaluations: seq<EvaluationRow>) {
    forall i, k :: 0 <= i < k < |evaluations| ==> evaluations[i].operation != evaluations[k].operation
  }

  predicate EvaluatedRow(op: Operation, evaluations: seq<EvaluationRow>) {
    var e := EvaluationOf(evaluations, op.id);
    && (e.Some? <==> op.stage.Completed?)
    && (e.Some? ==> CheckEvaluation(CandidateOf(op), e.value).None?)
  }

  /** Exactly the completed operations are evaluated, each once and on its own candidate. */
  predicate Evaluated(operations: seq<Operation>, evaluations: seq<EvaluationRow>) {
    && (forall row :: row in evaluations ==> row.operation in Ids(operations))
    && EvaluatedOnce(evaluations)
    && forall i :: 0 <= i < |operations| ==> EvaluatedRow(operations[i], evaluations)
  }

  // -------------------------------------------------------- capacity and guards

  function DispatchedIn(operations: seq<Operation>): nat {
    if operations == [] then 0
    else
      var n := |operations| - 1;
      DispatchedIn(operations[..n]) + if operations[n].stage.PastDispatch() then 1 else 0
  }

  predicate ReservedRow(op: Operation, reservations: seq<ReservationRow>) {
    && ReservationRow(op.id, InferenceUse) in reservations
    && (ReservationRow(op.id, ToolUse) in reservations <==> op.stage.PastDispatch())
    && (ReservationRow(op.id, ExternalUse) in reservations ==> op.stage.PastDispatch())
  }

  predicate Reserved(operations: seq<Operation>, reservations: seq<ReservationRow>) {
    && (forall row :: row in reservations ==> row.operation in Ids(operations))
    && forall i :: 0 <= i < |operations| ==> ReservedRow(operations[i], reservations)
  }

  predicate Counted(limits: Limits, operations: seq<Operation>, reservations: seq<ReservationRow>) {
    && CountOf(reservations, InferenceUse) == |operations| <= limits.inferenceCalls
    && CountOf(reservations, ToolUse) == DispatchedIn(operations) <= limits.toolCalls
    && CountOf(reservations, ExternalUse) <= limits.externalActions
    && CountOf(reservations, ExternalUse) <= CountOf(reservations, ToolUse)
  }

  predicate Guarded(operations: seq<Operation>, requirements: seq<RequirementRow>, decisions: seq<DecisionRow>) {
    && (forall row :: row in requirements ==> row.operation in Ids(operations))
    && (forall row :: row in decisions ==> RequirementRow(row.operation, row.guard) in requirements)
    && forall i :: 0 <= i < |operations| && operations[i].stage.PastDispatch() ==>
         GuardsAllow(requirements, decisions, operations[i].id)
  }

  // -------------------------------------------------------------- output tokens

  function KnownOutput(usage: seq<UsageRow>): int {
    if usage == [] then 0 else KnownOutput(usage[..|usage| - 1]) + Tokens(usage[|usage| - 1].usage)
  }

  /** Each report binds its own existing operation. */
  predicate Reported(operations: seq<Operation>, usage: seq<UsageRow>) {
    && (forall row :: row in usage ==> row.operation in Ids(operations))
    && forall i, k :: 0 <= i < k < |usage| ==> usage[i].operation != usage[k].operation
  }

  /** A capped run reserves output for every operation, at the ceiling its request carries. */
  predicate Lockstep(cap: Option<int>, operations: seq<Operation>, outputs: seq<OutputRow>) {
    if cap.None? then outputs == []
    else
      && |outputs| == |operations|
      && forall i :: 0 <= i < |outputs| ==>
           && outputs[i].operation == operations[i].id
           && operations[i].request.maxOutputTokens == Some(outputs[i].reservation.tokens)
  }

  predicate AllWithin(outputs: seq<OutputRow>, usage: seq<UsageRow>) {
    forall row :: row in outputs ==> WithinBound(row, usage)
  }

  /** Of the model reservations, all but the last are settled. */
  predicate EarlierSettled(outputs: seq<OutputRow>, usage: seq<UsageRow>) {
    forall i, k :: 0 <= i < k < |outputs| && outputs[i].reservation.kind.Model? && outputs[k].reservation.kind.Model? ==>
      Settled(outputs[i], usage)
  }

  predicate Settles(cap: Option<int>, outputs: seq<OutputRow>, usage: seq<UsageRow>) {
    cap.Some? ==>
      var t := TallyOf(outputs, usage);
      && t.spent == KnownOutput(usage)
      && (AllWithin(outputs, usage) ==> t.spent + t.held <= cap.value)
      && EarlierSettled(outputs, usage)
  }

  ghost predicate Valid(j: Journal) {
    && UniqueIds(j.operations)
    && OnlyLastOpen(j.operations)
    && Shapes(j.operations)
    && j.commits == CommitsOf(j.operations, j.evaluations)
    && BasesReplay(j.initialState, j.operations, j.evaluations)
    && Evaluated(j.operations, j.evaluations)
    && Reserved(j.operations, j.reservations)
    && Counted(j.limits, j.operations, j.reservations)
    && Guarded(j.operations, j.requirements, j.decisions)
    && Reported(j.operations, j.usage)
    && Lockstep(j.limits.outputTokens, j.operations, j.outputs)
    && Settles(j.limits.outputTokens, j.outputs, j.usage)
  }

  lemma IdsWhenValid(j: Journal)
    requires Valid(j)
    ensures UniqueIds(j.operations) && OnlyLastOpen(j.operations)
  {
  }

  lemma ReservedWhenValid(j: Journal)
    requires Valid(j)
    ensures Reserved(j.operations, j.reservations) && Counted(j.limits, j.operations, j.reservations)
  {
  }

  // ----------------------------------------------------- how operations change

  lemma {:induction false} FindIds(operations: seq<Operation>, id: string)
    ensures Find(operations, id).Some? <==> id in Ids(operations)
  {
  }

  lemma {:induction false} FindUnique(operations: seq<Operation>, i: nat)
    requires UniqueIds(operations) && i < |operations|
    ensures Find(operations, operations[i].id) == Some(i)
  {
    var found := Find(operations, operations[i].id).value;
    assert operations[found].id == operations[i].id;
  }

  lemma IdsOfRewrite(operations: seq<Operation>, i: nat, op: Operation)
    requires i < |operations| && op.id == operations[i].id
    ensures Ids(operations[i := op]) == Ids(operations)
  {
    var after := operations[i := op];
    forall id | id in Ids(operations) ensures id in Ids(after) {
      var k :| 0 <= k < |operations| && operations[k].id == id;
      assert after[k].id == id && after[k] in after;
    }
    forall id | id in Ids(after) ensures id in Ids(operations) {
      var k :| 0 <= k < |after| && after[k].id == id;
      assert operations[k].id == id && operations[k] in operations;
    }
  }

  lemma IdsOfAppend(operations: seq<Operation>, op: Operation)
    ensures Ids(operations + [op]) == Ids(operations) + {op.id}
  {
    assert forall o :: o in operations + [op] <==> o in operations || o == op;
  }
}
