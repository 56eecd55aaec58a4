/** What really ran, against what the run has recorded. */
module Executions {
  import opened Contracts
  import opened Tables
  import opened Journals
  import opened Invariants
  import opened Workings
  import opened Scripts
  import opened Runtimes
  import opened Tools

  /** The operation behind an execution was dispatched with that call, which its request allows, on reserved capacity. */
  predicate Backed(e: Execution, operations: seq<Operation>, reservations: seq<ReservationRow>) {
    && (exists op :: op in operations && Authorises(op, e))
    && ReservationRow(e.id, ToolUse) in reservations
    && (e.external ==> ReservationRow(e.id, ExternalUse) in reservations)
  }

  predicate Authorises(op: Operation, e: Execution) {
    op.id == e.id && op.stage.PastDispatch() && op.call == Some(e.call) && e.call.name in op.request.allowedTools
  }

  predicate HasRun(executions: seq<Execution>, id: string) {
    exists e :: e in executions && e.id == id
  }

  predicate Once(executions: seq<Execution>) {
    forall i, k :: 0 <= i < k < |executions| ==> executions[i].id != executions[k].id
  }

  /** No operation ran twice, everything that ran is recorded as dispatched, and no result was made up. */
  predicate Sound(operations: seq<Operation>, reservations: seq<ReservationRow>, executions: seq<Execution>) {
    && Once(executions)
    && (forall e :: e in executions ==> Backed(e, operations, reservations))
    && forall op :: op in operations && op.output.Some? ==> HasRun(executions, op.id)
  }

  // ------------------------------------------------------------------ capacity

  /** As many rows of a resource as operations that hold one. */
  lemma {:induction false} Pigeonhole(rows: seq<ReservationRow>, ids: set<string>, resource: Resource)
    requires forall id :: id in ids ==> ReservationRow(id, resource) in rows
    ensures |ids| <= CountOf(rows, resource)
  {
    if rows == [] {
      assert forall id :: id !in ids;
    } else {
      var n := |rows| - 1;
      var rest := if rows[n].resource == resource then ids - {rows[n].operation} else ids;
      forall id | id in rest ensures ReservationRow(id, resource) in rows[..n] {
        var i :| 0 <= i < |rows| && rows[i] == ReservationRow(id, resource);
        assert rows[i] in rows[..n];
      }
      Pigeonhole(rows[..n], rest, resource);
    }
  }

  function External(executions: seq<Execution>): seq<Execution> {
    if executions == [] then []
    else
      var n := |executions| - 1;
      External(executions[..n]) + if executions[n].external then [executions[n]] else []
  }

  function RunIds(executions: seq<Execution>): set<string> { set e | e in executions :: e.id }

  lemma {:induction false} ExternalOnce(executions: seq<Execution>)
    requires Once(executions)
    ensures Once(External(executions))
    ensures forall e :: e in External(executions) <==> e in executions && e.external
  {
    if executions != [] {
      var n := |executions| - 1;
      ExternalOnce(executions[..n]);
      assert executions == executions[..n] + [executions[n]];
      assert forall e :: e in executions[..n] ==> e.id != executions[n].id;
    }
  }

  lemma {:induction false} OnceCounts(executions: seq<Execution>)
    requires Once(executions)
    ensures |RunIds(executions)| == |executions|
  {
    if executions != [] {
      var n := |executions| - 1;
      OnceCounts(executions[..n]);
      assert executions == executions[..n] + [executions[n]];
      assert RunIds(executions) == RunIds(executions[..n]) + {executions[n].id};
      assert executions[n].id !in RunIds(executions[..n]);
    }
  }

  /** Tools ran at most as often as the run's limits allow, and so did external ones. */
  lemma WithinCapacity(j: Journal, executions: seq<Execution>)
    requires Valid(j) && Sound(j.operations, j.reservations, executions)
    ensures |executions| <= DispatchedIn(j.operations) <= j.limits.toolCalls
    ensures |External(executions)| <= CountOf(j.reservations, ExternalUse) <= j.limits.externalActions
  {
    IdsWhenValid(j);
    ReservedWhenValid(j);
    hide Valid;
    OnceCounts(executions);
    ExternalOnce(executions);
    OnceCounts(External(executions));
    Pigeonhole(j.reservations, RunIds(executions), ToolUse);
    Pigeonhole(j.reservations, RunIds(External(executions)), ExternalUse);
  }

  // ------------------------------------------------------------- what keeps it

  /** A step that admitted an operation, wherever it stopped. */
  lemma StepIsSound(before: Journal, k: Journal, op: Operation, executions: seq<Execution>, after: seq<Execution>,
                    tool: Tool, s: StepScript, executes: bool)
    requires Working(before, k, op) && op.id == s.id && op.id !in Ids(before.operations)
    requires Sound(before.operations, before.reservations, executions)
    requires Recounts(executions, after, k.reservations, op, tool, s, executes)
    requires executes ==> CallOf(s).name in op.request.allowedTools
    ensures Sound(k.operations, k.reservations, after)
  {
    hide Valid, Sound, Find;
    ReservedWhenValid(k);
    WorkingLast(before, k, op);
    KnownIds(before.operations);
    var ran := if executes then [Execution(s.id, CallOf(s), tool.externalAction)] else [];
    AppendIsSound(before.operations, before.reservations, executions, k.reservations, op, ran);
    assert executions + [] == executions;
  }

  lemma WorkingLast(before: Journal, k: Journal, op: Operation)
    requires Working(before, k, op)
    ensures k.operations == before.operations + [op] && before.reservations <= k.reservations && ReservedRow(op, k.reservations)
  {
    assert k.operations[|before.operations|] == op;
  }

  lemma KnownIds(operations: seq<Operation>)
    ensures forall op :: op in operations ==> op.id in Ids(operations)
  {
  }

  lemma AppendIsSound(operations: seq<Operation>, reservations: seq<ReservationRow>, executions: seq<Execution>,
                      later: seq<ReservationRow>, op: Operation, ran: seq<Execution>)
    requires Sound(operations, reservations, executions) && reservations <= later
    requires forall o :: o in operations ==> o.id != op.id
    requires |ran| <= 1 && (op.output.Some? ==> ran != [])
    requires forall e :: e in ran ==> e.id == op.id && Backed(e, [op], later)
    ensures Sound(operations + [op], later, executions + ran)
  {
    forall e | e in executions + ran ensures Backed(e, operations + [op], later) {
      if e in executions {
        assert Backed(e, operations, reservations);
        assert forall o :: o in operations ==> o in operations + [op];
      } else {
        assert op in operations + [op];
      }
    }
    forall e | e in executions ensures e.id != op.id {
      assert Backed(e, operations, reservations);
    }
    forall o | o in operations + [op] && o.output.Some? ensures HasRun(executions + ran, o.id) {
      if o in operations {
        assert HasRun(executions, o.id);
      } else {
        assert ran[0] in executions + ran;
      }
    }
  }

  lemma RewriteIsSound(operations: seq<Operation>, reservations: seq<ReservationRow>, executions: seq<Execution>, i: nat,
                       op: Operation)
    requires Sound(operations, reservations, executions) && i < |operations|
    requires op.id == operations[i].id && op.request == operations[i].request
    requires operations[i].stage.PastDispatch() ==> op.stage.PastDispatch() && op.call == operations[i].call
    requires op.output.Some? ==> operations[i].output.Some?
    ensures Sound(operations[i := op], reservations, executions)
  {
    var later := operations[i := op];
    forall e | e in executions ensures Backed(e, later, reservations) {
      assert Backed(e, operations, reservations);
      var o :| o in operations && Authorises(o, e);
      var k :| 0 <= k < |operations| && operations[k] == o;
      assert later[k] in later && Authorises(later[k], e);
    }
    forall o | o in later && o.output.Some? ensures HasRun(executions, o.id) {
      var k :| 0 <= k < |later| && later[k] == o;
      assert operations[k] in operations && operations[k].output.Some?;
    }
  }

  /** Recovery runs nothing and forgets nothing that ran. */
  lemma RecoverIsSound(j: Journal, deadline: Option<real>, s: StepScript, executions: seq<Execution>)
    requires Valid(j) && Sound(j.operations, j.reservations, executions)
    ensures var k := RecoverEffect(j, deadline, s); Sound(k.operations, k.reservations, executions)
  {
    hide Valid, Sound, RecoverFault, Find, Rewrite;
    var k := RecoverEffect(j, deadline, s);
    if k != j {
      PendingLast(j);
      var n := |j.operations| - 1;
      if Pending(j).value.candidate.None? {
        assert k.operations == j.operations[n := Rewrite(j.operations[n], Abandon(j.operations[n].id))];
        AbandonKeeps(j.operations[n]);
        RewriteIsSound(j.operations, j.reservations, executions, n, k.operations[n]);
      } else {
        PublishedLast(j, deadline, s);
        CompletingKeeps(j.operations[n], s.evaluated.value);
        RewriteIsSound(j.operations, j.reservations, executions, n, k.operations[n]);
      }
    }
  }

  lemma AbandonKeeps(op: Operation)
    requires !op.stage.Dispatched? && !op.stage.Returned? && op.stage.Open()
    ensures var later := Rewrite(op, Abandon(op.id));
      later.id == op.id && later.request == op.request && later.output == op.output && !op.stage.PastDispatch()
  {
  }

  lemma CompletingKeeps(op: Operation, evaluation: Evaluation)
    ensures var later := Rewrite(op, Action.Complete(evaluation));
      && later.id == op.id && later.request == op.request && later.output == op.output && later.call == op.call
      && later.stage.Completed?
  {
  }
}
