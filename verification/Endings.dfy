/** A finished run: what may still change, and what is frozen for ever. */
module Endings {
  import opened Contracts
  import opened Tables
  import opened OutputBudgets
  import opened Journals
  import opened Invariants
  import opened Histories

  /** Late evidence only: a result for a dispatched call, the failure of an undispatched one, an error text. */
  predicate LateRow(op: Operation, later: Operation) {
    && later.id == op.id && later.request == op.request && later.call == op.call && later.observation == op.observation
    && ((later.stage == op.stage && later.output == op.output)
        || (op.stage.Dispatched? && later.stage.Returned? && later.output.Some?)
        || (op.stage.PreDispatch() && later.stage.Failed? && later.output == op.output))
  }

  predicate LateRows(operations: seq<Operation>, later: seq<Operation>) {
    && |later| == |operations|
    && forall i :: 0 <= i < |operations| ==> LateRow(operations[i], later[i])
  }

  /** Everything but the operations table is the same, and there only late evidence differs. */
  ghost predicate Frozen(j: Journal, k: Journal) {
    && k == j.(operations := k.operations)
    && LateRows(j.operations, k.operations)
  }

  lemma EndedCall(j: Journal, deadline: Option<real>, now: Now, a: Action)
    requires j.outcome.Some?
    ensures Frozen(j, Apply(j, deadline, now, a))
  {
    hide StartRefusal, DispatchRefusal;
    if a.Start? || a.Dispatch? {
      EndedAuthorisesNothing(j, deadline, now, a);
    }
  }

  lemma EndedAuthorisesNothing(j: Journal, deadline: Option<real>, now: Now, a: Action)
    requires j.outcome.Some? && (a.Start? || a.Dispatch? || a.Complete?)
    ensures Refusal(j, deadline, now, a).Some?
  {
  }

  lemma FrozenTransitive(j: Journal, k: Journal, l: Journal)
    requires Frozen(j, k) && Frozen(k, l)
    ensures Frozen(j, l)
  {
    forall i | 0 <= i < |j.operations| ensures LateRow(j.operations[i], l.operations[i]) {
      assert LateRow(j.operations[i], k.operations[i]) && LateRow(k.operations[i], l.operations[i]);
    }
  }

  lemma FrozenReflexive(j: Journal)
    ensures Frozen(j, j)
  {
  }

  /** After finish nothing is ever authorised, published, reserved, reported or decided again. */
  lemma {:induction false} EndedForever(w: World, events: seq<Event>)
    requires w.journal.outcome.Some?
    ensures Frozen(w.journal, Run(w, events).journal)
  {
    hide Apply;
    FrozenReflexive(w.journal);
    if events != [] {
      var n := |events| - 1;
      var before := Run(w, events[..n]);
      EndedForever(w, events[..n]);
      if events[n].Call? && before.owner.Some? {
        EndedCall(before.journal, before.owner.value.deadline, events[n].now, events[n].action);
        FrozenTransitive(w.journal, before.journal, Run(w, events).journal);
      }
    }
  }

  lemma {:induction false} LateKeepsCompleted(operations: seq<Operation>, later: seq<Operation>)
    requires LateRows(operations, later)
    ensures CompletedIn(later) == CompletedIn(operations)
  {
    if operations != [] {
      var n := |operations| - 1;
      assert LateRow(operations[n], later[n]);
      LateKeepsCompleted(operations[..n], later[..n]);
    }
  }

  /** The derived reads of a finished run never change again. */
  lemma EndedReads(w: World, events: seq<Event>)
    requires w.journal.outcome.Some?
    ensures var j, k := w.journal, Run(w, events).journal;
      && k.outcome == j.outcome && Read(k) == Read(j) && Budget(k) == Budget(j)
      && (forall resource :: Remaining(k, resource) == Remaining(j, resource))
      && CompletedIn(k.operations) == CompletedIn(j.operations)
      && |k.operations| == |j.operations|
  {
    EndedForever(w, events);
    LateKeepsCompleted(w.journal.operations, Run(w, events).journal.operations);
  }

  lemma {:induction false} SameOutputs(operations: seq<Operation>, later: seq<Operation>)
    requires |later| == |operations|
    requires forall i :: 0 <= i < |operations| ==>
      later[i].observation == operations[i].observation && later[i].output == operations[i].output
    ensures LatestOutput(later) == LatestOutput(operations)
  {
    if operations != [] {
      SameOutputs(operations[..|operations| - 1], later[..|later| - 1]);
    }
  }

  /** Only the return of the pending call can change the latest observation. */
  lemma LateObservation(operations: seq<Operation>, later: seq<Operation>)
    requires OnlyLastOpen(operations) && LateRows(operations, later)
    requires LatestOutput(later) != LatestOutput(operations)
    ensures operations != []
    ensures operations[|operations| - 1].stage.Dispatched? && later[|operations| - 1].stage.Returned?
  {
    var n := |operations| - 1;
    if n < 0 || !(operations[n].stage.Dispatched? && later[n].stage.Returned?) {
      forall i | 0 <= i < |operations|
        ensures later[i].observation == operations[i].observation && later[i].output == operations[i].output
      {
        assert LateRow(operations[i], later[i]);
      }
      SameOutputs(operations, later);
    }
  }

  /** ... so it changes at most once after finish. */
  lemma ObservationSettles(w: World, first: seq<Event>, second: seq<Event>)
    requires Reachable(w.journal) && w.journal.outcome.Some?
    requires LatestObservation(Run(w, first).journal) != LatestObservation(w.journal)
    ensures LatestObservation(Run(w, first + second).journal) == LatestObservation(Run(w, first).journal)
  {
    hide Reachable, LateRow;
    var k, l := Run(w, first).journal, Run(w, first + second).journal;
    ReachableIsValid(w.journal);
    RunIsValid(w, first);
    EndedForever(w, first);
    RunSplits(w, first, second);
    EndedForever(Run(w, first), second);
    LateObservation(w.journal.operations, k.operations);
    if LatestOutput(l.operations) != LatestOutput(k.operations) {
      LateObservation(k.operations, l.operations);
    }
  }
}
