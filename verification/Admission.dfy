/** The output cap over whole runs: what can be spent, and when model work stops for good. */
module Admission {
  import opened Contracts
  import opened Tables
  import opened OutputBudgets
  import opened Journals
  import opened Invariants
  import opened Preservation
  import opened Histories

  ghost predicate Capped(j: Journal) { Reachable(j) && j.limits.outputTokens.Some? }

  lemma CappedTables(j: Journal)
    requires Capped(j)
    ensures Settles(j.limits.outputTokens, j.outputs, j.usage)
    ensures Lockstep(j.limits.outputTokens, j.operations, j.outputs)
    ensures UniqueIds(j.operations) && OnlyLastOpen(j.operations)
  {
    hide Reachable;
    ReachableIsValid(j);
  }

  /** While no breach is recorded the clamp at zero never acts. */
  lemma AvailableIsExact(j: Journal)
    requires Capped(j) && Budget(j).breached == 0
    ensures Budget(j).spent + Budget(j).held <= j.limits.outputTokens.value
    ensures Budget(j).available == Some(j.limits.outputTokens.value - Budget(j).spent - Budget(j).held)
  {
    hide Reachable;
    CappedTables(j);
    forall row | row in j.outputs ensures WithinBound(row, j.usage) {
      var i :| 0 <= i < |j.outputs| && j.outputs[i] == row;
      UnbreachedWithinBound(j.outputs, j.usage, i);
    }
  }

  /** Breached or not, what is available is what the cap leaves, and never less than nothing. */
  lemma AvailableClamps(j: Journal)
    requires j.limits.outputTokens.Some?
    ensures var left := j.limits.outputTokens.value - Budget(j).spent - Budget(j).held;
      && Budget(j).limit == j.limits.outputTokens && Budget(j).available.Some?
      && (left >= 0 ==> Budget(j).available.value == left) && (left < 0 ==> Budget(j).available.value == 0)
    ensures Capped(j) ==> Budget(j).spent == KnownOutput(j.usage)
  {
    hide Reachable;
    if Capped(j) {
      CappedTables(j);
    }
  }

  /** An adapter that keeps to its reservations and counts truthfully never generates more than
      the cap over the whole run, however many calls failed, went unreported or died. */
  lemma CapIsKept(j: Journal, generated: seq<nat>)
    requires Capped(j) && Honest(j.outputs, j.usage, generated)
    ensures Sum(generated) <= j.limits.outputTokens.value
  {
    hide Reachable;
    CappedTables(j);
    HonestIsCovered(j.outputs, j.usage, generated);
  }

  lemma {:induction false} AllSettledNoneUnresolved(outputs: seq<OutputRow>, usage: seq<UsageRow>)
    requires forall i :: 0 <= i < |outputs| && outputs[i].reservation.kind.Model? ==> Settled(outputs[i], usage)
    ensures TallyOf(outputs, usage).unresolved == 0
  {
    hide UsageOf, RowTally, Settled;
    if outputs != [] {
      var n := |outputs| - 1;
      RowSettled(outputs[n], usage);
      AllSettledNoneUnresolved(outputs[..n], usage);
    }
  }

  lemma RowSettled(row: OutputRow, usage: seq<UsageRow>)
    requires row.reservation.kind.Model? ==> Settled(row, usage)
    ensures RowTally(row.reservation, UsageOf(usage, row.operation)).unresolved == 0
  {
  }

  lemma RowUnresolved(row: OutputRow, usage: seq<UsageRow>)
    ensures 0 <= RowTally(row.reservation, UsageOf(usage, row.operation)).unresolved <= 1
    ensures row.reservation.kind.Scripted? ==> RowTally(row.reservation, UsageOf(usage, row.operation)).unresolved == 0
  {
  }

  lemma {:induction false} UnresolvedAtMostOne(outputs: seq<OutputRow>, usage: seq<UsageRow>)
    requires EarlierSettled(outputs, usage)
    ensures TallyOf(outputs, usage).unresolved <= 1
  {
    if outputs != [] {
      hide RowTally, Settled, UsageOf;
      var n := |outputs| - 1;
      var earlier := outputs[..n];
      assert forall i :: 0 <= i < n ==> earlier[i] == outputs[i];
      RowUnresolved(outputs[n], usage);
      if outputs[n].reservation.kind.Model? {
        forall i | 0 <= i < |earlier| && earlier[i].reservation.kind.Model? ensures Settled(earlier[i], usage) {
          assert Settled(outputs[i], usage);
        }
        AllSettledNoneUnresolved(earlier, usage);
      } else {
        UnresolvedAtMostOne(earlier, usage);
      }
    }
  }

  /** Never more than one model reservation is unresolved or broken. */
  lemma OneUnsettled(j: Journal, i: nat, k: nat)
    requires Capped(j) && i < |j.outputs| && k < |j.outputs|
    requires j.outputs[i].reservation.kind.Model? && !Settled(j.outputs[i], j.usage)
    requires j.outputs[k].reservation.kind.Model? && !Settled(j.outputs[k], j.usage)
    ensures i == k && Budget(j).unresolved <= 1
  {
    hide Reachable;
    CappedTables(j);
    UnresolvedAtMostOne(j.outputs, j.usage);
  }

  // --------------------------------------------------------- the end of model work

  /** A reservation that is not clear and can no longer be: its report is in, or can no longer come. */
  predicate Stuck(operations: seq<Operation>, outputs: seq<OutputRow>, usage: seq<UsageRow>, i: nat) {
    && i < |outputs| == |operations| && outputs[i].operation == operations[i].id
    && !Clear(outputs[i], usage)
    && (UsageOf(usage, outputs[i].operation).Some? || !operations[i].stage.Inference?)
  }

  lemma {:induction false} BreachWitness(outputs: seq<OutputRow>, usage: seq<UsageRow>) returns (i: nat)
    requires TallyOf(outputs, usage).breached > 0
    ensures i < |outputs| && UsageOf(usage, outputs[i].operation).Some? && !Clear(outputs[i], usage)
  {
    var n := |outputs| - 1;
    if TallyOf(outputs[..n], usage).breached > 0 {
      i := BreachWitness(outputs[..n], usage);
    } else {
      i := n;
    }
  }

  lemma {:induction false} UnresolvedWitness(outputs: seq<OutputRow>, usage: seq<UsageRow>) returns (i: nat)
    requires TallyOf(outputs, usage).unresolved > 0
    ensures i < |outputs| && !Clear(outputs[i], usage)
  {
    var n := |outputs| - 1;
    if TallyOf(outputs[..n], usage).unresolved > 0 {
      i := UnresolvedWitness(outputs[..n], usage);
    } else {
      i := n;
    }
  }

  /** A breach is recorded, or output is unresolved with no inference under way. */
  predicate ModelWorkOver(j: Journal) {
    Budget(j).breached > 0
    || (Budget(j).unresolved > 0 && forall i :: 0 <= i < |j.operations| ==> !j.operations[i].stage.Inference?)
  }

  lemma OverIsStuck(j: Journal) returns (i: nat)
    requires Capped(j) && ModelWorkOver(j)
    ensures Stuck(j.operations, j.outputs, j.usage, i)
  {
    hide Reachable;
    CappedTables(j);
    if Budget(j).breached > 0 {
      i := BreachWitness(j.outputs, j.usage);
    } else {
      i := UnresolvedWitness(j.outputs, j.usage);
    }
  }

  lemma StuckStays(j: Journal, deadline: Option<real>, now: Now, a: Action, i: nat)
    requires UniqueIds(j.operations) && Refusal(j, deadline, now, a).None?
    requires Stuck(j.operations, j.outputs, j.usage, i)
    requires Valid(j) && j.limits.outputTokens.Some?
    ensures var k := Effect(j, now, a); Stuck(k.operations, k.outputs, k.usage, i)
  {
    hide Valid, Refusal, Effect, UsageRefusal, UsageOf;
    var k := Effect(j, now, a);
    EffectKeepsValid(j, deadline, now, a);
    LockstepWhenValid(k);
    CallExtends(j, deadline, now, a);
    assert RowFollows(j.operations[i], k.operations[i]) && k.outputs[i] == j.outputs[i];
    EffectOnUsage(j, deadline, now, a);
    LateReport(j, a, i);
  }

  lemma LockstepWhenValid(j: Journal)
    requires Valid(j)
    ensures Lockstep(j.limits.outputTokens, j.operations, j.outputs)
  {
  }

  lemma EffectOnUsage(j: Journal, deadline: Option<real>, now: Now, a: Action)
    requires Refusal(j, deadline, now, a).None?
    ensures Effect(j, now, a).usage == (if a.RecordUsage? then j.usage + [UsageRow(a.id, a.usage)] else j.usage)
    ensures Effect(j, now, a).limits == j.limits && (a.RecordUsage? ==> UsageRefusal(j, a.id).None?)
  {
  }

  /** No report is accepted for a stuck reservation. */
  lemma LateReport(j: Journal, a: Action, i: nat)
    requires UniqueIds(j.operations) && Stuck(j.operations, j.outputs, j.usage, i)
    requires a.RecordUsage? ==> UsageRefusal(j, a.id).None?
    ensures a.RecordUsage? ==>
      UsageOf(j.usage + [UsageRow(a.id, a.usage)], j.outputs[i].operation) == UsageOf(j.usage, j.outputs[i].operation)
  {
    if a.RecordUsage? {
      UsageFrame(j.usage, UsageRow(a.id, a.usage), j.outputs[i].operation);
      FindUnique(j.operations, i);
    }
  }

  /** With a stuck reservation, no start with a model reservation is accepted. */
  lemma StuckRefusesModel(j: Journal, deadline: Option<real>, now: Now, a: Action, i: nat)
    requires j.limits.outputTokens.Some? && Stuck(j.operations, j.outputs, j.usage, i)
    requires Refusal(j, deadline, now, a).None? && a.Start?
    ensures a.reservation.Some? && a.reservation.value.kind.Scripted?
  {
    StartChecks(j, deadline, now, a.id, a.request, a.reservation, a.guards);
    CountersMeaning(j.outputs, j.usage);
    assert j.outputs[i] in j.outputs;
  }

  ghost predicate ScriptedFrom(outputs: seq<OutputRow>, first: nat) {
    forall k :: first <= k < |outputs| ==> outputs[k].reservation.kind.Scripted?
  }

  lemma StuckAdmitsScripted(j: Journal, deadline: Option<real>, now: Now, a: Action, i: nat, first: nat)
    requires j.limits.outputTokens.Some? && Stuck(j.operations, j.outputs, j.usage, i)
    requires Refusal(j, deadline, now, a).None? && ScriptedFrom(j.outputs, first)
    ensures ScriptedFrom(Effect(j, now, a).outputs, first) && Effect(j, now, a).limits == j.limits
  {
    hide Stuck, StartRefusal, Refusal;
    if a.Start? {
      StuckRefusesModel(j, deadline, now, a, i);
    }
  }

  lemma StuckCall(j: Journal, deadline: Option<real>, now: Now, a: Action, i: nat, first: nat)
    requires Valid(j) && j.limits.outputTokens.Some? && Stuck(j.operations, j.outputs, j.usage, i)
    requires ScriptedFrom(j.outputs, first)
    ensures var k := Apply(j, deadline, now, a);
      Stuck(k.operations, k.outputs, k.usage, i) && ScriptedFrom(k.outputs, first) && k.limits == j.limits
  {
    hide Valid, Refusal, Effect, Stuck, ScriptedFrom;
    if Refusal(j, deadline, now, a).None? {
      IdsWhenValid(j);
      StuckStays(j, deadline, now, a, i);
      StuckAdmitsScripted(j, deadline, now, a, i, first);
    }
  }

  lemma {:induction false} StuckForever(w: World, events: seq<Event>, i: nat)
    requires Valid(w.journal) && w.journal.limits.outputTokens.Some?
    requires Stuck(w.journal.operations, w.journal.outputs, w.journal.usage, i)
    ensures var k := Run(w, events).journal;
      && Stuck(k.operations, k.outputs, k.usage, i) && ScriptedFrom(k.outputs, |w.journal.outputs|)
      && k.limits == w.journal.limits
  {
    hide Apply, Valid, Stuck;
    if events != [] {
      var n := |events| - 1;
      StuckForever(w, events[..n], i);
      RunIsValid(w, events[..n]);
      var before := Run(w, events[..n]);
      if events[n].Call? && before.owner.Some? {
        StuckCall(before.journal, before.owner.value.deadline, events[n].now, events[n].action, i, |w.journal.outputs|);
      }
    }
  }

  /** After a breach, or once an operation left inference without a usable report, no continuation
      whatever admits another model reservation: crashes, reopening, recovery and scripted work included. */
  lemma ModelWorkStaysOver(w: World, events: seq<Event>)
    requires Capped(w.journal) && ModelWorkOver(w.journal)
    ensures var later := Run(w, events).journal;
      ScriptedFrom(later.outputs, |w.journal.outputs|) && Budget(later).unresolved + Budget(later).breached > 0
  {
    hide Reachable;
    ReachableIsValid(w.journal);
    var i := OverIsStuck(w.journal);
    StuckForever(w, events, i);
    var later := Run(w, events).journal;
    CountersMeaning(later.outputs, later.usage);
    TallyNonNegative(later.outputs, later.usage);
    assert later.outputs[i] in later.outputs;
  }

  /** Tokens decide nothing about scripted work: start answers alike whatever was reserved and reported. */
  lemma ScriptedWorkUnaffected(j: Journal, outputs: seq<OutputRow>, usage: seq<UsageRow>, deadline: Option<real>, now: Now,
                               id: string, request: InferenceRequest, guards: seq<string>)
    ensures var scripted: Option<Reservation> := Some(OutputReservation(Scripted, 0));
      StartRefusal(j, deadline, now, id, request, scripted, guards)
      == StartRefusal(j.(outputs := outputs, usage := usage), deadline, now, id, request, scripted, guards)
  {
  }

  /** What is available, in figures: the cap less the output reported so far when every reservation is settled, and less
      the one reservation that is not, when there is one. What a settled reservation did not use is free again. */
  lemma AvailableInFigures(j: Journal, i: nat)
    requires Capped(j) && Budget(j).breached == 0
    ensures (forall row :: row in j.outputs ==> Clear(row, j.usage)) ==>
      Budget(j).held == 0 && Budget(j).available == Some(j.limits.outputTokens.value - KnownOutput(j.usage))
    ensures i < |j.outputs| && !Clear(j.outputs[i], j.usage) ==>
      && Budget(j).held == j.outputs[i].reservation.tokens
      && Budget(j).available
         == Some(j.limits.outputTokens.value - KnownOutput(j.usage) - j.outputs[i].reservation.tokens)
  {
    hide Reachable, Clear, TallyOf, Lockstep, UniqueIds, OnlyLastOpen, KnownOutput, UsageOf, WithinBound, EarlierSettled;
    AvailableIsExact(j);
    CappedTables(j);
    if forall row :: row in j.outputs ==> Clear(row, j.usage) {
      ClearHoldsNothing(j.outputs, j.usage);
    }
    if i < |j.outputs| && !Clear(j.outputs[i], j.usage) {
      OthersClear(j.outputs, j.usage, i);
      OneHolds(j.outputs, j.usage, i);
    }
  }

  /** With no breach, every reservation but one that is not clear is clear. */
  lemma OthersClear(outputs: seq<OutputRow>, usage: seq<UsageRow>, i: nat)
    requires EarlierSettled(outputs, usage) && TallyOf(outputs, usage).breached == 0
    requires i < |outputs| && !Clear(outputs[i], usage)
    ensures forall k :: 0 <= k < |outputs| && k != i ==> Clear(outputs[k], usage)
  {
    hide TallyOf, UsageOf, RowTally;
    UnbreachedClear(outputs, usage, i);
    forall k | 0 <= k < |outputs| && k != i ensures Clear(outputs[k], usage) {
      UnbreachedClear(outputs, usage, k);
      if outputs[k].reservation.kind.Model? {
        assert k < i ==> Settled(outputs[k], usage);
      }
    }
  }

  /** With no breach, a scripted reservation is clear. */
  lemma {:induction false} UnbreachedClear(outputs: seq<OutputRow>, usage: seq<UsageRow>, i: nat)
    requires TallyOf(outputs, usage).breached == 0 && i < |outputs|
    ensures outputs[i].reservation.kind.Scripted? ==> Clear(outputs[i], usage)
    ensures outputs[i].reservation.kind.Model? ==> (Clear(outputs[i], usage) <==> Settled(outputs[i], usage))
  {
    hide UsageOf;
    var n := |outputs| - 1;
    TallyNonNegative(outputs[..n], usage);
    if i < n {
      UnbreachedClear(outputs[..n], usage, i);
    }
  }

  /** With nothing pending, a model reservation is admitted exactly when it matches its request, every reservation so
      far is settled, and it fits in the cap beside the output reported so far. */
  lemma AdmittedExactly(j: Journal, request: InferenceRequest, reservation: Reservation)
    requires Capped(j) && reservation.kind.Model?
    ensures Journals.Admission(Budget(j), request, Some(reservation)).None? <==>
      && request.maxOutputTokens == Some(reservation.tokens)
      && (forall row :: row in j.outputs ==> Clear(row, j.usage))
      && KnownOutput(j.usage) + reservation.tokens <= j.limits.outputTokens.value
  {
    hide Reachable, TallyOf, EarlierSettled, Lockstep, UniqueIds, OnlyLastOpen, KnownOutput, UsageOf;
    CappedTables(j);
    CountersMeaning(j.outputs, j.usage);
    TallyNonNegative(j.outputs, j.usage);
    if forall row :: row in j.outputs ==> Clear(row, j.usage) {
      assert AllWithin(j.outputs, j.usage);
      ClearHoldsNothing(j.outputs, j.usage);
    }
  }

  lemma {:induction false} BreachedRowCounts(outputs: seq<OutputRow>, usage: seq<UsageRow>, id: string)
    requires OutputOf(outputs, id).Some? && RowTally(OutputOf(outputs, id).value, UsageOf(usage, id)).breached == 1
    ensures TallyOf(outputs, usage).breached >= 1
  {
    var n := |outputs| - 1;
    TallyNonNegative(outputs[..n], usage);
    if outputs[n].operation != id {
      BreachedRowCounts(outputs[..n], usage, id);
    }
  }

  /** A report that breaks its reservation raises, and is kept all the same: it ends model work for good. */
  lemma BreachIsKept(j: Journal, deadline: Option<real>, now: Now, id: string, usage: Usage)
    requires Capped(j) && Refusal(j, deadline, now, RecordUsage(id, usage)).None? && Breaches(j, id, usage)
    ensures Complaint(j, deadline, now, RecordUsage(id, usage)) == Some(Refused(OutputBreached))
    ensures var k := Apply(j, deadline, now, RecordUsage(id, usage));
      UsageOf(k.usage, id) == Some(usage) && ModelWorkOver(k)
  {
    hide Reachable, UsageRefusal;
    UsageFrame(j.usage, UsageRow(id, usage), id);
    BreachedRowCounts(j.outputs, j.usage + [UsageRow(id, usage)], id);
  }
}
