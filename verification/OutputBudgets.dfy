/** Output admission, derived from immutable reservations and observed usage. */
module OutputBudgets {
  import opened Contracts
  import opened Tables

  datatype Tally = Tally(spent: int, held: int, unresolved: int, breached: int)

  function Tokens(usage: Usage): int { if usage.outputTokens.Some? then usage.outputTokens.value else 0 }

  /** What one reservation contributes, given the report (if any) of its operation. */
  function RowTally(reservation: Reservation, usage: Option<Usage>): Tally {
    match usage
    case None => if reservation.kind.Scripted? then Tally(0, 0, 0, 0) else Tally(0, reservation.tokens, 1, 0)
    case Some(u) =>
      if u.kind != reservation.kind then Tally(Tokens(u), reservation.tokens, 0, 1)
      else if reservation.kind.Scripted? then Tally(0, 0, 0, 0)
      else if u.outputTokens.None? then Tally(0, reservation.tokens, 1, 0)
      else Tally(Tokens(u), 0, 0, if Tokens(u) > reservation.tokens then 1 else 0)
  }

  function Plus(a: Tally, b: Tally): Tally {
    Tally(a.spent + b.spent, a.held + b.held, a.unresolved + b.unresolved, a.breached + b.breached)
  }

  function TallyOf(outputs: seq<OutputRow>, usage: seq<UsageRow>): Tally {
    if outputs == [] then Tally(0, 0, 0, 0)
    else
      var n := |outputs| - 1;
      Plus(TallyOf(outputs[..n], usage), RowTally(outputs[n].reservation, UsageOf(usage, outputs[n].operation)))
  }

  function BudgetOf(limit: Option<int>, outputs: seq<OutputRow>, usage: seq<UsageRow>): OutputBudget {
    match limit
    case None => OutputBudget(None, None, 0, 0, 0, 0)
    case Some(cap) =>
      var t := TallyOf(outputs, usage);
      var free := cap - t.spent - t.held;
      OutputBudget(limit, Some(if free < 0 then 0 else free), t.spent, t.held, t.unresolved, t.breached)
  }

  /** The reports by operation, a later row replacing an earlier one. */
  method ReportsByOperation(usage: seq<UsageRow>) returns (reports: map<string, Usage>)
    ensures forall id :: (id in reports <==> UsageOf(usage, id).Some?)
                      && (id in reports ==> UsageOf(usage, id) == Some(reports[id]))
  {
    reports := map[];
    for i := 0 to |usage|
      invariant forall id :: (id in reports <==> UsageOf(usage[..i], id).Some?)
                          && (id in reports ==> UsageOf(usage[..i], id) == Some(reports[id]))
    {
      assert usage[..i + 1][..i] == usage[..i];
      reports := reports[usage[i].operation := usage[i].usage];
    }
    assert usage[..|usage|] == usage;
  }

  lemma TallyNext(outputs: seq<OutputRow>, usage: seq<UsageRow>, i: nat)
    requires i < |outputs|
    ensures TallyOf(outputs[..i + 1], usage)
         == Plus(TallyOf(outputs[..i], usage), RowTally(outputs[i].reservation, UsageOf(usage, outputs[i].operation)))
  {
    assert outputs[..i + 1][..i] == outputs[..i];
  }

  lemma NoTally(usage: seq<UsageRow>)
    ensures TallyOf([], usage) == Tally(0, 0, 0, 0)
  {
  }

  method ComputeBudget(limit: Option<int>, outputs: seq<OutputRow>, usage: seq<UsageRow>) returns (budget: OutputBudget)
    ensures budget == BudgetOf(limit, outputs, usage)
  {
    hide UsageOf, TallyOf;
    if limit.None? {
      return OutputBudget(None, None, 0, 0, 0, 0);
    }
    var reports := ReportsByOperation(usage);
    var spent, held, unresolved, breached := 0, 0, 0, 0;
    NoTally(usage);
    for i := 0 to |outputs|
      invariant Tally(spent, held, unresolved, breached) == TallyOf(outputs[..i], usage)
    {
      TallyNext(outputs, usage, i);
      var reservation := outputs[i].reservation;
      var report := if outputs[i].operation in reports then Some(reports[outputs[i].operation]) else None;
      if report.Some? && report.value.kind != reservation.kind {
        breached := breached + 1;
        held := held + reservation.tokens;
        spent := spent + if report.value.outputTokens.Some? then report.value.outputTokens.value else 0;
      } else if reservation.kind.Scripted? {
      } else if report.None? || report.value.outputTokens.None? {
        held := held + reservation.tokens;
        unresolved := unresolved + 1;
      } else {
        spent := spent + report.value.outputTokens.value;
        breached := breached + if report.value.outputTokens.value > reservation.tokens then 1 else 0;
      }
    }
    assert outputs[..|outputs|] == outputs;
    var free := limit.value - spent - held;
    budget := OutputBudget(limit, Some(if free < 0 then 0 else free), spent, held, unresolved, breached);
  }

  // -------------------------------------------------------- facts about the fold

  /** The report, if any, stays within the tokens reserved. */
  predicate WithinBound(row: OutputRow, usage: seq<UsageRow>) {
    var u := UsageOf(usage, row.operation);
    u.Some? ==> Tokens(u.value) <= row.reservation.tokens
  }

  /** A model reservation whose report has the right kind and a known count within the bound. */
  predicate Settled(row: OutputRow, usage: seq<UsageRow>) {
    var u := UsageOf(usage, row.operation);
    u.Some? && u.value.kind == row.reservation.kind && u.value.outputTokens.Some? && Tokens(u.value) <= row.reservation.tokens
  }

  lemma {:induction false} TallyNonNegative(outputs: seq<OutputRow>, usage: seq<UsageRow>)
    ensures var t := TallyOf(outputs, usage);
      t.spent >= 0 && t.held >= 0 && t.unresolved >= 0 && t.breached >= 0
  {
    if outputs != [] {
      TallyNonNegative(outputs[..|outputs| - 1], usage);
    }
  }

  /** Neither unresolved nor breached: a model reservation is settled, a scripted one not contradicted. */
  predicate Clear(row: OutputRow, usage: seq<UsageRow>) {
    var u := UsageOf(usage, row.operation);
    if row.reservation.kind.Model? then Settled(row, usage) else u.Some? ==> u.value.kind.Scripted?
  }

  lemma RowCounters(row: OutputRow, usage: seq<UsageRow>)
    ensures var t := RowTally(row.reservation, UsageOf(usage, row.operation));
      t.unresolved >= 0 && t.breached >= 0 && (t.unresolved == 0 && t.breached == 0 <==> Clear(row, usage))
  {
  }

  lemma TallyLast(outputs: seq<OutputRow>, row: OutputRow, usage: seq<UsageRow>)
    ensures TallyOf(outputs + [row], usage)
         == Plus(TallyOf(outputs, usage), RowTally(row.reservation, UsageOf(usage, row.operation)))
  {
    assert (outputs + [row])[..|outputs|] == outputs;
  }

  lemma ClearNext(outputs: seq<OutputRow>, row: OutputRow, usage: seq<UsageRow>)
    ensures (forall r :: r in outputs + [row] ==> Clear(r, usage))
       <==> (forall r :: r in outputs ==> Clear(r, usage)) && Clear(row, usage)
  {
    hide Clear;
    assert forall r :: r in outputs + [row] <==> r in outputs || r == row;
  }

  /** The two counters say exactly whether some reservation stands open or broken. */
  lemma {:induction false} CountersMeaning(outputs: seq<OutputRow>, usage: seq<UsageRow>)
    ensures TallyOf(outputs, usage).unresolved == 0 && TallyOf(outputs, usage).breached == 0
       <==> forall row :: row in outputs ==> Clear(row, usage)
  {
    if outputs != [] {
      hide Clear, RowTally, UsageOf, TallyOf;
      var n := |outputs| - 1;
      assert outputs == outputs[..n] + [outputs[n]];
      CountersMeaning(outputs[..n], usage);
      TallyNonNegative(outputs[..n], usage);
      TallyLast(outputs[..n], outputs[n], usage);
      ClearNext(outputs[..n], outputs[n], usage);
      RowCounters(outputs[n], usage);
    }
  }

  /** A fold with no breach has every report within its reservation. */
  lemma {:induction false} UnbreachedWithinBound(outputs: seq<OutputRow>, usage: seq<UsageRow>, i: nat)
    requires TallyOf(outputs, usage).breached == 0 && i < |outputs|
    ensures WithinBound(outputs[i], usage)
  {
    var n := |outputs| - 1;
    TallyNonNegative(outputs[..n], usage);
    if i < n {
      assert outputs[..n][i] == outputs[i];
      UnbreachedWithinBound(outputs[..n], usage, i);
    }
  }

  /** Reports of other operations do not matter to the fold. */
  lemma {:induction false} TallyFrame(outputs: seq<OutputRow>, usage: seq<UsageRow>, row: UsageRow)
    requires forall i :: 0 <= i < |outputs| ==> outputs[i].operation != row.operation
    ensures TallyOf(outputs, usage + [row]) == TallyOf(outputs, usage)
  {
    if outputs != [] {
      var n := |outputs| - 1;
      TallyFrame(outputs[..n], usage, row);
      UsageFrame(usage, row, outputs[n].operation);
    }
  }

  lemma UsageFrame(usage: seq<UsageRow>, row: UsageRow, id: string)
    ensures UsageOf(usage + [row], id) == if id == row.operation then Some(row.usage) else UsageOf(usage, id)
  {
    assert (usage + [row])[..|usage|] == usage;
  }

  // --------------------------------------------------------- true consumption

  /** What the model really generated for one reservation, whatever was reported: within the
      reservation, and equal to the report where the report gives a count. */
  predicate HonestRow(row: OutputRow, usage: seq<UsageRow>, generated: nat) {
    var u := UsageOf(usage, row.operation);
    && generated <= row.reservation.tokens
    && (u.Some? && u.value.outputTokens.Some? ==> generated == u.value.outputTokens.value)
  }

  ghost predicate Honest(outputs: seq<OutputRow>, usage: seq<UsageRow>, generated: seq<nat>) {
    && |generated| == |outputs|
    && forall i :: 0 <= i < |outputs| ==> HonestRow(outputs[i], usage, generated[i])
  }

  function Sum(ns: seq<nat>): nat {
    if ns == [] then 0 else Sum(ns[..|ns| - 1]) + ns[|ns| - 1]
  }

  lemma HonestRowIsCovered(row: OutputRow, usage: seq<UsageRow>, generated: nat)
    requires HonestRow(row, usage, generated)
    ensures var t := RowTally(row.reservation, UsageOf(usage, row.operation)); generated <= t.spent + t.held
    ensures WithinBound(row, usage)
  {
  }

  /** Spent and held tokens together cover everything honestly generated. */
  lemma {:induction false} HonestIsCovered(outputs: seq<OutputRow>, usage: seq<UsageRow>, generated: seq<nat>)
    requires Honest(outputs, usage, generated)
    ensures Sum(generated) <= TallyOf(outputs, usage).spent + TallyOf(outputs, usage).held
    ensures forall row :: row in outputs ==> WithinBound(row, usage)
  {
    if outputs != [] {
      var n := |outputs| - 1;
      HonestIsCovered(outputs[..n], usage, generated[..n]);
      HonestRowIsCovered(outputs[n], usage, generated[n]);
      assert outputs == outputs[..n] + [outputs[n]];
    }
  }

  // ------------------------------------------------------ the fold, row by row

  /** The report of the row's operation is of the other kind. */
  predicate OtherKind(row: OutputRow, usage: seq<UsageRow>) {
    exists r :: r in usage && r.operation == row.operation && r.usage.kind != row.reservation.kind
  }

  /** A model reservation whose operation has no report, or a model report that gives no output count. */
  predicate Uncounted(row: OutputRow, usage: seq<UsageRow>) {
    && row.reservation.kind == Model
    && forall r :: r in usage && r.operation == row.operation ==> r.usage.kind == Model && r.usage.outputTokens == None
  }

  /** A model reservation whose model report counts more output than was reserved. */
  predicate Exceeded(row: OutputRow, usage: seq<UsageRow>) {
    && row.reservation.kind == Model
    && exists r :: r in usage && r.operation == row.operation && r.usage.kind == Model && r.usage.outputTokens.Some?
                   && r.usage.outputTokens.value > row.reservation.tokens
  }

  predicate Counts(id: string, usage: seq<UsageRow>, tokens: int) {
    exists r :: r in usage && r.operation == id && r.usage.outputTokens == Some(tokens)
  }

  predicate OnePerOperation(usage: seq<UsageRow>) {
    forall i, k :: 0 <= i < k < |usage| ==> usage[i].operation != usage[k].operation
  }

  lemma {:induction false} UsageIsRow(usage: seq<UsageRow>, id: string)
    requires OnePerOperation(usage)
    ensures forall r :: r in usage && r.operation == id ==> UsageOf(usage, id) == Some(r.usage)
    ensures UsageOf(usage, id).Some? ==> UsageRow(id, UsageOf(usage, id).value) in usage
  {
    if usage != [] {
      var n := |usage| - 1;
      UsageIsRow(usage[..n], id);
      assert usage == usage[..n] + [usage[n]];
      if usage[n].operation == id {
        forall r | r in usage && r.operation == id ensures r == usage[n] {
          var i :| 0 <= i < |usage| && usage[i] == r;
        }
      }
    }
  }

  /** What one reservation contributes, in terms of the rows of the two tables: a settled one holds nothing back. */
  lemma RowContributes(row: OutputRow, usage: seq<UsageRow>)
    requires OnePerOperation(usage)
    ensures var t := RowTally(row.reservation, UsageOf(usage, row.operation));
      && (Counts(row.operation, usage, t.spent) || (t.spent == 0 && forall tokens :: !Counts(row.operation, usage, tokens)))
      && t.held == (if Uncounted(row, usage) || OtherKind(row, usage) then row.reservation.tokens else 0)
      && t.unresolved == (if Uncounted(row, usage) then 1 else 0)
      && t.breached == (if OtherKind(row, usage) || Exceeded(row, usage) then 1 else 0)
  {
    UsageIsRow(usage, row.operation);
  }

  /** The fold adds the contributions up, whatever order the rows come in. */
  lemma {:induction false} TallyAdds(first: seq<OutputRow>, second: seq<OutputRow>, usage: seq<UsageRow>)
    ensures TallyOf(first + second, usage) == Plus(TallyOf(first, usage), TallyOf(second, usage))
  {
    hide RowTally, UsageOf;
    if second == [] {
      assert first + second == first;
    } else {
      var n := |second| - 1;
      TallyAdds(first, second[..n], usage);
      EndsWith(first, second);
      hide TallyOf;
      TallyLast(first + second[..n], second[n], usage);
      TallyLast(second[..n], second[n], usage);
    }
  }

  lemma EndsWith<T>(first: seq<T>, second: seq<T>)
    requires second != []
    ensures var n := |second| - 1; second[..n] + [second[n]] == second && first + second == first + second[..n] + [second[n]]
  {
  }

  lemma TallyOfOne(row: OutputRow, usage: seq<UsageRow>)
    ensures TallyOf([row], usage) == RowTally(row.reservation, UsageOf(usage, row.operation))
  {
    assert [row][..0] == [];
  }

  /** Nothing is held for reservations that are all settled: what a report leaves unused is given back. */
  lemma {:induction false} ClearHoldsNothing(outputs: seq<OutputRow>, usage: seq<UsageRow>)
    requires forall row :: row in outputs ==> Clear(row, usage)
    ensures TallyOf(outputs, usage).held == 0
  {
    if outputs != [] {
      var n := |outputs| - 1;
      assert forall row :: row in outputs[..n] ==> row in outputs;
      ClearHoldsNothing(outputs[..n], usage);
      assert Clear(outputs[n], usage);
    }
  }

  /** With a single reservation that is not clear, exactly its tokens are held. */
  lemma {:induction false} OneHolds(outputs: seq<OutputRow>, usage: seq<UsageRow>, i: nat)
    requires i < |outputs| && !Clear(outputs[i], usage) && TallyOf(outputs, usage).breached == 0
    requires forall k :: 0 <= k < |outputs| && k != i ==> Clear(outputs[k], usage)
    ensures TallyOf(outputs, usage).held == outputs[i].reservation.tokens
  {
    var n := |outputs| - 1;
    TallyNonNegative(outputs[..n], usage);
    RowCounters(outputs[n], usage);
    if i < n {
      OneHolds(outputs[..n], usage, i);
    } else {
      forall row | row in outputs[..n] ensures Clear(row, usage) {
        var k :| 0 <= k < n && outputs[k] == row;
      }
      ClearHoldsNothing(outputs[..n], usage);
    }
  }
}
