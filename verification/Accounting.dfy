/** The usage summary, a second projection of the same tables. */
module Accounting {
  import opened Contracts
  import opened Tables
  import opened OutputBudgets
  import opened Journals
  import opened Invariants
  import opened Histories

  datatype UsageSummary = UsageSummary(
    invocations: int, modelRequests: int, scriptedInvocations: int, unknownInvocations: int,
    unreportedInvocations: int, knownInput: int, knownOutput: int, complete: bool)

  function CountIf(usage: seq<UsageRow>, p: Usage -> bool): nat {
    if usage == [] then 0 else CountIf(usage[..|usage| - 1], p) + if p(usage[|usage| - 1].usage) then 1 else 0
  }

  function KnownInput(usage: seq<UsageRow>): int {
    if usage == [] then 0
    else
      var u := usage[|usage| - 1].usage;
      KnownInput(usage[..|usage| - 1]) + if u.inputTokens.Some? then u.inputTokens.value else 0
  }

  function Reporters(usage: seq<UsageRow>): set<string> { set row | row in usage :: row.operation }

  predicate IsUnknown(u: Usage) { u.status.Unknown? }

  predicate IsStarted(u: Usage) { u.requestStarted }

  predicate IsScripted(u: Usage) { u.kind.Scripted? }

  predicate IsModel(u: Usage) { u.kind.Model? }

  function SummaryOf(operations: seq<Operation>, usage: seq<UsageRow>): UsageSummary {
    var unknown, unreported := CountIf(usage, IsUnknown), |Ids(operations) - Reporters(usage)|;
    UsageSummary(|Ids(operations)|, CountIf(usage, IsStarted), CountIf(usage, IsScripted), unknown, unreported,
                 KnownInput(usage), KnownOutput(usage), unknown == 0 && unreported == 0)
  }

  /** Binds each report to its own existing operation. */
  method BindReports(known: set<string>, usage: seq<UsageRow>) returns (reports: set<string>, bound: bool)
    ensures bound <==> (forall row :: row in usage ==> row.operation in known)
                       && (forall i, k :: 0 <= i < k < |usage| ==> usage[i].operation != usage[k].operation)
    ensures bound ==> reports == Reporters(usage)
  {
    reports := {};
    for i := 0 to |usage|
      invariant forall id :: id in reports <==> exists k :: 0 <= k < i && usage[k].operation == id
      invariant forall k :: 0 <= k < i ==> usage[k].operation in known
      invariant forall k, l :: 0 <= k < l < i ==> usage[k].operation != usage[l].operation
    {
      var identity := usage[i].operation;
      if identity !in known || identity in reports {
        assert usage[i] in usage;
        return reports, false;
      }
      reports := reports + {identity};
    }
    bound := true;
  }

  method SumReports(usage: seq<UsageRow>) returns (unknown: int, started: int, scripted: int, input: int, output: int)
    ensures unknown == CountIf(usage, IsUnknown) && started == CountIf(usage, IsStarted)
    ensures scripted == CountIf(usage, IsScripted)
    ensures input == KnownInput(usage) && output == KnownOutput(usage)
  {
    unknown, started, scripted, input, output := 0, 0, 0, 0, 0;
    for i := 0 to |usage|
      invariant unknown == CountIf(usage[..i], IsUnknown)
      invariant started == CountIf(usage[..i], IsStarted)
      invariant scripted == CountIf(usage[..i], IsScripted)
      invariant input == KnownInput(usage[..i]) && output == KnownOutput(usage[..i])
    {
      assert usage[..i + 1][..i] == usage[..i];
      var report := usage[i].usage;
      unknown := unknown + if report.status.Unknown? then 1 else 0;
      started := started + if report.requestStarted then 1 else 0;
      scripted := scripted + if report.kind.Scripted? then 1 else 0;
      input := input + if report.inputTokens.Some? then report.inputTokens.value else 0;
      output := output + if report.outputTokens.Some? then report.outputTokens.value else 0;
    }
    assert usage[..|usage|] == usage;
  }

  method SummarizeUsage(operations: seq<Operation>, usage: seq<UsageRow>) returns (r: Outcome<UsageSummary>)
    ensures r.Ok? <==> Reported(operations, usage)
    ensures r.Ok? ==> r.value == SummaryOf(operations, usage)
    ensures r.Raised? ==> r.error.Class() == ContractError
  {
    var known := set op | op in operations :: op.id;
    var reports, bound := BindReports(known, usage);
    if !bound {
      return Raised(Refused(WrongType));
    }
    var unknown, started, scripted, input, output := SumReports(usage);
    var unreported := |known - reports|;
    r := Ok(UsageSummary(|known|, started, scripted, unknown, unreported, input, output, unknown == 0 && unreported == 0));
  }

  /** Without reports every operation is unreported, and nothing is known. */
  lemma NothingReported(operations: seq<Operation>)
    ensures var n := |set op | op in operations :: op.id|;
      SummaryOf(operations, []) == UsageSummary(n, 0, 0, 0, n, 0, 0, n == 0)
  {
    assert Ids(operations) - Reporters([]) == Ids(operations);
  }

  /** What one more report adds: its tokens as they are given, none for those it does not know, one request if it was
      started, one scripted or one unknown invocation if it is one, and its operation is no longer unreported. */
  lemma SummaryGrows(operations: seq<Operation>, usage: seq<UsageRow>, row: UsageRow)
    ensures var a, b := SummaryOf(operations, usage), SummaryOf(operations, usage + [row]);
      && b.invocations == a.invocations
      && b.knownInput == a.knownInput + (if row.usage.inputTokens.Some? then row.usage.inputTokens.value else 0)
      && b.knownOutput == a.knownOutput + (if row.usage.outputTokens.Some? then row.usage.outputTokens.value else 0)
      && b.modelRequests == a.modelRequests + (if row.usage.requestStarted then 1 else 0)
      && b.scriptedInvocations == a.scriptedInvocations + (if row.usage.kind == Scripted then 1 else 0)
      && b.unknownInvocations == a.unknownInvocations + (if row.usage.status == Unknown then 1 else 0)
      && b.unreportedInvocations == a.unreportedInvocations
         - (if (exists op :: op in operations && op.id == row.operation) && (forall r :: r in usage ==> r.operation != row.operation)
            then 1 else 0)
      && (b.complete <==> b.unknownInvocations == 0 && b.unreportedInvocations == 0)
  {
    hide Reporters, Ids;
    var all := usage + [row];
    assert all[..|all| - 1] == usage;
    UnreportedShrinks(operations, usage, row);
  }

  lemma UnreportedShrinks(operations: seq<Operation>, usage: seq<UsageRow>, row: UsageRow)
    ensures |Ids(operations) - Reporters(usage + [row])| == |Ids(operations) - Reporters(usage)|
      - if (exists op :: op in operations && op.id == row.operation) && (forall r :: r in usage ==> r.operation != row.operation)
        then 1 else 0
  {
    hide Ids, Reporters;
    ReportersGrow(usage, row);
    IdsKnown(operations, row.operation);
    Without(Ids(operations) - Reporters(usage), row.operation);
    assert Ids(operations) - Reporters(usage + [row]) == Ids(operations) - Reporters(usage) - {row.operation};
  }

  lemma ReportersGrow(usage: seq<UsageRow>, row: UsageRow)
    ensures Reporters(usage + [row]) == Reporters(usage) + {row.operation}
    ensures row.operation in Reporters(usage) <==> !forall r :: r in usage ==> r.operation != row.operation
  {
    assert forall r :: r in usage + [row] <==> r in usage || r == row;
  }

  lemma IdsKnown(operations: seq<Operation>, id: string)
    ensures id in Ids(operations) <==> exists op :: op in operations && op.id == id
  {
  }

  lemma Without(names: set<string>, name: string)
    ensures |names - {name}| == |names| - if name in names then 1 else 0
  {
    if name !in names {
      assert names - {name} == names;
    }
  }

  // ------------------------------------------------------------------ agreement

  /** The admission fold and the summary, computed from different tables, agree on what was spent. */
  lemma ProjectionsAgree(j: Journal)
    requires Reachable(j) && j.limits.outputTokens.Some?
    ensures Budget(j).spent == SummaryOf(j.operations, j.usage).knownOutput
  {
    hide Reachable;
    ReachableIsValid(j);
  }

  lemma {:induction false} DistinctIds(operations: seq<Operation>)
    requires UniqueIds(operations)
    ensures |Ids(operations)| == |operations|
  {
    hide UniqueIds, Ids;
    if operations == [] {
      NoIds();
    } else {
      var n := |operations| - 1;
      LastIsNew(operations);
      DistinctIds(operations[..n]);
      IdsOfAppend(operations[..n], operations[n]);
      assert operations == operations[..n] + [operations[n]];
    }
  }

  lemma NoIds()
    ensures Ids([]) == {}
  {
  }

  lemma LastIsNew(operations: seq<Operation>)
    requires UniqueIds(operations) && operations != []
    ensures var n := |operations| - 1; UniqueIds(operations[..n]) && operations[n].id !in Ids(operations[..n])
  {
  }

  lemma {:induction false} DistinctReporters(usage: seq<UsageRow>)
    requires forall i, k :: 0 <= i < k < |usage| ==> usage[i].operation != usage[k].operation
    ensures |Reporters(usage)| == |usage|
  {
    if usage != [] {
      var n := |usage| - 1;
      DistinctReporters(usage[..n]);
      assert usage == usage[..n] + [usage[n]];
      assert Reporters(usage) == Reporters(usage[..n]) + {usage[n].operation};
    }
  }

  lemma {:induction false} KindsPartition(usage: seq<UsageRow>)
    ensures CountIf(usage, IsScripted) + CountIf(usage, IsModel) == |usage|
  {
    if usage != [] {
      KindsPartition(usage[..|usage| - 1]);
    }
  }

  /** Every invocation is reported scripted, reported model, or counted as unreported: none is free. */
  lemma InvocationsAreConserved(j: Journal)
    requires Reachable(j)
    ensures Reported(j.operations, j.usage)
    ensures var s := SummaryOf(j.operations, j.usage);
      && s.invocations == |j.operations|
      && s.invocations == s.scriptedInvocations + CountIf(j.usage, IsModel) + s.unreportedInvocations
  {
    hide Reachable;
    ReachableIsValid(j);
    DistinctIds(j.operations);
    DistinctReporters(j.usage);
    KindsPartition(j.usage);
    assert Reporters(j.usage) <= Ids(j.operations);
  }
}
