/** Whole runs: any calls in any order with any arguments and clocks, with the owning
    process dying and the file being reopened at any point in between. */
module Histories {
  import opened Contracts
  import opened Tables
  import opened OutputBudgets
  import opened Journals
  import opened Invariants
  import opened Preservation

  /** The process that has the file open: its monotonic deadline and when it opened. */
  datatype Owner = Owner(deadline: Option<real>, since: Now)

  datatype World = World(journal: Journal, owner: Option<Owner>)

  datatype Event =
    | Call(now: Now, action: Action)
    | Crash
    | Open(now: Now)

  /** Transactions are atomic, so a crash only loses the owner. A live owner excludes a second one. */
  function Next(w: World, e: Event): World {
    match e
    case Call(now, action) =>
      if w.owner.None? then w else w.(journal := Apply(w.journal, w.owner.value.deadline, now, action))
    case Crash => w.(owner := None)
    case Open(now) =>
      if w.owner.Some? then w
      else
        match BoundDeadline(w.journal, now)
        case Ok(deadline) => w.(owner := Some(Owner(deadline, now)))
        case Raised(_) => w
  }

  function Run(w: World, events: seq<Event>): World {
    if events == [] then w else Next(Run(w, events[..|events| - 1]), events[|events| - 1])
  }

  lemma {:induction false} RunIsValid(w: World, events: seq<Event>)
    requires Valid(w.journal)
    ensures Valid(Run(w, events).journal)
  {
    hide Apply, Valid;
    if events != [] {
      var e := events[|events| - 1];
      var before := Run(w, events[..|events| - 1]);
      RunIsValid(w, events[..|events| - 1]);
      if e.Call? && before.owner.Some? {
        KeepsValid(before.journal, before.owner.value.deadline, e.now, e.action);
      }
    }
  }

  lemma {:induction false} RunSplits(w: World, first: seq<Event>, second: seq<Event>)
    ensures Run(w, first + second) == Run(Run(w, first), second)
  {
    hide Next;
    if second == [] {
      assert first + second == first;
    } else {
      var n := |second| - 1;
      RunSplits(w, first, second[..n]);
      assert (first + second)[..|first| + n] == first + second[..n];
    }
  }

  // --------------------------------------------------------- what never goes back

  /** An operation only moves forward and keeps what it has recorded. */
  predicate RowFollows(op: Operation, later: Operation) {
    && later.id == op.id && later.request == op.request
    && (op.call.Some? ==> later.call == op.call)
    && (op.output.Some? ==> later.output == op.output)
    && (op.stage.PastDispatch() ==> later.stage.PastDispatch() && later.observation == op.observation)
    && (op.stage.Returned? ==> later.stage.Returned? || later.stage.Completed?)
    && (!op.stage.Open() ==> later.stage == op.stage)
    && (!op.stage.Inference? ==> !later.stage.Inference?)
  }

  predicate RowsFollow(operations: seq<Operation>, later: seq<Operation>) {
    && |operations| <= |later|
    && forall i :: 0 <= i < |operations| ==> RowFollows(operations[i], later[i])
  }

  /** The immutable tables grow at the end, and a recorded key keeps its value. */
  ghost predicate TablesGrow(j: Journal, k: Journal) {
    && j.reservations <= k.reservations && j.evaluations <= k.evaluations && j.commits <= k.commits
    && j.usage <= k.usage && j.outputs <= k.outputs && j.requirements <= k.requirements
    && j.decisions <= k.decisions && j.events <= k.events
    && (forall id :: UsageOf(j.usage, id).Some? ==> UsageOf(k.usage, id) == UsageOf(j.usage, id))
    && (forall id, guard :: DecisionOf(j.decisions, id, guard).Some? ==>
          DecisionOf(k.decisions, id, guard) == DecisionOf(j.decisions, id, guard))
  }

  ghost predicate Extends(j: Journal, k: Journal) {
    && k.initialState == j.initialState && k.initialObservation == j.initialObservation
    && k.limits == j.limits && k.deadline == j.deadline
    && j.lastClock <= k.lastClock
    && (j.outcome.Some? ==> k.outcome == j.outcome)
    && RowsFollow(j.operations, k.operations)
    && TablesGrow(j, k)
  }

  lemma RewriteFollows(operations: seq<Operation>, i: nat, a: Action)
    requires Shapes(operations) && i < |operations|
    requires match a
      case Propose(_, _) => operations[i].stage.Inference?
      case Dispatch(_, _, _) => operations[i].stage.Proposed?
      case Return(_, _) => operations[i].stage.Dispatched?
      case Complete(_) => operations[i].stage.Returned?
      case Abandon(_) => operations[i].stage.PreDispatch()
      case _ => true
    ensures RowsFollow(operations, operations[i := Rewrite(operations[i], a)])
  {
    assert Shaped(operations[i]);
  }

  lemma OperationsFollow(j: Journal, deadline: Option<real>, now: Now, a: Action)
    requires Shapes(j.operations) && Refusal(j, deadline, now, a).None?
    ensures RowsFollow(j.operations, Effect(j, now, a).operations)
  {
    hide Shapes, Rewrite, RowsFollow;
    if a.Complete? {
      RewriteFollows(j.operations, Find(j.operations, a.evaluation.candidate.id).value, a);
    } else if a.Dispatch? || PlainRewrite(a) {
      RewriteFollows(j.operations, Find(j.operations, a.id).value, a);
    } else {
      OthersFollow(j.operations, Effect(j, now, a).operations);
    }
  }

  lemma OthersFollow(operations: seq<Operation>, later: seq<Operation>)
    requires operations <= later
    ensures RowsFollow(operations, later)
  {
  }

  lemma CallGrowsTables(j: Journal, deadline: Option<real>, now: Now, a: Action)
    requires Refusal(j, deadline, now, a).None?
    ensures TablesGrow(j, Effect(j, now, a))
  {
    if a.RecordUsage? {
      forall id ensures UsageOf(j.usage, id).Some? ==> UsageOf(j.usage + [UsageRow(a.id, a.usage)], id) == UsageOf(j.usage, id) {
        UsageFrame(j.usage, UsageRow(a.id, a.usage), id);
      }
    } else if a.RecordGuard? {
      var row := DecisionRow(a.id, a.guard, a.decision);
      forall id, guard
        ensures DecisionOf(j.decisions, id, guard).Some? ==>
          DecisionOf(j.decisions + [row], id, guard) == DecisionOf(j.decisions, id, guard)
      {
        DecisionFrame(j.decisions, row, id, guard);
      }
    }
  }

  lemma ClockAdvances(j: Journal, deadline: Option<real>, now: Now, a: Action)
    requires Refusal(j, deadline, now, a).None?
    ensures var k := Effect(j, now, a);
      && k.initialState == j.initialState && k.initialObservation == j.initialObservation
      && k.limits == j.limits && k.deadline == j.deadline
      && j.lastClock <= k.lastClock
      && (j.outcome.Some? ==> k.outcome == j.outcome)
  {
  }

  lemma ExtendsReflexive(j: Journal)
    ensures Extends(j, j)
  {
  }

  lemma CallExtends(j: Journal, deadline: Option<real>, now: Now, a: Action)
    requires Valid(j)
    ensures Extends(j, Apply(j, deadline, now, a))
  {
    ExtendsReflexive(j);
    if Refusal(j, deadline, now, a).None? {
      hide Effect, Refusal, TablesGrow, RowsFollow;
      OperationsFollow(j, deadline, now, a);
      CallGrowsTables(j, deadline, now, a);
      ClockAdvances(j, deadline, now, a);
    }
  }

  lemma ExtendsTransitive(j: Journal, k: Journal, l: Journal)
    requires Extends(j, k) && Extends(k, l)
    ensures Extends(j, l)
  {
    forall i | 0 <= i < |j.operations| ensures RowFollows(j.operations[i], l.operations[i]) {
      assert RowFollows(j.operations[i], k.operations[i]) && RowFollows(k.operations[i], l.operations[i]);
    }
  }

  /** Nothing recorded is ever lost or rewritten, and the clock stamp never decreases. */
  lemma {:induction false} RunExtends(w: World, events: seq<Event>)
    requires Valid(w.journal)
    ensures Extends(w.journal, Run(w, events).journal)
  {
    hide Apply, Valid, Extends;
    ExtendsReflexive(w.journal);
    if events != [] {
      var n := |events| - 1;
      var before := Run(w, events[..n]);
      RunExtends(w, events[..n]);
      RunIsValid(w, events[..n]);
      if events[n].Call? && before.owner.Some? {
        CallExtends(before.journal, before.owner.value.deadline, events[n].now, events[n].action);
        ExtendsTransitive(w.journal, before.journal, Run(w, events).journal);
      }
    }
  }

  // ------------------------------------------------------------- reachable states

  /** Some history of a newly created run leads to these tables. */
  ghost predicate Reachable(j: Journal) {
    exists state: string, observation: Option<string>, limits: Limits, now: Now, events: seq<Event> ::
      Run(World(Create(state, observation, limits, now), None), events).journal == j
  }

  lemma ReachableIsValid(j: Journal)
    requires Reachable(j)
    ensures Valid(j)
  {
    hide Valid;
    var state: string, observation: Option<string>, limits: Limits, now: Now, events: seq<Event> :|
      Run(World(Create(state, observation, limits, now), None), events).journal == j;
    CreatedIsValid(state, observation, limits, now);
    RunIsValid(World(Create(state, observation, limits, now), None), events);
  }

  /** Whatever happens to a reachable run next, it satisfies the invariant and extends what was recorded. */
  lemma NothingIsLost(w: World, events: seq<Event>)
    requires Reachable(w.journal)
    ensures Valid(Run(w, events).journal) && Extends(w.journal, Run(w, events).journal)
  {
    hide Reachable, Valid, Extends;
    ReachableIsValid(w.journal);
    RunIsValid(w, events);
    RunExtends(w, events);
  }

  lemma ReachableContinues(w: World, events: seq<Event>)
    requires Reachable(w.journal) && w.owner.None?
    ensures Reachable(Run(w, events).journal)
  {
    var state: string, observation: Option<string>, limits: Limits, now: Now, before: seq<Event> :|
      Run(World(Create(state, observation, limits, now), None), before).journal == w.journal;
    var start := World(Create(state, observation, limits, now), None);
    RunSplits(start, before + [Crash], events);
    RunSplits(start, before, [Crash]);
    assert Run(Run(start, before), [Crash]) == w;
    assert Run(start, before + [Crash] + events) == Run(w, events);
  }

  // ------------------------------------------------------------ calls of one owner

  datatype Request = Request(now: Now, action: Action)

  function ApplyAll(j: Journal, deadline: Option<real>, requests: seq<Request>): Journal {
    if requests == [] then j
    else
      var n := |requests| - 1;
      Apply(ApplyAll(j, deadline, requests[..n]), deadline, requests[n].now, requests[n].action)
  }

  /** Calls on the store, and nothing else, lead one owner from j to k. */
  ghost predicate Drives(j: Journal, deadline: Option<real>, k: Journal) {
    exists requests: seq<Request> :: ApplyAll(j, deadline, requests) == k
  }

  lemma DrivesNothing(j: Journal, deadline: Option<real>)
    ensures Drives(j, deadline, j)
  {
    assert ApplyAll(j, deadline, []) == j;
  }

  lemma DrivesOn(j: Journal, deadline: Option<real>, k: Journal, now: Now, a: Action)
    requires Drives(j, deadline, k)
    ensures Drives(j, deadline, Apply(k, deadline, now, a))
  {
    hide Apply;
    var requests :| ApplyAll(j, deadline, requests) == k;
    var more := requests + [Request(now, a)];
    assert more[..|more| - 1] == requests;
    assert ApplyAll(j, deadline, more) == Apply(k, deadline, now, a);
  }

  lemma {:induction false} ApplyAllSplits(j: Journal, deadline: Option<real>, first: seq<Request>, second: seq<Request>)
    ensures ApplyAll(j, deadline, first + second) == ApplyAll(ApplyAll(j, deadline, first), deadline, second)
  {
    hide Apply;
    if second == [] {
      assert first + second == first;
    } else {
      var n := |second| - 1;
      ApplyAllSplits(j, deadline, first, second[..n]);
      assert (first + second)[..|first| + n] == first + second[..n];
    }
  }

  lemma DrivesFurther(j: Journal, deadline: Option<real>, k: Journal, l: Journal)
    requires Drives(j, deadline, k) && Drives(k, deadline, l)
    ensures Drives(j, deadline, l)
  {
    var first :| ApplyAll(j, deadline, first) == k;
    var second :| ApplyAll(k, deadline, second) == l;
    ApplyAllSplits(j, deadline, first, second);
  }

  lemma {:induction false} OwnerRuns(w: World, requests: seq<Request>)
    requires w.owner.Some?
    ensures exists events: seq<Event> ::
      Run(w, events) == w.(journal := ApplyAll(w.journal, w.owner.value.deadline, requests))
  {
    hide Apply;
    if requests == [] {
      assert Run(w, []) == w;
    } else {
      var n := |requests| - 1;
      OwnerRuns(w, requests[..n]);
      var events: seq<Event> :| Run(w, events) == w.(journal := ApplyAll(w.journal, w.owner.value.deadline, requests[..n]));
      var more := events + [Call(requests[n].now, requests[n].action)];
      assert more[..|events|] == events;
      assert Run(w, more) == w.(journal := ApplyAll(w.journal, w.owner.value.deadline, requests));
    }
  }

  /** Some events lead from one to the other. */
  ghost predicate Leads(w: World, v: World) {
    exists events: seq<Event> :: Run(w, events) == v
  }

  lemma LeadsNowhere(w: World)
    ensures Leads(w, w)
  {
    assert Run(w, []) == w;
  }

  lemma LeadsNext(w: World, e: Event)
    ensures Leads(w, Next(w, e))
  {
    assert Run(w, [])== w;
    assert Run(w, [e]) == Next(w, e);
  }

  lemma LeadsFurther(u: World, v: World, w: World)
    requires Leads(u, v) && Leads(v, w)
    ensures Leads(u, w)
  {
    var first: seq<Event> :| Run(u, first) == v;
    var second: seq<Event> :| Run(v, second) == w;
    RunSplits(u, first, second);
  }

  /** Whatever an owner's calls make of a run, events of that run make of it: the whole-run theorems apply. */
  lemma DrivenLeads(w: World, k: Journal)
    requires w.owner.Some? && Drives(w.journal, w.owner.value.deadline, k)
    ensures Leads(w, w.(journal := k))
  {
    var requests :| ApplyAll(w.journal, w.owner.value.deadline, requests) == k;
    OwnerRuns(w, requests);
  }

  lemma LeadsExtends(w: World, v: World)
    requires Valid(w.journal) && Leads(w, v)
    ensures Valid(v.journal) && Extends(w.journal, v.journal)
  {
    hide Valid, Extends;
    var events: seq<Event> :| Run(w, events) == v;
    RunIsValid(w, events);
    RunExtends(w, events);
  }

  lemma ReachableLeads(w: World, v: World)
    requires Leads(w, v) && w.owner.None? && Reachable(w.journal)
    ensures Reachable(v.journal)
  {
    var events: seq<Event> :| Run(w, events) == v;
    ReachableContinues(w, events);
  }

  lemma CreatedIsReachable(state: string, observation: Option<string>, limits: Limits, now: Now)
    ensures Reachable(Create(state, observation, limits, now))
  {
    assert Run(World(Create(state, observation, limits, now), None), []).journal == Create(state, observation, limits, now);
  }
}
