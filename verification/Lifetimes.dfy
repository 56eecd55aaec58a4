/** A run from its creation on: any processes, one after another, each driving it in any way, each ending anywhere. */
module Lifetimes {
  import opened Contracts
  import opened Tables
  import opened Journals
  import opened Tools
  import opened Scripts
  import opened SQLiteRuns
  import opened Workings
  import opened Runtimes
  import opened Executions
  import opened Sessions
  import Histories
  import Preservation
  import opened Invariants

  datatype Work =
    | StepWith(objective: string, grants: Option<seq<string>>, step: StepScript)
    | RecoverWith(recovery: StepScript)
    | SessionWith(session: SessionScript)
    | FinishWith(text: string)

  /** One process: it opens the file, builds a runtime as it likes, and works until it ends. */
  datatype Process = Process(since: Now, tools: seq<Tool>, grants: seq<string>, guards: seq<string>, works: seq<Work>)

  /** Nothing may be executed any more: the run ended, or an effect is unknown. */
  predicate Inert(j: Journal) {
    j.outcome.Some? || (Pending(j).Some? && Pending(j).value.stage.Dispatched?)
  }

  lemma InertRefuses(j: Journal, deadline: Option<real>, tools: seq<Tool>, granted: seq<string>, guards: seq<string>,
                     objective: string, grants: Option<seq<string>>, s: StepScript)
    requires Inert(j)
    ensures StepRefusal(j, deadline, tools, granted, guards, objective, grants, s).Some?
    ensures RecoverEffect(j, deadline, s) == j
  {
    hide Compose, StartRefusal;
  }

  /** A step that stopped while its tool was running leaves a run in which nothing may be executed any more, however it
      stopped: the process dying then and there included. */
  lemma StoppedToolLeavesInert(before: Journal, k: Journal, op: Operation, fault: Fault, inferred: bool, s: StepScript,
                               r: Outcome<StepResult>, rejected: Option<Error>)
    requires Working(before, k, op) && Fails(op, fault, inferred, s, r, rejected) && fault.stage.UsingTool?
    ensures Inert(k) && Pending(k).value.id == op.id
  {
    hide Valid;
    assert k.operations[|before.operations|] == op;
    Preservation.NothingOpen(k.operations);
    PendingLast(k);
  }

  /** What a step that stopped leaves pending, if it leaves anything, is its own operation at the stage it reached. */
  lemma StoppedStepPends(before: Journal, k: Journal, op: Operation, fault: Fault, inferred: bool, s: StepScript,
                         r: Outcome<StepResult>, rejected: Option<Error>)
    requires Working(before, k, op) && Fails(op, fault, inferred, s, r, rejected)
    ensures Pending(k).Some? <==>
      || fault.stage.UsingTool? || fault.stage.Evaluating?
      || (Silent(fault, s) && !(fault.stage.Notifying? && inferred))
    ensures Pending(k).Some? ==> Pending(k).value.id == op.id && Pending(k).value.stage == op.stage
  {
    hide Valid;
    assert k.operations[|before.operations|] == op;
    Preservation.NothingOpen(k.operations);
    if Pending(k).Some? {
      PendingLast(k);
    } else {
      assert !op.stage.Open();
    }
    WorkingLastOpen(before, k, op);
  }

  lemma WorkingLastOpen(before: Journal, k: Journal, op: Operation)
    requires Working(before, k, op)
    ensures Pending(k).Some? ==> op.stage.Open()
  {
    hide Valid;
    if Pending(k).Some? {
      PendingLast(k);
    }
  }

  method TakeStep(session: Session, objective: string, grants: Option<seq<string>>, step: StepScript)
    requires session.Valid()
    modifies session.runtime, session.runtime.run`db, session.runtime.world
    ensures session.Valid()
    ensures Histories.Drives(old(session.runtime.run.db), session.runtime.run.monotonicDeadline, session.runtime.run.db)
    ensures old(session.runtime.world.executions) <= session.runtime.world.executions
    ensures Inert(old(session.runtime.run.db)) ==>
      && session.runtime.run.db == old(session.runtime.run.db).(outcome := session.runtime.run.db.outcome)
      && Inert(session.runtime.run.db)
      && session.runtime.world.executions == old(session.runtime.world.executions)
  {
    hide Valid, Histories.Drives, Sound, StepRefusal, Working, Compose, Started, Recounts, Succeeds, Fails, StepFault, Executes,
      InferFault, Pending, Noted, StepNotes;
    var runtime, run := session.runtime, session.runtime.run;
    ghost var before, executions := run.db, runtime.world.executions;
    if Inert(before) {
      InertRefuses(before, run.monotonicDeadline, runtime.tools.tools, runtime.grants, runtime.guards, objective, grants, step);
    }
    ghost var trail;
    var r;
    r, trail := runtime.Step(objective, grants, step);
    if trail.Admitted? {
      ghost var tool := ToolOf(runtime.tools.tools, CallOf(step));
      ghost var executes :=
        Executes(trail.begun, run.monotonicDeadline, runtime.tools.tools, |runtime.guards|, trail.request, step);
      if executes {
        ExecutedIsAuthorised(trail.begun, run.monotonicDeadline, runtime.tools.tools, |runtime.guards|, trail.request, step);
      }
      StepIsSound(before, run.db, trail.op, executions, runtime.world.executions, tool, step, executes);
      RecountsGrow(executions, runtime.world.executions, run.db.reservations, trail.op, tool, step, executes);
    }
  }

  method Perform(session: Session, work: Work)
    requires session.Valid()
    modifies session.runtime, session.runtime.run`db, session.runtime.world
    ensures session.Valid()
    ensures Histories.Drives(old(session.runtime.run.db), session.runtime.run.monotonicDeadline, session.runtime.run.db)
    ensures old(session.runtime.world.executions) <= session.runtime.world.executions
    ensures Inert(old(session.runtime.run.db)) ==>
      && session.runtime.run.db == old(session.runtime.run.db).(outcome := session.runtime.run.db.outcome)
      && Inert(session.runtime.run.db)
      && session.runtime.world.executions == old(session.runtime.world.executions)
  {
    hide Valid, Histories.Drives, Sound, RecoverEffect, RecoverOutcome, Pending, Ready;
    var runtime, run := session.runtime, session.runtime.run;
    ghost var before, executions := run.db, runtime.world.executions;
    match work
    case StepWith(objective, grants, step) =>
      TakeStep(session, objective, grants, step);
    case RecoverWith(recovery) =>
      if Inert(before) {
        InertRefuses(before, run.monotonicDeadline, runtime.tools.tools, runtime.grants, runtime.guards, "", None, recovery);
      }
      RecoverIsSound(before, run.monotonicDeadline, recovery, executions);
      var r := runtime.Recover(recovery);
    case SessionWith(script) =>
      ghost var turns;
      var r;
      r, turns := session.Execute(script);
    case FinishWith(text) =>
      Histories.DrivesNothing(before, run.monotonicDeadline);
      Histories.DrivesOn(before, run.monotonicDeadline, before, UNREAD, Finish(ApplicationText(text)));
      var r := run.Finish(ApplicationText(text));
      OutcomeOnly(before, run.db);
  }

  lemma OutcomeOnly(j: Journal, k: Journal)
    requires k == j.(outcome := k.outcome)
    ensures Pending(k) == Pending(j)
  {
  }

  /** The works of one process, in order; the process may end before any of them. */
  method Occupy(session: Session, works: seq<Work>)
    requires session.Valid()
    modifies session.runtime, session.runtime.run`db, session.runtime.world
    ensures session.Valid()
    ensures Histories.Drives(old(session.runtime.run.db), session.runtime.run.monotonicDeadline, session.runtime.run.db)
    ensures old(session.runtime.world.executions) <= session.runtime.world.executions
    ensures Inert(old(session.runtime.run.db)) ==>
      && Inert(session.runtime.run.db)
      && session.runtime.run.db == old(session.runtime.run.db).(outcome := session.runtime.run.db.outcome)
      && session.runtime.world.executions == old(session.runtime.world.executions)
  {
    hide Valid, Histories.Drives, Sound, Inert;
    ghost var begun, deadline := session.runtime.run.db, session.runtime.run.monotonicDeadline;
    Histories.DrivesNothing(begun, deadline);
    for i := 0 to |works|
      invariant session.Valid() && Histories.Drives(begun, deadline, session.runtime.run.db)
      invariant old(session.runtime.world.executions) <= session.runtime.world.executions
      invariant Inert(begun) ==>
        && Inert(session.runtime.run.db)
        && session.runtime.run.db == begun.(outcome := session.runtime.run.db.outcome)
        && session.runtime.world.executions == old(session.runtime.world.executions)
    {
      ghost var j := session.runtime.run.db;
      Perform(session, works[i]);
      Histories.DrivesFurther(begun, deadline, j, session.runtime.run.db);
    }
  }

  /** A process that opens the file and may build its runtime. */
  method Serve(file: Journal, ghost ran: seq<Execution>, process: Process) returns (later: Journal, ghost executions: seq<Execution>)
    requires Valid(file) && Sound(file.operations, file.reservations, ran)
    requires forall g :: g in process.guards ==> NonBlank(g)
    ensures Histories.Leads(Shut(file), Shut(later)) && Sound(later.operations, later.reservations, executions)
    ensures ran <= executions
    ensures Inert(file) ==> Inert(later) && later == file.(outcome := later.outcome) && executions == ran
  {
    hide Valid, Histories.Drives, Histories.Leads, Sound, Inert;
    later, executions := file, ran;
    Histories.LeadsNowhere(Shut(file));
    var opening := SQLiteRun.Open(file, process.since);
    if opening.Raised? {
      return;
    }
    var broker := ToolBroker.Create(process.tools);
    if broker.Raised? {
      return;
    }
    var world := new World(ran);
    var runtime := Runtime.Create(opening.value, broker.value, process.grants, process.guards, world);
    if runtime.Raised? {
      return;
    }
    var session := new Session(runtime.value);
    Occupy(session, process.works);
    later, executions := opening.value.db, world.executions;
    OwnerLeaves(file, process.since, later);
  }

  /** The file with no process that owns it. */
  function Shut(file: Journal): Histories.World { Histories.World(file, None) }

  /** An owner comes, makes its calls, and is gone, by closing the run or by dying. */
  lemma OwnerLeaves(file: Journal, since: Now, later: Journal)
    requires BoundDeadline(file, since).Ok? && Histories.Drives(file, BoundDeadline(file, since).value, later)
    ensures Histories.Leads(Shut(file), Shut(later))
  {
    hide Histories.Leads, Histories.Drives;
    var held := Histories.World(file, Some(Histories.Owner(BoundDeadline(file, since).value, since)));
    var gone := held.(journal := later);
    Histories.LeadsNext(Shut(file), Histories.Open(since));
    Histories.DrivenLeads(held, later);
    Histories.LeadsNext(gone, Histories.Crash);
    Histories.LeadsFurther(Shut(file), held, gone);
    Histories.LeadsFurther(Shut(file), gone, Shut(later));
  }

  /** The whole life of a file, from any reachable point of it on. Its tables go on as some history of the run; no
      operation is ever executed twice, and tools and external actions never run more often than the limits allow; once
      the run has ended or an effect is unknown, no process executes, starts or rewrites anything. */
  method Live(file: Journal, ghost ran: seq<Execution>, processes: seq<Process>)
    returns (final: Journal, ghost executions: seq<Execution>)
    requires Histories.Reachable(file) && Sound(file.operations, file.reservations, ran)
    requires forall p :: p in processes ==> forall g :: g in p.guards ==> NonBlank(g)
    ensures Histories.Leads(Shut(file), Shut(final)) && Histories.Reachable(final)
    ensures Histories.Extends(file, final) && ran <= executions
    ensures Sound(final.operations, final.reservations, executions) && Once(executions)
    ensures |executions| <= DispatchedIn(final.operations) <= file.limits.toolCalls
    ensures |External(executions)| <= file.limits.externalActions
    ensures Inert(file) ==> final == file.(outcome := final.outcome) && executions == ran
  {
    hide Valid, Histories.Leads, Histories.Reachable, Inert, Backed, DispatchedIn, Histories.RowsFollow, Histories.TablesGrow;
    final, executions := file, ran;
    Histories.ReachableIsValid(file);
    Histories.LeadsNowhere(Shut(file));
    for i := 0 to |processes|
      invariant Valid(final) && Histories.Leads(Shut(file), Shut(final))
      invariant Sound(final.operations, final.reservations, executions) && ran <= executions
      invariant Inert(file) ==> Inert(final) && final == file.(outcome := final.outcome) && executions == ran
    {
      ghost var before := final;
      final, executions := Serve(final, executions, processes[i]);
      Histories.LeadsExtends(Shut(before), Shut(final));
      Histories.LeadsFurther(Shut(file), Shut(before), Shut(final));
    }
    Histories.LeadsExtends(Shut(file), Shut(final));
    Histories.ReachableLeads(Shut(file), Shut(final));
    WithinCapacity(final, executions);
  }

  /** Every life begins here: a new run is reachable, and nothing has run yet. */
  lemma BornSound(state: string, observation: Option<string>, limits: Limits, now: Now)
    ensures var file := Create(state, observation, limits, now);
      Histories.Reachable(file) && Sound(file.operations, file.reservations, [])
  {
    Histories.CreatedIsReachable(state, observation, limits, now);
  }
}
