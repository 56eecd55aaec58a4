/** The driver of one operation per step over a durable run. */
module Runtimes {
  import opened Contracts
  import opened Tables
  import opened OutputBudgets
  import opened Journals
  import opened Tools
  import opened Scripts
  import opened Workings
  import opened SQLiteRuns
  import Histories
  import Invariants
  import Preservation
  import Publishing
  import Checkpoints
  import Refusals

  /** One run of a tool's execute. */
  datatype Execution = Execution(id: string, call: ToolCall, external: bool)

  /** What really happened outside the run, in order. Nothing in the library reads it. */
  class World {
    ghost var executions: seq<Execution>

    constructor (ghost ran: seq<Execution>)
      ensures executions == ran
    {
      executions := ran;
    }
  }

  class Runtime {
    const run: SQLiteRun
    const tools: ToolBroker
    const grants: seq<string>
    const guards: seq<string>
    const world: World
    var rejectedProposal: Option<Error>

    constructor (run: SQLiteRun, tools: ToolBroker, grants: seq<string>, guards: seq<string>, world: World)
      ensures this.run == run && this.tools == tools && this.grants == grants && this.guards == guards && this.world == world
    {
      this.run, this.tools, this.grants, this.guards, this.world := run, tools, grants, guards, world;
      rejectedProposal := None;
    }

    /** Guard identities are nonblank by construction; the runtime refuses repeated ones. */
    static method Create(run: SQLiteRun, tools: ToolBroker, grants: seq<string>, guards: seq<string>, world: World)
      returns (r: Outcome<Runtime>)
      requires forall g :: g in guards ==> NonBlank(g)
      ensures r.Ok? <==> GuardIdentities(guards)
      ensures r.Ok? ==>
        && fresh(r.value) && r.value.run == run && r.value.tools == tools && r.value.grants == grants
        && r.value.guards == guards && r.value.world == world
    {
      if !Distinct(guards) {
        return Raised(Refused(BadGuardIdentities));
      }
      var runtime := new Runtime(run, tools, grants, guards, world);
      r := Ok(runtime);
    }

    ghost predicate Valid()
      reads this, run, tools
    {
      run.Valid() && tools.Valid() && GuardIdentities(guards)
    }

    /** The run is the one before plus the operation this step works on, and only calls on the store made it so. */
    ghost predicate Busy(before: Journal, op: Operation)
      reads run
    {
      run.Valid() && Working(before, run.db, op) && Histories.Drives(before, run.monotonicDeadline, run.db)
    }

    // ------------------------------------------ writes for the working operation

    method Emit(ghost before: Journal, ghost op: Operation, id: string, stage: string, detail: string, notice: Notice)
      returns (e: Option<Error>)
      requires Busy(before, op) && op.id == id && stage != ""
      modifies run`db
      ensures e == notice.Fault()
      ensures Busy(before, op) && SameButNotes(old(run.db), run.db)
      ensures Noted(old(run.db), run.db, EventNotes(id, stage, detail, notice))
    {
      hide Invariants.Valid, Histories.Drives, Refusal, Effect, Working;
      if notice.dies {
        return Some(ProcessDeath);
      }
      NoteWorks(before, run.db, op, run.monotonicDeadline, UNREAD, RecordEvent(id, stage, detail));
      Histories.DrivesOn(before, run.monotonicDeadline, run.db, UNREAD, RecordEvent(id, stage, detail));
      var r := run.RecordEvent(Instance(EventRow(id, stage, detail)));
      e := notice.raised;
    }

    method Report(ghost before: Journal, ghost op: Operation, id: string, usage: Dynamic<Usage>) returns (e: Option<Error>)
      requires Busy(before, op) && op.id == id && op.stage.Inference?
      requires UsageOf(run.db.usage, id).None?
      modifies run`db
      ensures e == UsageFault(old(run.db).outputs, id, usage)
      ensures Busy(before, op) && SameButNotes(old(run.db), run.db)
      ensures Noted(old(run.db), run.db, UsageNotes(id, Some(usage)))
    {
      hide Invariants.Valid, Histories.Drives, Refusal, Effect, Working;
      if usage.Instance? {
        NoteWorks(before, run.db, op, run.monotonicDeadline, UNREAD, RecordUsage(id, usage.value));
        Histories.DrivesOn(before, run.monotonicDeadline, run.db, UNREAD, RecordUsage(id, usage.value));
      }
      var r := run.RecordUsage(id, usage);
      e := if r.Raised? then Some(r.error) else None;
    }

    method Propose(ghost before: Journal, ghost op: Operation, id: string, call: Dynamic<ToolCall>) returns (e: Option<Error>)
      requires Busy(before, op) && op.id == id && op.stage.Inference?
      modifies run`db
      ensures e == Refuse(call.Foreign?, WrongType)
      ensures run.Valid() && SameButNotes(old(run.db), run.db)
      ensures Busy(before, if e.Some? then op else op.(stage := Stage.Proposed, call := Some(call.value)))
      ensures Noted(old(run.db), run.db, NO_NOTES)
    {
      hide Invariants.Valid, Histories.Drives, Refusal, Effect, Working;
      if call.Instance? {
        NoteWorks(before, run.db, op, run.monotonicDeadline, UNREAD, Action.Propose(id, call.value));
        Histories.DrivesOn(before, run.monotonicDeadline, run.db, UNREAD, Action.Propose(id, call.value));
      }
      var r := run.Proposed(id, call);
      e := if r.Raised? then Some(r.error) else None;
    }

    method Decide(ghost before: Journal, ghost op: Operation, id: string, guard: string, decision: GuardDecision)
      requires Busy(before, op) && op.id == id && op.stage.Proposed?
      requires RequirementRow(id, guard) in run.db.requirements && DecisionOf(run.db.decisions, id, guard).None?
      modifies run`db
      ensures Busy(before, op) && SameButNotes(old(run.db), run.db)
      ensures Noted(old(run.db), run.db, Notes([], [DecisionRow(id, guard, decision)], []))
    {
      hide Invariants.Valid, Histories.Drives, Refusal, Effect, Working;
      NoteWorks(before, run.db, op, run.monotonicDeadline, UNREAD, RecordGuard(id, guard, decision));
      Histories.DrivesOn(before, run.monotonicDeadline, run.db, UNREAD, RecordGuard(id, guard, decision));
      var r := run.RecordGuard(id, guard, Instance(decision));
    }

    method Dispatch(ghost before: Journal, ghost op: Operation, id: string, tool: Tool, now: Now) returns (e: Option<Error>)
      requires Busy(before, op) && op.id == id && op.stage.Proposed?
      requires GuardsAllow(run.db.requirements, run.db.decisions, id)
      modifies run`db
      ensures run.Valid() && e == DispatchFault(old(run.db), run.monotonicDeadline, now, tool.externalAction)
      ensures e.Some? ==> run.db == old(run.db)
      ensures e.None? ==>
        && Busy(before, op.(stage := Stage.Dispatched, observation := tool.observation))
        && run.db == old(run.db).(lastClock := now.wall, operations := run.db.operations,
                                  reservations := old(run.db).reservations + DispatchRows(id, tool.externalAction))
    {
      hide Invariants.Valid, Histories.Drives, DispatchRefusal, Effect, Working, DispatchFault, DispatchRows;
      DispatchWorks(before, run.db, op, run.monotonicDeadline, now, tool.observation, tool.externalAction);
      Histories.DrivesOn(before, run.monotonicDeadline, run.db, now, Action.Dispatch(id, tool.observation, tool.externalAction));
      var r := run.Dispatch(id, tool.observation, tool.externalAction, now);
      e := if r.Raised? then Some(r.error) else None;
    }

    method Return(ghost before: Journal, ghost op: Operation, id: string, output: Dynamic<string>)
      returns (e: Option<Error>, candidate: Candidate)
      requires Busy(before, op) && op.id == id && op.stage.Dispatched?
      modifies run`db
      ensures e == Refuse(output.Foreign?, WrongType)
      ensures run.Valid()
      ensures e.Some? ==> run.db == old(run.db)
      ensures e.None? ==>
        && Busy(before, op.(stage := Stage.Returned, output := Some(output.value)))
        && SameButNotes(old(run.db), run.db) && Noted(old(run.db), run.db, NO_NOTES)
        && candidate == CandidateOf(op.(stage := Stage.Returned, output := Some(output.value)))
    {
      hide Invariants.Valid, Histories.Drives, Refusal, Effect, Working, CandidateOf;
      candidate := Candidate(id, State(0, ""), ToolCall("", ""), "");
      if output.Instance? {
        NoteWorks(before, run.db, op, run.monotonicDeadline, UNREAD, Action.Return(id, output.value));
        Histories.DrivesOn(before, run.monotonicDeadline, run.db, UNREAD, Action.Return(id, output.value));
      }
      var r := run.Returned(id, output);
      if r.Raised? {
        return Some(r.error), candidate;
      }
      e, candidate := None, r.value;
      FindsWorking(before, run.db, op.(stage := Stage.Returned, output := Some(output.value)));
    }

    method Publish(ghost before: Journal, ghost op: Operation, evaluated: Reply<Evaluation>, now: Now)
      returns (r: Outcome<StepResult>)
      requires Busy(before, op) && op.stage.Returned? && !evaluated.Threw?
      modifies run`db
      ensures run.Valid()
      ensures match CompleteFault(old(run.db), run.monotonicDeadline, CandidateOf(op), now, evaluated)
        case Some(e) => r == Raised(e) && run.db == old(run.db)
        case None => r.Ok? && evaluated.Value? && Busy(before, op.(stage := Stage.Completed))
                     && Published(old(run.db), run.db, op, evaluated.value, now, r.value)
    {
      hide Invariants.Valid, Histories.Drives, CompleteRefusal, Effect, Working, CheckEvaluation, OnTime;
      if evaluated.Alien? {
        r := run.Complete(Foreign, now);
      } else {
        CompleteRefusalIs(before, run.db, op, evaluated.value);
        if PublishFault(CandidateOf(op), evaluated.value).None? {
          CompleteWorks(before, run.db, op, now, evaluated.value);
        }
        Histories.DrivesOn(before, run.monotonicDeadline, run.db, now, Action.Complete(evaluated.value));
        r := run.Complete(Instance(evaluated.value), now);
      }
    }

    // ------------------------------------------------------------------- phases

    /** The inference stage: the adapter's answer, its report, and the call it proposes. */
    method Consult(ghost before: Journal, ghost op: Operation, s: StepScript)
      returns (e: Option<Error>, call: ToolCall, ghost op': Operation)
      requires Busy(before, op) && op.id == s.id && op.stage.Inference?
      requires UsageOf(run.db.usage, s.id).None?
      modifies run`db
      ensures e == GenerateFault(old(run.db).outputs, s)
      ensures Busy(before, op') && SameButNotes(old(run.db), run.db)
      ensures Noted(old(run.db), run.db, UsageNotes(s.id, ReportIn(s.generated)))
      ensures e.Some? ==> op' == op
      ensures e.None? ==> call == CallOf(s) && op' == op.(stage := Stage.Proposed, call := Some(call))
    {
      hide Invariants.Valid, Histories.Drives, Working, UsageFault, Noted;
      e, call, op' := None, ToolCall("", ""), op;
      ghost var asked := run.db;
      NothingNoted(asked, asked);
      if s.generated.Threw? {
        var error := s.generated.error;
        if error.CarriesUsage() {
          e := Report(before, op, s.id, error.usage.value);
          if e.Some? {
            error := e.value;
          }
        }
        return Some(error), call, op';
      }
      if s.generated.Alien? {
        return Some(Refused(WrongType)), call, op';
      }
      var response := s.generated.value;
      e := Report(before, op, s.id, response.usage);
      if e.Some? {
        return;
      }
      if s.diesAfterUsage {
        return Some(ProcessDeath), call, op';
      }
      ghost var reported := run.db;
      e := Propose(before, op, s.id, response.call);
      NotedStill(asked, reported, run.db, UsageNotes(s.id, Some(response.usage)));
      if e.Some? {
        return;
      }
      call := response.call.value;
      op' := op.(stage := Stage.Proposed, call := Some(call));
    }

    /** From the started event to the inference_returned event. */
    method Infer(ghost before: Journal, ghost op: Operation, s: StepScript)
      returns (fault: Option<Fault>, call: ToolCall, ghost op': Operation)
      requires Busy(before, op) && op.id == s.id && op.stage.Inference?
      requires UsageOf(run.db.usage, s.id).None?
      modifies run`db
      ensures fault == InferFault(old(run.db).outputs, s)
      ensures Busy(before, op') && SameButNotes(old(run.db), run.db)
      ensures Noted(old(run.db), run.db, InferNotes(old(run.db).outputs, s))
      ensures op' == op || op' == op.(stage := Stage.Proposed, call := Some(CallOf(s)))
      ensures fault.None? ==> call == CallOf(s) && op' == op.(stage := Stage.Proposed, call := Some(call))
    {
      hide Invariants.Valid, Histories.Drives, Working, GenerateFault, Noted, Then, EventNotes, UsageNotes, ReportIn;
      call, op' := ToolCall("", ""), op;
      ghost var begun := run.db;
      ghost var first, second := EventNotes(s.id, "started", "", s.started), UsageNotes(s.id, ReportIn(s.generated));
      var e := Emit(before, op, s.id, "started", "", s.started);
      if e.Some? {
        NotedLast(begun, run.db, first);
        return Some(Fault(Notifying, e.value)), call, op';
      }
      ghost var announced := run.db;
      UnreportedStill(begun, announced, s.id, "started", "", s.started);
      e, call, op' := Consult(before, op, s);
      if e.Some? {
        NotedLast(announced, run.db, second);
        NotedThen(begun, announced, run.db, first, Then(second, NO_NOTES));
        return Some(Fault(Inferring, e.value)), call, op';
      }
      ghost var proposed := run.db;
      e := Emit(before, op', s.id, "inference_returned", "", s.inferenceReturned);
      ghost var third := EventNotes(s.id, "inference_returned", "", s.inferenceReturned);
      NotedThen(announced, proposed, run.db, second, third);
      NotedThen(begun, announced, run.db, first, Then(second, third));
      fault := At(Notifying, e);
    }

    lemma UnreportedStill(j: Journal, k: Journal, id: string, stage: string, detail: string, notice: Notice)
      requires Noted(j, k, EventNotes(id, stage, detail, notice))
      ensures k.usage == j.usage && k.decisions == j.decisions
    {
    }

    /** Decisions recorded for the first i guards of the operation, all allowing it, and none for the rest. */
    ghost predicate DecidedUpTo(j: Journal, id: string, i: nat)
      requires i <= |guards|
    {
      && (forall k :: 0 <= k < i ==>
            DecisionOf(j.decisions, id, guards[k]).Some? && DecisionOf(j.decisions, id, guards[k]).value.allowed)
      && forall k :: i <= k < |guards| ==> DecisionOf(j.decisions, id, guards[k]).None?
    }

    lemma DecidesNext(j: Journal, k: Journal, id: string, i: nat, decision: GuardDecision)
      requires i < |guards| && GuardIdentities(guards) && DecidedUpTo(j, id, i) && decision.allowed
      requires k.decisions == j.decisions + [DecisionRow(id, guards[i], decision)]
      ensures DecidedUpTo(k, id, i + 1)
    {
      forall g: string
        ensures DecisionOf(k.decisions, id, g) == if g == guards[i] then Some(decision) else DecisionOf(j.decisions, id, g)
      {
        Preservation.DecisionFrame(j.decisions, DecisionRow(id, guards[i], decision), id, g);
      }
    }

    /** One guard: its decision is recorded before it is obeyed. */
    method Check(ghost before: Journal, ghost op: Operation, id: string, guard: string, g: GuardScript) returns (e: Option<Error>)
      requires Busy(before, op) && op.id == id && op.stage.Proposed?
      requires RequirementRow(id, guard) in run.db.requirements && DecisionOf(run.db.decisions, id, guard).None?
      modifies run`db
      ensures e == GuardFault(g)
      ensures Busy(before, op) && SameButNotes(old(run.db), run.db)
      ensures Noted(old(run.db), run.db, GuardNotes(id, guard, g))
      ensures e.None? ==>
        && g.reply.Value? && g.reply.value.allowed
        && run.db.decisions == old(run.db).decisions + [DecisionRow(id, guard, g.reply.value)]
    {
      hide Invariants.Valid, Histories.Drives, Working;
      if g.reply.Threw? {
        NothingNoted(run.db, run.db);
        return Some(g.reply.error);
      }
      if g.reply.Alien? {
        NothingNoted(run.db, run.db);
        return Some(Refused(WrongType));
      }
      var decision := g.reply.value;
      ghost var asked := run.db;
      Decide(before, op, id, guard, decision);
      ghost var decided := run.db;
      e := Emit(before, op, id, if decision.allowed then "guard_allowed" else "guard_denied", guard, g.notice);
      NotedThen(asked, decided, run.db, Notes([], [DecisionRow(id, guard, decision)], []),
                EventNotes(id, if decision.allowed then "guard_allowed" else "guard_denied", guard, g.notice));
      if e.None? && !decision.allowed {
        e := Some(Refused(GuardNotAllowed));
      }
    }

    method CheckGuards(ghost before: Journal, ghost op: Operation, s: StepScript) returns (e: Option<Error>)
      requires Valid() && Busy(before, op) && op.id == s.id && op.stage.Proposed?
      requires DecidedUpTo(run.db, s.id, 0)
      requires forall g :: g in guards ==> RequirementRow(s.id, g) in run.db.requirements
      modifies run`db
      ensures e == GuardsFault(s.guards, 0, |guards|)
      ensures Busy(before, op) && SameButNotes(old(run.db), run.db)
      ensures Noted(old(run.db), run.db, GuardsNotes(s.id, guards, s.guards, 0))
      ensures e.None? ==> DecidedUpTo(run.db, s.id, |guards|)
    {
      hide Invariants.Valid, Histories.Drives, Working, Noted, Then, GuardNotes, GuardFault;
      ghost var begun, done := run.db, NO_NOTES;
      NothingNoted(begun, begun);
      NoneThen(GuardsNotes(s.id, guards, s.guards, 0));
      for i := 0 to |guards|
        invariant Busy(before, op) && SameButNotes(old(run.db), run.db)
        invariant DecidedUpTo(run.db, s.id, i)
        invariant GuardsFault(s.guards, 0, |guards|) == GuardsFault(s.guards, i, |guards|)
        invariant Noted(begun, run.db, done)
        invariant GuardsNotes(s.id, guards, s.guards, 0) == Then(done, GuardsNotes(s.id, guards, s.guards, i))
      {
        ghost var asked, notes := run.db, GuardNotes(s.id, guards[i], s.guards(i));
        e := Check(before, op, s.id, guards[i], s.guards(i));
        if e.Some? {
          NotedLast(asked, run.db, notes);
          NotedThen(begun, asked, run.db, done, Then(notes, NO_NOTES));
          return;
        }
        NotedThen(begun, asked, run.db, done, notes);
        ThenAssociates(done, notes, GuardsNotes(s.id, guards, s.guards, i + 1));
        done := Then(done, notes);
        DecidesNext(asked, run.db, s.id, i, s.guards(i).reply.value);
      }
      NotedLast(begun, run.db, done);
      e := None;
    }

    /** The broker's gate and the guards. */
    method Authorise(ghost before: Journal, ghost op: Operation, call: ToolCall, allowed: seq<string>, s: StepScript)
      returns (fault: Option<Fault>, tool: Tool)
      requires Valid() && Busy(before, op) && op.id == s.id && op.stage.Proposed?
      requires DecidedUpTo(run.db, s.id, 0)
      requires forall g :: RequirementRow(s.id, g) in run.db.requirements <==> g in guards
      modifies run`db
      ensures fault == AuthoriseFault(tools.tools, call, allowed, |guards|, s)
      ensures Noted(old(run.db), run.db, AuthoriseNotes(tools.tools, call, allowed, guards, s))
      ensures Busy(before, op) && SameButNotes(old(run.db), run.db)
      ensures fault.None? ==> tool == ToolOf(tools.tools, call) && GuardsAllow(run.db.requirements, run.db.decisions, s.id)
    {
      hide Invariants.Valid, Histories.Drives, Working;
      NothingNoted(run.db, run.db);
      var r := tools.Prepare(Instance(call), allowed, s.validation);
      if r.Raised? {
        return Some(Fault(Validating, r.error)), Tool("", false, false, "", "");
      }
      tool := r.value;
      var e := CheckGuards(before, op, s);
      fault := At(Guarding, e);
    }

    /** Dispatch, the call itself, and its durable result. */
    method Act(ghost before: Journal, ghost op: Operation, call: ToolCall, tool: Tool, s: StepScript)
      returns (fault: Option<Fault>, candidate: Candidate, ghost op': Operation)
      requires Busy(before, op) && op.id == s.id && op.stage.Proposed? && op.call == Some(call)
      requires GuardsAllow(run.db.requirements, run.db.decisions, s.id)
      modifies run`db, world
      ensures fault == ActFault(old(run.db), run.monotonicDeadline, tool, s)
      ensures Noted(old(run.db), run.db, ActNotes(old(run.db), run.monotonicDeadline, call, tool, s))
      ensures Busy(before, op')
      ensures op'.id == op.id && op'.request == op.request && op'.call == op.call && op'.error == op.error
      ensures fault.Some? && fault.value.stage.Dispatching? ==> op' == op && world.executions == old(world.executions)
      ensures fault.Some? && !fault.value.stage.Dispatching? ==> op'.stage.Dispatched? && fault.value.stage.UsingTool?
      ensures fault.None? ==> op'.stage.Returned? && candidate == CandidateOf(op') && op'.output == Some(OutputOfTool(s))
      ensures !(fault.Some? && fault.value.stage.Dispatching?) ==>
        && run.db.lastClock == s.dispatchClock.wall && op'.observation == tool.observation
        && (ReservationRow(s.id, ExternalUse) in run.db.reservations <==> tool.externalAction)
      ensures world.executions == old(world.executions) +
        if DispatchFault(old(run.db), run.monotonicDeadline, s.dispatchClock, tool.externalAction).None?
           && s.toolDispatched.Fault().None?
        then [Execution(s.id, call, tool.externalAction)] else []
    {
      hide Invariants.Valid, Histories.Drives, Working, DispatchFault;
      candidate, op' := Candidate("", State(0, ""), call, ""), op;
      ghost var authorised := run.db;
      NothingNoted(authorised, authorised);
      NotReserved(before, authorised, op);
      var e := Dispatch(before, op, s.id, tool, s.dispatchClock);
      if e.Some? {
        return Some(Fault(Dispatching, e.value)), candidate, op';
      }
      op' := op.(stage := Stage.Dispatched, observation := tool.observation);
      e := Emit(before, op', s.id, "tool_dispatched", call.name, s.toolDispatched);
      ghost var dispatched := run.db;
      if e.Some? {
        return Some(Fault(UsingTool, e.value)), candidate, op';
      }
      // tool.execute(call.arguments)
      world.executions := world.executions + [Execution(s.id, call, tool.externalAction)];
      if s.executed.Threw? {
        return Some(Fault(UsingTool, s.executed.error)), candidate, op';
      }
      var output := if s.executed.Alien? then Foreign else Instance(s.executed.value);
      e, candidate := Return(before, op', s.id, output);
      if e.Some? {
        return Some(Fault(UsingTool, e.value)), candidate, op';
      }
      NotedStill(authorised, dispatched, run.db, EventNotes(s.id, "tool_dispatched", call.name, s.toolDispatched));
      op' := op'.(stage := Stage.Returned, output := Some(s.executed.value));
      fault := None;
    }

    method CheckDeadline(now: Now) returns (e: Option<Error>)
      ensures e == Expired(run.monotonicDeadline, now)
    {
      e := if SecondsRemaining(run.monotonicDeadline, now) == Some(0.0) then Some(Refused(WallTimeExhausted)) else None;
    }

    /** Evaluation and publication. */
    method Judge(ghost before: Journal, ghost op: Operation, candidate: Candidate, s: StepScript)
      returns (fault: Option<Fault>, result: Outcome<StepResult>, ghost op': Operation)
      requires Busy(before, op) && op.id == s.id && op.stage.Returned?
      requires candidate == CandidateOf(op)
      modifies run`db
      ensures fault == JudgeFault(old(run.db), run.monotonicDeadline, candidate, s)
      ensures Noted(old(run.db), run.db, JudgeNotes(old(run.db), run.monotonicDeadline, candidate, s))
      ensures Busy(before, op')
      ensures run.db.reservations == old(run.db).reservations
      ensures op' == if fault.Some? && fault.value.stage.Evaluating? then op else op.(stage := Stage.Completed)
      ensures fault.Some? && fault.value.stage.Evaluating? ==> SameButNotes(old(run.db), run.db)
      ensures fault.Some? ==> fault.value.stage.Evaluating? || fault.value.stage.Notifying?
      ensures fault.None? ==> s.evaluated.Value?
      ensures fault.None? ==>
        && result == Ok(StepResult(candidate, s.evaluated.value, Read(run.db), s.evaluated.value.Published().Some?))
        && run.db.evaluations == old(run.db).evaluations + [EvaluationRow(s.id, s.evaluated.value)]
        && run.db.commits == old(run.db).commits + CommitRows(Read(old(run.db)), s.evaluated.value)
    {
      hide Invariants.Valid, Histories.Drives, Working, OnTime, CheckEvaluation, CommitRows, Read,
        CompleteFault, Noted, Then, EventNotes;
      op', result := op, Raised(ProcessDeath);
      ghost var returned, first := run.db, EventNotes(s.id, "tool_returned", candidate.call.name, s.toolReturned);
      var e := Emit(before, op, s.id, "tool_returned", candidate.call.name, s.toolReturned);
      NotedLast(returned, run.db, first);
      if e.Some? { return Some(Fault(Evaluating, e.value)), result, op'; }
      e := CheckDeadline(s.firstCheck);
      if e.Some? { return Some(Fault(Evaluating, e.value)), result, op'; }
      if s.evaluated.Threw? { return Some(Fault(Evaluating, s.evaluated.error)), result, op'; }
      e := CheckDeadline(s.secondCheck);
      if e.Some? { return Some(Fault(Evaluating, e.value)), result, op'; }
      ghost var unpublished := run.db;
      result := Publish(before, op, s.evaluated, s.completeClock);
      SameCompletion(returned, unpublished, run.monotonicDeadline, candidate, s);
      if result.Raised? { return Some(Fault(Evaluating, result.error)), result, op'; }
      op' := op.(stage := Stage.Completed);
      ghost var published := run.db;
      ghost var second := EventNotes(s.id, if Commits(s.evaluated) then "committed" else "observed", "", s.published);
      e := Emit(before, op', s.id, if result.value.committed then "committed" else "observed", "", s.published);
      NothingNoted(unpublished, published);
      NotedStill(returned, unpublished, published, first);
      NotedThen(returned, published, run.db, first, second);
      SameCompletion(published, run.db, run.monotonicDeadline, candidate, s);
      fault := At(Notifying, e);
    }

    lemma SameCompletion(j: Journal, k: Journal, deadline: Option<real>, candidate: Candidate, s: StepScript)
      requires SameButNotes(j, k)
      ensures CompleteFault(k, deadline, candidate, s.completeClock, s.evaluated)
           == CompleteFault(j, deadline, candidate, s.completeClock, s.evaluated)
      ensures Read(k) == Read(j)
      ensures CompleteFault(j, deadline, candidate, s.completeClock, s.evaluated).None? ==>
        s.evaluated.Value? && s.evaluated.value.candidate == candidate
    {
    }

    // --------------------------------------------------------------- whole steps

    /** Everything inside _step's try, for an operation that start has just admitted. */
    method Attempt(ghost before: Journal, request: InferenceRequest, s: StepScript)
      returns (fault: Option<Fault>, result: Outcome<StepResult>, ghost op: Operation)
      requires Valid() && Busy(before, Fresh(s.id, request)) && Untouched(run.db, s.id, guards)
      modifies run`db, world
      ensures fault == StepFault(old(run.db), run.monotonicDeadline, tools.tools, |guards|, request, s)
      ensures Noted(old(run.db), run.db, AttemptNotes(old(run.db), run.monotonicDeadline, tools.tools, guards, request, s))
      ensures Valid() && Busy(before, op) && op.id == s.id && op.request == request
      ensures Reaches(op.stage, fault, InferFault(old(run.db).outputs, s).None?) && op.error.None?
      ensures Recounts(old(world.executions), world.executions, run.db.reservations, op, ToolOf(tools.tools, CallOf(s)), s,
                       Executes(old(run.db), run.monotonicDeadline, tools.tools, |guards|, request, s))
      ensures fault.None? ==> Succeeds(before, run.db, op, s, result)
    {
      hide Invariants.Valid, Histories.Drives, Working, InferFault, AuthoriseFault, ActFault, JudgeFault, Read,
        CommitRows, DispatchFault, Find, Noted, Then, InferNotes, AuthoriseNotes, ActNotes, JudgeNotes;
      result := Raised(ProcessDeath);
      ghost var begun, deadline := run.db, run.monotonicDeadline;
      var call;
      fault, call, op := Infer(before, Fresh(s.id, request), s);
      ghost var first := InferNotes(begun.outputs, s);
      WorkingFacts(before, run.db, op);
      InferStages(begun.outputs, s);
      NotedLast(begun, run.db, first);
      if fault.Some? { return; }
      InferDecides(begun, run.db, s);
      ghost var inferred := run.db;
      var tool;
      fault, tool := Authorise(before, op, call, request.allowedTools, s);
      ghost var second := AuthoriseNotes(tools.tools, call, request.allowedTools, guards, s);
      AuthoriseStages(tools.tools, call, request.allowedTools, |guards|, s);
      NotedLast(inferred, run.db, second);
      NotedThen(begun, inferred, run.db, first, Then(second, NO_NOTES));
      if fault.Some? { return; }
      ghost var authorised := run.db;
      SameDispatch(begun, authorised, deadline, call, tool, s);
      var candidate;
      fault, candidate, op := Act(before, op, call, tool, s);
      ghost var third := ActNotes(begun, deadline, call, tool, s);
      WorkingFacts(before, run.db, op);
      ActStages(begun, deadline, tool, s);
      NotedLast(authorised, run.db, third);
      NotedThen(inferred, authorised, run.db, second, Then(third, NO_NOTES));
      NotedThen(begun, inferred, run.db, first, Then(second, Then(third, NO_NOTES)));
      if fault.Some? { return; }
      ghost var acted := run.db;
      SameJudgement(begun, acted, deadline, candidate, s);
      ReadBefore(before, acted, op);
      fault, result, op := Judge(before, op, candidate, s);
      ghost var fourth := JudgeNotes(acted, deadline, candidate, s);
      NotedThen(authorised, acted, run.db, third, fourth);
      NotedThen(inferred, authorised, run.db, second, Then(third, fourth));
      NotedThen(begun, inferred, run.db, first, Then(second, Then(third, fourth)));
    }

    /** _step's except clause: records the failure, and certifies a rejection made before dispatch. */
    method Handle(ghost before: Journal, ghost op: Operation, id: string, fault: Fault, s: StepScript)
      returns (error: Error, ghost op': Operation)
      requires Busy(before, op) && op.id == id == s.id
      modifies this, run`db
      ensures Busy(before, op') && SameButNotes(old(run.db), run.db)
      ensures Noted(old(run.db), run.db, FailureNotes(fault, s))
      ensures error == if Silent(fault, s) || s.failureNoted.dies then ProcessDeath else fault.error
      ensures op' == if Silent(fault, s) then op else Rewrite(op, Fail(id, FailureText(fault)))
      ensures error != ProcessDeath
              && ((fault.stage == Inferring && error.Class() == InferenceRejected)
                  || (fault.stage == Validating && error.Class() == ProposalRejected)) ==>
        rejectedProposal == Some(error)
      ensures error == ProcessDeath
              || !((fault.stage == Inferring && error.Class() == InferenceRejected)
                   || (fault.stage == Validating && error.Class() == ProposalRejected)) ==>
        rejectedProposal == old(rejectedProposal)
    {
      hide Invariants.Valid, Histories.Drives, Refusal, Effect, Working, Rewrite, Noted, Then, EventNotes, FailureText;
      error, op' := ProcessDeath, op;
      ghost var tried := run.db;
      NothingNoted(run.db, run.db);
      if fault.error == ProcessDeath || s.diesBeforeFailure {
        return;
      }
      NoteWorks(before, run.db, op, run.monotonicDeadline, UNREAD, Fail(id, FailureText(fault)));
      Histories.DrivesOn(before, run.monotonicDeadline, run.db, UNREAD, Fail(id, FailureText(fault)));
      var r := run.Failed(id, FailureText(fault));
      op' := Rewrite(op, Fail(id, FailureText(fault)));
      SameIdentity(op, Fail(id, FailureText(fault)));
      ghost var failed := run.db;
      NothingNoted(tried, failed);
      var outcome := if fault.stage.UsingTool? then "effect_unknown" else "failed";
      var e := Emit(before, op', id, outcome, StageName(fault.stage), Notice(s.failureNoted.dies, None));
      ghost var notes := EventNotes(id, outcome, StageName(fault.stage), Notice(s.failureNoted.dies, None));
      NotedThen(tried, failed, run.db, NO_NOTES, notes);
      NoneThen(notes);
      if e.Some? {
        return;
      }
      error := fault.error;
      if Certified(fault) {
        rejectedProposal := Some(error);
      }
    }

    method ComposeRequest(objective: string, grants: Option<seq<string>>, s: StepScript) returns (r: Outcome<Plan>)
      requires Valid()
      ensures r == Compose(run.db, tools.tools, this.grants, objective, grants, s)
    {
      var effective := if grants.None? then this.grants else grants.value;
      if !Subset(effective, this.grants) {
        return Raised(Refused(GrantsExpanded));
      }
      var base := Read(run.db);
      var specs := tools.Specifications(effective);
      var request := InferenceRequest(objective, base, effective, LatestObservation(run.db), specs, None);
      if s.prepared.Some? {
        if s.prepared.value.Threw? {
          return Raised(s.prepared.value.error);
        }
        if s.prepared.value.Alien? {
          return Raised(ATTRIBUTE_ERROR);
        }
        request := s.prepared.value.value;
      }
      if request.base != base {
        return Raised(Refused(StateSubstituted));
      }
      if !Subset(request.allowedTools, effective) {
        return Raised(Refused(AuthorityExpanded));
      }
      request := request.(tools := Keep(request.tools, request.allowedTools));
      var budget := ComputeBudget(run.db.limits.outputTokens, run.db.outputs, run.db.usage);
      if budget.available.None? {
        return Ok(Plan(request, None));
      }
      if s.planned.None? {
        return Raised(Refused(AdapterUnbounded));
      }
      match s.planned.value
      case Threw(e) => r := Raised(e);
      case Alien => r := Raised(Refused(WrongType));
      case Value(reservation) =>
        if reservation.kind.Model? && request.maxOutputTokens.Some?
           && reservation.tokens > request.maxOutputTokens.value {
          return Raised(Refused(PlanExpandsCeiling));
        }
        r := Ok(Plan(request.(maxOutputTokens := Some(reservation.tokens)), Some(reservation)));
    }

    /** One operation, or none. */
    method Step(objective: string, grants: Option<seq<string>>, s: StepScript) returns (r: Outcome<StepResult>, ghost trail: Trail)
      requires Valid()
      modifies this, run`db, world
      ensures Valid() && Histories.Drives(old(run.db), run.monotonicDeadline, run.db)
      ensures trail.NotAdmitted? <==>
        StepRefusal(old(run.db), run.monotonicDeadline, tools.tools, this.grants, guards, objective, grants, s).Some?
      ensures trail.NotAdmitted? ==>
        && run.db == old(run.db) && world.executions == old(world.executions) && rejectedProposal == None
        && r == Raised(Surface(
             StepRefusal(old(run.db), run.monotonicDeadline, tools.tools, this.grants, guards, objective, grants, s).value, s.expired))
      ensures trail.Admitted? ==>
        && Compose(old(run.db), tools.tools, this.grants, objective, grants, s).Ok?
        && var plan := Compose(old(run.db), tools.tools, this.grants, objective, grants, s).value;
           && trail.request == plan.request
           && trail.begun == Started(old(run.db), s.startClock, s.id, plan.request, plan.reservation, guards)
      ensures trail.Admitted? ==>
        && trail.fault == StepFault(trail.begun, run.monotonicDeadline, tools.tools, |guards|, trail.request, s)
        && Busy(old(run.db), trail.op) && trail.op.id == s.id && trail.op.request == trail.request
        && trail.op.id !in Invariants.Ids(old(run.db).operations)
        && Noted(trail.begun, run.db, StepNotes(trail.begun, run.monotonicDeadline, tools.tools, guards, trail.request, s))
      ensures trail.Admitted? ==>
        Recounts(old(world.executions), world.executions, run.db.reservations, trail.op, ToolOf(tools.tools, CallOf(s)), s,
                 Executes(trail.begun, run.monotonicDeadline, tools.tools, |guards|, trail.request, s))
      ensures trail.Admitted? ==>
        if trail.fault.None? then rejectedProposal == None && Succeeds(old(run.db), run.db, trail.op, s, r)
        else Fails(trail.op, trail.fault.value, InferFault(trail.begun.outputs, s).None?, s, r, rejectedProposal)
      ensures trail.Admitted? ==>
        if TurnedDown(trail.begun.outputs, tools.tools, trail.request.allowedTools, s) && !s.diesBeforeFailure && !s.failureNoted.dies
        then r == Raised(if s.generated.Threw? then s.generated.error else Refused(InvalidArguments)) && rejectedProposal == Some(r.error)
        else rejectedProposal == None
    {
      hide TurnedDown, Invariants.Valid, Histories.Drives, Noted, StepNotes, Compose, StartRefusal, Started, StepFault, InferFault,
        Executes, Working, Ready, Recounts, Succeeds, Fails, Untouched;
      rejectedProposal, trail := None, NotAdmitted;
      Histories.DrivesNothing(run.db, run.monotonicDeadline);
      var e := run.CheckReady();
      if e.Some? {
        ReadySurfaces(run.db, s);
        return Raised(e.value), trail;
      }
      var composed := ComposeRequest(objective, grants, s);
      if composed.Raised? {
        return Raised(Surface(composed.error, s.expired)), trail;
      }
      var plan := composed.value;
      ghost var before := run.db;
      var started := Begin(s, plan);
      if started.Raised? {
        return Raised(Surface(started.error, s.expired)), trail;
      }
      ghost var begun := run.db;
      var fault;
      ghost var op;
      r, fault, op := Drive(before, plan.request, s);
      trail := Admitted(begun, plan.request, fault, op);
      CertifiesExactly(begun, run.monotonicDeadline, tools.tools, |guards|, plan.request, s, op, r, rejectedProposal);
    }

    /** The step once start has admitted its operation. */
    method Drive(ghost before: Journal, request: InferenceRequest, s: StepScript)
      returns (r: Outcome<StepResult>, fault: Option<Fault>, ghost op: Operation)
      requires Valid() && Busy(before, Fresh(s.id, request)) && Untouched(run.db, s.id, guards)
      requires rejectedProposal == None
      modifies this, run`db, world
      ensures Valid() && Busy(before, op) && op.id == s.id && op.request == request
      ensures fault == StepFault(old(run.db), run.monotonicDeadline, tools.tools, |guards|, request, s)
      ensures Noted(old(run.db), run.db, StepNotes(old(run.db), run.monotonicDeadline, tools.tools, guards, request, s))
      ensures Recounts(old(world.executions), world.executions, run.db.reservations, op, ToolOf(tools.tools, CallOf(s)), s,
                       Executes(old(run.db), run.monotonicDeadline, tools.tools, |guards|, request, s))
      ensures if fault.None? then rejectedProposal == None && Succeeds(before, run.db, op, s, r)
              else Fails(op, fault.value, InferFault(old(run.db).outputs, s).None?, s, r, rejectedProposal)
    {
      hide Invariants.Valid, Histories.Drives, StepFault, InferFault, Executes, Working, Rewrite, Untouched,
        Recounts, Succeeds, Reaches, StageAfter, Noted, Then, AttemptNotes, FailureNotes;
      ghost var begun := run.db;
      fault, r, op := Attempt(before, request, s);
      WorkingFacts(before, run.db, op);
      ghost var tried, notes := run.db, AttemptNotes(begun, run.monotonicDeadline, tools.tools, guards, request, s);
      NotedLast(begun, tried, notes);
      if fault.None? {
        return;
      }
      var error;
      ghost var attempted := op;
      error, op := Handle(before, attempted, s.id, fault.value, s);
      RecountsFailure(attempted, op, s);
      StageHandled(attempted, fault, InferFault(begun.outputs, s).None?, s);
      NotedThen(begun, tried, run.db, notes, FailureNotes(fault.value, s));
      r := Raised(Surface(error, s.expired));
    }

    method Begin(s: StepScript, plan: Plan) returns (r: Outcome<()>)
      requires Valid()
      modifies run`db
      ensures Valid()
      ensures match StartRefusal(old(run.db), run.monotonicDeadline, s.startClock, s.id, plan.request, plan.reservation, guards)
        case Some(e) => r == Raised(e) && run.db == old(run.db)
        case None =>
          && r.Ok? && s.id !in Invariants.Ids(old(run.db).operations)
          && run.db == Started(old(run.db), s.startClock, s.id, plan.request, plan.reservation, guards)
          && Busy(old(run.db), Fresh(s.id, plan.request)) && Untouched(run.db, s.id, guards)
    {
      hide Invariants.Valid, Histories.Drives, StartRefusal, Started, Working, Untouched;
      ghost var before := run.db;
      Histories.DrivesNothing(before, run.monotonicDeadline);
      Histories.DrivesOn(before, run.monotonicDeadline, before, s.startClock,
                         Action.Start(s.id, plan.request, plan.reservation, guards));
      r := run.Start(s.id, plan.request, plan.reservation, guards, s.startClock);
      if r.Ok? {
        StartWorks(before, run.monotonicDeadline, s.startClock, s.id, plan.request, plan.reservation, guards);
        Preservation.StartChecks(before, run.monotonicDeadline, s.startClock, s.id, plan.request, plan.reservation, guards);
      }
    }

    // ------------------------------------------------------------------ recovery

    /** Closes an undispatched attempt or re-evaluates a returned result; never runs a tool. */
    method Recover(s: StepScript) returns (r: Outcome<Option<StepResult>>)
      requires Valid()
      modifies run`db
      ensures Valid() && Histories.Drives(old(run.db), run.monotonicDeadline, run.db)
      ensures r == RecoverOutcome(old(run.db), run.monotonicDeadline, s, Read(run.db))
      ensures run.db == RecoverEffect(old(run.db), run.monotonicDeadline, s)
      ensures r.Ok? ==> Ready(run.db).None?
      ensures r.Raised? ==> run.db == old(run.db)
    {
      hide Invariants.Valid, Histories.Drives, RecoverFault, AbandonRefusal, Effect, Read, Ready;
      RecoveryClears(run.db, run.monotonicDeadline, s);
      Histories.DrivesNothing(run.db, run.monotonicDeadline);
      if run.db.outcome.Some? {
        return Raised(Refused(RunEnded));
      }
      var pending := Pending(run.db);
      if pending.None? {
        return Ok(None);
      }
      if pending.value.stage.Dispatched? {
        return Raised(Refused(EffectUnknown));
      }
      if pending.value.candidate.None? {
        PendingAbandons(run.db, run.monotonicDeadline);
        Histories.DrivesOn(run.db, run.monotonicDeadline, run.db, UNREAD, Abandon(pending.value.id));
        var abandoned := run.AbandonUndispatched(pending.value.id);
        return Ok(None);
      }
      r := Reevaluate(pending.value.candidate.value, s);
    }

    method Reevaluate(candidate: Candidate, s: StepScript) returns (r: Outcome<Option<StepResult>>)
      requires Valid() && Pending(run.db).Some? && Pending(run.db).value.candidate == Some(candidate)
      modifies run`db
      ensures Valid() && Histories.Drives(old(run.db), run.monotonicDeadline, run.db)
      ensures match RecoverFault(old(run.db), run.monotonicDeadline, candidate, s)
        case Some(e) => r == Raised(Surface(e, s.expired)) && run.db == old(run.db)
        case None =>
          && s.evaluated.Value? && run.db == Effect(old(run.db), s.completeClock, Action.Complete(s.evaluated.value))
          && r == Ok(Some(StepResult(candidate, s.evaluated.value, Read(run.db), s.evaluated.value.Published().Some?)))
    {
      hide Invariants.Valid, Histories.Drives, PublishFault, OnTime, CompleteRefusal, Effect, Read, Pending;
      Histories.DrivesNothing(run.db, run.monotonicDeadline);
      var e := CheckDeadline(s.firstCheck);
      if e.Some? {
        return Raised(Surface(e.value, s.expired));
      }
      if s.evaluated.Threw? {
        return Raised(Surface(s.evaluated.error, s.expired));
      }
      e := CheckDeadline(s.secondCheck);
      if e.Some? {
        return Raised(Surface(e.value, s.expired));
      }
      if s.evaluated.Alien? {
        var refused := run.Complete(Foreign, s.completeClock);
        return Raised(Surface(refused.error, s.expired));
      }
      PendingCompletes(run.db, s.evaluated.value);
      Histories.DrivesOn(run.db, run.monotonicDeadline, run.db, s.completeClock, Action.Complete(s.evaluated.value));
      PublishesCandidate(candidate, s.evaluated.value);
      var completed := run.Complete(Instance(s.evaluated.value), s.completeClock);
      if completed.Raised? {
        return Raised(Surface(completed.error, s.expired));
      }
      r := Ok(Some(completed.value));
    }
  }

  lemma PublishesCandidate(candidate: Candidate, evaluation: Evaluation)
    ensures PublishFault(candidate, evaluation).None? ==> evaluation.candidate == candidate
  {
  }

  /** The step ran its tool, exactly once and with this call, when executes holds, and not at all otherwise. */
  predicate Recounts(before: seq<Execution>, after: seq<Execution>, reservations: seq<ReservationRow>, op: Operation, tool: Tool,
                     s: StepScript, executes: bool)
  {
    && (op.stage.PastDispatch() ==>
          && op.call == Some(CallOf(s)) && op.observation == tool.observation
          && (ReservationRow(s.id, ExternalUse) in reservations <==> tool.externalAction))
    && (op.output.Some? ==> op.output == Some(OutputOfTool(s)))
    && if executes then
         && after == before + [Execution(s.id, CallOf(s), tool.externalAction)]
         && op.stage.PastDispatch()
       else after == before && op.output.None?
  }

  lemma RecountsGrow(before: seq<Execution>, after: seq<Execution>, reservations: seq<ReservationRow>, op: Operation, tool: Tool,
                     s: StepScript, executes: bool)
    requires Recounts(before, after, reservations, op, tool, s, executes)
    ensures before <= after
  {
  }

  /** The result reports, and the tables keep, the evaluation that was published. */
  predicate Succeeds(j: Journal, k: Journal, op: Operation, s: StepScript, r: Outcome<StepResult>) {
    && op.stage.Completed? && op.error.None? && s.evaluated.Value?
    && r == Ok(StepResult(CandidateOf(op), s.evaluated.value, Read(k), s.evaluated.value.Published().Some?))
    && k.evaluations == j.evaluations + [EvaluationRow(s.id, s.evaluated.value)]
    && k.commits == j.commits + CommitRows(Read(j), s.evaluated.value)
  }

  /** The fault is raised, unless the process died. The durable stage agrees with the local one on every exit: as the
      fault left it when the process died before recording the failure, as the record leaves it otherwise. The error is
      certified as a rejection exactly when an undispatched proposal was refused. */
  predicate Fails(op: Operation, fault: Fault, inferred: bool, s: StepScript, r: Outcome<StepResult>, rejected: Option<Error>) {
    && r == Raised(if Silent(fault, s) || s.failureNoted.dies then ProcessDeath else Surface(fault.error, s.expired))
    && (if Silent(fault, s) then Reaches(op.stage, Some(fault), inferred) && op.error.None?
        else StageAfter(op.stage, fault, inferred) && op.error == Some(FailureText(fault)))
    && rejected == if r.error != ProcessDeath && Certified(fault) then Some(r.error) else None
  }

  /** How a step was refused before, or went after, its operation was admitted. */
  datatype Trail =
    | NotAdmitted
    | Admitted(begun: Journal, request: InferenceRequest, fault: Option<Fault>, op: Operation)

  /** What stops a step before anything is written. */
  function StepRefusal(j: Journal, deadline: Option<real>, tools: seq<Tool>, granted: seq<string>, guards: seq<string>,
                       objective: string, grants: Option<seq<string>>, s: StepScript): Option<Error>
  {
    First(Ready(j),
      match Compose(j, tools, granted, objective, grants, s)
      case Raised(e) => Some(e)
      case Ok(plan) => StartRefusal(j, deadline, s.startClock, s.id, plan.request, plan.reservation, guards))
  }

  /** A step is refused exactly when the run has ended or waits for something, when no request can be composed, or when
      start refuses the one that was, in that order. */
  lemma StepRefusedExactly(j: Journal, deadline: Option<real>, tools: seq<Tool>, granted: seq<string>, guards: seq<string>,
                           objective: string, grants: Option<seq<string>>, s: StepScript)
    requires Invariants.Valid(j)
    ensures var e := StepRefusal(j, deadline, tools, granted, guards, objective, grants, s);
      var composed := Compose(j, tools, granted, objective, grants, s);
      if j.outcome.Some? then e == Some(Refused(RunEnded))
      else if Refusals.Anywhere(j, Dispatched) then e == Some(Refused(EffectUnknown))
      else if exists op :: op in j.operations && op.stage != Completed && op.stage != Stage.Failed then
        e == Some(Refused(RecoveryRequired))
      else if composed.Raised? then e == Some(composed.error)
      else
        e == Refusals.Raises(Refusals.StartGround(j, deadline, s.startClock, s.id, composed.value.request,
                                                  composed.value.reservation, guards))
  {
    hide Invariants.Valid, Ready, Compose, StartRefusal, Refusals.StartGround;
    Invariants.IdsWhenValid(j);
    Refusals.ReadyGrounds(j);
    var composed := Compose(j, tools, granted, objective, grants, s);
    if composed.Ok? {
      Refusals.StartGrounds(j, deadline, s.startClock, s.id, composed.value.request, composed.value.reservation, guards);
    }
  }

  /** asyncio.timeout turns the cancellation it caused into a TimeoutError. */
  function Surface(e: Error, expired: bool): Error {
    if expired && (e.Class() == CancelledError || e.Class() == InferenceCancelled) then
      Thrown(TimeoutError, TIMEOUT_NAME, 0, None)
    else e
  }

  lemma ReadySurfaces(j: Journal, s: StepScript)
    requires Ready(j).Some?
    ensures Surface(Ready(j).value, s.expired) == Ready(j).value
  {
  }

  /** A rejection the session may correct: by the adapter during inference, or by the validator. */
  predicate Certified(fault: Fault) {
    (fault.stage.Inferring? && fault.error.IsInferenceRejected()) || (fault.stage.Validating? && fault.error.IsProposalRejected())
  }

  /** The model's answer is turned down in a way the application may correct: the adapter rejects the response, with a
      report that can be borne or with none; or the response is recorded and announced, its call is granted and
      registered, and the tool's validator raises a ValueError other than a budget's. */
  predicate TurnedDown(outputs: seq<OutputRow>, tools: seq<Tool>, allowed: seq<string>, s: StepScript) {
    && !s.started.dies && s.started.raised.None?
    && match s.generated
       case Alien => false
       case Threw(e) =>
         e.Thrown? && e.kind == InferenceRejected && (e.usage.Some? ==> Bearable(outputs, s.id, e.usage.value))
       case Value(response) =>
         && Bearable(outputs, s.id, response.usage) && !s.diesAfterUsage && response.call.Instance?
         && !s.inferenceReturned.dies && s.inferenceReturned.raised.None?
         && response.call.value.name in allowed && (exists t :: t in tools && t.name == response.call.value.name)
         && s.validation.Some? && s.validation.value.IsValueError() && s.validation.value.Class() != BudgetExhausted
  }

  /** A step certifies its error as a rejection exactly when the answer was turned down so and the process lived to record
      it; what it raises is then the adapter's rejection itself, or the refusal of the arguments. */
  lemma CertifiesExactly(j: Journal, deadline: Option<real>, tools: seq<Tool>, guards: nat, request: InferenceRequest,
                         s: StepScript, op: Operation, r: Outcome<StepResult>, rejected: Option<Error>)
    requires var fault := StepFault(j, deadline, tools, guards, request, s);
      if fault.None? then rejected == None else Fails(op, fault.value, InferFault(j.outputs, s).None?, s, r, rejected)
    ensures if TurnedDown(j.outputs, tools, request.allowedTools, s) && !s.diesBeforeFailure && !s.failureNoted.dies
      then r == Raised(if s.generated.Threw? then s.generated.error else Refused(InvalidArguments)) && rejected == Some(r.error)
      else rejected == None
  {
    hide TurnedDown, Reaches, StageAfter, FailureText, InferFault, AuthoriseFault, ActFault, JudgeFault;
    var call, tool := CallOf(s), ToolOf(tools, CallOf(s));
    TurnedDownExactly(j.outputs, tools, request.allowedTools, guards, s);
    InferStages(j.outputs, s);
    AuthoriseStages(tools, call, request.allowedTools, guards, s);
    ActStages(j, deadline, tool, s);
    JudgeStages(j.(lastClock := s.dispatchClock.wall), deadline, Candidate(s.id, request.base, call, OutputOfTool(s)), s);
  }

  lemma TurnedDownExactly(outputs: seq<OutputRow>, tools: seq<Tool>, allowed: seq<string>, guards: nat, s: StepScript)
    ensures var inferring, authorising := InferFault(outputs, s), AuthoriseFault(tools, CallOf(s), allowed, guards, s);
      var stop := if inferring.Some? then inferring else authorising;
      && (TurnedDown(outputs, tools, allowed, s) <==> stop.Some? && Certified(stop.value))
      && (stop.Some? && Certified(stop.value) ==>
            stop.value.error == if s.generated.Threw? then s.generated.error else Refused(InvalidArguments))
  {
    hide GuardsFault, InferFault, Bearable, Prepared;
    InferredExactly(outputs, s);
    PreparedIsGranted(tools, CallOf(s), allowed, s.validation);
  }

  lemma InferredExactly(outputs: seq<OutputRow>, s: StepScript)
    ensures var f := InferFault(outputs, s);
      && (f.None? <==>
            && !s.started.dies && s.started.raised.None? && s.generated.Value?
            && Bearable(outputs, s.id, s.generated.value.usage) && !s.diesAfterUsage && s.generated.value.call.Instance?
            && !s.inferenceReturned.dies && s.inferenceReturned.raised.None?)
      && (f.Some? && Certified(f.value) <==>
            && !s.started.dies && s.started.raised.None? && s.generated.Threw?
            && s.generated.error.Thrown? && s.generated.error.kind == InferenceRejected
            && (s.generated.error.usage.Some? ==> Bearable(outputs, s.id, s.generated.error.usage.value)))
      && (f.Some? && Certified(f.value) ==> f.value.error == s.generated.error)
  {
    hide UsageFault, Bearable;
    forall usage
      ensures UsageFault(outputs, s.id, usage).None? <==> Bearable(outputs, s.id, usage)
      ensures UsageFault(outputs, s.id, usage).Some? ==> !UsageFault(outputs, s.id, usage).value.IsInferenceRejected()
    {
      BearsExactly(outputs, s.id, usage);
    }
  }

  lemma JudgeStages(j: Journal, deadline: Option<real>, candidate: Candidate, s: StepScript)
    ensures var f := JudgeFault(j, deadline, candidate, s); f.Some? ==> f.value.stage.Evaluating? || f.value.stage.Notifying?
  {
  }

  /** The durable stage once the failure is recorded. */
  predicate StageAfter(stage: Stage, fault: Fault, inferred: bool) {
    match fault.stage
    case UsingTool => stage.Dispatched?
    case Evaluating => stage.Returned?
    case Notifying => if inferred then stage.Completed? else stage.Failed?
    case _ => stage.Failed?
  }

  /** A certified rejection belongs to an operation that failed without reserving a tool call or an external action. */
  lemma RejectedReservesNothing(before: Journal, k: Journal, op: Operation, fault: Fault, inferred: bool, s: StepScript,
                                r: Outcome<StepResult>, rejected: Option<Error>)
    requires Working(before, k, op) && Fails(op, fault, inferred, s, r, rejected) && rejected.Some?
    ensures op.stage.Failed? && (r.error.IsProposalRejected() || r.error.IsInferenceRejected())
    ensures ReservationRow(op.id, ToolUse) !in k.reservations && ReservationRow(op.id, ExternalUse) !in k.reservations
  {
    hide Working, FailureText;
    NotReserved(before, k, op);
  }

  lemma StageHandled(op: Operation, fault: Option<Fault>, inferred: bool, s: StepScript)
    requires fault.Some? && Reaches(op.stage, fault, inferred)
    ensures var later := Rewrite(op, Fail(op.id, FailureText(fault.value)));
      StageAfter(later.stage, fault.value, inferred) && later.error == Some(FailureText(fault.value))
  {
  }

  lemma RecountsFailure(op: Operation, later: Operation, s: StepScript)
    requires later == op || exists error :: later == Rewrite(op, Fail(s.id, error))
    ensures forall before, after, reservations, tool, executes ::
      Recounts(before, after, reservations, op, tool, s, executes) ==> Recounts(before, after, reservations, later, tool, s, executes)
    ensures later.id == op.id && later.request == op.request
  {
  }

  lemma SameIdentity(op: Operation, a: Action)
    requires a.Fail?
    ensures var later := Rewrite(op, a);
      && later.id == op.id && later.request == op.request && later.call == op.call && later.output == op.output
      && (later.stage.PastDispatch() <==> op.stage.PastDispatch()) && later.observation == op.observation
  {
  }

  // ------------------------------------------------------------- recovery, in full

  /** The evaluation recovery publishes, if nothing stops it. */
  function RecoverFault(j: Journal, deadline: Option<real>, candidate: Candidate, s: StepScript): Option<Error> {
    First(Expired(deadline, s.firstCheck),
    First(if s.evaluated.Threw? then Some(s.evaluated.error) else None,
    First(Expired(deadline, s.secondCheck),
          CompleteFault(j, deadline, candidate, s.completeClock, s.evaluated))))
  }

  function RecoverOutcome(j: Journal, deadline: Option<real>, s: StepScript, after: State): Outcome<Option<StepResult>> {
    if j.outcome.Some? then Raised(Refused(RunEnded))
    else
      match Pending(j)
      case None => Ok(None)
      case Some(p) =>
        if p.stage.Dispatched? then Raised(Refused(EffectUnknown))
        else if p.candidate.None? then Ok(None)
        else
          match RecoverFault(j, deadline, p.candidate.value, s)
          case Some(e) => Raised(Surface(e, s.expired))
          case None =>
            if s.evaluated.Value? then
              Ok(Some(StepResult(p.candidate.value, s.evaluated.value, after, s.evaluated.value.Published().Some?)))
            else Ok(None)
  }

  function RecoverEffect(j: Journal, deadline: Option<real>, s: StepScript): Journal {
    if j.outcome.Some? then j
    else
      match Pending(j)
      case None => j
      case Some(p) =>
        if p.stage.Dispatched? then j
        else if p.candidate.None? then Effect(j, UNREAD, Abandon(p.id))
        else if RecoverFault(j, deadline, p.candidate.value, s).Some? || !s.evaluated.Value? then j
        else Effect(j, s.completeClock, Action.Complete(s.evaluated.value))
  }

  lemma PendingLast(j: Journal)
    requires Invariants.Valid(j) && Pending(j).Some?
    ensures j.operations != []
    ensures var op := j.operations[|j.operations| - 1];
      && op.stage.Open() && FirstOpen(j.operations) == Some(op)
      && Find(j.operations, op.id) == Some(|j.operations| - 1)
  {
    hide Invariants.Valid, Histories.Drives, Find;
    Preservation.NothingOpen(j.operations);
    var i :| 0 <= i < |j.operations| && j.operations[i].stage.Open();
    Invariants.IdsWhenValid(j);
    Publishing.FirstOpenIsLast(j.operations, i);
    Invariants.FindUnique(j.operations, i);
  }

  lemma PublishedLast(j: Journal, deadline: Option<real>, s: StepScript)
    requires Invariants.Valid(j) && j.outcome.None? && Pending(j).Some? && Pending(j).value.candidate.Some?
    requires RecoverFault(j, deadline, Pending(j).value.candidate.value, s).None?
    ensures s.evaluated.Value?
    ensures var n := |j.operations| - 1;
      RewriteOf(j.operations, s.evaluated.value.candidate.id, Action.Complete(s.evaluated.value))
        == j.operations[n := Rewrite(j.operations[n], Action.Complete(s.evaluated.value))]
  {
    hide Invariants.Valid, Find, Rewrite, CheckEvaluation;
    PendingLast(j);
    PendingReturned(j);
  }

  /** A recovery that returns leaves nothing pending, so the next step is not refused for it: what was pending failed
      before dispatch or was completed, and nothing else changed hands. One that raises changes nothing. */
  lemma RecoveryClears(j: Journal, deadline: Option<real>, s: StepScript)
    requires Invariants.Valid(j)
    ensures var k := RecoverEffect(j, deadline, s);
      if RecoveryStops(j, deadline, s) then k == j && forall after :: RecoverOutcome(j, deadline, s, after).Raised?
      else Ready(k).None? && forall after :: RecoverOutcome(j, deadline, s, after).Ok?
  {
    hide Invariants.Valid, RecoverFault, Find, Rewrite, FirstOpen;
    if !RecoveryStops(j, deadline, s) && Pending(j).Some? {
      var n := |j.operations| - 1;
      PendingLast(j);
      Invariants.IdsWhenValid(j);
      var a := Abandon(Pending(j).value.id);
      if Pending(j).value.candidate.Some? {
        PublishedLast(j, deadline, s);
        a := Action.Complete(s.evaluated.value);
      }
      SettlesLast(j.operations, a);
      assert RecoverEffect(j, deadline, s).operations == j.operations[n := Rewrite(j.operations[n], a)];
    }
  }

  /** What stops the publication of a returned result in recovery: the deadline before and after the evaluator, what the
      evaluator raises, and what complete refuses. */
  lemma RecoveryStopsAt(j: Journal, deadline: Option<real>, candidate: Candidate, s: StepScript)
    requires j.outcome.None?
    ensures RecoverFault(j, deadline, candidate, s) ==
      if TimeIsUp(deadline, s.firstCheck) then Some(Refused(WallTimeExhausted))
      else if s.evaluated.Threw? then Some(s.evaluated.error)
      else if TimeIsUp(deadline, s.secondCheck) then Some(Refused(WallTimeExhausted))
      else
        match Checkpoints.Unpublished(j, deadline, candidate, s)
        case Some(reason) => Some(Refused(reason))
        case None => None
  {
    hide CompleteFault, Checkpoints.Unpublished;
    Checkpoints.PublicationStops(j, deadline, candidate, s);
  }

  /** How a recovery answers: an ended run and an unknown effect are refused; a returned result that cannot be published
      raises what stopped it; otherwise the result that was published, or nothing. */
  lemma RecoveryAnswers(j: Journal, deadline: Option<real>, s: StepScript, after: State)
    requires Invariants.Valid(j)
    ensures var r := RecoverOutcome(j, deadline, s, after);
      if j.outcome.Some? then r == Raised(Refused(RunEnded))
      else if Refusals.Anywhere(j, Dispatched) then r == Raised(Refused(EffectUnknown))
      else if !Refusals.Anywhere(j, Returned) then r == Ok(None)
      else
        var candidate := CandidateOf(j.operations[|j.operations| - 1]);
        match RecoverFault(j, deadline, candidate, s)
        case Some(e) => r == Raised(Surface(e, s.expired))
        case None =>
          && s.evaluated.Value? && s.evaluated.value.candidate == candidate
          && r == Ok(Some(StepResult(candidate, s.evaluated.value, after,
                                     s.evaluated.value.verdict == Satisfied && s.evaluated.value.stateUpdate.Some?)))
  {
    hide Invariants.Valid, RecoverFault, CandidateOf, Find;
    Invariants.IdsWhenValid(j);
    Preservation.NothingOpen(j.operations);
    if Pending(j).Some? {
      PendingLast(j);
      var op := j.operations[|j.operations| - 1];
      assert forall other :: other in j.operations && other.stage.Open() ==> other == op;
      if op.stage.Returned? && RecoverFault(j, deadline, CandidateOf(op), s).None? {
        PublishedOwn(j, deadline, CandidateOf(op), s);
      }
    }
  }

  lemma PublishedOwn(j: Journal, deadline: Option<real>, candidate: Candidate, s: StepScript)
    requires RecoverFault(j, deadline, candidate, s).None?
    ensures s.evaluated.Value? && s.evaluated.value.candidate == candidate
  {
    if s.evaluated.Value? {
      PublishesCandidate(candidate, s.evaluated.value);
    }
  }

  /** A recovery that returns, row by row: an attempt that was not dispatched fails with its diagnostic and nothing else
      changes; a returned one completes with an evaluation of its own candidate, and a commit exactly when that is
      satisfied and updates the state. */
  lemma RecoveryWrites(j: Journal, deadline: Option<real>, s: StepScript)
    requires Invariants.Valid(j) && Pending(j).Some? && !RecoveryStops(j, deadline, s)
    ensures j.operations != []
    ensures var n := |j.operations| - 1;
      var op, k := j.operations[n], RecoverEffect(j, deadline, s);
      if op.stage.Inference? || op.stage.Proposed? then
        k == j.(operations := j.operations[n := op.(stage := Stage.Failed, error := Some("recovered before dispatch"))])
      else
        && op.stage.Returned? && s.evaluated.Value?
        && var e := s.evaluated.value;
           && e.candidate == CandidateOf(op)
           && k == j.(operations := j.operations[n := op.(stage := Stage.Completed)], lastClock := s.completeClock.wall,
                      evaluations := j.evaluations + [EvaluationRow(op.id, e)],
                      commits := j.commits
                        + if e.verdict == Satisfied && e.stateUpdate.Some?
                          then [CommitRow(Read(j).revision + 1, op.id, op.request.base.revision, e.stateUpdate.value)] else [])
  {
    hide Invariants.Valid, Find, CheckEvaluation, Read;
    PendingLast(j);
    if Pending(j).value.candidate.Some? {
      PendingReturned(j);
      PublishedLast(j, deadline, s);
      PublishesCandidate(Pending(j).value.candidate.value, s.evaluated.value);
    }
  }

  /** Recovery raises: the run ended, an effect is unknown, or nothing can be published for the returned result. */
  predicate RecoveryStops(j: Journal, deadline: Option<real>, s: StepScript) {
    || j.outcome.Some?
    || (Pending(j).Some?
        && (Pending(j).value.stage.Dispatched?
            || (Pending(j).value.candidate.Some? && RecoverFault(j, deadline, Pending(j).value.candidate.value, s).Some?)))
  }

  lemma SettlesLast(operations: seq<Operation>, a: Action)
    requires Invariants.OnlyLastOpen(operations) && operations != [] && (a.Abandon? || a.Complete?)
    ensures var n := |operations| - 1; FirstOpen(operations[n := Rewrite(operations[n], a)]).None?
  {
    var n := |operations| - 1;
    Preservation.NothingOpen(operations[n := Rewrite(operations[n], a)]);
  }

  lemma PendingAbandons(j: Journal, deadline: Option<real>)
    requires Invariants.Valid(j) && j.outcome.None? && Pending(j).Some?
    requires !Pending(j).value.stage.Dispatched? && Pending(j).value.candidate.None?
    ensures AbandonRefusal(j, Pending(j).value.id).None?
  {
    hide Invariants.Valid, Histories.Drives, Find;
    PendingLast(j);
  }

  lemma PendingReturned(j: Journal)
    requires Invariants.Valid(j) && Pending(j).Some? && Pending(j).value.candidate.Some?
    ensures var op := j.operations[|j.operations| - 1];
      op.stage.Returned? && Pending(j).value.candidate.value == CandidateOf(op)
  {
    hide Invariants.Valid;
    PendingLast(j);
  }

  lemma PendingCompletes(j: Journal, evaluation: Evaluation)
    requires Invariants.Valid(j) && Pending(j).Some? && Pending(j).value.candidate.Some?
    ensures CompleteRefusal(j, evaluation) == PublishFault(Pending(j).value.candidate.value, evaluation)
  {
    hide Invariants.Valid, Histories.Drives, CompleteRefusal, CheckEvaluation, Find;
    PendingLast(j);
    Invariants.IdsWhenValid(j);
    PendingReturned(j);
    Publishing.CompleteNeverStale(j, evaluation);
    var found := Find(j.operations, evaluation.candidate.id);
    if found.Some? && found.value < |j.operations| - 1 {
      assert !j.operations[found.value].stage.Open();
    }
  }

  function Fresh(id: string, request: InferenceRequest): Operation {
    Operation(id, Inference, request, None, false, None, None)
  }

  /** The durable stage agrees with the local stage a fault is raised in. */
  predicate Reaches(stage: Stage, fault: Option<Fault>, inferred: bool) {
    match fault
    case None => stage.Completed?
    case Some(f) =>
      match f.stage
      case Notifying => if inferred then stage.Completed? else stage.PreDispatch()
      case UsingTool => stage.Dispatched?
      case Evaluating => stage.Returned?
      case _ => stage.PreDispatch()
  }

  lemma WorkingFacts(before: Journal, j: Journal, op: Operation)
    requires Working(before, j, op)
    ensures j.outcome.None? && Invariants.Shaped(op)
  {
    assert j.operations[|before.operations|] == op;
  }

  lemma NotReserved(before: Journal, j: Journal, op: Operation)
    requires Working(before, j, op) && !op.stage.PastDispatch()
    ensures ReservationRow(op.id, ToolUse) !in j.reservations && ReservationRow(op.id, ExternalUse) !in j.reservations
  {
    assert j.operations[|before.operations|] == op;
    assert Invariants.ReservedRow(op, j.reservations);
  }

  lemma ReadBefore(before: Journal, j: Journal, op: Operation)
    requires Working(before, j, op) && !op.stage.Completed?
    ensures Read(j) == Read(before) && j.evaluations == before.evaluations && j.commits == before.commits
  {
  }

  lemma InferStages(outputs: seq<OutputRow>, s: StepScript)
    ensures var f := InferFault(outputs, s); f.Some? ==> f.value.stage.Notifying? || f.value.stage.Inferring?
  {
  }

  lemma AuthoriseStages(tools: seq<Tool>, call: ToolCall, allowed: seq<string>, n: nat, s: StepScript)
    ensures var f := AuthoriseFault(tools, call, allowed, n, s); f.Some? ==> f.value.stage.Validating? || f.value.stage.Guarding?
  {
  }

  lemma ActStages(j: Journal, deadline: Option<real>, tool: Tool, s: StepScript)
    ensures var f := ActFault(j, deadline, tool, s);
      && (f.Some? ==> f.value.stage.Dispatching? || f.value.stage.UsingTool?)
      && (f.Some? && f.value.stage.Dispatching? <==> DispatchFault(j, deadline, s.dispatchClock, tool.externalAction).Some?)
      && (f.None? ==> s.toolDispatched.Fault().None?)
  {
  }

  lemma InferDecides(j: Journal, k: Journal, s: StepScript)
    requires Noted(j, k, InferNotes(j.outputs, s))
    ensures k.decisions == j.decisions
  {
  }

  lemma SameDispatch(j: Journal, k: Journal, deadline: Option<real>, call: ToolCall, tool: Tool, s: StepScript)
    requires SameButNotes(j, k)
    ensures ActNotes(k, deadline, call, tool, s) == ActNotes(j, deadline, call, tool, s)
    ensures ActFault(k, deadline, tool, s) == ActFault(j, deadline, tool, s)
    ensures DispatchFault(k, deadline, s.dispatchClock, tool.externalAction)
         == DispatchFault(j, deadline, s.dispatchClock, tool.externalAction)
  {
  }

  lemma SameJudgement(j: Journal, k: Journal, deadline: Option<real>, candidate: Candidate, s: StepScript)
    requires j.outcome.None? && k.outcome.None? && k.lastClock == s.dispatchClock.wall
    ensures JudgeFault(k, deadline, candidate, s) == JudgeFault(j.(lastClock := s.dispatchClock.wall), deadline, candidate, s)
    ensures JudgeNotes(k, deadline, candidate, s) == JudgeNotes(j.(lastClock := s.dispatchClock.wall), deadline, candidate, s)
  {
  }

  /** The tables and the result of a publication. */
  ghost predicate Published(j: Journal, k: Journal, op: Operation, evaluation: Evaluation, now: Now, r: StepResult) {
    && k == j.(lastClock := now.wall, operations := k.operations,
               evaluations := j.evaluations + [EvaluationRow(op.id, evaluation)],
               commits := j.commits + CommitRows(Read(j), evaluation))
    && r == StepResult(evaluation.candidate, evaluation, Read(k), evaluation.Published().Some?)
  }
}
