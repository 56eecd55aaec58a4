/** One terminal invocation that drives a runtime until the application stops it or something fails. */
module Sessions {
  import opened Contracts
  import opened Tables
  import opened Journals
  import opened Scripts
  import opened SQLiteRuns
  import opened Workings
  import opened Runtimes
  import opened Executions
  import Histories
  import Invariants

  datatype RawDecision =
    | Advance(objective: string, grants: seq<string>)
    | Stop(reason: string)
  {
    /** The constructors' checks. */
    predicate Valid() {
      match this
      case Advance(objective, grants) => NonBlank(objective) && (forall g :: g in grants ==> g != "") && Distinct(grants)
      case Stop(reason) => NonBlank(reason)
    }
  }

  /** SessionStep or SessionStop, as constructed. */
  type Decision = d: RawDecision | d.Valid() witness Stop("?")

  /** What the application is shown before each decision. */
  datatype View = View(state: State, observation: Option<string>, last: Option<StepResult>, completed: int)

  /** Everything the application and the environment answer during one session, turn by turn. */
  datatype SessionScript = SessionScript(
    firstClock: Now,
    policy: nat -> Reply<Decision>,
    decidedClock: nat -> Now,
    steps: nat -> StepScript,
    corrects: bool,                          // there is an on_rejection callback
    rejectedClock: nat -> Now,
    corrections: nat -> Reply<Decision>,
    onStep: nat -> Option<Error>,
    expired: bool,                           // the session's timeout turns its cancellation into TimeoutError
    diesBeforeFinish: bool)

  /** What lets the loop go on: a published step, or the correction of a refused one. */
  datatype Progress = Published(result: StepResult) | Corrected(next: Decision)

  /** One time round the loop. */
  datatype Turn = Turn(
    journal: Journal, view: View, decision: Reply<Decision>, result: Option<Outcome<StepResult>>, certified: bool)

  function AnswerFault(reply: Reply<Decision>): Option<Error> {
    match reply
    case Threw(e) => Some(e)
    case Alien => Some(Refused(WrongType))
    case Value(_) => None
  }

  /** The exception after a step that raised e, or None when it was a certified rejection that got a correction. */
  function CorrectionFault(deadline: Option<real>, s: SessionScript, e: Error, certified: bool, i: nat): Option<Error> {
    if !certified || !s.corrects then Some(e)
    else First(Expired(deadline, s.rejectedClock(i)), AnswerFault(s.corrections(i)))
  }

  /** The exception the decision itself leads to: the callback's own, or its answer's. */
  function DecisionFault(deadline: Option<real>, s: SessionScript, decision: Reply<Decision>, i: nat): Option<Error> {
    if decision.Threw? then Some(decision.error) else First(Expired(deadline, s.decidedClock(i)), AnswerFault(decision))
  }

  /** The exception that ends the session in this turn, or None when it goes on or stops. */
  function TurnFault(deadline: Option<real>, s: SessionScript, turn: Turn, i: nat): Option<Error> {
    First(DecisionFault(deadline, s, turn.decision, i),
      if turn.result.None? then None
      else if turn.result.value.Ok? then s.onStep(i)
      else CorrectionFault(deadline, s, turn.result.value.error, turn.certified, i))
  }

  function LastOf(turns: seq<Turn>): Option<StepResult> {
    if turns == [] then None
    else
      var turn := turns[|turns| - 1];
      if turn.result.Some? && turn.result.value.Ok? then Some(turn.result.value.value) else LastOf(turns[..|turns| - 1])
  }

  function ViewOf(j: Journal, baseline: nat, last: Option<StepResult>): View {
    View(Read(j), LatestObservation(j), last, CompletedIn(j.operations) - baseline)
  }

  /** A turn that the loop goes on from: its operation was published, or refused before dispatch and corrected. */
  ghost predicate Went(deadline: Option<real>, s: SessionScript, turn: Turn, i: nat, op: Operation) {
    && turn.decision.Value? && turn.decision.value.Advance? && turn.result.Some?
    && TurnFault(deadline, s, turn, i).None?
    && op.request.base == turn.view.state
    && Subset(op.request.allowedTools, turn.decision.value.grants)
    && if turn.result.value.Ok? then !turn.certified && op.stage.Completed? else turn.certified && op.stage.Failed?
  }

  /** Turn i decides on what the run then showed, and the policy is asked exactly when there is no correction. */
  ghost predicate Shown(s: SessionScript, turns: seq<Turn>, i: nat, operations: seq<Operation>, baseline: nat)
    requires i < |turns|
  {
    && turns[i].journal.operations == operations
    && turns[i].view == ViewOf(turns[i].journal, baseline, LastOf(turns[..i]))
    && turns[i].decision == if i > 0 && turns[i - 1].certified then s.corrections(i - 1) else s.policy(i)
  }

  ghost predicate FollowedAt(deadline: Option<real>, s: SessionScript, before: seq<Operation>, turns: seq<Turn>,
                             later: seq<Operation>, i: nat)
    requires i < |turns| && |later| == |before| + |turns|
  {
    && Shown(s, turns, i, later[..|before| + i], CompletedIn(before))
    && Went(deadline, s, turns[i], i, later[|before| + i])
  }

  /** One operation a turn, in order. */
  ghost predicate Followed(deadline: Option<real>, s: SessionScript, before: seq<Operation>, turns: seq<Turn>,
                           later: seq<Operation>)
  {
    && |later| == |before| + |turns| && before <= later
    && forall i :: 0 <= i < |turns| ==> FollowedAt(deadline, s, before, turns, later, i)
  }

  lemma FollowedOn(deadline: Option<real>, s: SessionScript, before: seq<Operation>, turns: seq<Turn>, later: seq<Operation>,
                   turn: Turn, op: Operation)
    requires Followed(deadline, s, before, turns, later)
    requires Shown(s, turns + [turn], |turns|, later, CompletedIn(before)) && Went(deadline, s, turn, |turns|, op)
    ensures Followed(deadline, s, before, turns + [turn], later + [op])
  {
    hide CompletedIn, Went, Shown;
    var all, ops := turns + [turn], later + [op];
    forall i | 0 <= i < |all| ensures FollowedAt(deadline, s, before, all, ops, i) {
      if i < |turns| {
        assert FollowedAt(deadline, s, before, turns, later, i);
        ShownFrame(s, turns, turn, i, later[..|before| + i], CompletedIn(before));
        assert ops[..|before| + i] == later[..|before| + i];
      } else {
        assert ops[..|before| + i] == later;
      }
    }
  }

  lemma ShownFrame(s: SessionScript, turns: seq<Turn>, turn: Turn, i: nat, operations: seq<Operation>, baseline: nat)
    requires i < |turns|
    ensures Shown(s, turns + [turn], i, operations, baseline) <==> Shown(s, turns, i, operations, baseline)
  {
    hide ViewOf, LastOf;
    assert (turns + [turn])[..i] == turns[..i];
  }

  function KindOf(e: Error): TerminationKind {
    match e.Class()
    case CancelledError => WasCancelled
    case InferenceCancelled => WasCancelled
    case TimeoutError => TimedOut
    case BudgetExhausted => OutOfBudget
    case _ => DidFail
  }

  /** The kind a session records for an exception: cancelled for a cancellation, with or without usage; timed out for a
      TimeoutError; out of budget for a BudgetExhausted, the store's own or an application's; failed for any other. */
  lemma KindsByException(e: Error)
    ensures KindOf(e) == WasCancelled <==> e.Thrown? && (e.kind == CancelledError || e.kind == InferenceCancelled)
    ensures KindOf(e) == TimedOut <==> e.Thrown? && e.kind == TimeoutError
    ensures KindOf(e) == OutOfBudget <==>
      || (e.Thrown? && e.kind == BudgetExhausted)
      || (e.Refused? && (e.reason.WallTimeExhausted? || e.reason.OutputUnsettled? || e.reason.OutputExceedsBudget?
                         || e.reason.CapacityExhausted?))
    ensures KindOf(e) != Stopped
    ensures KindOf(Surface(e, true)) != WasCancelled && (KindOf(e) == WasCancelled ==> KindOf(Surface(e, true)) == TimedOut)
    ensures Surface(e, false) == e && (KindOf(e) != WasCancelled ==> Surface(e, true) == e)
  {
  }

  /** A turn ends the session without an exception, or goes on, exactly when its decision came in time and was one, and
      its step either returned to a callback that raised nothing, or was certified as rejected in time and corrected. */
  lemma TurnGoesOn(deadline: Option<real>, s: SessionScript, turn: Turn, i: nat)
    ensures TurnFault(deadline, s, turn, i).None? <==>
      && turn.decision.Value? && !TimeIsUp(deadline, s.decidedClock(i))
      && match turn.result
         case None => true
         case Some(Ok(_)) => s.onStep(i).None?
         case Some(Raised(_)) =>
           turn.certified && s.corrects && !TimeIsUp(deadline, s.rejectedClock(i)) && s.corrections(i).Value?
  {
  }

  /** Otherwise it raises the first of these: the policy's exception, the end of time, what is no decision; then the
      callback's exception, or the step's own when nobody may correct it, or what the correction comes to. */
  lemma TurnRaises(deadline: Option<real>, s: SessionScript, turn: Turn, i: nat)
    requires TurnFault(deadline, s, turn, i).Some?
    ensures var e := TurnFault(deadline, s, turn, i).value;
      if turn.decision.Threw? then e == turn.decision.error
      else if TimeIsUp(deadline, s.decidedClock(i)) then e == Refused(WallTimeExhausted)
      else if turn.decision.Alien? then e == Refused(WrongType)
      else
        match turn.result.value
        case Ok(_) => s.onStep(i) == Some(e)
        case Raised(raised) =>
          if !turn.certified || !s.corrects then e == raised
          else if TimeIsUp(deadline, s.rejectedClock(i)) then e == Refused(WallTimeExhausted)
          else if s.corrections(i).Threw? then e == s.corrections(i).error
          else e == Refused(WrongType)
  {
  }

  /** What a turn is shown as the last step is the result of the newest turn that returned one. */
  lemma {:induction false} LastIsNewest(turns: seq<Turn>, i: nat)
    requires i < |turns| && turns[i].result.Some? && turns[i].result.value.Ok?
    requires forall k :: i < k < |turns| ==> !(turns[k].result.Some? && turns[k].result.value.Ok?)
    ensures LastOf(turns) == Some(turns[i].result.value.value)
  {
    if i < |turns| - 1 {
      LastIsNewest(turns[..|turns| - 1], i);
    }
  }

  lemma {:induction false} NoLast(turns: seq<Turn>)
    requires forall k :: 0 <= k < |turns| ==> !(turns[k].result.Some? && turns[k].result.value.Ok?)
    ensures LastOf(turns) == None
  {
    if turns != [] {
      NoLast(turns[..|turns| - 1]);
    }
  }

  /** How the turns end: the fault of the last one, or its stop. */
  function LastFault(deadline: Option<real>, s: SessionScript, turns: seq<Turn>): Option<Error> {
    if turns == [] then Expired(deadline, s.firstClock)
    else
      var fault := TurnFault(deadline, s, turns[|turns| - 1], |turns| - 1);
      if fault.Some? then Some(Surface(fault.value, s.expired)) else None
  }

  /** All turns but the last went on; the last may have left one more operation. */
  ghost predicate Attended(deadline: Option<real>, s: SessionScript, before: seq<Operation>, turns: seq<Turn>,
                           later: seq<Operation>)
  {
    if turns == [] then later == before
    else
      var n := |turns| - 1;
      && |before| + n <= |later| <= |before| + n + 1
      && Followed(deadline, s, before, turns[..n], later[..|before| + n])
      && Shown(s, turns, n, later[..|before| + n], CompletedIn(before))
  }

  /** Each decision is taken on the run as it then is: the accepted state, the newest observation, the newest result, and
      as many steps as the session has completed. */
  lemma ShownIsCurrent(s: SessionScript, turns: seq<Turn>, i: nat, operations: seq<Operation>, baseline: nat)
    requires i < |turns| && Shown(s, turns, i, operations, baseline)
    ensures turns[i].view.state == Read(turns[i].journal) && turns[i].view.observation == LatestObservation(turns[i].journal)
    ensures turns[i].view.last == LastOf(turns[..i])
    ensures turns[i].view.completed == CompletedIn(operations) - baseline
    ensures i > 0 && turns[i - 1].certified ==> turns[i].decision == s.corrections(i - 1)
    ensures i == 0 || !turns[i - 1].certified ==> turns[i].decision == s.policy(i)
  {
    hide Read, LatestObservation, LastOf, CompletedIn;
  }

  /** What a session raises is what its last turn raised, but for a cancellation of its own timeout's making, which comes up
      as a TimeoutError; with no time at the outset there is no turn at all. */
  lemma SessionRaises(deadline: Option<real>, s: SessionScript, turns: seq<Turn>)
    ensures turns == [] ==>
      LastFault(deadline, s, turns) == if TimeIsUp(deadline, s.firstClock) then Some(Refused(WallTimeExhausted)) else None
    ensures turns != [] ==>
      var n := |turns| - 1;
      var raised, fault := TurnFault(deadline, s, turns[n], n), LastFault(deadline, s, turns);
      && (fault.None? <==> raised.None?)
      && (raised.Some? ==>
            if s.expired && KindOf(raised.value) == WasCancelled then
              KindOf(fault.value) == TimedOut && fault.value.Type() == "TimeoutError"
            else fault == raised)
  {
    hide TurnFault;
  }

  class Session {
    const runtime: Runtime

    constructor (runtime: Runtime)
      ensures this.runtime == runtime
    {
      this.runtime := runtime;
    }

    ghost predicate Valid()
      reads runtime, runtime.run, runtime.tools, runtime.world
    {
      runtime.Valid() && Sound(runtime.run.db.operations, runtime.run.db.reservations, runtime.world.executions)
    }

    /** What is left of the run's inference calls is its limit less its operations. */
    lemma InferenceLeft()
      requires Valid()
      ensures var j := runtime.run.db; Remaining(j, InferenceUse) == j.limits.inferenceCalls - |j.operations| >= 0
    {
    }

    /** One runtime step, as the loop sees it. */
    method Advance(objective: string, grants: seq<string>, s: StepScript) returns (r: Outcome<StepResult>)
      requires Valid() && runtime.run.db.outcome.None? && Pending(runtime.run.db).None?
      modifies runtime, runtime.run`db, runtime.world
      ensures Valid() && runtime.run.db.outcome.None? && runtime.run.db.limits == old(runtime.run.db).limits
      ensures Histories.Drives(old(runtime.run.db), runtime.run.monotonicDeadline, runtime.run.db)
      ensures old(runtime.world.executions) <= runtime.world.executions
      ensures Stepped(old(runtime.run.db), runtime.run.db, grants, r, runtime.rejectedProposal)
    {
      hide Invariants.Valid, Histories.Drives, Sound, Working, Recounts, Succeeds, Fails, Compose, StepFault, Executes,
        InferFault, StepRefusal, Started;
      ghost var before, executions := runtime.run.db, runtime.world.executions;
      ghost var trail;
      r, trail := runtime.Step(objective, Some(grants), s);
      if trail.Admitted? {
        RecountsGrow(executions, runtime.world.executions, runtime.run.db.reservations, trail.op,
                     ToolOf(runtime.tools.tools, CallOf(s)), s,
                     Executes(trail.begun, runtime.run.monotonicDeadline, runtime.tools.tools, |runtime.guards|, trail.request, s));
        ghost var tool := ToolOf(runtime.tools.tools, CallOf(s));
        if Executes(trail.begun, runtime.run.monotonicDeadline, runtime.tools.tools, |runtime.guards|, trail.request, s) {
          ExecutedIsAuthorised(trail.begun, runtime.run.monotonicDeadline, runtime.tools.tools, |runtime.guards|, trail.request, s);
        }
        StepIsSound(before, runtime.run.db, trail.op, executions, runtime.world.executions, tool, s,
                    Executes(trail.begun, runtime.run.monotonicDeadline, runtime.tools.tools, |runtime.guards|, trail.request, s));
        WorkingLast(before, runtime.run.db, trail.op);
        WorkingFacts(before, runtime.run.db, trail.op);
        WorkingLimits(before, runtime.run.db, trail.op);
        ComposeNarrows(before, runtime.tools.tools, runtime.grants, objective, Some(grants), s);
        StepEnds(before, runtime.run.db, trail.op, trail.fault, InferFault(trail.begun.outputs, s).None?, grants, s, r,
                 runtime.rejectedProposal);
      }
    }

    method CheckReady(now: Now) returns (e: Option<Error>)
      requires runtime.run.db.outcome.None? && Pending(runtime.run.db).None?
      ensures e == Expired(runtime.run.monotonicDeadline, now)
    {
      e := runtime.run.CheckReady();
      if e.Some? {
        return;
      }
      e := runtime.CheckDeadline(now);
    }

    method Close(termination: Termination)
      requires Valid() && runtime.run.db.outcome.None?
      modifies runtime.run`db
      ensures Valid() && runtime.run.db == old(runtime.run.db).(outcome := Some(SessionRecord(termination)))
      ensures Histories.Drives(old(runtime.run.db), runtime.run.monotonicDeadline, runtime.run.db)
    {
      hide Invariants.Valid, Histories.Drives, Sound;
      Histories.DrivesNothing(runtime.run.db, runtime.run.monotonicDeadline);
      Histories.DrivesOn(runtime.run.db, runtime.run.monotonicDeadline, runtime.run.db, UNREAD, Finish(SessionRecord(termination)));
      var r := runtime.run.Finish(SessionRecord(termination));
    }

    method Vet(decision: Reply<Decision>, i: nat, s: SessionScript) returns (r: Outcome<Decision>)
      requires runtime.run.db.outcome.None? && Pending(runtime.run.db).None?
      ensures match DecisionFault(runtime.run.monotonicDeadline, s, decision, i)
        case Some(e) => r == Raised(e)
        case None => decision.Value? && r == Ok(decision.value)
    {
      hide Pending, Expired;
      if decision.Threw? {
        return Raised(decision.error);
      }
      var e := CheckReady(s.decidedClock(i));
      if e.Some? {
        return Raised(e.value);
      }
      r := if decision.Alien? then Raised(Refused(WrongType)) else Ok(decision.value);
    }

    /** The handler of a rejection the runtime certifies; any other exception of the step goes on up. */
    method Correct(error: Error, i: nat, s: SessionScript) returns (r: Outcome<Decision>)
      requires runtime.run.db.outcome.None?
      requires runtime.rejectedProposal.Some? ==>
        Pending(runtime.run.db).None? && (error.IsProposalRejected() || error.IsInferenceRejected())
      ensures match CorrectionFault(runtime.run.monotonicDeadline, s, error, runtime.rejectedProposal == Some(error), i)
        case Some(e) => r == Raised(e)
        case None =>
          && s.corrects && runtime.rejectedProposal == Some(error)
          && s.corrections(i).Value? && r == Ok(s.corrections(i).value)
    {
      hide Pending, Expired;
      if !(error.IsProposalRejected() || error.IsInferenceRejected())
         || !s.corrects || runtime.rejectedProposal != Some(error) {
        return Raised(error);
      }
      var e := CheckReady(s.rejectedClock(i));
      if e.Some? {
        return Raised(e.value);
      }
      match s.corrections(i)
      case Threw(error) => r := Raised(error);
      case Alien => r := Raised(Refused(WrongType));
      case Value(next) => r := Ok(next);
    }

    /** The step a decision asks for, and the callback it leads to. */
    method Proceed(decision: Decision, i: nat, s: SessionScript, ghost before: seq<Operation>, ghost turns: seq<Turn>,
                   ghost turn: Turn, ghost baseline: nat)
      returns (r: Outcome<Progress>, ghost turn': Turn)
      requires Valid() && runtime.run.db.outcome.None? && Pending(runtime.run.db).None?
      requires Followed(runtime.run.monotonicDeadline, s, before, turns, runtime.run.db.operations)
      requires i == |turns| && baseline == CompletedIn(before)
      requires turn == Turn(runtime.run.db, ViewOf(runtime.run.db, baseline, LastOf(turns)), Value(decision), None, false)
      requires Shown(s, turns + [turn], i, runtime.run.db.operations, baseline) && decision.Advance?
      requires DecisionFault(runtime.run.monotonicDeadline, s, turn.decision, i).None?
      modifies runtime, runtime.run`db, runtime.world
      ensures Valid() && runtime.run.db.outcome.None? && runtime.run.db.limits == old(runtime.run.db).limits
      ensures Histories.Drives(old(runtime.run.db), runtime.run.monotonicDeadline, runtime.run.db)
      ensures old(runtime.world.executions) <= runtime.world.executions
      ensures Proceeds(old(runtime.run.db), runtime.run.db, runtime.run.monotonicDeadline, s, before, turns, turn', r)
      ensures turn' == turn.(result := turn'.result, certified := turn'.certified) && turn'.result.Some?
    {
      hide Invariants.Valid, Histories.Drives, Sound, Pending, Read, LatestObservation, Stepped, DecisionFault, CorrectionFault,
        Shown, Followed, Attended, CompletedIn, ViewOf;
      ghost var deadline := runtime.run.monotonicDeadline;
      var stepped := Advance(decision.objective, decision.grants, s.steps(i));
      turn' := turn.(result := Some(stepped), certified := stepped.Raised? && runtime.rejectedProposal == Some(stepped.error));
      StillShown(s, turns, turn, turn', baseline);
      SteppedLength(turn.journal, runtime.run.db, decision.grants, stepped, runtime.rejectedProposal);
      LastTurn(deadline, s, before, turns, turn', runtime.run.db.operations);
      if stepped.Raised? {
        var corrected := Correct(stepped.error, i, s);
        if corrected.Raised? {
          return Raised(corrected.error), turn';
        }
        r := Ok(Corrected(corrected.value));
      } else {
        if s.onStep(i).Some? {
          return Raised(s.onStep(i).value), turn';
        }
        r := Ok(Published(stepped.value));
      }
      GoesOn(deadline, s, before, turns, turn', runtime.run.db, runtime.rejectedProposal);
    }

    /** The loop: decide, step, and go round again, until the application stops it or something is raised. */
    method Attend(baseline: nat, s: SessionScript) returns (r: Outcome<Termination>, ghost turns: seq<Turn>)
      requires Valid() && runtime.run.db.outcome.None? && Pending(runtime.run.db).None?
      requires baseline == CompletedIn(runtime.run.db.operations)
      modifies runtime, runtime.run`db, runtime.world
      ensures Valid() && Histories.Drives(old(runtime.run.db), runtime.run.monotonicDeadline, runtime.run.db)
      ensures old(runtime.world.executions) <= runtime.world.executions
      ensures Ends(old(runtime.run.db), runtime.run.db, runtime.run.monotonicDeadline, s, turns, r)
    {
      hide Invariants.Valid, Histories.Drives, Sound, Pending, Read, LatestObservation, Expired, DecisionFault, TurnFault, Shown,
        Followed, Attended, Remaining, CompletedIn, ViewOf, LastOf, Head, Ends, Proceeds;
      turns := [];
      InferenceLeft();
      ghost var deadline, begun := runtime.run.monotonicDeadline, runtime.run.db;
      var view := View(Read(runtime.run.db), LatestObservation(runtime.run.db), None, 0);
      NoTurns(deadline, s, begun, view);
      var e := CheckReady(s.firstClock);
      if e.Some? {
        return Raised(e.value), turns;
      }
      var count: nat, i := 0, 0;
      var last: Option<StepResult>, correction: Option<Decision> := None, None;
      while true
        invariant Valid() && runtime.run.db.outcome.None? && Pending(runtime.run.db).None?
        invariant runtime.run.db.limits == begun.limits && |runtime.run.db.operations| == |begun.operations| + i
        invariant Histories.Drives(begun, deadline, runtime.run.db) && old(runtime.world.executions) <= runtime.world.executions
        invariant Head(begun, runtime.run.db, deadline, s, turns, count, last, correction, view) && |turns| == i
        decreases runtime.run.db.limits.inferenceCalls - |runtime.run.db.operations|
      {
        InferenceLeft();
        ghost var journal := runtime.run.db;
        ghost var shown := if correction.Some? then view else View(Read(journal), LatestObservation(journal), last, count);
        ghost var turn := Turn(journal, shown, if correction.Some? then Value(correction.value) else s.policy(i), None, false);
        HeadTurn(begun, deadline, s, turns, count, last, correction, view, turn);
        var decision;
        if correction.Some? {
          decision := Value(correction.value);
        } else {
          view := View(Read(runtime.run.db), LatestObservation(runtime.run.db), last, count);
          decision := s.policy(i);
        }
        correction := None;
        var decided := Vet(decision, i, s);
        if decided.Raised? {
          EndsUndecided(begun, deadline, s, turns, turn, decided.error);
          turns := turns + [turn];
          return Raised(Surface(decided.error, s.expired)), turns;
        }
        if decided.value.Stop? {
          var termination := SessionTermination(Stopped, decided.value.reason, count);
          EndsStopped(begun, deadline, s, turns, turn, termination);
          Close(termination);
          Histories.DrivesFurther(begun, deadline, journal, runtime.run.db);
          turns := turns + [turn];
          return Ok(termination), turns;
        }
        var progress;
        progress, turn := Proceed(decided.value, i, s, begun.operations, turns, turn, baseline);
        Histories.DrivesFurther(begun, deadline, journal, runtime.run.db);
        if progress.Raised? {
          EndsRaised(begun, runtime.run.db, deadline, s, turns, turn, progress);
          turns := turns + [turn];
          return Raised(Surface(progress.error, s.expired)), turns;
        }
        HeadNext(begun, runtime.run.db, deadline, s, turns, count, last, view, turn, progress);
        turns := turns + [turn];
        match progress.value {
          case Published(result) =>
            count, last := count + 1, Some(result);
          case Corrected(next) =>
            view := View(Read(runtime.run.db), LatestObservation(runtime.run.db), last, count);
            correction := Some(next);
        }
        i := i + 1;
      }
    }

    /** One session. Whatever is raised inside the loop is recorded with the durable count, and raised again. */
    method Execute(s: SessionScript) returns (r: Outcome<Termination>, ghost turns: seq<Turn>)
      requires Valid()
      modifies runtime, runtime.run`db, runtime.world
      ensures Valid() && Histories.Drives(old(runtime.run.db), runtime.run.monotonicDeadline, runtime.run.db)
      ensures old(runtime.world.executions) <= runtime.world.executions
      ensures old(runtime.run.db).outcome.Some? || Pending(old(runtime.run.db)).Some? ==>
        && r == Raised(Refused(if old(runtime.run.db).outcome.Some? then RunEnded else EffectUnknown))
        && runtime.run.db == old(runtime.run.db) && runtime.world.executions == old(runtime.world.executions)
      ensures old(runtime.run.db).outcome.None? && Pending(old(runtime.run.db)).None? ==>
        && |turns| <= Remaining(old(runtime.run.db), InferenceUse) + 1
        && Attended(runtime.run.monotonicDeadline, s, old(runtime.run.db).operations, turns, runtime.run.db.operations)
        && Concluded(LastFault(runtime.run.monotonicDeadline, s, turns), turns, s.diesBeforeFinish, r, runtime.run.db.outcome,
                     CompletedIn(runtime.run.db.operations) - CompletedIn(old(runtime.run.db).operations))
    {
      hide Invariants.Valid, Histories.Drives, Sound, Pending, Attended, LastFault, CompletedIn, Remaining;
      turns := [];
      Histories.DrivesNothing(runtime.run.db, runtime.run.monotonicDeadline);
      if runtime.run.db.outcome.Some? {
        return Raised(Refused(RunEnded)), turns;
      }
      if Pending(runtime.run.db).Some? {
        return Raised(Refused(EffectUnknown)), turns;
      }
      var baseline := runtime.run.CompletedOperations();
      ghost var before := runtime.run.db.operations;
      r, turns := Attend(baseline, s);
      if r.Ok? {
        return;
      }
      if r.error == ProcessDeath || s.diesBeforeFinish {
        return Raised(ProcessDeath), turns;
      }
      var completed := runtime.run.CompletedOperations();
      AttendedGrows(runtime.run.monotonicDeadline, s, before, turns, runtime.run.db.operations);
      CompletedGrows(before, runtime.run.db.operations);
      ghost var attended := runtime.run.db;
      Close(SessionTermination(KindOf(r.error), r.error.Type(), completed - baseline));
      Histories.DrivesFurther(old(runtime.run.db), runtime.run.monotonicDeadline, attended, runtime.run.db);
    }
  }

  /** The turn ends the session, or leaves it ready for the next one with its operation settled and counted. */
  ghost predicate Proceeds(j: Journal, k: Journal, deadline: Option<real>, s: SessionScript, before: seq<Operation>,
                           turns: seq<Turn>, turn: Turn, r: Outcome<Progress>)
  {
    turn.result.Some? &&
    match TurnFault(deadline, s, turn, |turns|)
    case Some(e) => r == Raised(e) && Attended(deadline, s, before, turns + [turn], k.operations)
    case None =>
      && Pending(k).None? && |k.operations| == |j.operations| + 1
      && Followed(deadline, s, before, turns + [turn], k.operations)
      && CompletedIn(k.operations) == CompletedIn(j.operations) + (if turn.result.value.Ok? then 1 else 0)
      && (turn.certified <==> turn.result.value.Raised?)
      && (if turn.certified then s.corrections(|turns|).Value? && r == Ok(Corrected(s.corrections(|turns|).value))
          else r == Ok(Published(turn.result.value.value)))
  }

  /** What a session answers and records: the application's stop, or the exception, each with the number of
      operations completed meanwhile; nothing is recorded when the process dies. */
  predicate Concluded(fault: Option<Error>, turns: seq<Turn>, dies: bool, r: Outcome<Termination>,
                      outcome: Option<Ending>, completed: int)
  {
    match fault
    case None =>
      && turns != [] && turns[|turns| - 1].decision.Value? && turns[|turns| - 1].decision.value.Stop?
      && completed >= 0
      && r == Ok(SessionTermination(Stopped, turns[|turns| - 1].decision.value.reason, completed))
      && outcome == Some(SessionRecord(r.value))
    case Some(e) =>
      if e == ProcessDeath || dies then r == Raised(ProcessDeath) && outcome.None?
      else
        && completed >= 0 && r == Raised(e)
        && outcome == Some(SessionRecord(SessionTermination(KindOf(e), e.Type(), completed)))
  }

  lemma AttendedGrows(deadline: Option<real>, s: SessionScript, before: seq<Operation>, turns: seq<Turn>, later: seq<Operation>)
    requires Attended(deadline, s, before, turns, later)
    ensures before <= later
  {
    hide FollowedAt, Shown;
    if turns != [] {
      assert later[..|before| + |turns| - 1] <= later;
    }
  }

  lemma {:induction false} CompletedGrows(operations: seq<Operation>, later: seq<Operation>)
    requires operations <= later
    ensures CompletedIn(operations) <= CompletedIn(later)
    decreases |later|
  {
    if |operations| < |later| {
      CompletedGrows(operations, later[..|later| - 1]);
    } else {
      assert operations == later;
    }
  }

  /** What a step leaves when it returns, and when its rejection is certified; nothing is open in either case. */
  ghost predicate Stepped(j: Journal, k: Journal, grants: seq<string>, r: Outcome<StepResult>, rejected: Option<Error>) {
    && (k.operations == j.operations
        || exists op :: k.operations == j.operations + [op] && op.request.base == Read(j) && Subset(op.request.allowedTools, grants))
    && (r.Ok? || rejected.Some? ==>
          && Pending(k).None? && |k.operations| == |j.operations| + 1
          && (r.Ok? <==> k.operations[|j.operations|].stage.Completed?)
          && (r.Raised? ==> k.operations[|j.operations|].stage.Failed?))
    && (r.Ok? ==> rejected.None?)
    && (rejected.Some? ==> rejected == Some(r.error) && (r.error.IsProposalRejected() || r.error.IsInferenceRejected()))
  }

  lemma ShownNow(s: SessionScript, turns: seq<Turn>, turn: Turn, baseline: nat)
    requires turn.view == ViewOf(turn.journal, baseline, LastOf(turns))
    requires turn.decision == if turns != [] && turns[|turns| - 1].certified then s.corrections(|turns| - 1) else s.policy(|turns|)
    ensures Shown(s, turns + [turn], |turns|, turn.journal.operations, baseline)
  {
    hide ViewOf, LastOf;
    assert (turns + [turn])[..|turns|] == turns;
  }

  lemma StillShown(s: SessionScript, turns: seq<Turn>, turn: Turn, after: Turn, baseline: nat)
    requires Shown(s, turns + [turn], |turns|, turn.journal.operations, baseline)
    requires after == turn.(result := after.result, certified := after.certified)
    ensures Shown(s, turns + [after], |turns|, after.journal.operations, baseline)
    ensures after.view.state == Read(after.journal)
  {
    hide LastOf;
    assert (turns + [turn])[..|turns|] == (turns + [after])[..|turns|];
  }

  lemma LastTurn(deadline: Option<real>, s: SessionScript, before: seq<Operation>, turns: seq<Turn>, turn: Turn,
                 later: seq<Operation>)
    requires Followed(deadline, s, before, turns, turn.journal.operations)
    requires Shown(s, turns + [turn], |turns|, turn.journal.operations, CompletedIn(before))
    requires turn.journal.operations <= later && |later| <= |turn.journal.operations| + 1
    ensures Attended(deadline, s, before, turns + [turn], later)
  {
    hide CompletedIn, Shown, Followed;
    FollowedLength(deadline, s, before, turns, turn.journal.operations);
    assert (turns + [turn])[..|turns|] == turns && later[..|before| + |turns|] == turn.journal.operations;
  }

  /** The loop's variables at its head, against the turns so far. */
  ghost predicate Head(begun: Journal, j: Journal, deadline: Option<real>, s: SessionScript, turns: seq<Turn>, count: nat,
                       last: Option<StepResult>, correction: Option<Decision>, view: View)
  {
    && Followed(deadline, s, begun.operations, turns, j.operations)
    && count == CompletedIn(j.operations) - CompletedIn(begun.operations) && last == LastOf(turns)
    && (correction.Some? <==> turns != [] && turns[|turns| - 1].certified)
    && (correction.Some? ==>
          && s.corrections(|turns| - 1) == Value(correction.value)
          && view == ViewOf(j, CompletedIn(begun.operations), last))
  }

  /** How the loop is left. */
  ghost predicate Ends(begun: Journal, k: Journal, deadline: Option<real>, s: SessionScript, turns: seq<Turn>,
                       r: Outcome<Termination>)
  {
    && |turns| <= Remaining(begun, InferenceUse) + 1
    && Attended(deadline, s, begun.operations, turns, k.operations)
    && match LastFault(deadline, s, turns)
       case Some(e) => r == Raised(e) && k.outcome.None?
       case None => Concluded(None, turns, false, r, k.outcome, CompletedIn(k.operations) - CompletedIn(begun.operations))
  }

  lemma NoTurns(deadline: Option<real>, s: SessionScript, j: Journal, view: View)
    requires Remaining(j, InferenceUse) >= 0 && j.outcome.None?
    ensures Head(j, j, deadline, s, [], 0, None, None, view)
    ensures Expired(deadline, s.firstClock).Some? ==> Ends(j, j, deadline, s, [], Raised(Expired(deadline, s.firstClock).value))
    ensures Histories.Drives(j, deadline, j)
  {
    hide Histories.Drives;
    Histories.DrivesNothing(j, deadline);
  }

  lemma HeadTurn(begun: Journal, deadline: Option<real>, s: SessionScript, turns: seq<Turn>, count: nat,
                 last: Option<StepResult>, correction: Option<Decision>, view: View, turn: Turn)
    requires var j := turn.journal;
      && Head(begun, j, deadline, s, turns, count, last, correction, view)
      && turn.view == (if correction.Some? then view else View(Read(j), LatestObservation(j), last, count))
      && turn.decision == (if correction.Some? then Value(correction.value) else s.policy(|turns|))
    ensures turn.view == ViewOf(turn.journal, CompletedIn(begun.operations), LastOf(turns))
    ensures Shown(s, turns + [turn], |turns|, turn.journal.operations, CompletedIn(begun.operations))
    ensures Followed(deadline, s, begun.operations, turns, turn.journal.operations) && last == LastOf(turns)
    ensures count == CompletedIn(turn.journal.operations) - CompletedIn(begun.operations)
  {
    hide Followed, CompletedIn, LastOf, Read, LatestObservation;
    ShownNow(s, turns, turn, CompletedIn(begun.operations));
  }

  lemma EndsUndecided(begun: Journal, deadline: Option<real>, s: SessionScript, turns: seq<Turn>, turn: Turn, e: Error)
    requires Followed(deadline, s, begun.operations, turns, turn.journal.operations) && turn.journal.outcome.None?
    requires Shown(s, turns + [turn], |turns|, turn.journal.operations, CompletedIn(begun.operations))
    requires DecisionFault(deadline, s, turn.decision, |turns|) == Some(e)
    requires |turns| <= Remaining(begun, InferenceUse)
    ensures Ends(begun, turn.journal, deadline, s, turns + [turn], Raised(Surface(e, s.expired)))
  {
    hide Followed, Shown, Attended, Remaining, DecisionFault;
    LastTurn(deadline, s, begun.operations, turns, turn, turn.journal.operations);
  }

  lemma EndsStopped(begun: Journal, deadline: Option<real>, s: SessionScript, turns: seq<Turn>, turn: Turn,
                    termination: Termination)
    requires Followed(deadline, s, begun.operations, turns, turn.journal.operations)
    requires Shown(s, turns + [turn], |turns|, turn.journal.operations, CompletedIn(begun.operations))
    requires DecisionFault(deadline, s, turn.decision, |turns|).None? && turn.result.None?
    requires turn.decision.Value? && turn.decision.value.Stop?
    requires termination.kind == Stopped && termination.reason == turn.decision.value.reason
    requires termination.completedSteps == CompletedIn(turn.journal.operations) - CompletedIn(begun.operations)
    requires |turns| <= Remaining(begun, InferenceUse)
    ensures Ends(begun, turn.journal.(outcome := Some(SessionRecord(termination))), deadline, s, turns + [turn], Ok(termination))
  {
    hide Followed, Shown, Attended, Remaining, DecisionFault, CompletedIn;
    LastTurn(deadline, s, begun.operations, turns, turn, turn.journal.operations);
  }

  lemma EndsRaised(begun: Journal, k: Journal, deadline: Option<real>, s: SessionScript, turns: seq<Turn>, turn: Turn,
                   r: Outcome<Progress>)
    requires Proceeds(turn.journal, k, deadline, s, begun.operations, turns, turn, r) && r.Raised? && k.outcome.None?
    requires |turns| <= Remaining(begun, InferenceUse)
    ensures Ends(begun, k, deadline, s, turns + [turn], Raised(Surface(r.error, s.expired)))
  {
    hide Followed, Attended, Remaining, TurnFault, Pending, CompletedIn;
  }

  lemma HeadNext(begun: Journal, k: Journal, deadline: Option<real>, s: SessionScript, turns: seq<Turn>, count: nat,
                 last: Option<StepResult>, view: View, turn: Turn, r: Outcome<Progress>)
    requires Proceeds(turn.journal, k, deadline, s, begun.operations, turns, turn, r) && r.Ok? && last == LastOf(turns)
    requires count == CompletedIn(turn.journal.operations) - CompletedIn(begun.operations)
    ensures Pending(k).None? && |k.operations| == |turn.journal.operations| + 1
    ensures match r.value
      case Published(result) => Head(begun, k, deadline, s, turns + [turn], count + 1, Some(result), None, view)
      case Corrected(next) =>
        Head(begun, k, deadline, s, turns + [turn], count, last, Some(next), View(Read(k), LatestObservation(k), last, count))
  {
    hide Followed, Attended, TurnFault, Pending, CompletedIn, Read, LatestObservation;
    assert (turns + [turn])[..|turns|] == turns;
  }

  lemma FollowedLength(deadline: Option<real>, s: SessionScript, before: seq<Operation>, turns: seq<Turn>, later: seq<Operation>)
    requires Followed(deadline, s, before, turns, later)
    ensures |later| == |before| + |turns|
  {
  }

  lemma SteppedLength(j: Journal, k: Journal, grants: seq<string>, r: Outcome<StepResult>, rejected: Option<Error>)
    requires Stepped(j, k, grants, r, rejected)
    ensures j.operations <= k.operations && |k.operations| <= |j.operations| + 1
    ensures rejected.Some? ==>
      Pending(k).None? && rejected == Some(r.error) && (r.error.IsProposalRejected() || r.error.IsInferenceRejected())
  {
  }

  /** The loop goes round again: the turn's operation is settled, and counted when it was published. */
  lemma GoesOn(deadline: Option<real>, s: SessionScript, before: seq<Operation>, turns: seq<Turn>, turn: Turn, k: Journal,
               rejected: Option<Error>)
    requires Followed(deadline, s, before, turns, turn.journal.operations)
    requires Shown(s, turns + [turn], |turns|, turn.journal.operations, CompletedIn(before))
    requires turn.decision.Value? && turn.decision.value.Advance? && turn.result.Some?
    requires turn.view.state == Read(turn.journal)
    requires Stepped(turn.journal, k, turn.decision.value.grants, turn.result.value, rejected)
    requires turn.certified <==> turn.result.value.Raised? && rejected == Some(turn.result.value.error)
    requires turn.result.value.Ok? || turn.certified
    requires TurnFault(deadline, s, turn, |turns|).None?
    ensures Followed(deadline, s, before, turns + [turn], k.operations)
    ensures Pending(k).None? && |k.operations| == |turn.journal.operations| + 1
    ensures CompletedIn(k.operations) == CompletedIn(turn.journal.operations) + if turn.result.value.Ok? then 1 else 0
  {
    hide Shown, Followed, TurnFault, Read;
    var n := |turn.journal.operations|;
    var op := k.operations[n];
    assert k.operations == turn.journal.operations + [op];
    FollowedOn(deadline, s, before, turns, turn.journal.operations, turn, op);
    assert k.operations[..n] == turn.journal.operations;
  }

  lemma StepEnds(before: Journal, k: Journal, op: Operation, fault: Option<Fault>, inferred: bool, grants: seq<string>,
                 s: StepScript, r: Outcome<StepResult>, rejected: Option<Error>)
    requires Working(before, k, op) && Pending(before).None?
    requires op.request.base == Read(before) && Subset(op.request.allowedTools, grants)
    requires if fault.None? then rejected == None && Succeeds(before, k, op, s, r)
             else Fails(op, fault.value, inferred, s, r, rejected)
    ensures Stepped(before, k, grants, r, rejected)
  {
    hide Invariants.Valid, Histories.Drives, Read, CommitRows;
    assert k.operations[|before.operations|] == op;
    assert k.operations[..|before.operations|] == before.operations;
    if rejected.Some? {
      RejectedReservesNothing(before, k, op, fault.value, inferred, s, r, rejected);
    }
  }

  lemma WorkingLimits(before: Journal, k: Journal, op: Operation)
    requires Working(before, k, op)
    ensures k.limits == before.limits
  {
  }
}
