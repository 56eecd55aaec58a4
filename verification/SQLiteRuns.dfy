/** The durable run as its owner uses it: an object over one database file, where each method is a
    transaction that writes step by step and rolls back on the first exception. */
module SQLiteRuns {
  import opened Contracts
  import opened Tables
  import opened OutputBudgets
  import opened Journals
  import opened Accounting
  import Invariants
  import Preservation
  import Publishing

  lemma BadGuardsRefused(j: Journal, deadline: Option<real>, now: Now, id: string, request: InferenceRequest,
                         output: Option<Reservation>, guards: seq<string>)
    requires !GuardIdentities(guards)
    ensures StartRefusal(j, deadline, now, id, request, output, guards) == Some(Refused(BadGuardIdentities))
  {
  }

  lemma SameRefusal(j: Journal, stamped: Journal, evaluation: Evaluation)
    requires stamped == j.(lastClock := stamped.lastClock)
    ensures CompleteRefusal(stamped, evaluation) == CompleteRefusal(j, evaluation)
  {
  }

  class SQLiteRun {
    var db: Journal
    var monotonicDeadline: Option<real>

    ghost predicate Valid()
      reads this
    {
      Invariants.Valid(db)
    }

    /** What the call raises, or Ok. */
    ghost predicate Answers<T>(r: Outcome<T>, before: Journal, now: Now, a: Action)
      reads this`monotonicDeadline
    {
      match Complaint(before, monotonicDeadline, now, a)
      case None => r.Ok?
      case Some(e) => r == Raised(e)
    }

    ghost predicate Performs(before: Journal, now: Now, a: Action)
      reads this
    {
      db == Apply(before, monotonicDeadline, now, a) && Invariants.Valid(db)
    }

    lemma AnswersMeaning(before: Journal, now: Now, a: Action)
      requires Complaint(before, monotonicDeadline, now, a).None?
      ensures Apply(before, monotonicDeadline, now, a) == Effect(before, now, a)
    {
    }

    /** A file whose tables satisfy the invariant, with the clock bound. */
    constructor (file: Journal, deadline: Option<real>)
      requires Invariants.Valid(file)
      ensures Valid() && db == file && monotonicDeadline == deadline
    {
      db := file;
      monotonicDeadline := deadline;
    }

    static method Create(runId: string, initialState: string, initialObservation: Option<string>, limits: Limits,
                         created: Now, bound: Now)
      returns (r: Outcome<SQLiteRun>)
      ensures r.Ok? <==> NonBlank(runId) && created.wall <= bound.wall
      ensures r.Raised? ==> r.error == Refused(if NonBlank(runId) then ClockMovedBackwards else BlankText)
      ensures r.Ok? ==> fresh(r.value) && r.value.Valid()
      ensures r.Ok? ==> r.value.db == Journals.Create(initialState, initialObservation, limits, created)
      ensures r.Ok? ==> BoundDeadline(r.value.db, bound) == Ok(r.value.monotonicDeadline)
    {
      if !NonBlank(runId) {
        return Raised(Refused(BlankText));
      }
      Preservation.CreatedIsValid(initialState, initialObservation, limits, created);
      r := Open(Journals.Create(initialState, initialObservation, limits, created), bound);
    }

    static method Open(file: Journal, now: Now) returns (r: Outcome<SQLiteRun>)
      requires Invariants.Valid(file)
      ensures r.Raised? ==> BoundDeadline(file, now) == Raised(r.error)
      ensures r.Ok? ==> fresh(r.value) && r.value.Valid() && r.value.db == file
      ensures r.Ok? ==> BoundDeadline(file, now) == Ok(r.value.monotonicDeadline)
    {
      hide Invariants.Valid;
      if now.wall < file.lastClock {
        return Raised(Refused(ClockMovedBackwards));
      }
      var deadline: Option<real> := None;
      if file.deadline.Some? {
        deadline := Some(now.monotonic + Max(0.0, file.deadline.value - now.wall));
      }
      var run := new SQLiteRun(file, deadline);
      r := Ok(run);
    }

    // -------------------------------------------------------------- checks

    method RequireOpen() returns (r: Option<Error>)
      ensures r == IsOpen(db)
    {
      r := if db.outcome.Some? then Some(Refused(RunEnded)) else None;
    }

    /** Authorises work now and stamps the clock; the caller rolls the stamp back if it fails later. */
    method RequireTime(now: Now) returns (r: Option<Error>)
      modifies this`db
      ensures r == OnTime(old(db), monotonicDeadline, now)
      ensures db == if r.None? then old(db).(lastClock := now.wall) else old(db)
    {
      r := RequireOpen();
      if r.Some? {
        return;
      }
      if now.wall < db.lastClock {
        return Some(Refused(ClockMovedBackwards));
      }
      if monotonicDeadline.Some? {
        var left := Max(0.0, monotonicDeadline.value - now.monotonic);
        if left == 0.0 {
          return Some(Refused(WallTimeExhausted));
        }
      }
      db := db.(lastClock := now.wall);
    }

    method CheckReady() returns (r: Option<Error>)
      ensures r == Ready(db)
    {
      r := RequireOpen();
      if r.Some? {
        return;
      }
      var pending := Pending(db);
      if pending.Some? {
        r := Some(Refused(if pending.value.stage.Dispatched? then EffectUnknown else RecoveryRequired));
      }
    }

    method Reserve(id: string, resource: Resource) returns (r: Option<Error>)
      modifies this`db
      ensures r == Reserving(old(db), id, resource)
      ensures db == if r.None? then old(db).(reservations := old(db).reservations + [ReservationRow(id, resource)]) else old(db)
    {
      var used := 0;
      for i := 0 to |db.reservations|
        invariant used == CountOf(db.reservations[..i], resource)
        invariant db == old(db)
      {
        assert db.reservations[..i + 1][..i] == db.reservations[..i];
        if db.reservations[i].resource == resource {
          used := used + 1;
        }
      }
      assert db.reservations[..|db.reservations|] == db.reservations;
      if db.limits.Of(resource) - used <= 0 {
        return Some(Refused(CapacityExhausted(resource)));
      }
      if ReservationRow(id, resource) in db.reservations {
        return Some(Refused(DuplicateKey));
      }
      db := db.(reservations := db.reservations + [ReservationRow(id, resource)]);
      r := None;
    }

    method Admit(request: InferenceRequest, output: Option<Reservation>) returns (r: Option<Error>)
      ensures r == Admission(Budget(db), request, output)
    {
      var budget := ComputeBudget(db.limits.outputTokens, db.outputs, db.usage);
      if budget.limit.Some? {
        if output.None? {
          return Some(Refused(ReservationRequired));
        }
        if request.maxOutputTokens != Some(output.value.tokens) {
          return Some(Refused(CeilingMismatch));
        }
        if output.value.kind.Model? {
          if budget.unresolved != 0 || budget.breached != 0 {
            return Some(Refused(OutputUnsettled));
          }
          if budget.available.None? || output.value.tokens > budget.available.value {
            return Some(Refused(OutputExceedsBudget));
          }
        }
      } else if output.Some? {
        return Some(Refused(ReservationUnexpected));
      }
      r := None;
    }

    // --------------------------------------------------------- transactions

    method Start(id: string, request: InferenceRequest, output: Option<Reservation>, guards: seq<string>, now: Now)
      returns (r: Outcome<()>)
      requires Valid()
      modifies this`db
      ensures Answers(r, old(db), now, Action.Start(id, request, output, guards))
      ensures Performs(old(db), now, Action.Start(id, request, output, guards))
    {
      hide Invariants.Valid, StartRefusal, Started;
      Preservation.KeepsValid(db, monotonicDeadline, now, Action.Start(id, request, output, guards));
      if !GuardIdentities(guards) {
        BadGuardsRefused(db, monotonicDeadline, now, id, request, output, guards);
        return Raised(Refused(BadGuardIdentities));
      }
      var saved := db;
      var e := StartInTransaction(id, request, output, guards, now);
      if e.Some? {
        db := saved;
        return Raised(e.value);
      }
      r := Ok(());
    }

    method StartInTransaction(id: string, request: InferenceRequest, output: Option<Reservation>, guards: seq<string>, now: Now)
      returns (e: Option<Error>)
      requires GuardIdentities(guards)
      modifies this`db
      ensures e == StartRefusal(old(db), monotonicDeadline, now, id, request, output, guards)
      ensures e.None? ==> db == Started(old(db), now, id, request, output, guards)
    {
      e := CheckReady();
      if e.Some? { return; }
      e := RequireTime(now);
      if e.Some? { return; }
      e := Admit(request, output);
      if e.Some? { return; }
      if request.base != Read(db) {
        return Some(Refused(StaleRequest));
      }
      if id == "" {
        return Some(Refused(EmptyOperationId));
      }
      if Find(db.operations, id).Some? {
        return Some(Refused(DuplicateKey));
      }
      db := db.(operations := db.operations + [Operation(id, Inference, request, None, false, None, None)]);
      db := db.(requirements := db.requirements + RequirementRows(id, guards));
      e := Reserve(id, InferenceUse);
      if e.Some? { return; }
      db := db.(outputs := db.outputs + if output.Some? then [OutputRow(id, output.value)] else []);
    }

    method RecordGuard(id: string, guard: string, decision: Dynamic<GuardDecision>) returns (r: Outcome<()>)
      requires Valid()
      modifies this`db
      ensures decision.Foreign? ==> r == Raised(Refused(WrongType)) && db == old(db)
      ensures decision.Instance? ==>
        Answers(r, old(db), UNREAD, Action.RecordGuard(id, guard, decision.value))
        && Performs(old(db), UNREAD, Action.RecordGuard(id, guard, decision.value))
    {
      if decision.Foreign? {
        return Raised(Refused(WrongType));
      }
      hide Invariants.Valid, Refusal, Effect, Complaint;
      r := StoreDecision(id, guard, decision.value);
    }

    method StoreDecision(id: string, guard: string, decision: GuardDecision) returns (r: Outcome<()>)
      requires Valid()
      modifies this`db
      ensures Answers(r, old(db), UNREAD, Action.RecordGuard(id, guard, decision))
      ensures Performs(old(db), UNREAD, Action.RecordGuard(id, guard, decision))
    {
      hide Invariants.Valid;
      Preservation.KeepsValid(db, monotonicDeadline, UNREAD, Action.RecordGuard(id, guard, decision));
      var e := RequireOpen();
      if e.Some? { return Raised(e.value); }
      e := Standing(db, id, Stage.Proposed);
      if e.Some? { return Raised(e.value); }
      if RequirementRow(id, guard) !in db.requirements {
        return Raised(Refused(GuardNotRequired));
      }
      if DecisionOf(db.decisions, id, guard).Some? {
        return Raised(Refused(DuplicateKey));
      }
      db := db.(decisions := db.decisions + [DecisionRow(id, guard, decision)]);
      r := Ok(());
    }

    method RecordEvent(event: Dynamic<EventRow>) returns (r: Outcome<()>)
      requires Valid()
      modifies this`db
      ensures event.Foreign? ==> r == Raised(Refused(WrongType)) && db == old(db)
      ensures event.Instance? ==>
        var a := Action.RecordEvent(event.value.operation, event.value.stage, event.value.detail);
        Answers(r, old(db), UNREAD, a) && Performs(old(db), UNREAD, a)
    {
      if event.Foreign? {
        return Raised(Refused(WrongType));
      }
      hide Invariants.Valid, Refusal, Effect, Complaint;
      r := StoreEvent(event.value.operation, event.value.stage, event.value.detail);
    }

    method StoreEvent(id: string, stage: string, detail: string) returns (r: Outcome<()>)
      requires Valid()
      modifies this`db
      ensures Answers(r, old(db), UNREAD, Action.RecordEvent(id, stage, detail))
      ensures Performs(old(db), UNREAD, Action.RecordEvent(id, stage, detail))
    {
      hide Invariants.Valid;
      Preservation.KeepsValid(db, monotonicDeadline, UNREAD, Action.RecordEvent(id, stage, detail));
      if stage == "" {
        return Raised(Refused(WrongType));
      }
      var e := RequireOpen();
      if e.Some? { return Raised(e.value); }
      if Find(db.operations, id).None? {
        return Raised(Refused(WrongStage));
      }
      db := db.(events := db.events + [EventRow(id, stage, detail)]);
      r := Ok(());
    }

    /** The report stays even when the call raises because the reservation is breached. */
    method RecordUsage(id: string, usage: Dynamic<Usage>) returns (r: Outcome<()>)
      requires Valid()
      modifies this`db
      ensures usage.Foreign? ==> r == Raised(Refused(WrongType)) && db == old(db)
      ensures usage.Instance? ==>
        Answers(r, old(db), UNREAD, Action.RecordUsage(id, usage.value))
        && Performs(old(db), UNREAD, Action.RecordUsage(id, usage.value))
    {
      if usage.Foreign? {
        return Raised(Refused(WrongType));
      }
      hide Invariants.Valid, Refusal, Effect, Complaint;
      r := StoreUsage(id, usage.value);
    }

    method StoreUsage(id: string, usage: Usage) returns (r: Outcome<()>)
      requires Valid()
      modifies this`db
      ensures Answers(r, old(db), UNREAD, Action.RecordUsage(id, usage))
      ensures Performs(old(db), UNREAD, Action.RecordUsage(id, usage))
    {
      hide Invariants.Valid, UsageRefusal;
      Preservation.KeepsValid(db, monotonicDeadline, UNREAD, Action.RecordUsage(id, usage));
      var e := UsageInTransaction(id, usage);
      if e.Some? { return Raised(e.value); }
      var reserved := OutputOf(db.outputs, id);
      if reserved.Some? && (usage.kind != reserved.value.kind
                            || (usage.outputTokens.Some? && usage.outputTokens.value > reserved.value.tokens)) {
        return Raised(Refused(OutputBreached));
      }
      r := Ok(());
    }

    method UsageInTransaction(id: string, usage: Usage) returns (e: Option<Error>)
      modifies this`db
      ensures e == UsageRefusal(old(db), id)
      ensures db == if e.Some? then old(db) else old(db).(usage := old(db).usage + [UsageRow(id, usage)])
    {
      e := RequireOpen();
      if e.Some? { return; }
      e := Standing(db, id, Inference);
      if e.Some? { return; }
      if UsageOf(db.usage, id).Some? {
        return Some(Refused(DuplicateKey));
      }
      db := db.(usage := db.usage + [UsageRow(id, usage)]);
    }

    method Proposed(id: string, call: Dynamic<ToolCall>) returns (r: Outcome<()>)
      requires Valid()
      modifies this`db
      ensures call.Foreign? ==> r == Raised(Refused(WrongType)) && db == old(db)
      ensures call.Instance? ==>
        Answers(r, old(db), UNREAD, Propose(id, call.value)) && Performs(old(db), UNREAD, Propose(id, call.value))
    {
      if call.Foreign? {
        return Raised(Refused(WrongType));
      }
      hide Invariants.Valid, Refusal, Effect, Complaint;
      r := StoreCall(id, call.value);
    }

    method StoreCall(id: string, call: ToolCall) returns (r: Outcome<()>)
      requires Valid()
      modifies this`db
      ensures Answers(r, old(db), UNREAD, Propose(id, call))
      ensures Performs(old(db), UNREAD, Propose(id, call))
    {
      hide Invariants.Valid;
      Preservation.KeepsValid(db, monotonicDeadline, UNREAD, Propose(id, call));
      var e := RequireOpen();
      if e.Some? { return Raised(e.value); }
      e := Standing(db, id, Inference);
      if e.Some? { return Raised(e.value); }
      var i := Find(db.operations, id).value;
      db := db.(operations := db.operations[i := db.operations[i].(stage := Stage.Proposed, call := Some(call))]);
      r := Ok(());
    }

    method Dispatch(id: string, observation: bool, external: bool, now: Now) returns (r: Outcome<()>)
      requires Valid()
      modifies this`db
      ensures Answers(r, old(db), now, Action.Dispatch(id, observation, external))
      ensures Performs(old(db), now, Action.Dispatch(id, observation, external))
    {
      hide Invariants.Valid, DispatchRefusal;
      Preservation.KeepsValid(db, monotonicDeadline, now, Action.Dispatch(id, observation, external));
      var saved := db;
      var e := DispatchInTransaction(id, observation, external, now);
      if e.Some? {
        db := saved;
        return Raised(e.value);
      }
      r := Ok(());
    }

    method DispatchInTransaction(id: string, observation: bool, external: bool, now: Now) returns (e: Option<Error>)
      modifies this`db
      ensures e == DispatchRefusal(old(db), monotonicDeadline, now, id, external)
      ensures e.None? ==> db == Effect(old(db), now, Action.Dispatch(id, observation, external))
    {
      e := RequireTime(now);
      if e.Some? { return; }
      e := Standing(db, id, Stage.Proposed);
      if e.Some? { return; }
      for i := 0 to |db.requirements|
        invariant db == old(db).(lastClock := now.wall)
        invariant forall k :: 0 <= k < i && db.requirements[k].operation == id ==>
          var d := DecisionOf(db.decisions, id, db.requirements[k].guard); d.Some? && d.value.allowed
      {
        var row := db.requirements[i];
        if row.operation == id {
          var decision := DecisionOf(db.decisions, id, row.guard);
          if decision.None? || !decision.value.allowed {
            assert row in db.requirements;
            return Some(Refused(GuardNotAllowed));
          }
        }
      }
      e := Reserve(id, ToolUse);
      if e.Some? { return; }
      if external {
        e := Reserve(id, ExternalUse);
        if e.Some? { return; }
      }
      var i := Find(db.operations, id).value;
      db := db.(operations := db.operations[i := db.operations[i].(stage := Stage.Dispatched, observation := observation)]);
    }

    method Returned(id: string, output: Dynamic<string>) returns (r: Outcome<Candidate>)
      requires Valid()
      modifies this`db
      ensures output.Foreign? ==> r == Raised(Refused(WrongType)) && db == old(db)
      ensures output.Instance? ==>
        Answers(r, old(db), UNREAD, Return(id, output.value)) && Performs(old(db), UNREAD, Return(id, output.value))
      ensures r.Ok? ==> var i := Find(db.operations, id); i.Some? && r.value == CandidateOf(db.operations[i.value])
    {
      if output.Foreign? {
        return Raised(Refused(WrongType));
      }
      hide Invariants.Valid, Refusal, Effect, Complaint;
      r := StoreOutput(id, output.value);
    }

    method StoreOutput(id: string, output: string) returns (r: Outcome<Candidate>)
      requires Valid()
      modifies this`db
      ensures Answers(r, old(db), UNREAD, Return(id, output))
      ensures Performs(old(db), UNREAD, Return(id, output))
      ensures r.Ok? ==> var i := Find(db.operations, id); i.Some? && r.value == CandidateOf(db.operations[i.value])
    {
      hide Invariants.Valid, Standing, RewriteOf;
      Preservation.KeepsValid(db, monotonicDeadline, UNREAD, Return(id, output));
      var e, candidate := ReturnInTransaction(id, output);
      if e.Some? { return Raised(e.value); }
      r := Ok(candidate);
    }

    method ReturnInTransaction(id: string, output: string) returns (e: Option<Error>, candidate: Candidate)
      requires Valid()
      modifies this`db
      ensures e == Standing(old(db), id, Stage.Dispatched)
      ensures e.Some? ==> db == old(db)
      ensures e.None? ==> db == old(db).(operations := RewriteOf(old(db).operations, id, Return(id, output)))
      ensures e.None? ==> var i := Find(db.operations, id); i.Some? && candidate == CandidateOf(db.operations[i.value])
    {
      hide Invariants.Valid;
      candidate := Candidate(id, State(0, ""), ToolCall("", ""), output);
      Invariants.IdsWhenValid(db);
      e := Standing(db, id, Stage.Dispatched);
      if e.Some? { return; }
      var i := Find(db.operations, id).value;
      db := db.(operations := db.operations[i := db.operations[i].(stage := Stage.Returned, output := Some(output))]);
      Invariants.FindUnique(db.operations, i);
      candidate := CandidateOf(db.operations[i]);
    }

    method Complete(evaluation: Dynamic<Evaluation>, now: Now) returns (r: Outcome<StepResult>)
      requires Valid()
      modifies this`db
      ensures evaluation.Foreign? ==> db == old(db)
      ensures evaluation.Foreign? ==>
        r == Raised(First(OnTime(old(db), monotonicDeadline, now), Some(Refused(NotAnEvaluation))).value)
      ensures evaluation.Instance? ==>
        Answers(r, old(db), now, Action.Complete(evaluation.value))
        && Performs(old(db), now, Action.Complete(evaluation.value))
      ensures r.Ok? ==> evaluation.Instance?
      ensures r.Ok? && evaluation.value.verdict.Satisfied? && evaluation.value.stateUpdate.Some? ==>
        var next, e := Read(old(db)).revision + 1, evaluation.value;
        && r.value.committed && r.value.state == State(next, e.stateUpdate.value)
        && db.commits == old(db).commits + [CommitRow(next, e.candidate.id, e.candidate.base.revision, e.stateUpdate.value)]
      ensures r.Ok? && !(evaluation.value.verdict.Satisfied? && evaluation.value.stateUpdate.Some?) ==>
        !r.value.committed && r.value.state == Read(old(db)) && db.commits == old(db).commits
      ensures r.Ok? ==>
        r.value == StepResult(evaluation.value.candidate, evaluation.value, Read(db), evaluation.value.Published().Some?)
    {
      hide Invariants.Valid, Refusal, Effect, Complaint;
      if evaluation.Foreign? {
        var saved := db;
        var e := RequireTime(now);
        db := saved;
        return Raised(if e.Some? then e.value else Refused(NotAnEvaluation));
      }
      Publishing.PublishesExactly(db, now, evaluation.value);
      if Complaint(db, monotonicDeadline, now, Action.Complete(evaluation.value)).None? {
        AnswersMeaning(db, now, Action.Complete(evaluation.value));
      }
      r := Publish(evaluation.value, now);
    }

    method Publish(evaluation: Evaluation, now: Now) returns (r: Outcome<StepResult>)
      requires Valid()
      modifies this`db
      ensures Answers(r, old(db), now, Action.Complete(evaluation))
      ensures Performs(old(db), now, Action.Complete(evaluation))
      ensures r.Ok? ==> r.value == StepResult(evaluation.candidate, evaluation, Read(db), evaluation.Published().Some?)
    {
      hide Invariants.Valid, CompleteRefusal;
      var saved := db;
      Preservation.KeepsValid(saved, monotonicDeadline, now, Action.Complete(evaluation));
      var e := RequireTime(now);
      if e.Some? {
        return Raised(e.value);
      }
      SameRefusal(saved, saved.(lastClock := now.wall), evaluation);
      var current, committed;
      e, current, committed := CompleteInTransaction(evaluation);
      if e.Some? {
        db := saved;
        return Raised(e.value);
      }
      r := Ok(StepResult(evaluation.candidate, evaluation, current, committed));
    }

    /** The checks of a publication, against the row of its own operation. */
    method CheckCandidate(evaluation: Evaluation) returns (e: Option<Error>)
      ensures e == CompleteRefusal(db, evaluation)
      ensures e.None? ==>
        var i := Find(db.operations, evaluation.candidate.id);
        i.Some? && CandidateOf(db.operations[i.value]) == evaluation.candidate
    {
      hide CandidateOf, EvaluationOf, Read, NonBlank;
      var id := evaluation.candidate.id;
      e := Standing(db, id, Stage.Returned);
      if e.Some? { return; }
      var op := db.operations[Find(db.operations, id).value];
      e := CheckEvaluation(CandidateOf(op), evaluation);
      if e.Some? { return; }
      if Read(db) != op.request.base {
        e := Some(Refused(StaleCandidate));
        return;
      }
      if EvaluationOf(db.evaluations, id).Some? || exists c :: c in db.commits && c.operation == id {
        e := Some(Refused(DuplicateKey));
      }
    }

    method CompleteInTransaction(evaluation: Evaluation) returns (e: Option<Error>, current: State, committed: bool)
      modifies this`db
      ensures e == CompleteRefusal(old(db), evaluation)
      ensures e.None? ==> db == Effect(old(db), Now(old(db).lastClock, 0.0), Action.Complete(evaluation))
      ensures e.None? ==> current == Read(db) && committed == evaluation.Published().Some?
    {
      hide CompleteRefusal, CandidateOf, EvaluationOf, NonBlank;
      var id := evaluation.candidate.id;
      current, committed := Read(db), false;
      e := CheckCandidate(evaluation);
      if e.Some? { return; }
      var i := Find(db.operations, id).value;
      var candidate := CandidateOf(db.operations[i]);
      db := db.(evaluations := db.evaluations + [EvaluationRow(id, evaluation)]);
      committed := evaluation.verdict.Satisfied? && evaluation.stateUpdate.Some?;
      if committed {
        current := State(current.revision + 1, evaluation.stateUpdate.value);
        var row := CommitRow(current.revision, id, candidate.base.revision, current.value);
        assert (db.commits + [row])[..|db.commits|] == db.commits;
        db := db.(commits := db.commits + [row]);
      }
      db := db.(operations := db.operations[i := db.operations[i].(stage := Stage.Completed)]);
    }

    method Failed(id: string, error: string) returns (r: Outcome<()>)
      requires Valid()
      modifies this`db
      ensures Answers(r, old(db), UNREAD, Fail(id, error)) && Performs(old(db), UNREAD, Fail(id, error))
    {
      hide Invariants.Valid;
      Preservation.KeepsValid(db, monotonicDeadline, UNREAD, Fail(id, error));
      var found := Find(db.operations, id);
      if found.None? {
        return Raised(Refused(WrongStage));
      }
      var op := db.operations[found.value];
      var stage := if op.stage.Inference? || op.stage.Proposed? then Stage.Failed else op.stage;
      db := db.(operations := db.operations[found.value := op.(stage := stage, error := Some(error))]);
      r := Ok(());
    }

    method AbandonUndispatched(id: string) returns (r: Outcome<()>)
      requires Valid()
      modifies this`db
      ensures Answers(r, old(db), UNREAD, Abandon(id)) && Performs(old(db), UNREAD, Abandon(id))
    {
      hide Invariants.Valid;
      Preservation.KeepsValid(db, monotonicDeadline, UNREAD, Abandon(id));
      var e := RequireOpen();
      if e.Some? { return Raised(e.value); }
      var found := Find(db.operations, id);
      if found.None? {
        return Raised(Refused(WrongStage));
      }
      var op := db.operations[found.value];
      if !op.stage.PreDispatch() {
        return Raised(Refused(NotAbandonable));
      }
      db := db.(operations :=
        db.operations[found.value := op.(stage := Stage.Failed, error := Some("recovered before dispatch"))]);
      r := Ok(());
    }

    method Finish(outcome: Ending) returns (r: Outcome<()>)
      requires Valid()
      modifies this`db
      ensures Answers(r, old(db), UNREAD, Action.Finish(outcome)) && Performs(old(db), UNREAD, Action.Finish(outcome))
    {
      hide Invariants.Valid;
      Preservation.KeepsValid(db, monotonicDeadline, UNREAD, Action.Finish(outcome));
      if !outcome.Nonempty() {
        return Raised(Refused(BlankText));
      }
      var e := RequireOpen();
      if e.Some? { return Raised(e.value); }
      db := db.(outcome := Some(outcome));
      r := Ok(());
    }

    method CompletedOperations() returns (count: nat)
      ensures count == CompletedIn(db.operations)
    {
      count := 0;
      for i := 0 to |db.operations|
        invariant count == CompletedIn(db.operations[..i])
      {
        assert db.operations[..i + 1][..i] == db.operations[..i];
        if db.operations[i].stage.Completed? {
          count := count + 1;
        }
      }
      assert db.operations[..|db.operations|] == db.operations;
    }
  }
}
