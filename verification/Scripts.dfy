/** One step as a function of everything the application and the environment answer during it.
    Each callback may return anything of the right type, a foreign object, or raise; the process
    may die (Threw(ProcessDeath), or a dies flag) inside any callback and between any two writes. */
module Scripts {
  import opened Contracts
  import opened Tables
  import opened OutputBudgets
  import opened Journals
  import opened Tools
  import opened Workings

  datatype Reply<+T> = Value(value: T) | Alien | Threw(error: Error)

  /** One lifecycle event: the process dies before it is written, or the callback raises after. */
  datatype Notice = Notice(dies: bool, raised: Option<Error>) {
    function Fault(): Option<Error> { if dies then Some(ProcessDeath) else raised }
  }

  datatype GuardScript = GuardScript(reply: Reply<GuardDecision>, notice: Notice)

  datatype StepScript = StepScript(
    id: string,
    prepared: Option<Reply<InferenceRequest>>,  // None: no prepare_request callback
    planned: Option<Reply<Reservation>>,        // None: the adapter has no plan_output
    startClock: Now,
    started: Notice,
    generated: Reply<InferenceResult>,
    diesAfterUsage: bool,
    inferenceReturned: Notice,
    validation: Option<Error>,
    guards: nat -> GuardScript,
    dispatchClock: Now,
    toolDispatched: Notice,
    executed: Reply<string>,
    toolReturned: Notice,
    firstCheck: Now,
    evaluated: Reply<Evaluation>,
    secondCheck: Now,
    completeClock: Now,
    published: Notice,
    diesBeforeFailure: bool,                    // before failed() is written
    failureNoted: Notice,
    expired: bool)                              // the step's timeout turns its cancellation into TimeoutError

  // --------------------------------------------------- composing the request

  predicate Subset(names: seq<string>, allowed: seq<string>) {
    forall i :: 0 <= i < |names| ==> names[i] in allowed
  }

  function Keep(specs: seq<ToolSpec>, names: seq<string>): seq<ToolSpec> {
    if specs == [] then []
    else
      var n := |specs| - 1;
      Keep(specs[..n], names) + if specs[n].name in names then [specs[n]] else []
  }

  datatype Plan = Plan(request: InferenceRequest, reservation: Option<Reservation>)

  const ATTRIBUTE_ERROR: Error := Thrown(OtherError, ATTRIBUTE_NAME, 0, None)

  function PlanFor(budget: OutputBudget, request: InferenceRequest, planned: Option<Reply<Reservation>>): Outcome<Plan> {
    if budget.available.None? then Ok(Plan(request, None))
    else
      match planned
      case None => Raised(Refused(AdapterUnbounded))
      case Some(Threw(e)) => Raised(e)
      case Some(Alien) => Raised(Refused(WrongType))
      case Some(Value(r)) =>
        if r.kind.Model? && request.maxOutputTokens.Some? && r.tokens > request.maxOutputTokens.value then
          Raised(Refused(PlanExpandsCeiling))
        else Ok(Plan(request.(maxOutputTokens := Some(r.tokens)), Some(r)))
  }

  function Compose(j: Journal, tools: seq<Tool>, granted: seq<string>, objective: string, grants: Option<seq<string>>,
                   s: StepScript): Outcome<Plan>
  {
    var effective := if grants.None? then granted else grants.value;
    if !Subset(effective, granted) then Raised(Refused(GrantsExpanded))
    else
      var request := InferenceRequest(objective, Read(j), effective, LatestObservation(j), SpecsOf(tools, effective), None);
      match if s.prepared.None? then Value(request) else s.prepared.value
      case Threw(e) => Raised(e)
      case Alien => Raised(ATTRIBUTE_ERROR)
      case Value(p) =>
        if p.base != Read(j) then Raised(Refused(StateSubstituted))
        else if !Subset(p.allowedTools, effective) then Raised(Refused(AuthorityExpanded))
        else PlanFor(Budget(j), p.(tools := Keep(p.tools, p.allowedTools)), s.planned)
  }

  lemma {:induction false} KeepsGranted(specs: seq<ToolSpec>, names: seq<string>, spec: ToolSpec)
    ensures spec in Keep(specs, names) <==> spec in specs && spec.name in names
  {
    if specs != [] {
      var n := |specs| - 1;
      KeepsGranted(specs[..n], names, spec);
      assert specs == specs[..n] + [specs[n]];
    }
  }

  /** Whatever the callbacks answer, authority only narrows: the request stands on the accepted state,
      names tools granted for the step and by the runtime, and describes no others; a capped run has a
      reservation equal to the request's ceiling, an uncapped one has none. */
  lemma ComposeNarrows(j: Journal, tools: seq<Tool>, granted: seq<string>, objective: string, grants: Option<seq<string>>,
                       s: StepScript)
    requires Compose(j, tools, granted, objective, grants, s).Ok?
    ensures var plan := Compose(j, tools, granted, objective, grants, s).value;
      && plan.request.base == Read(j)
      && Subset(plan.request.allowedTools, granted)
      && (grants.Some? ==> Subset(plan.request.allowedTools, grants.value))
      && (forall spec :: spec in plan.request.tools ==> spec.name in plan.request.allowedTools)
      && (plan.reservation.Some? <==> j.limits.outputTokens.Some?)
      && (plan.reservation.Some? ==> plan.request.maxOutputTokens == Some(plan.reservation.value.tokens))
  {
    var plan := Compose(j, tools, granted, objective, grants, s).value;
    var p := if s.prepared.None? then
      InferenceRequest(objective, Read(j), plan.request.allowedTools, LatestObservation(j),
                       SpecsOf(tools, plan.request.allowedTools), None)
      else s.prepared.value.value;
    forall spec | spec in plan.request.tools ensures spec.name in plan.request.allowedTools {
      KeepsGranted(p.tools, p.allowedTools, spec);
    }
  }

  /** The kept descriptions stay in their order, and all are kept when all are allowed. */
  lemma {:induction false} KeepFollows(first: seq<ToolSpec>, second: seq<ToolSpec>, names: seq<string>)
    ensures Keep(first + second, names) == Keep(first, names) + Keep(second, names)
    ensures (forall spec :: spec in second ==> spec.name in names) ==> Keep(second, names) == second
  {
    if second == [] {
      assert first + second == first;
    } else {
      var n := |second| - 1;
      assert (first + second)[..|first| + n] == first + second[..n];
      KeepFollows(first, second[..n], names);
      assert second == second[..n] + [second[n]];
    }
  }

  lemma PlanKeeps(budget: OutputBudget, planned: Option<Reply<Reservation>>)
    ensures forall request {:trigger PlanFor(budget, request, planned)} :: PlanFor(budget, request, planned).Ok? ==>
      var plan := PlanFor(budget, request, planned).value; plan.request == request.(maxOutputTokens := plan.request.maxOutputTokens)
  {
  }

  /** Without a prepare_request callback the request is the runtime's own: the objective, the accepted state, the newest
      observation, everything granted for the step, and every registered tool of that described in full. */
  lemma ComposedByDefault(j: Journal, tools: seq<Tool>, granted: seq<string>, objective: string, grants: Option<seq<string>>,
                          s: StepScript)
    requires s.prepared.None? && Compose(j, tools, granted, objective, grants, s).Ok?
    ensures var request := Compose(j, tools, granted, objective, grants, s).value.request;
      && request.objective == objective && request.base == Read(j) && request.observation == LatestObservation(j)
      && request.allowedTools == (if grants.Some? then grants.value else granted)
      && request.tools == SpecsOf(tools, request.allowedTools)
  {
    hide Read, LatestObservation, Budget, SpecsOf, Keep, PlanFor, Subset;
    PlanKeeps(Budget(j), s.planned);
    var effective := if grants.None? then granted else grants.value;
    forall spec | spec in SpecsOf(tools, effective) ensures spec.name in effective {
      SpecsAreGranted(tools, effective, spec);
    }
    KeepFollows([], SpecsOf(tools, effective), effective);
  }

  /** A prepared request is sent as it is, but for descriptions of tools it does not allow and for its ceiling, which
      becomes the reservation's in a capped run. */
  lemma ComposedAsPrepared(j: Journal, tools: seq<Tool>, granted: seq<string>, objective: string, grants: Option<seq<string>>,
                           s: StepScript, p: InferenceRequest, spec: ToolSpec)
    requires s.prepared == Some(Value(p)) && Compose(j, tools, granted, objective, grants, s).Ok?
    ensures var plan := Compose(j, tools, granted, objective, grants, s).value;
      && plan.request.objective == p.objective && plan.request.base == p.base && plan.request.observation == p.observation
      && plan.request.allowedTools == p.allowedTools
      && plan.request.maxOutputTokens == (if plan.reservation.Some? then Some(plan.reservation.value.tokens) else p.maxOutputTokens)
      && (spec in plan.request.tools <==> spec in p.tools && spec.name in p.allowedTools)
  {
    hide Read, LatestObservation, Budget;
    KeepsGranted(p.tools, p.allowedTools, spec);
  }

  /** A request is composed exactly when every grant of the step is the runtime's, what was prepared is a request on the
      accepted state that allows nothing more, and, in a capped run, the adapter plans a reservation that does not expand
      a prepared ceiling. */
  lemma ComposedExactly(j: Journal, tools: seq<Tool>, granted: seq<string>, objective: string, grants: Option<seq<string>>,
                        s: StepScript)
    ensures Compose(j, tools, granted, objective, grants, s).Ok? <==>
      && (grants.Some? ==> forall g :: g in grants.value ==> g in granted)
      && (s.prepared.Some? ==>
            && s.prepared.value.Value? && s.prepared.value.value.base == Read(j)
            && forall name :: name in s.prepared.value.value.allowedTools ==>
                 name in if grants.Some? then grants.value else granted)
      && (j.limits.outputTokens.Some? ==>
            && s.planned.Some? && s.planned.value.Value?
            && (s.planned.value.value.kind.Model? && s.prepared.Some? && s.prepared.value.value.maxOutputTokens.Some? ==>
                  s.planned.value.value.tokens <= s.prepared.value.value.maxOutputTokens.value))
  {
    hide Read, LatestObservation, SpecsOf, Keep, Subset;
    var effective := if grants.None? then granted else grants.value;
    SubsetMeans(effective, granted);
    SubsetMeans(effective, effective);
    if s.prepared.Some? && s.prepared.value.Value? {
      SubsetMeans(s.prepared.value.value.allowedTools, effective);
    }
  }

  lemma SubsetMeans(names: seq<string>, allowed: seq<string>)
    ensures Subset(names, allowed) <==> forall name :: name in names ==> name in allowed
  {
    if Subset(names, allowed) {
      forall name | name in names ensures name in allowed {
        var i :| 0 <= i < |names| && names[i] == name;
      }
    } else {
      var i :| 0 <= i < |names| && names[i] !in allowed;
      assert names[i] in names;
    }
  }

  /** Otherwise the first of these is raised: grants beyond the runtime's; what the callback raised, or what comes of an
      answer that is no request; another base; more tools; an adapter without a plan; what the plan raised, or was not; a
      plan beyond the prepared ceiling. */
  lemma ComposeRaises(j: Journal, tools: seq<Tool>, granted: seq<string>, objective: string, grants: Option<seq<string>>,
                      s: StepScript)
    requires Compose(j, tools, granted, objective, grants, s).Raised?
    ensures var e := Compose(j, tools, granted, objective, grants, s).error;
      if grants.Some? && !Subset(grants.value, granted) then e == Refused(GrantsExpanded)
      else if s.prepared.Some? && s.prepared.value.Threw? then e == s.prepared.value.error
      else if s.prepared == Some(Alien) then e.Type() == "AttributeError"
      else if s.prepared.Some? && s.prepared.value.value.base != Read(j) then e == Refused(StateSubstituted)
      else if s.prepared.Some? && !Subset(s.prepared.value.value.allowedTools, if grants.Some? then grants.value else granted) then
        e == Refused(AuthorityExpanded)
      else if s.planned.None? then e == Refused(AdapterUnbounded)
      else if s.planned.value.Threw? then e == s.planned.value.error
      else if s.planned.value.Alien? then e == Refused(WrongType)
      else e == Refused(PlanExpandsCeiling)
  {
    hide Read, LatestObservation, SpecsOf, Keep;
  }

  /** start never finds a composed request stale, nor its reservation missing, superfluous or at odds with its ceiling. */
  lemma ComposedAdmission(j: Journal, deadline: Option<real>, now: Now, id: string, guards: seq<string>, tools: seq<Tool>,
                          granted: seq<string>, objective: string, grants: Option<seq<string>>, s: StepScript)
    requires Compose(j, tools, granted, objective, grants, s).Ok?
    ensures var plan := Compose(j, tools, granted, objective, grants, s).value;
      var e := StartRefusal(j, deadline, now, id, plan.request, plan.reservation, guards);
      e.Some? ==> !e.value.Refused? || !AtOdds(e.value.reason)
  {
    hide Compose, Read, Ready, OnTime, Find, Reserving, GuardIdentities;
    ComposeNarrows(j, tools, granted, objective, grants, s);
    OtherRefusals(j, deadline, now, id);
  }

  predicate AtOdds(reason: Reason) {
    reason.ReservationRequired? || reason.ReservationUnexpected? || reason.CeilingMismatch? || reason.StaleRequest?
  }

  lemma OtherRefusals(j: Journal, deadline: Option<real>, now: Now, id: string)
    ensures forall e :: e in {Ready(j), OnTime(j, deadline, now), Reserving(j, id, InferenceUse)} && e.Some? ==>
      e.value.Refused? && !AtOdds(e.value.reason)
  {
  }

  // ----------------------------------------------- where an admitted step stops

  /** _step's stage variable. */
  datatype LocalStage = Notifying | Inferring | Validating | Guarding | Dispatching | UsingTool | Evaluating

  datatype Fault = Fault(stage: LocalStage, error: Error)

  function At(stage: LocalStage, error: Option<Error>): Option<Fault> {
    if error.None? then None else Some(Fault(stage, error.value))
  }

  function Earlier(a: Option<Fault>, b: Option<Fault>): Option<Fault> { if a.Some? then a else b }

  function UsageFault(outputs: seq<OutputRow>, id: string, usage: Dynamic<Usage>): Option<Error> {
    if usage.Foreign? then Some(Refused(WrongType))
    else
      var reserved := OutputOf(outputs, id);
      Refuse(reserved.Some? && (usage.value.kind != reserved.value.kind || Tokens(usage.value) > reserved.value.tokens),
             OutputBreached)
  }

  /** The report, if one comes with the answer, is one that its reservation can bear. */
  predicate Bearable(outputs: seq<OutputRow>, id: string, usage: Dynamic<Usage>) {
    usage.Instance? && match OutputOf(outputs, id)
      case None => true
      case Some(reserved) =>
        usage.value.kind == reserved.kind && (usage.value.outputTokens.Some? ==> usage.value.outputTokens.value <= reserved.tokens)
  }

  /** Recording a report raises exactly when its reservation cannot bear it, and then for want of a type or a bound. */
  lemma BearsExactly(outputs: seq<OutputRow>, id: string, usage: Dynamic<Usage>)
    ensures UsageFault(outputs, id, usage).None? <==> Bearable(outputs, id, usage)
    ensures var e := UsageFault(outputs, id, usage);
      e.Some? ==> e.value.Refused? && (e.value.reason.WrongType? || e.value.reason.OutputBreached?)
  {
  }

  function GenerateFault(outputs: seq<OutputRow>, s: StepScript): Option<Error> {
    match s.generated
    case Threw(e) => if e.CarriesUsage() then First(UsageFault(outputs, s.id, e.usage.value), Some(e)) else Some(e)
    case Alien => Some(Refused(WrongType))
    case Value(response) =>
      First(UsageFault(outputs, s.id, response.usage),
      First(if s.diesAfterUsage then Some(ProcessDeath) else None,
            Refuse(response.call.Foreign?, WrongType)))
  }

  function InferFault(outputs: seq<OutputRow>, s: StepScript): Option<Fault> {
    Earlier(At(Notifying, s.started.Fault()),
    Earlier(At(Inferring, GenerateFault(outputs, s)),
            At(Notifying, s.inferenceReturned.Fault())))
  }

  function GuardFault(g: GuardScript): Option<Error> {
    match g.reply
    case Threw(e) => Some(e)
    case Alien => Some(Refused(WrongType))
    case Value(decision) => First(g.notice.Fault(), Refuse(!decision.allowed, GuardNotAllowed))
  }

  /** The first of n guards, from i on, that stops the step. */
  function GuardsFault(guards: nat -> GuardScript, i: nat, n: nat): Option<Error>
    requires i <= n
    decreases n - i
  {
    if i == n then None else First(GuardFault(guards(i)), GuardsFault(guards, i + 1, n))
  }

  function AuthoriseFault(tools: seq<Tool>, call: ToolCall, grants: seq<string>, n: nat, s: StepScript): Option<Fault> {
    match Prepared(tools, call, grants, s.validation)
    case Raised(e) => Some(Fault(Validating, e))
    case Ok(_) => At(Guarding, GuardsFault(s.guards, 0, n))
  }

  function ExecuteFault(s: StepScript): Option<Error> {
    match s.executed
    case Threw(e) => Some(e)
    case Alien => Some(Refused(WrongType))
    case Value(_) => None
  }

  function ActFault(j: Journal, deadline: Option<real>, tool: Tool, s: StepScript): Option<Fault> {
    Earlier(At(Dispatching, DispatchFault(j, deadline, s.dispatchClock, tool.externalAction)),
    Earlier(At(UsingTool, s.toolDispatched.Fault()),
            At(UsingTool, ExecuteFault(s))))
  }

  function Expired(deadline: Option<real>, now: Now): Option<Error> {
    Refuse(SecondsRemaining(deadline, now) == Some(0.0), WallTimeExhausted)
  }

  /** At the given clock no time is left to an owner with the given deadline. */
  predicate TimeIsUp(deadline: Option<real>, now: Now) { deadline.Some? && deadline.value <= now.monotonic }

  lemma ExpiresExactly(deadline: Option<real>, now: Now)
    ensures Expired(deadline, now) == if TimeIsUp(deadline, now) then Some(Refused(WallTimeExhausted)) else None
  {
  }

  /** The evaluator's answer until complete is called with it. */
  function EvaluateFault(deadline: Option<real>, s: StepScript): Option<Error> {
    First(s.toolReturned.Fault(),
    First(Expired(deadline, s.firstCheck),
    First(if s.evaluated.Threw? then Some(s.evaluated.error) else None,
          Expired(deadline, s.secondCheck))))
  }

  function CompleteFault(j: Journal, deadline: Option<real>, candidate: Candidate, now: Now, evaluated: Reply<Evaluation>)
    : Option<Error>
  {
    First(OnTime(j, deadline, now),
          if evaluated.Value? then PublishFault(candidate, evaluated.value) else Some(Refused(NotAnEvaluation)))
  }

  function JudgeFault(j: Journal, deadline: Option<real>, candidate: Candidate, s: StepScript): Option<Fault> {
    Earlier(At(Evaluating, First(EvaluateFault(deadline, s), CompleteFault(j, deadline, candidate, s.completeClock, s.evaluated))),
            At(Notifying, s.published.Fault()))
  }

  /** Where a step that start admitted stops, if it does. j is the run right after start; the clock
      stamp dispatch leaves is the only other thing the later checks read. */
  function StepFault(j: Journal, deadline: Option<real>, tools: seq<Tool>, guards: nat, request: InferenceRequest, s: StepScript)
    : Option<Fault>
  {
    var inferring := InferFault(j.outputs, s);
    if inferring.Some? then inferring
    else
      var call := CallOf(s);
      var authorising := AuthoriseFault(tools, call, request.allowedTools, guards, s);
      if authorising.Some? then authorising
      else
        var tool := ToolOf(tools, call);
        var acting := ActFault(j, deadline, tool, s);
        if acting.Some? then acting
        else
          JudgeFault(j.(lastClock := s.dispatchClock.wall), deadline,
                     Candidate(s.id, request.base, call, OutputOfTool(s)), s)
  }

  function CallOf(s: StepScript): ToolCall {
    if s.generated.Value? && s.generated.value.call.Instance? then s.generated.value.call.value else ToolCall("", "")
  }

  function ToolOf(tools: seq<Tool>, call: ToolCall): Tool {
    var t := Lookup(tools, call.name);
    if t.Some? then t.value else Tool("", false, false, "", "")
  }

  function OutputOfTool(s: StepScript): string { if s.executed.Value? then s.executed.value else "" }

  /** The tool is run: everything before it passed. */
  predicate Executes(j: Journal, deadline: Option<real>, tools: seq<Tool>, guards: nat, request: InferenceRequest, s: StepScript) {
    && InferFault(j.outputs, s).None?
    && AuthoriseFault(tools, CallOf(s), request.allowedTools, guards, s).None?
    && DispatchFault(j, deadline, s.dispatchClock, ToolOf(tools, CallOf(s)).externalAction).None?
    && s.toolDispatched.Fault().None?
  }

  lemma {:induction false} GuardsFaultMeaning(guards: nat -> GuardScript, i: nat, n: nat)
    requires i <= n
    ensures GuardsFault(guards, i, n).None? <==> forall k: nat :: i <= k < n ==> GuardFault(guards(k)).None?
    decreases n - i
  {
    if i < n {
      GuardsFaultMeaning(guards, i + 1, n);
    }
  }

  /** A call that reaches execute was granted, registered, accepted by its validator, and allowed by
      every guard; the response carried it, and no reservation was breached. */
  lemma ExecutedIsAuthorised(j: Journal, deadline: Option<real>, tools: seq<Tool>, guards: nat, request: InferenceRequest,
                             s: StepScript)
    requires Executes(j, deadline, tools, guards, request, s)
    ensures s.generated.Value? && s.generated.value.call == Instance(CallOf(s))
    ensures CallOf(s).name in request.allowedTools
    ensures exists t :: t in tools && t.name == CallOf(s).name
    ensures s.validation.None?
    ensures forall k: nat :: k < guards ==> s.guards(k).reply.Value? && s.guards(k).reply.value.allowed
    ensures s.generated.value.usage.Instance? && UsageFault(j.outputs, s.id, s.generated.value.usage).None?
  {
    GuardsFaultMeaning(s.guards, 0, guards);
    forall k: nat | k < guards ensures s.guards(k).reply.Value? && s.guards(k).reply.value.allowed {
      assert GuardFault(s.guards(k)).None?;
    }
    PreparedIsGranted(tools, CallOf(s), request.allowedTools, s.validation);
  }

  // --------------------------------------------------- what a step leaves noted

  function StageName(stage: LocalStage): string {
    match stage
    case Notifying => "notification"
    case Inferring => "inference"
    case Validating => "validation"
    case Guarding => "guard"
    case Dispatching => "dispatch"
    case UsingTool => "tool"
    case Evaluating => "evaluation"
  }

  /** The error text of a failed operation. */
  function FailureText(fault: Fault): string { StageName(fault.stage) + ": " + fault.error.Type() }

  /** Nothing of the failure is recorded: the process dies first. */
  predicate Silent(fault: Fault, s: StepScript) { fault.error == ProcessDeath || s.diesBeforeFailure }

  /** Rows appended to the report, decision and event tables. */
  datatype Notes = Notes(usage: seq<UsageRow>, decisions: seq<DecisionRow>, events: seq<EventRow>)

  const NO_NOTES: Notes := Notes([], [], [])

  function Then(a: Notes, b: Notes): Notes {
    Notes(a.usage + b.usage, a.decisions + b.decisions, a.events + b.events)
  }

  predicate Noted(j: Journal, k: Journal, notes: Notes) {
    && k.usage == j.usage + notes.usage
    && k.decisions == j.decisions + notes.decisions
    && k.events == j.events + notes.events
  }

  lemma NothingNoted(j: Journal, k: Journal)
    requires k.usage == j.usage && k.decisions == j.decisions && k.events == j.events
    ensures Noted(j, k, NO_NOTES)
  {
  }

  lemma NotedThen(j: Journal, k: Journal, l: Journal, a: Notes, b: Notes)
    requires Noted(j, k, a) && Noted(k, l, b)
    ensures Noted(j, l, Then(a, b))
  {
  }

  lemma NotedLast(j: Journal, k: Journal, a: Notes)
    requires Noted(j, k, a)
    ensures Noted(j, k, Then(a, NO_NOTES))
  {
  }

  lemma NotedStill(j: Journal, k: Journal, l: Journal, a: Notes)
    requires Noted(j, k, a) && Noted(k, l, NO_NOTES)
    ensures Noted(j, l, a)
  {
  }

  lemma NoneThen(a: Notes)
    ensures Then(NO_NOTES, a) == a
  {
  }

  lemma ThenAssociates(a: Notes, b: Notes, c: Notes)
    ensures Then(Then(a, b), c) == Then(a, Then(b, c))
  {
  }

  function EventNotes(id: string, stage: string, detail: string, notice: Notice): Notes {
    if notice.dies then NO_NOTES else Notes([], [], [EventRow(id, stage, detail)])
  }

  /** The report the runtime records for an answer, if it carries one. */
  function ReportIn(generated: Reply<InferenceResult>): Option<Dynamic<Usage>> {
    match generated
    case Value(response) => Some(response.usage)
    case Threw(e) => if e.CarriesUsage() then e.usage else None
    case Alien => None
  }

  function UsageNotes(id: string, usage: Option<Dynamic<Usage>>): Notes {
    if usage.Some? && usage.value.Instance? then Notes([UsageRow(id, usage.value.value)], [], []) else NO_NOTES
  }

  function InferNotes(outputs: seq<OutputRow>, s: StepScript): Notes {
    Then(EventNotes(s.id, "started", "", s.started),
         if s.started.Fault().Some? then NO_NOTES
         else
           Then(UsageNotes(s.id, ReportIn(s.generated)),
                if GenerateFault(outputs, s).Some? then NO_NOTES
                else EventNotes(s.id, "inference_returned", "", s.inferenceReturned)))
  }

  function GuardNotes(id: string, guard: string, g: GuardScript): Notes {
    match g.reply
    case Value(d) =>
      Then(Notes([], [DecisionRow(id, guard, d)], []),
           EventNotes(id, if d.allowed then "guard_allowed" else "guard_denied", guard, g.notice))
    case _ => NO_NOTES
  }

  /** The guards are asked in order, each once, up to the first that stops the step. */
  function GuardsNotes(id: string, names: seq<string>, guards: nat -> GuardScript, i: nat): Notes
    requires i <= |names|
    decreases |names| - i
  {
    if i == |names| then NO_NOTES
    else
      Then(GuardNotes(id, names[i], guards(i)),
           if GuardFault(guards(i)).Some? then NO_NOTES else GuardsNotes(id, names, guards, i + 1))
  }

  function AuthoriseNotes(tools: seq<Tool>, call: ToolCall, grants: seq<string>, names: seq<string>, s: StepScript): Notes {
    if Prepared(tools, call, grants, s.validation).Raised? then NO_NOTES else GuardsNotes(s.id, names, s.guards, 0)
  }

  function ActNotes(j: Journal, deadline: Option<real>, call: ToolCall, tool: Tool, s: StepScript): Notes {
    if DispatchFault(j, deadline, s.dispatchClock, tool.externalAction).Some? then NO_NOTES
    else EventNotes(s.id, "tool_dispatched", call.name, s.toolDispatched)
  }

  function JudgeNotes(j: Journal, deadline: Option<real>, candidate: Candidate, s: StepScript): Notes {
    Then(EventNotes(s.id, "tool_returned", candidate.call.name, s.toolReturned),
         if First(EvaluateFault(deadline, s), CompleteFault(j, deadline, candidate, s.completeClock, s.evaluated)).Some? then
           NO_NOTES
         else EventNotes(s.id, if Commits(s.evaluated) then "committed" else "observed", "", s.published))
  }

  predicate Commits(evaluated: Reply<Evaluation>) { evaluated.Value? && evaluated.value.Published().Some? }

  /** An effect is noted as unknown exactly when the tool was running. */
  function FailureNotes(fault: Fault, s: StepScript): Notes {
    if Silent(fault, s) then NO_NOTES
    else
      EventNotes(s.id, if fault.stage.UsingTool? then "effect_unknown" else "failed", StageName(fault.stage),
                 Notice(s.failureNoted.dies, None))
  }

  /** Everything an admitted step notes, up to where it stops. */
  function AttemptNotes(j: Journal, deadline: Option<real>, tools: seq<Tool>, names: seq<string>, request: InferenceRequest,
                        s: StepScript): Notes
  {
    var call := CallOf(s);
    var tool := ToolOf(tools, call);
    Then(InferNotes(j.outputs, s),
      if InferFault(j.outputs, s).Some? then NO_NOTES
      else Then(AuthoriseNotes(tools, call, request.allowedTools, names, s),
        if AuthoriseFault(tools, call, request.allowedTools, |names|, s).Some? then NO_NOTES
        else Then(ActNotes(j, deadline, call, tool, s),
          if ActFault(j, deadline, tool, s).Some? then NO_NOTES
          else JudgeNotes(j.(lastClock := s.dispatchClock.wall), deadline,
                          Candidate(s.id, request.base, call, OutputOfTool(s)), s))))
  }

  function StepNotes(j: Journal, deadline: Option<real>, tools: seq<Tool>, names: seq<string>, request: InferenceRequest,
                     s: StepScript): Notes
  {
    var fault := StepFault(j, deadline, tools, |names|, request, s);
    Then(AttemptNotes(j, deadline, tools, names, request, s), if fault.Some? then FailureNotes(fault.value, s) else NO_NOTES)
  }

  predicate NotesUnknown(notes: Notes) {
    exists e :: e in notes.events && e.stage == "effect_unknown"
  }

  lemma UnknownThen(a: Notes, b: Notes)
    ensures NotesUnknown(Then(a, b)) <==> NotesUnknown(a) || NotesUnknown(b)
  {
    assert forall e :: e in Then(a, b).events <==> e in a.events || e in b.events;
  }

  lemma EventsUnknown(id: string, stage: string, detail: string, notice: Notice)
    ensures NotesUnknown(EventNotes(id, stage, detail, notice)) <==> !notice.dies && stage == "effect_unknown"
    ensures !NotesUnknown(NO_NOTES)
  {
    if !notice.dies {
      assert EventRow(id, stage, detail) in EventNotes(id, stage, detail, notice).events;
    }
  }

  lemma {:induction false} GuardsKnown(id: string, names: seq<string>, guards: nat -> GuardScript, i: nat)
    requires i <= |names|
    ensures !NotesUnknown(GuardsNotes(id, names, guards, i))
    decreases |names| - i
  {
    if i < |names| {
      var g := guards(i);
      if g.reply.Value? {
        var stage := if g.reply.value.allowed then "guard_allowed" else "guard_denied";
        EventsUnknown(id, stage, names[i], g.notice);
        UnknownThen(Notes([], [DecisionRow(id, names[i], g.reply.value)], []), EventNotes(id, stage, names[i], g.notice));
      }
      GuardsKnown(id, names, guards, i + 1);
      UnknownThen(GuardNotes(id, names[i], g),
                  if GuardFault(g).Some? then NO_NOTES else GuardsNotes(id, names, guards, i + 1));
    }
  }

  lemma InferenceKnown(outputs: seq<OutputRow>, s: StepScript)
    ensures !NotesUnknown(InferNotes(outputs, s))
  {
    hide GenerateFault;
    var first, last := EventNotes(s.id, "started", "", s.started), EventNotes(s.id, "inference_returned", "", s.inferenceReturned);
    EventsUnknown(s.id, "started", "", s.started);
    EventsUnknown(s.id, "inference_returned", "", s.inferenceReturned);
    var usage := UsageNotes(s.id, ReportIn(s.generated));
    UnknownThen(usage, last);
    UnknownThen(usage, NO_NOTES);
    UnknownThen(first, NO_NOTES);
    UnknownThen(first, Then(usage, last));
    UnknownThen(first, Then(usage, NO_NOTES));
  }

  lemma ActionsKnown(j: Journal, deadline: Option<real>, call: ToolCall, tool: Tool, candidate: Candidate, s: StepScript)
    ensures !NotesUnknown(ActNotes(j, deadline, call, tool, s)) && !NotesUnknown(JudgeNotes(j, deadline, candidate, s))
  {
    hide DispatchFault, EvaluateFault, CompleteFault, Commits;
    EventsUnknown(s.id, "tool_dispatched", call.name, s.toolDispatched);
    EventsUnknown(s.id, "tool_returned", candidate.call.name, s.toolReturned);
    EventsUnknown(s.id, if Commits(s.evaluated) then "committed" else "observed", "", s.published);
    UnknownThen(EventNotes(s.id, "tool_returned", candidate.call.name, s.toolReturned),
                EventNotes(s.id, if Commits(s.evaluated) then "committed" else "observed", "", s.published));
    UnknownThen(EventNotes(s.id, "tool_returned", candidate.call.name, s.toolReturned), NO_NOTES);
  }

  lemma AttemptKnown(j: Journal, deadline: Option<real>, tools: seq<Tool>, names: seq<string>, request: InferenceRequest,
                     s: StepScript)
    ensures !NotesUnknown(AttemptNotes(j, deadline, tools, names, request, s))
  {
    hide NotesUnknown, InferNotes, GuardsNotes, ActNotes, JudgeNotes, InferFault, AuthoriseFault, ActFault, Then;
    var call := CallOf(s);
    var tool := ToolOf(tools, call);
    var stamped := j.(lastClock := s.dispatchClock.wall);
    var candidate := Candidate(s.id, request.base, call, OutputOfTool(s));
    var third, fourth := ActNotes(j, deadline, call, tool, s), JudgeNotes(stamped, deadline, candidate, s);
    var second := AuthoriseNotes(tools, call, request.allowedTools, names, s);
    InferenceKnown(j.outputs, s);
    GuardsKnown(s.id, names, s.guards, 0);
    ActionsKnown(j, deadline, call, tool, candidate, s);
    ActionsKnown(stamped, deadline, call, tool, candidate, s);
    EventsUnknown("", "", "", s.started);
    var last := if ActFault(j, deadline, tool, s).Some? then NO_NOTES else fourth;
    UnknownThen(third, last);
    var rest := if AuthoriseFault(tools, call, request.allowedTools, |names|, s).Some? then NO_NOTES else Then(third, last);
    UnknownThen(second, rest);
    UnknownThen(InferNotes(j.outputs, s), if InferFault(j.outputs, s).Some? then NO_NOTES else Then(second, rest));
  }

  /** The journal says that an effect is unknown exactly for a step that stopped while its tool was running and lived to
      say so. */
  lemma UnknownEffectIsNoted(j: Journal, deadline: Option<real>, tools: seq<Tool>, names: seq<string>,
                             request: InferenceRequest, s: StepScript)
    ensures var fault := StepFault(j, deadline, tools, |names|, request, s);
      NotesUnknown(StepNotes(j, deadline, tools, names, request, s)) <==>
        && fault.Some? && fault.value.stage.UsingTool? && fault.value.error != ProcessDeath
        && !s.diesBeforeFailure && !s.failureNoted.dies
  {
    hide NotesUnknown, AttemptNotes, StepFault, StageName, Then;
    var fault := StepFault(j, deadline, tools, |names|, request, s);
    AttemptKnown(j, deadline, tools, names, request, s);
    EventsUnknown("", "", "", s.started);
    if fault.Some? {
      EventsUnknown(s.id, if fault.value.stage.UsingTool? then "effect_unknown" else "failed", StageName(fault.value.stage),
                    Notice(s.failureNoted.dies, None));
    }
    UnknownThen(AttemptNotes(j, deadline, tools, names, request, s),
                if fault.Some? then FailureNotes(fault.value, s) else NO_NOTES);
  }
}
