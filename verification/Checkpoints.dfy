/** Where an admitted step stops and what it has noted by then, told in the terms of what was answered. */
module Checkpoints {
  import opened Contracts
  import opened Tables
  import opened OutputBudgets
  import opened Journals
  import opened Tools
  import opened Scripts
  import opened Workings

  // ------------------------------------------------------------------ where it stops

  /** Before the call is known the first of these stops a step: its announcement, the report that came with an exception,
      the exception itself, an answer of another type, its report, a call of another type, or the second announcement. */
  lemma InferenceStops(outputs: seq<OutputRow>, s: StepScript)
    ensures InferFault(outputs, s) ==
      if s.started.dies then Some(Fault(Notifying, ProcessDeath))
      else if s.started.raised.Some? then Some(Fault(Notifying, s.started.raised.value))
      else
        match s.generated
        case Alien => Some(Fault(Inferring, Refused(WrongType)))
        case Threw(e) =>
          if e.CarriesUsage() && e.usage.value.Foreign? then Some(Fault(Inferring, Refused(WrongType)))
          else if e.CarriesUsage() && !Bearable(outputs, s.id, e.usage.value) then Some(Fault(Inferring, Refused(OutputBreached)))
          else Some(Fault(Inferring, e))
        case Value(response) =>
          if response.usage.Foreign? then Some(Fault(Inferring, Refused(WrongType)))
          else if !Bearable(outputs, s.id, response.usage) then Some(Fault(Inferring, Refused(OutputBreached)))
          else if s.diesAfterUsage then Some(Fault(Inferring, ProcessDeath))
          else if response.call.Foreign? then Some(Fault(Inferring, Refused(WrongType)))
          else if s.inferenceReturned.dies then Some(Fault(Notifying, ProcessDeath))
          else if s.inferenceReturned.raised.Some? then Some(Fault(Notifying, s.inferenceReturned.raised.value))
          else None
  {
    hide OutputOf;
  }

  /** What comes of asking one guard. */
  predicate Passes(g: GuardScript) {
    g.reply.Value? && !g.notice.dies && g.notice.raised.None? && g.reply.value.allowed
  }

  function Refusal(g: GuardScript): Error {
    match g.reply
    case Threw(e) => e
    case Alien => Refused(WrongType)
    case Value(_) =>
      if g.notice.dies then ProcessDeath
      else if g.notice.raised.Some? then g.notice.raised.value
      else Refused(GuardNotAllowed)
  }

  lemma {:induction false} FirstGuardStops(guards: nat -> GuardScript, i: nat, first: nat, n: nat)
    requires i <= first < n && !Passes(guards(first)) && forall k: nat :: i <= k < first ==> Passes(guards(k))
    ensures GuardsFault(guards, i, n) == Some(Refusal(guards(first)))
    decreases first - i
  {
    if i < first {
      FirstGuardStops(guards, i + 1, first, n);
    }
  }

  /** A known call is stopped where it is not granted, not registered, or turned down by its validator, and otherwise by
      the first guard that does not let it pass. */
  lemma AuthorisationStops(tools: seq<Tool>, call: ToolCall, grants: seq<string>, n: nat, s: StepScript, first: nat)
    ensures var registered := exists t :: t in tools && t.name == call.name;
      var f := AuthoriseFault(tools, call, grants, n, s);
      if call.name !in grants then f == Some(Fault(Validating, Refused(ToolNotGranted)))
      else if !registered then f == Some(Fault(Validating, Refused(ToolNotRegistered)))
      else if s.validation.Some? then
        f == Some(Fault(Validating, if s.validation.value.IsValueError() && s.validation.value.Class() != BudgetExhausted
                                    then Refused(InvalidArguments) else s.validation.value))
      else
        && (f.None? <==> forall k: nat :: k < n ==> Passes(s.guards(k)))
        && (first < n && !Passes(s.guards(first)) && (forall k: nat :: k < first ==> Passes(s.guards(k))) ==>
              f == Some(Fault(Guarding, Refusal(s.guards(first)))))
  {
    PreparedIsGranted(tools, call, grants, s.validation);
    GuardsFaultMeaning(s.guards, 0, n);
    assert forall k: nat :: GuardFault(s.guards(k)).None? <==> Passes(s.guards(k));
    if first < n && !Passes(s.guards(first)) && forall k: nat :: k < first ==> Passes(s.guards(k)) {
      FirstGuardStops(s.guards, 0, first, n);
    }
  }

  /** Dispatch is stopped by an ended run, a clock behind the last stamp, the deadline, and then by what is left of the
      tool calls and, for an external tool, of the external actions; after it only the tool's own event and its answer are. */
  lemma ActionStops(j: Journal, deadline: Option<real>, tool: Tool, s: StepScript)
    ensures ActFault(j, deadline, tool, s) ==
      if j.outcome.Some? then Some(Fault(Dispatching, Refused(RunEnded)))
      else if s.dispatchClock.wall < j.lastClock then Some(Fault(Dispatching, Refused(ClockMovedBackwards)))
      else if TimeIsUp(deadline, s.dispatchClock) then Some(Fault(Dispatching, Refused(WallTimeExhausted)))
      else if Remaining(j, ToolUse) <= 0 then Some(Fault(Dispatching, Refused(CapacityExhausted(ToolUse))))
      else if tool.externalAction && Remaining(j, ExternalUse) <= 0 then
        Some(Fault(Dispatching, Refused(CapacityExhausted(ExternalUse))))
      else if s.toolDispatched.dies then Some(Fault(UsingTool, ProcessDeath))
      else if s.toolDispatched.raised.Some? then Some(Fault(UsingTool, s.toolDispatched.raised.value))
      else if s.executed.Threw? then Some(Fault(UsingTool, s.executed.error))
      else if s.executed.Alien? then Some(Fault(UsingTool, Refused(WrongType)))
      else None
  {
    hide CountOf;
  }

  /** A returned result is stopped by its own event, the deadline before and after the evaluator, what the evaluator raises,
      and what publication refuses; a published one only by the last event. */
  lemma JudgementStops(j: Journal, deadline: Option<real>, candidate: Candidate, s: StepScript)
    requires j.outcome.None?
    ensures JudgeFault(j, deadline, candidate, s) ==
      if s.toolReturned.dies then Some(Fault(Evaluating, ProcessDeath))
      else if s.toolReturned.raised.Some? then Some(Fault(Evaluating, s.toolReturned.raised.value))
      else if TimeIsUp(deadline, s.firstCheck) then Some(Fault(Evaluating, Refused(WallTimeExhausted)))
      else if s.evaluated.Threw? then Some(Fault(Evaluating, s.evaluated.error))
      else if TimeIsUp(deadline, s.secondCheck) then Some(Fault(Evaluating, Refused(WallTimeExhausted)))
      else if Unpublished(j, deadline, candidate, s).Some? then
        Some(Fault(Evaluating, Refused(Unpublished(j, deadline, candidate, s).value)))
      else if s.published.dies then Some(Fault(Notifying, ProcessDeath))
      else if s.published.raised.Some? then Some(Fault(Notifying, s.published.raised.value))
      else None
  {
    PublicationStops(j, deadline, candidate, s);
  }

  /** Why complete refuses the evaluator's answer, if it does. */
  function Unpublished(j: Journal, deadline: Option<real>, candidate: Candidate, s: StepScript): Option<Reason> {
    if s.completeClock.wall < j.lastClock then Some(ClockMovedBackwards)
    else if TimeIsUp(deadline, s.completeClock) then Some(WallTimeExhausted)
    else if !s.evaluated.Value? then Some(NotAnEvaluation)
    else
      var evaluation := s.evaluated.value;
      if evaluation.candidate.id != candidate.id then Some(WrongStage)
      else if evaluation.candidate != candidate then Some(EvaluationUnbound)
      else if !NonBlank(evaluation.evaluator) || !NonBlank(evaluation.scope) || !NonBlank(evaluation.reason) then
        Some(EvaluationIncomplete)
      else None
  }

  lemma PublicationStops(j: Journal, deadline: Option<real>, candidate: Candidate, s: StepScript)
    requires j.outcome.None?
    ensures CompleteFault(j, deadline, candidate, s.completeClock, s.evaluated) ==
      match Unpublished(j, deadline, candidate, s)
      case Some(reason) => Some(Refused(reason))
      case None => None
  {
    hide NonBlank;
  }

  /** A step stops at the first phase that stops: inference, authorisation, action, and then judgement, which goes by the
      clock that dispatch stamped and by the candidate made of the request, the call and the output. */
  lemma PhasesInOrder(j: Journal, deadline: Option<real>, tools: seq<Tool>, n: nat, request: InferenceRequest, s: StepScript)
    ensures var f := StepFault(j, deadline, tools, n, request, s);
      var call := CallOf(s);
      var inference, authorisation := InferFault(j.outputs, s), AuthoriseFault(tools, call, request.allowedTools, n, s);
      var action := ActFault(j, deadline, ToolOf(tools, call), s);
      if inference.Some? then f == inference
      else
        && s.generated == Value(InferenceResult(Instance(call), s.generated.value.usage))
        && if authorisation.Some? then f == authorisation
           else
             && ToolOf(tools, call) in tools && ToolOf(tools, call).name == call.name
             && (action.Some? ==> f == action)
             && (action.None? ==>
                   s.executed.Value? &&
                   f == JudgeFault(j.(lastClock := s.dispatchClock.wall), deadline,
                                   Candidate(s.id, request.base, call, s.executed.value), s))
  {
    hide UsageFault, GuardsFault, DispatchFault, JudgeFault;
    PreparedIsGranted(tools, CallOf(s), request.allowedTools, s.validation);
  }

  /** The tool is run exactly in a step that gets past the announcement of its dispatch: one that stops with the tool's own
      answer, in its judgement, with the last notification, or nowhere. */
  lemma RunsExactly(j: Journal, deadline: Option<real>, tools: seq<Tool>, n: nat, request: InferenceRequest, s: StepScript)
    ensures var f := StepFault(j, deadline, tools, n, request, s);
      Executes(j, deadline, tools, n, request, s) <==>
        || f.None? || f.value.stage == Evaluating
        || (f.value.stage == UsingTool && !s.toolDispatched.dies && s.toolDispatched.raised.None?)
        || (f.value.stage == Notifying && InferFault(j.outputs, s).None?)
  {
    hide GenerateFault, Prepared, GuardsFault, DispatchFault, EvaluateFault, CompleteFault;
  }

  // ---------------------------------------------------------------- what it has noted

  function GuardEvent(id: string, guard: string, g: GuardScript): EventRow {
    EventRow(id, if g.reply.Value? && g.reply.value.allowed then "guard_allowed" else "guard_denied", guard)
  }

  function GuardEvents(id: string, names: seq<string>, guards: nat -> GuardScript): seq<EventRow> {
    seq(|names|, i requires 0 <= i < |names| => GuardEvent(id, names[i], guards(i)))
  }

  /** The events of a step that nothing stops, in order. */
  function Story(names: seq<string>, s: StepScript): seq<EventRow> {
    var tool := CallOf(s).name;
    [EventRow(s.id, "started", ""), EventRow(s.id, "inference_returned", "")]
    + GuardEvents(s.id, names, s.guards)
    + [EventRow(s.id, "tool_dispatched", tool)] + Ending(tool, s)
  }

  function Ending(tool: string, s: StepScript): seq<EventRow> {
    var committed := s.evaluated.Value? && s.evaluated.value.verdict == Satisfied && s.evaluated.value.stateUpdate.Some?;
    [EventRow(s.id, "tool_returned", tool), EventRow(s.id, if committed then "committed" else "observed", "")]
  }

  /** The decisions of guards that all answer. */
  function Verdicts(id: string, names: seq<string>, guards: nat -> GuardScript): seq<DecisionRow> {
    seq(|names|, i requires 0 <= i < |names| =>
      DecisionRow(id, names[i],
                  if guards(i).reply.Value? then guards(i).reply.value else RawGuardDecision.GuardDecision(false, "?")))
  }

  /** The notes are the beginning of these, or the whole of them; the reports are these in either case. */
  predicate Tells(notes: Notes, usage: seq<UsageRow>, decisions: seq<DecisionRow>, events: seq<EventRow>, whole: bool) {
    && notes.usage == usage && notes.decisions <= decisions && notes.events <= events
    && (whole ==> notes.decisions == decisions && notes.events == events)
  }

  lemma TellsOn(a: Notes, b: Notes, usage: seq<UsageRow>, before: seq<DecisionRow>, after: seq<DecisionRow>,
                first: seq<EventRow>, second: seq<EventRow>, whole: bool)
    requires Tells(a, usage, before, first, true) && Tells(b, [], after, second, whole)
    ensures Tells(Then(a, b), usage, before + after, first + second, whole)
  {
  }

  lemma TellsNoMore(a: Notes, usage: seq<UsageRow>, before: seq<DecisionRow>, after: seq<DecisionRow>, first: seq<EventRow>,
                    second: seq<EventRow>, whole: bool)
    requires Tells(a, usage, before, first, whole)
    ensures Tells(Then(a, NO_NOTES), usage, before + after, first + second, false)
  {
  }

  lemma GuardTells(id: string, names: seq<string>, guards: nat -> GuardScript, i: nat)
    requires i < |names|
    ensures Tells(GuardNotes(id, names[i], guards(i)), [], [Verdicts(id, names, guards)[i]], [GuardEvents(id, names, guards)[i]],
                  GuardFault(guards(i)).None?)
    ensures Verdicts(id, names, guards)[i..] == [Verdicts(id, names, guards)[i]] + Verdicts(id, names, guards)[i + 1..]
    ensures GuardEvents(id, names, guards)[i..] == [GuardEvents(id, names, guards)[i]] + GuardEvents(id, names, guards)[i + 1..]
  {
  }

  lemma {:induction false} GuardsTell(id: string, names: seq<string>, guards: nat -> GuardScript, i: nat)
    requires i <= |names|
    ensures Tells(GuardsNotes(id, names, guards, i), [], Verdicts(id, names, guards)[i..], GuardEvents(id, names, guards)[i..],
                  GuardsFault(guards, i, |names|).None?)
    decreases |names| - i
  {
    if i < |names| {
      hide GuardNotes, GuardFault, Verdicts, GuardEvents, Then, Tells;
      GuardTells(id, names, guards, i);
      GuardsTell(id, names, guards, i + 1);
      var verdicts, events := Verdicts(id, names, guards), GuardEvents(id, names, guards);
      var notes := GuardNotes(id, names[i], guards(i));
      if GuardFault(guards(i)).None? {
        TellsOn(notes, GuardsNotes(id, names, guards, i + 1), [], [verdicts[i]], verdicts[i + 1..], [events[i]], events[i + 1..],
                GuardsFault(guards, i + 1, |names|).None?);
      } else {
        TellsNoMore(notes, [], [verdicts[i]], verdicts[i + 1..], [events[i]], events[i + 1..], false);
      }
    }
  }

  /** The report of the adapter's answer, if it was asked: of a result, or of one of the three exceptions that carry one. */
  function Reported(s: StepScript): seq<UsageRow> {
    if s.started.dies || s.started.raised.Some? then []
    else
      match s.generated
      case Alien => []
      case Value(response) => if response.usage.Instance? then [UsageRow(s.id, response.usage.value)] else []
      case Threw(e) =>
        if e.Thrown? && e.kind in {InferenceFailure, InferenceRejected, InferenceCancelled} && e.usage.Some?
           && e.usage.value.Instance?
        then [UsageRow(s.id, e.usage.value.value)] else []
  }

  lemma InferenceTells(outputs: seq<OutputRow>, s: StepScript)
    ensures Tells(InferNotes(outputs, s), Reported(s), [],
                  [EventRow(s.id, "started", ""), EventRow(s.id, "inference_returned", "")], InferFault(outputs, s).None?)
  {
    hide GenerateFault;
  }

  lemma ActionTells(j: Journal, deadline: Option<real>, call: ToolCall, tool: Tool, s: StepScript)
    ensures Tells(ActNotes(j, deadline, call, tool, s), [], [], [EventRow(s.id, "tool_dispatched", call.name)],
                  ActFault(j, deadline, tool, s).None?)
  {
    hide DispatchFault;
  }

  lemma JudgementTells(j: Journal, deadline: Option<real>, candidate: Candidate, s: StepScript)
    ensures Tells(JudgeNotes(j, deadline, candidate, s), [], [], Ending(candidate.call.name, s),
                  JudgeFault(j, deadline, candidate, s).None?)
  {
    hide CompleteFault, Expired;
  }

  /** Wherever a step stops, its events so far are the beginning of the one story, its decisions the beginning of its
      guards' answers, and its report the adapter's if it was asked; one that does not stop tells the whole. */
  lemma AttemptTells(j: Journal, deadline: Option<real>, tools: seq<Tool>, names: seq<string>, request: InferenceRequest,
                     s: StepScript)
    ensures Tells(AttemptNotes(j, deadline, tools, names, request, s), Reported(s), Verdicts(s.id, names, s.guards),
                  Story(names, s), StepFault(j, deadline, tools, |names|, request, s).None?)
  {
    hide InferNotes, AuthoriseNotes, ActNotes, JudgeNotes, InferFault, ActFault, JudgeFault, AuthoriseFault, Tells, Then,
      Verdicts, GuardEvents, Ending, Reported;
    var call, tool := CallOf(s), ToolOf(tools, CallOf(s));
    var stamped := j.(lastClock := s.dispatchClock.wall);
    var candidate := Candidate(s.id, request.base, call, OutputOfTool(s));
    var verdicts, asked := Verdicts(s.id, names, s.guards), GuardEvents(s.id, names, s.guards);
    var first := [EventRow(s.id, "started", ""), EventRow(s.id, "inference_returned", "")];
    var third, fourth := [EventRow(s.id, "tool_dispatched", call.name)], Ending(call.name, s);
    var act, judge := ActNotes(j, deadline, call, tool, s), JudgeNotes(stamped, deadline, candidate, s);
    var authorise := AuthoriseNotes(tools, call, request.allowedTools, names, s);
    assert verdicts + [] == verdicts && [] + verdicts == verdicts;
    assert Story(names, s) == first + (asked + (third + fourth));
    InferenceTells(j.outputs, s);
    if InferFault(j.outputs, s).Some? {
      TellsNoMore(InferNotes(j.outputs, s), Reported(s), [], verdicts, first, asked + (third + fourth), false);
      return;
    }
    AuthorisationTells(tools, call, request.allowedTools, names, s);
    if AuthoriseFault(tools, call, request.allowedTools, |names|, s).Some? {
      TellsNoMore(authorise, [], verdicts, [], asked, third + fourth, false);
      TellsOn(InferNotes(j.outputs, s), Then(authorise, NO_NOTES), Reported(s), [], verdicts, first,
              asked + (third + fourth), false);
      return;
    }
    ActionTells(j, deadline, call, tool, s);
    JudgementTells(stamped, deadline, candidate, s);
    var rest := if ActFault(j, deadline, tool, s).Some? then NO_NOTES else judge;
    var whole := ActFault(j, deadline, tool, s).None? && JudgeFault(stamped, deadline, candidate, s).None?;
    if ActFault(j, deadline, tool, s).Some? {
      TellsNoMore(act, [], [], [], third, fourth, false);
    } else {
      TellsOn(act, judge, [], [], [], third, fourth, whole);
    }
    assert Tells(Then(act, rest), [], [], third + fourth, whole);
    TellsOn(authorise, Then(act, rest), [], verdicts, [], asked, third + fourth, whole);
    TellsOn(InferNotes(j.outputs, s), Then(authorise, Then(act, rest)), Reported(s), [], verdicts, first,
            asked + (third + fourth), whole);
  }

  lemma AuthorisationTells(tools: seq<Tool>, call: ToolCall, grants: seq<string>, names: seq<string>, s: StepScript)
    ensures Tells(AuthoriseNotes(tools, call, grants, names, s), [], Verdicts(s.id, names, s.guards),
                  GuardEvents(s.id, names, s.guards), AuthoriseFault(tools, call, grants, |names|, s).None?)
  {
    hide GuardsNotes, Prepared, GuardsFault;
    GuardsTell(s.id, names, s.guards, 0);
    assert Verdicts(s.id, names, s.guards)[0..] == Verdicts(s.id, names, s.guards);
    assert GuardEvents(s.id, names, s.guards)[0..] == GuardEvents(s.id, names, s.guards);
  }

  // ------------------------------------------------------------- how far the story got

  /** As many events and decisions. */
  predicate Counts(notes: Notes, decisions: nat, events: nat) { |notes.decisions| == decisions && |notes.events| == events }

  /** The events a step has noted when it stops with the fault; asked is the first guard that does not let it pass. */
  function EventsBy(f: Option<Fault>, inferred: bool, asked: nat, n: nat, s: StepScript): nat {
    if f.None? then n + 5
    else
      match f.value.stage
      case Notifying =>
        if inferred then if s.published.dies then n + 4 else n + 5
        else if s.started.dies then 0
        else if s.started.raised.Some? || s.inferenceReturned.dies then 1
        else 2
      case Inferring => 1
      case Validating => 2
      case Guarding => 2 + asked + if s.guards(asked).reply.Value? && !s.guards(asked).notice.dies then 1 else 0
      case Dispatching => n + 2
      case UsingTool => if s.toolDispatched.dies then n + 2 else n + 3
      case Evaluating => if s.toolReturned.dies then n + 3 else n + 4
  }

  function DecisionsBy(f: Option<Fault>, inferred: bool, asked: nat, n: nat, s: StepScript): nat {
    if f.None? then n
    else
      match f.value.stage
      case Notifying => if inferred then n else 0
      case Inferring => 0
      case Validating => 0
      case Guarding => if s.guards(asked).reply.Value? then asked + 1 else asked
      case _ => n
  }

  ghost predicate FirstStopping(guards: nat -> GuardScript, asked: nat, n: nat) {
    && asked <= n && (asked < n ==> !Passes(guards(asked)))
    && forall k: nat :: k < asked ==> Passes(guards(k))
  }

  lemma InferenceCounts(outputs: seq<OutputRow>, s: StepScript)
    ensures Counts(InferNotes(outputs, s), 0,
                   if InferFault(outputs, s).None? then 2 else EventsBy(InferFault(outputs, s), false, 0, 0, s))
    ensures InferFault(outputs, s).Some? ==> InferFault(outputs, s).value.stage in {Notifying, Inferring}
  {
    hide GenerateFault;
  }

  lemma {:induction false} GuardsCount(id: string, names: seq<string>, guards: nat -> GuardScript, i: nat, asked: nat)
    requires i <= asked && FirstStopping(guards, asked, |names|)
    ensures var answered := asked < |names| && guards(asked).reply.Value?;
      Counts(GuardsNotes(id, names, guards, i), asked - i + (if answered then 1 else 0),
             asked - i + if answered && !guards(asked).notice.dies then 1 else 0)
    ensures GuardsFault(guards, i, |names|).None? <==> asked == |names|
    decreases asked - i
  {
    if i < asked {
      GuardsCount(id, names, guards, i + 1, asked);
    }
  }

  lemma ActionCounts(j: Journal, deadline: Option<real>, call: ToolCall, tool: Tool, s: StepScript)
    ensures var f := ActFault(j, deadline, tool, s);
      && Counts(ActNotes(j, deadline, call, tool, s), 0,
                if f.Some? && (f.value.stage.Dispatching? || s.toolDispatched.dies) then 0 else 1)
      && (f.Some? ==> f.value.stage in {Dispatching, UsingTool})
      && (f.None? ==> !s.toolDispatched.dies)
  {
    hide DispatchFault;
  }

  lemma JudgementCounts(j: Journal, deadline: Option<real>, candidate: Candidate, s: StepScript)
    ensures var f := JudgeFault(j, deadline, candidate, s);
      && Counts(JudgeNotes(j, deadline, candidate, s), 0,
                if f.None? then 2
                else if f.value.stage.Evaluating? then if s.toolReturned.dies then 0 else 1
                else if s.published.dies then 1
                else 2)
      && (f.Some? ==> f.value.stage in {Evaluating, Notifying})
  {
    hide CompleteFault, Expired;
  }

  /** With what AttemptTells says, the notes of a step that stops are exactly known: all up to the event whose writing,
      or whose callback, or what was asked after it, stopped the step. */
  lemma AttemptCounts(j: Journal, deadline: Option<real>, tools: seq<Tool>, names: seq<string>, request: InferenceRequest,
                      s: StepScript, asked: nat)
    requires FirstStopping(s.guards, asked, |names|)
    ensures var f := StepFault(j, deadline, tools, |names|, request, s);
      var inferred := InferFault(j.outputs, s).None?;
      Counts(AttemptNotes(j, deadline, tools, names, request, s), DecisionsBy(f, inferred, asked, |names|, s),
             EventsBy(f, inferred, asked, |names|, s))
  {
    hide InferNotes, AuthoriseNotes, ActNotes, JudgeNotes, InferFault, AuthoriseFault, ActFault, JudgeFault, FirstStopping;
    var call, tool := CallOf(s), ToolOf(tools, CallOf(s));
    var stamped := j.(lastClock := s.dispatchClock.wall);
    InferenceCounts(j.outputs, s);
    ActionCounts(j, deadline, call, tool, s);
    JudgementCounts(stamped, deadline, Candidate(s.id, request.base, call, OutputOfTool(s)), s);
    var f, notes := StepFault(j, deadline, tools, |names|, request, s), AttemptNotes(j, deadline, tools, names, request, s);
    if InferFault(j.outputs, s).Some? {
      assert Counts(notes, 0, EventsBy(f, false, asked, |names|, s));
    } else if AuthoriseFault(tools, call, request.allowedTools, |names|, s).Some? {
      AuthorisationCounts(tools, call, request.allowedTools, names, s, asked);
    } else {
      AuthorisationCounts(tools, call, request.allowedTools, names, s, asked);
      if ActFault(j, deadline, tool, s).Some? {
        assert Counts(notes, |names|, EventsBy(f, true, asked, |names|, s));
      } else {
        var judge := JudgeNotes(stamped, deadline, Candidate(s.id, request.base, call, OutputOfTool(s)), s);
        assert Counts(notes, |names|, |names| + 3 + |judge.events|);
      }
    }
  }

  lemma AuthorisationCounts(tools: seq<Tool>, call: ToolCall, grants: seq<string>, names: seq<string>, s: StepScript, asked: nat)
    requires FirstStopping(s.guards, asked, |names|)
    ensures var f := AuthoriseFault(tools, call, grants, |names|, s);
      && (f.None? ==> Counts(AuthoriseNotes(tools, call, grants, names, s), |names|, |names|))
      && (f.Some? ==>
            && f.value.stage in {Validating, Guarding} && EventsBy(f, true, asked, |names|, s) >= 2
            && Counts(AuthoriseNotes(tools, call, grants, names, s), DecisionsBy(f, true, asked, |names|, s),
                      EventsBy(f, true, asked, |names|, s) - 2))
  {
    hide GuardsNotes, GuardsFault, Prepared, Passes;
    GuardsCount(s.id, names, s.guards, 0, asked);
  }

  /** A failure adds one event, that names its stage, unless the process dies first; the operation's error text names the
      stage and the exception's type. */
  lemma FailureTells(fault: Fault, s: StepScript)
    ensures FailureText(fault) == StageName(fault.stage) + ": " + fault.error.Type()
    ensures var notes := FailureNotes(fault, s);
      && notes.usage == [] && notes.decisions == []
      && notes.events
         == if fault.error == ProcessDeath || s.diesBeforeFailure || s.failureNoted.dies then []
            else [EventRow(s.id, if fault.stage == UsingTool then "effect_unknown" else "failed", StageName(fault.stage))]
  {
    hide StageName;
  }

  lemma StageIsNamed(stage: LocalStage)
    ensures StageName(stage) ==
      match stage
      case Notifying => "notification"
      case Inferring => "inference"
      case Validating => "validation"
      case Guarding => "guard"
      case Dispatching => "dispatch"
      case UsingTool => "tool"
      case Evaluating => "evaluation"
  {
  }

  lemma {:induction false} SomeGuardIsFirst(guards: nat -> GuardScript, i: nat, n: nat) returns (asked: nat)
    requires i <= n && forall k: nat :: k < i ==> Passes(guards(k))
    ensures FirstStopping(guards, asked, n)
    decreases n - i
  {
    asked := i;
    if i < n && Passes(guards(i)) {
      asked := SomeGuardIsFirst(guards, i + 1, n);
    }
  }

  /** Everything an admitted step notes, exactly: the one report, the decisions and the story as far as it got, and the
      event of its failure unless the process died first. */
  lemma StepTells(j: Journal, deadline: Option<real>, tools: seq<Tool>, names: seq<string>, request: InferenceRequest,
                  s: StepScript, asked: nat)
    requires FirstStopping(s.guards, asked, |names|)
    ensures var f := StepFault(j, deadline, tools, |names|, request, s);
      var inferred := InferFault(j.outputs, s).None?;
      var notes := StepNotes(j, deadline, tools, names, request, s);
      && notes.usage == Reported(s)
      && DecisionsBy(f, inferred, asked, |names|, s) <= |names|
      && notes.decisions == Verdicts(s.id, names, s.guards)[..DecisionsBy(f, inferred, asked, |names|, s)]
      && EventsBy(f, inferred, asked, |names|, s) <= |names| + 5 == |Story(names, s)|
      && notes.events == Story(names, s)[..EventsBy(f, inferred, asked, |names|, s)]
         + if f.None? || f.value.error == ProcessDeath || s.diesBeforeFailure || s.failureNoted.dies then []
           else [EventRow(s.id, if f.value.stage == UsingTool then "effect_unknown" else "failed", StageName(f.value.stage))]
  {
    hide AttemptNotes, StepFault, FailureNotes, InferFault, Story, Verdicts, Reported, EventsBy, DecisionsBy, StageName,
      FirstStopping;
    var f := StepFault(j, deadline, tools, |names|, request, s);
    AttemptTells(j, deadline, tools, names, request, s);
    AttemptCounts(j, deadline, tools, names, request, s, asked);
    StoryLength(names, s);
    if f.Some? {
      FailureTells(f.value, s);
    }
  }

  lemma StoryLength(names: seq<string>, s: StepScript)
    ensures |Story(names, s)| == |names| + 5 && |Verdicts(s.id, names, s.guards)| == |names|
  {
  }
}
