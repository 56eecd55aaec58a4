/** Wall-clock stamps of authorising transactions, across closing and reopening the run. */
module Clocks {
  import opened Contracts
  import opened Tables
  import opened Journals
  import opened Invariants
  import opened Histories

  /** Stamps never decrease, whatever the clocks do. */
  lemma {:induction false} StampsNeverDecrease(w: World, events: seq<Event>)
    requires Reachable(w.journal)
    ensures w.journal.lastClock <= Run(w, events).journal.lastClock
  {
    hide Reachable;
    ReachableIsValid(w.journal);
    RunExtends(w, events);
  }

  /** How far the wall clock has run ahead of the monotonic clock since the file was opened. */
  function Drift(since: Now, now: Now): real {
    (now.wall - since.wall) - (now.monotonic - since.monotonic)
  }

  predicate BoundAt(owner: Owner, deadline: Option<real>) {
    owner.deadline == if deadline.None? then None
                      else Some(owner.since.monotonic + Max(0.0, deadline.value - owner.since.wall))
  }

  /** Exactly when a run with a deadline authorises work: it was opened before the deadline, and the
      wall clock is short of the deadline once its drift is taken off. */
  lemma AuthorisedExactly(j: Journal, owner: Owner, now: Now)
    requires j.deadline.Some? && BoundAt(owner, j.deadline) && now.monotonic >= owner.since.monotonic
    ensures OnTime(j, owner.deadline, now).None? <==>
      && j.outcome.None? && j.lastClock <= now.wall
      && owner.since.wall < j.deadline.value
      && now.wall < j.deadline.value + Drift(owner.since, now)
  {
  }

  /** What a new run reads: the initial state at revision 0, the initial observation, nothing pending, its whole limits,
      and a deadline exactly its wall time after its creation, or none when its wall time is not limited. */
  lemma NewRunReads(initialState: string, initialObservation: Option<string>, limits: Limits, now: Now)
    ensures var j := Create(initialState, initialObservation, limits, now);
      && Read(j) == State(0, initialState) && LatestObservation(j) == initialObservation
      && j.outcome == None && Pending(j) == None && j.operations == [] && CompletedIn(j.operations) == 0
      && j.limits == limits && Remaining(j, InferenceUse) == limits.inferenceCalls
      && Remaining(j, ToolUse) == limits.toolCalls && Remaining(j, ExternalUse) == limits.externalActions
      && Budget(j).available == limits.outputTokens && Budget(j).spent == 0 && Budget(j).held == 0
      && j.lastClock == now.wall
      && match limits.wallTimeSeconds
         case None => j.deadline == None
         case Some(seconds) => j.deadline.Some? && j.deadline.value - now.wall == seconds
  {
  }

  /** What an owner has left of a run that is opened: the time to its deadline at the opening, or nothing if that has
      passed, less what the monotonic clock has since gone on. */
  lemma TimeLeft(j: Journal, since: Now, now: Now)
    requires j.lastClock <= since.wall && since.monotonic <= now.monotonic
    ensures BoundDeadline(j, since).Ok?
    ensures var left := SecondsRemaining(BoundDeadline(j, since).value, now);
      match j.deadline
      case None => left == None
      case Some(deadline) =>
        var due := deadline - since.wall - (now.monotonic - since.monotonic);
        left == Some(if deadline <= since.wall || due <= 0.0 then 0.0 else due)
  {
  }

  /** Since each opening, the monotonic clock has not gone back and the wall clock has not outrun it. */
  ghost predicate InStep(w: World, events: seq<Event>) {
    forall i :: 0 <= i < |events| ==> StepInStep(Run(w, events[..i]), events[i])
  }

  predicate StepInStep(w: World, e: Event) {
    e.Call? && w.owner.Some? ==>
      e.now.monotonic >= w.owner.value.since.monotonic && Drift(w.owner.value.since, e.now) <= 0.0
  }

  predicate Timely(w: World) {
    && (w.owner.Some? ==> BoundAt(w.owner.value, w.journal.deadline))
    && (w.journal.deadline.Some? ==> w.journal.lastClock < w.journal.deadline.value)
  }

  lemma StampSource(j: Journal, deadline: Option<real>, now: Now, a: Action)
    ensures var k := Apply(j, deadline, now, a);
      k.deadline == j.deadline && (k.lastClock == j.lastClock || (k.lastClock == now.wall && OnTime(j, deadline, now).None?))
  {
  }

  lemma NextIsTimely(w: World, e: Event)
    requires Timely(w) && StepInStep(w, e)
    ensures Timely(Next(w, e))
  {
    hide Apply;
    if e.Call? && w.owner.Some? {
      var owner := w.owner.value;
      StampSource(w.journal, owner.deadline, e.now, e.action);
      if w.journal.deadline.Some? && OnTime(w.journal, owner.deadline, e.now).None? {
        AuthorisedExactly(w.journal, owner, e.now);
      }
    }
  }

  /** With clocks in step, every stamp of a run with a deadline is strictly before it. */
  lemma {:induction false} StampsBeforeDeadline(w: World, events: seq<Event>)
    requires Timely(w) && InStep(w, events)
    ensures Timely(Run(w, events))
  {
    if events != [] {
      var n := |events| - 1;
      assert forall i :: 0 <= i < n ==> events[..n][..i] == events[..i];
      StampsBeforeDeadline(w, events[..n]);
      assert StepInStep(Run(w, events[..n]), events[n]);
      NextIsTimely(Run(w, events[..n]), events[n]);
    }
  }

  lemma CreatedRunIsTimely(initialState: string, observation: Option<string>, limits: Limits, now: Now)
    ensures Timely(World(Create(initialState, observation, limits, now), None))
  {
  }

  /** The condition matters: there is a run, opened when it was created, whose machine is suspended for 99 seconds of
      its 10 and then starts an operation, stamped past the deadline. */
  lemma OutrunClockPassesDeadline()
    ensures exists limits: Limits, request: InferenceRequest ::
      var created := World(Create("", None, limits, Now(0.0, 0.0)), None);
      var events := [Open(Now(0.0, 0.0)), Call(Now(100.0, 1.0), Start("a", request, None, []))];
      var j := Run(created, events).journal;
      j.deadline.Some? && j.lastClock > j.deadline.value && |j.operations| == 1
  {
    var limits: Limits := RunLimits(1, 1, 1, Some(10.0), None);
    var request := InferenceRequest("", State(0, ""), [], None, [], None);
    var created := World(Create("", None, limits, Now(0.0, 0.0)), None);
    var opening, call := Open(Now(0.0, 0.0)), Call(Now(100.0, 1.0), Start("a", request, None, []));
    assert [opening, call][..1] == [opening] && [opening][..0] == [];
    assert Run(created, [opening]) == created.(owner := Some(Owner(Some(10.0), Now(0.0, 0.0))));
    StartsLate(created.journal, Some(10.0), request);
    assert Run(created, [opening, call]).journal == Apply(created.journal, Some(10.0), Now(100.0, 1.0), call.action);
  }

  lemma StartsLate(j: Journal, deadline: Option<real>, request: InferenceRequest)
    requires j.operations == [] && j.reservations == [] && j.commits == [] && j.outcome.None? && j.lastClock == 0.0
    requires j.limits.outputTokens.None? && j.limits.inferenceCalls > 0 && deadline == Some(10.0)
    requires request.base == State(0, j.initialState)
    ensures var k := Apply(j, deadline, Now(100.0, 1.0), Start("a", request, None, []));
      k.lastClock == 100.0 && |k.operations| == 1 && k.deadline == j.deadline
  {
  }

  /** The clocks have drifted apart by so much since the owner opened the run, and work is authorised now. */
  predicate AuthorisedAt(j: Journal, owner: Owner, drift: real, now: Now) {
    && now.monotonic >= owner.since.monotonic && Drift(owner.since, now) == drift
    && OnTime(j, owner.deadline, now).None?
  }

  /** Exactly when an open run keeps to its deadline: at a given drift of the wall clock since the owner opened it, every
      authorised call is stamped before the deadline if and only if the wall clock has not outrun the monotonic one. */
  lemma DeadlineKeptExactly(j: Journal, owner: Owner, drift: real)
    requires j.deadline.Some? && j.outcome.None? && j.lastClock < j.deadline.value
    requires BoundAt(owner, j.deadline) && owner.since.wall < j.deadline.value
    ensures drift <= 0.0 <==>
      forall now: Now | AuthorisedAt(j, owner, drift, now) :: now.wall < j.deadline.value
  {
    forall now: Now | AuthorisedAt(j, owner, drift, now)
      ensures drift <= 0.0 ==> now.wall < j.deadline.value
    {
      AuthorisedExactly(j, owner, now);
    }
    if drift > 0.0 {
      var wall := Max(j.deadline.value, owner.since.wall + drift);
      var now := Now(wall, owner.since.monotonic + (wall - owner.since.wall) - drift);
      AuthorisedExactly(j, owner, now);
      assert AuthorisedAt(j, owner, drift, now);
    }
  }
}
