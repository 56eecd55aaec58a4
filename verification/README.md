# A verified model of the Flynn agents SDK's durable run

The SDK drives a language model through a sequence of *operations*. Each operation asks for one tool call, checks
it, runs it, and publishes an evaluated result. Everything that matters is kept in one SQLite file, so that a process
may die at any point and another may go on. This project models that file, the drivers that use it, the output-token
budget, the context compiler and the DeepSeek adapter, and proves what they keep in every run.

## How it is built

- `Contracts`, `Tables`: the records, the exception classes, and one database file as a value, one sequence per table.
- `Journals`: the derived reads, and for every store call what it refuses, in order, and what it writes. `Refusals` tells
  the same from the rows of the tables.
- `OutputBudgets`, `Accounting`: the two folds over reports and reservations, as loops, with their meaning.
- `Invariants`, `Preservation`: the one invariant of a file and the proof that every transaction keeps it, for any
  arguments in any order.
- `Histories`: whole runs as sequences of calls, crashes and reopenings; nothing recorded is ever lost.
- `Publishing`, `Admission`, `Endings`, `Clocks`: the theorems over all such histories.
- `SQLiteRuns`: the store as a class. Its methods write step by step inside a transaction and roll back; each is proved
  to answer and to leave exactly what `Journals` says.
- `Tools`, `Scripts`, `Workings`, `Runtimes`: the broker, one step as a function of everything the application answers,
  and the `Runtime` class with its stage-tracked `step` and its `recover`.
- `Checkpoints`: where a step stops and what it has noted by then, in the terms of what was answered.
- `Executions`, `Sessions`, `Lifetimes`: what really ran, the `Session` loop, and the whole life of a file under any
  number of processes that step, recover, hold sessions and die.
- `Contexts`, `DeepSeeks`: the bounded selection of context, and the adapter's ceiling and response decision.

Callbacks (policy, inference, guards, validators, tools, evaluator, notifications) may answer anything of the right
type, a foreign object, or raise. Their answers, the clocks, operation identities and the points where the process dies
are fields of a script, over which the theorems quantify. `ProcessDeath` stands for the process ending on the spot: no
handler runs after it. JSON columns hold the records themselves.

## Main results

1. Every store call keeps the invariant, so every reachable file has it (`Preservation.KeepsValid`,
   `Histories.ReachableIsValid`); reads of accepted state are a replay of published updates.
2. In a capped run a truthful adapter never generates more than the cap over the whole run, and model work that is over
   stays over along every continuation (`Admission.CapIsKept`, `Admission.ModelWorkStaysOver`).
3. A step stops exactly where the first of its callbacks, clocks or capacities stops it; on every exit, the process dying
   included, its durable stage agrees with its local stage, and its notes are exactly the beginning of one story up to that
   point (`Runtimes.Runtime.Step`, `Checkpoints.PhasesInOrder`, `Checkpoints.StepTells`). A recovery that returns leaves
   nothing pending (`Runtimes.RecoveryClears`).
4. A session goes round at most once more than the inference calls left, and records exactly what was completed during
   it (`Sessions.Session.Execute`).
5. Over the whole life of a file no operation runs its tool twice, external actions never exceed their limit, and once
   an effect is unknown nothing runs any more (`Lifetimes.Live`). What the drivers do to a file is always a history in
   the sense of 1, so every theorem over histories applies to it.
6. The context compiler returns the lexicographically greatest selection that fits, and refuses exactly when the
   required items do not fit together (`Contexts.ContextCompiler.Compile`, `Contexts.CompiledIsBest`).
7. The adapter accepts exactly the responses of one shape, names the first failing check of any other, and reports the
   same usage either way, as long as decoding raises no other exception (`DeepSeeks.AcceptedIsEnvelope`,
   `DeepSeeks.DeepSeekAdapter.Generate`).

Two expectations are not met as they stand.

- `docs/guides/runtime.md:38` says that wall time includes downtime. That holds of the time a file is closed, but while
  it is open the deadline follows the monotonic clock. `Clocks.OutrunClockPassesDeadline` gives a run, from its
  creation on, whose machine is suspended and whose next operation is stamped past the deadline.
  `Clocks.DeadlineKeptExactly` gives the exact condition: at a given drift between the clocks since the opening, every
  authorised stamp is before the deadline if and only if the wall clock has not outrun the monotonic one.
  `Clocks.StampsBeforeDeadline` carries the guarantee over whole histories.
- `docs/guides/deepseek.md:35` says that completion usage is retained, also when a call is rejected. When decoding raises
  an exception other than a `ValueError`, as arguments nested too deep do, the adapter drops the report it has built,
  and the reservation stays unresolved (`DeepSeeks.DeepArgumentsLoseReport`). `DeepSeeks.RepliesCarryReport` says exactly
  when the report is kept.

## Model

| member | source | states |
|---|---|---|
| Preservation.KeepsValid | src/flynn_agents_sdk/sqlite_run.py:387-645 | whatever call is made, with whatever arguments, clock and order, a file that satisfies the invariant still does: one open operation and the last, bases and commits replayed, capacity counted, guards obeyed, reports bound, tokens settled |
| Preservation.StartKeepsValid | src/flynn_agents_sdk/sqlite_run.py:387-437 | an admitted start keeps the whole invariant, for any request, reservation and guards |
| Preservation.DispatchKeepsValid | src/flynn_agents_sdk/sqlite_run.py:559-582 | a dispatch that is not refused keeps the invariant: capacity stays exact and every required guard has allowed it |
| Preservation.CompleteKeepsValid | src/flynn_agents_sdk/sqlite_run.py:594-625 | a publication keeps the invariant: the commit table is still the replay and the evaluation is bound to its candidate |
| Preservation.CreatedIsValid | src/flynn_agents_sdk/sqlite_run.py:85-196 | a newly created file satisfies the invariant |
| Preservation.ReadIsReplay | src/flynn_agents_sdk/sqlite_run.py:287-293 | read() is the replay of what completed operations published |
| Preservation.OpenOnAccepted | src/flynn_agents_sdk/sqlite_run.py:420-421 | an open operation was requested on the state that is still accepted |
| Histories.RunIsValid | src/flynn_agents_sdk/sqlite_run.py:242-252 | any sequence of calls, crashes and reopenings keeps the invariant |
| Histories.RunExtends | src/flynn_agents_sdk/sqlite_run.py:242-252 | along any history nothing recorded is lost or rewritten, operations only move forward, and the clock stamp never decreases |
| Histories.NothingIsLost | src/flynn_agents_sdk/sqlite_run.py:242-252 | so it is for every reachable run, whatever happens to it next |
| Histories.ReachableIsValid | src/flynn_agents_sdk/sqlite_run.py:85-196 | every file that some history of a new run leads to satisfies the invariant |
| Histories.DrivenLeads | src/flynn_agents_sdk/sqlite_run.py:242-252 | what an owner's calls make of a file is a history of it |
| Publishing.AcceptedStateIsReplay | src/flynn_agents_sdk/sqlite_run.py:287-293 | in every reachable run read() is the fold of satisfied updates of completed operations in order; revisions are 1..n on consecutive bases; every operation's base is the replay of those before it |
| Publishing.PublishesExactly | src/flynn_agents_sdk/sqlite_run.py:606-623 | a satisfied verdict with a state update becomes one commit row at the next revision, on the candidate's base, and the state read; any other evaluation leaves commits and state alone |
| Publishing.CommitsAreSatisfied | src/flynn_agents_sdk/sqlite_run.py:608-621 | in every reachable run each commit belongs to a satisfied evaluation carrying that update, and each such evaluation has its commit |
| Publishing.OnePending | src/flynn_agents_sdk/sqlite_run.py:336-356 | at most one operation is open; it is the last, the one pending() returns, and its base is the accepted state |
| Publishing.CompleteNeverStale | src/flynn_agents_sdk/sqlite_run.py:594-603 | for a returned operation complete refuses exactly when check_evaluation does: the stale-base refusal and the duplicate-row refusals never fire |
| Publishing.DuplicateKeys | src/flynn_agents_sdk/sqlite_run.py:315-320 | the only keys a call can collide with are a reused operation identity, a guard already decided and a report already made |
| Publishing.LatestObservationIsNewest | src/flynn_agents_sdk/sqlite_run.py:295-301 | latest_observation() is the output of the last returned operation dispatched as an observation |
| Publishing.NoObservation | src/flynn_agents_sdk/sqlite_run.py:295-301 | and the initial observation when there is none |
| Publishing.ExactCapacity | src/flynn_agents_sdk/sqlite_run.py:303-320 | inference reservations are as many as operations, tool reservations as operations past dispatch, external ones are a subset, and no remaining value is negative |
| Publishing.RemainingNeverGrows | src/flynn_agents_sdk/sqlite_run.py:303-320 | no call, crash or reopening gives capacity back |
| Publishing.DispatchedIsAllowed | src/flynn_agents_sdk/sqlite_run.py:563-575 | whatever is past dispatch has an allow for every guard required at start, and keeps it along every history |
| Publishing.DeniedNeverDispatches | src/flynn_agents_sdk/sqlite_run.py:563-575 | once a required guard has refused, no continuation dispatches the operation |
| Publishing.RunFixesGuards | src/flynn_agents_sdk/sqlite_run.py:428-456 | no later call adds a guard to an operation or a decision to a dispatched one |
| OutputBudgets.ComputeBudget | src/flynn_agents_sdk/output_budget.py:9-37 | the loop computes, over all rows, the sum of what each reservation contributes |
| OutputBudgets.RowContributes | src/flynn_agents_sdk/output_budget.py:25-36 | what one reservation contributes, told from the rows: its reported tokens are spent; all its tokens are held while it has no count or one of the other kind, and none once it has; unresolved and breached likewise |
| OutputBudgets.TallyAdds | src/flynn_agents_sdk/output_budget.py:16-36 | the sums add up over any splitting of the table, so no reservation counts twice or not at all |
| OutputBudgets.ClearHoldsNothing | src/flynn_agents_sdk/output_budget.py:31-37 | when every reservation is settled nothing is held: what they left unused is free again |
| OutputBudgets.CountersMeaning | src/flynn_agents_sdk/output_budget.py:25-36 | unresolved and breached are both zero exactly when every model reservation is settled and no scripted one contradicted |
| OutputBudgets.HonestIsCovered | src/flynn_agents_sdk/output_budget.py:16-37 | spent and held together cover whatever was generated within the reservations and as reported |
| Admission.AvailableIsExact | src/flynn_agents_sdk/output_budget.py:37-37 | while nothing is breached spent + held stays within the limit, so available is their exact difference and the clamp at zero never acts |
| Admission.AvailableInFigures | src/flynn_agents_sdk/output_budget.py:31-37 | in a reachable run without a breach, available is the cap less the output reported, and less the whole of the one unsettled reservation while there is one |
| Admission.AvailableClamps | src/flynn_agents_sdk/output_budget.py:37-37 | with or without a breach, available is what the cap leaves after spent and held, and never below zero |
| Admission.CapIsKept | src/flynn_agents_sdk/sqlite_run.py:401-437 | any true consumption within its reservations and equal to its reports sums to at most the cap, over the whole run |
| Admission.OneUnsettled | src/flynn_agents_sdk/sqlite_run.py:410-417 | at most one model reservation is unresolved or breached |
| Admission.AdmittedExactly | src/flynn_agents_sdk/sqlite_run.py:404-419 | a model reservation is admitted exactly when it equals the request's ceiling, every earlier one is settled, and it fits in the cap together with all output reported so far |
| Admission.ModelWorkStaysOver | src/flynn_agents_sdk/sqlite_run.py:410-415 | after a breach, or once an operation left inference without a usable report, no continuation admits another model reservation |
| Admission.BreachIsKept | src/flynn_agents_sdk/sqlite_run.py:489-499 | a report that breaks its reservation raises, is kept all the same, and ends model work |
| Admission.ScriptedWorkUnaffected | src/flynn_agents_sdk/sqlite_run.py:405-419 | start answers a scripted reservation alike whatever was reserved and reported before |
| Accounting.SummarizeUsage | src/flynn_agents_sdk/accounting.py:9-29 | raises exactly when a report does not bind its own existing operation, and otherwise returns the declarative summary |
| Accounting.SummaryGrows | src/flynn_agents_sdk/accounting.py:17-29 | what one more report adds to each figure: its own tokens, one request if it was started, one scripted or unknown invocation if it is one, and one unreported invocation less if its operation had none |
| Accounting.NothingReported | src/flynn_agents_sdk/accounting.py:17-29 | without reports every operation is unreported and every other figure is zero |
| Accounting.ProjectionsAgree | src/flynn_agents_sdk/accounting.py:20-29 | in a capped run the summary's known output equals the admission fold's spent |
| Accounting.InvocationsAreConserved | src/flynn_agents_sdk/accounting.py:10-29 | every invocation is reported scripted, reported model, or unreported, and the binding error never fires in a reachable run |
| Endings.EndedForever | src/flynn_agents_sdk/sqlite_run.py:263-285 | after finish every table but operations is frozen, and there only late evidence appears |
| Endings.EndedReads | src/flynn_agents_sdk/sqlite_run.py:263-313 | outcome, accepted state, budget, remaining capacity and the completed count never change after finish |
| Endings.ObservationSettles | src/flynn_agents_sdk/sqlite_run.py:584-592 | after finish the latest observation changes at most once |
| Clocks.StampsNeverDecrease | src/flynn_agents_sdk/sqlite_run.py:267-274 | stamps never decrease over a whole run, whatever the clocks do |
| Clocks.AuthorisedExactly | src/flynn_agents_sdk/sqlite_run.py:257-274 | work is authorised exactly when the run is open, the clock is not behind the stamp, and the wall clock less its drift since opening is short of the deadline |
| Clocks.StampsBeforeDeadline | src/flynn_agents_sdk/sqlite_run.py:217-223 | with clocks in step every stamp is strictly before the deadline, however often the run is reopened |
| Clocks.CreatedRunIsTimely | src/flynn_agents_sdk/sqlite_run.py:177-191 | a new run starts out so |
| Clocks.NewRunReads | src/flynn_agents_sdk/sqlite_run.py:176-191 | a new run reads its initial state at revision 0 and its initial observation, has nothing pending and all its limits left, and its deadline is its wall time after its creation, or none |
| Clocks.TimeLeft | src/flynn_agents_sdk/sqlite_run.py:217-261 | after an opening what is left is the time that was left to the deadline then, less what the monotonic clock has gone on since, and never below zero |
| Clocks.OutrunClockPassesDeadline | src/flynn_agents_sdk/sqlite_run.py:217-223 | a concrete history of a created run, opened at once, whose wall clock outruns the monotonic one: an operation is started and stamped past the deadline |
| Clocks.DeadlineKeptExactly | src/flynn_agents_sdk/sqlite_run.py:257-274 | for an open run opened before its deadline, every stamp authorised at a given drift is before the deadline if and only if the wall clock has not outrun the monotonic one |
| Contracts.EvaluationChecked | src/flynn_agents_sdk/contracts.py:269-279 | an evaluation passes exactly when it is of that very candidate and its evaluator, scope and reason are not blank; unbound comes before incomplete |
| Contracts.NonBlankHasText | src/flynn_agents_sdk/contracts.py:277-279 | a text counts as blank exactly when every character of it is white space |
| Contracts.RefusalsByType | src/flynn_agents_sdk/contracts.py:15-24 | the exception type each refusal of the library carries, and that only database and attribute errors are no ValueError |
| Contracts.ThrownByKind | src/flynn_agents_sdk/contracts.py:141-160 | which exception classes are ValueErrors, which are rejections, and which carry a usage report |
| SQLiteRuns.SQLiteRun.Create | src/flynn_agents_sdk/sqlite_run.py:85-196 | refuses exactly a blank identity or a clock behind its own stamp, each with its own error, and otherwise opens the new file with its deadline bound |
| SQLiteRuns.SQLiteRun.Open | src/flynn_agents_sdk/sqlite_run.py:198-223 | refuses a clock behind the stamp; otherwise binds the deadline to the monotonic clock and changes nothing |
| SQLiteRuns.SQLiteRun.RequireTime | src/flynn_agents_sdk/sqlite_run.py:267-274 | stamps the clock exactly when the run is open, the clock has not gone back and time is left |
| SQLiteRuns.SQLiteRun.CheckReady | src/flynn_agents_sdk/sqlite_run.py:346-356 | refuses an ended run, an unknown effect and a pending operation, in that order |
| SQLiteRuns.SQLiteRun.Reserve | src/flynn_agents_sdk/sqlite_run.py:315-320 | reserves one unit exactly when one is left |
| SQLiteRuns.SQLiteRun.Start | src/flynn_agents_sdk/sqlite_run.py:387-437 | raises the first refusal and changes nothing, or writes the operation, its guards and its reservations |
| SQLiteRuns.SQLiteRun.RecordGuard | src/flynn_agents_sdk/sqlite_run.py:439-456 | records a decision once, for a required guard of a proposed operation, or changes nothing |
| SQLiteRuns.SQLiteRun.RecordEvent | src/flynn_agents_sdk/sqlite_run.py:458-472 | refuses what is no event, and appends an event of a known operation of an open run, or changes nothing |
| SQLiteRuns.SQLiteRun.RecordUsage | src/flynn_agents_sdk/sqlite_run.py:474-499 | keeps one report per operation in inference, and raises after keeping it when the reservation is breached |
| SQLiteRuns.SQLiteRun.Proposed | src/flynn_agents_sdk/sqlite_run.py:544-557 | moves inference to proposed with its call, or changes nothing |
| SQLiteRuns.SQLiteRun.Dispatch | src/flynn_agents_sdk/sqlite_run.py:559-582 | moves proposed to dispatched with its reservations when time, guards and capacity allow, or rolls everything back; which of the two guard refusals it is stays open |
| SQLiteRuns.SQLiteRun.Returned | src/flynn_agents_sdk/sqlite_run.py:584-592 | keeps the output of a dispatched operation, even of an ended run, and returns its candidate |
| SQLiteRuns.SQLiteRun.Complete | src/flynn_agents_sdk/sqlite_run.py:594-625 | publishes an evaluation that binds the returned candidate: completes the operation, appends the evaluation, and, exactly when its verdict is satisfied and it has a state update, the next revision, which it answers as committed; or rolls everything back |
| SQLiteRuns.SQLiteRun.Failed | src/flynn_agents_sdk/sqlite_run.py:627-634 | fails an undispatched operation; any later stage keeps its stage and gains the diagnostic |
| SQLiteRuns.SQLiteRun.AbandonUndispatched | src/flynn_agents_sdk/sqlite_run.py:636-645 | fails an undispatched operation of an open run, or changes nothing |
| SQLiteRuns.SQLiteRun.Finish | src/flynn_agents_sdk/sqlite_run.py:280-285 | sets a nonblank outcome once |
| SQLiteRuns.SQLiteRun.CompletedOperations | src/flynn_agents_sdk/sqlite_run.py:647-653 | counts the completed operations |
| Refusals.RefusedExactly | src/flynn_agents_sdk/sqlite_run.py:387-645 | in a file that satisfies the invariant every call raises exactly the first ground that holds, told from the rows of the tables, and none when none does |
| Refusals.StartGrounds | src/flynn_agents_sdk/sqlite_run.py:387-437 | start's grounds in order: guard identities, an ended run, what is pending, the clock and the deadline, the output reservation, the base, the identity, and what is left of the inference calls |
| Refusals.DispatchGrounds | src/flynn_agents_sdk/sqlite_run.py:559-582 | dispatch's grounds in order: an ended run, the clock and the deadline, the stage, a required guard whose newest decision does not allow, tool calls, external actions |
| Refusals.CompleteGrounds | src/flynn_agents_sdk/sqlite_run.py:594-606 | complete's grounds in order: an ended run, the clock and the deadline, the stage, a candidate that differs in identity, base, call or output, a blank evaluator, scope or reason |
| Refusals.ReportRaises | src/flynn_agents_sdk/sqlite_run.py:489-499 | a report that is kept raises all the same exactly when the operation's reservation is of the other kind or smaller than its output |
| Refusals.RemainingIsExact | src/flynn_agents_sdk/sqlite_run.py:303-313 | what remains of each resource is its limit less the number of rows that reserve it |
| Refusals.CountedByStage | src/flynn_agents_sdk/sqlite_run.py:647-653 | the counts of completed and of dispatched operations are the numbers of rows at those stages |
| Refusals.OperationsWritten | src/flynn_agents_sdk/sqlite_run.py:544-645 | a transaction rewrites its own operation's row, field by field as stated, leaves every other row as it was, and adds one only at start |
| Refusals.TablesWritten | src/flynn_agents_sdk/sqlite_run.py:420-625 | which rows each transaction appends to which table; only start, dispatch and complete stamp the clock, and nothing touches what the run was created with |
| Tools.ToolBroker.Create | src/flynn_agents_sdk/tools.py:80-85 | registers every tool in order, or refuses, exactly when a name is empty or repeated |
| Tools.ToolBroker.Specifications | src/flynn_agents_sdk/tools.py:87-92 | describes the registered tools that are granted |
| Tools.SpecsAreGranted | src/flynn_agents_sdk/tools.py:87-92 | exactly the granted and registered tools are described |
| Tools.SpecsFollowRegistration | src/flynn_agents_sdk/tools.py:87-92 | descriptions follow the order of registration |
| Tools.ToolBroker.Prepare | src/flynn_agents_sdk/tools.py:94-110 | refuses what is no call, and passes a call or raises the broker's error for it |
| Tools.PreparedIsGranted | src/flynn_agents_sdk/tools.py:94-110 | a call passes exactly when its name is granted and registered and its validator does not raise; otherwise the grant, the registration and the validator are refused in that order, and the validator's ValueError becomes a rejected proposal unless it is a budget's |
| Scripts.ComposeNarrows | src/flynn_agents_sdk/runtime.py:91-126 | whatever the callbacks answer, the request stands on accepted state, allows only what the step and the runtime grant, describes no other tool, and carries its reservation's ceiling |
| Scripts.ComposedExactly | src/flynn_agents_sdk/runtime.py:91-126 | a request is composed exactly when every grant is the runtime's, what was prepared stands on accepted state and allows no more, and a capped run's adapter plans no more than a prepared ceiling |
| Scripts.ComposeRaises | src/flynn_agents_sdk/runtime.py:91-126 | otherwise the first failing check raises, each with its own error or the callback's |
| Scripts.ComposedByDefault | src/flynn_agents_sdk/runtime.py:96-111 | unprepared, the request carries the objective, accepted state, newest observation, the step's grants, and every granted tool's description |
| Scripts.ComposedAsPrepared | src/flynn_agents_sdk/runtime.py:102-125 | a prepared request is sent as it is, but for the descriptions of tools it does not allow and its ceiling |
| Scripts.ComposedAdmission | src/flynn_agents_sdk/runtime.py:112-130 | start never finds a composed request stale, nor its reservation missing, superfluous or at odds with its ceiling |
| Scripts.GuardsFaultMeaning | src/flynn_agents_sdk/runtime.py:150-162 | the guards let a step pass exactly when every one answers an allow and no notification fails |
| Scripts.ExecutedIsAuthorised | src/flynn_agents_sdk/runtime.py:148-171 | a call that reaches execute was in the response, granted, registered, accepted by its validator and allowed by every guard, and its report broke no reservation |
| Scripts.UnknownEffectIsNoted | src/flynn_agents_sdk/runtime.py:182-186 | an unknown effect is noted in the journal exactly when the step stopped while its tool was running and lived to say so |
| Checkpoints.InferenceStops | src/flynn_agents_sdk/runtime.py:132-147 | what stops a step before its call is known, in order, with stage and error |
| Checkpoints.AuthorisationStops | src/flynn_agents_sdk/runtime.py:147-162 | what stops a known call: grant, registration, validator, and then the first guard that does not let it pass, with that guard's error |
| Checkpoints.ActionStops | src/flynn_agents_sdk/runtime.py:163-171 | what stops an authorised call: the clock, the deadline, tool and external capacity at dispatch, then the tool's event and its answer |
| Checkpoints.JudgementStops | src/flynn_agents_sdk/runtime.py:172-181 | what stops a returned result: its event, the deadline before and after the evaluator, the evaluator, publication, and last the final event |
| Checkpoints.PhasesInOrder | src/flynn_agents_sdk/runtime.py:130-181 | a step's fault is that of the first phase that stops, and its candidate is made of the request's base, the call that was answered and the output |
| Checkpoints.RunsExactly | src/flynn_agents_sdk/runtime.py:168-170 | the tool runs exactly in a step that gets past the event of its dispatch |
| Checkpoints.StepTells | src/flynn_agents_sdk/runtime.py:130-186 | wherever a step stops, its report, its decisions and its events are exactly the beginning of one story up to that point, and then the event that names the failed stage, unless the process died first |
| Checkpoints.AttemptTells | src/flynn_agents_sdk/runtime.py:130-181 | the notes are a beginning of the story of a step that nothing stops, and all of it when nothing does |
| Checkpoints.AttemptCounts | src/flynn_agents_sdk/runtime.py:130-181 | how many events and decisions there are at each stage, up to the guard and the event that stopped the step |
| Checkpoints.FailureTells | src/flynn_agents_sdk/runtime.py:182-186 | the error text is the stage and the exception's type; the failure event is effect_unknown for the tool stage and failed for any other |
| Runtimes.Runtime.ComposeRequest | src/flynn_agents_sdk/runtime.py:91-126 | composes the request and reservation, or raises, as the declarative composition says |
| Runtimes.Runtime.Infer | src/flynn_agents_sdk/runtime.py:132-147 | stops where the first of notification, adapter, report and proposal stops it, leaving exactly their report and events |
| Runtimes.Runtime.CheckGuards | src/flynn_agents_sdk/runtime.py:149-162 | asks the guards in order up to the first that stops the step; each decision is recorded before it is obeyed, and passing means every required guard has allowed |
| Runtimes.Runtime.Act | src/flynn_agents_sdk/runtime.py:163-172 | the tool runs exactly once after dispatch and its event succeed, on the reserved capacity, and its output becomes the candidate |
| Runtimes.Runtime.Judge | src/flynn_agents_sdk/runtime.py:173-181 | publishes exactly the evaluator's answer, if time is left before and after it and it binds the candidate |
| Runtimes.Runtime.Handle | src/flynn_agents_sdk/runtime.py:182-191 | unless the process dies first, records the failure with its stage and exception type, notes it and re-raises it, and certifies exactly an adapter's rejection during inference and a rejected proposal during validation |
| Runtimes.Runtime.Step | src/flynn_agents_sdk/runtime.py:83-191 | a step is refused with nothing written, or admits one operation; then its fault, result, execution, notes, error text and durable stage are those of the script on every exit, the process dying included; its rejection is certified exactly when the adapter rejected the response, or a validator raised a ValueError other than a budget's for a granted and registered call, and the process lived to record it; and only store calls changed the file |
| Runtimes.CertifiesExactly | src/flynn_agents_sdk/runtime.py:187-190 | the certified rejection told from the script alone: when it is one, which error it is, and none in every other admitted step |
| Runtimes.StepRefusedExactly | src/flynn_agents_sdk/runtime.py:83-129 | what refuses a step, in order: an ended run, an unknown effect, an open operation, the composition, and start's own grounds |
| Runtimes.RejectedReservesNothing | src/flynn_agents_sdk/runtime.py:187-190 | a certified rejection belongs to an operation that failed with no tool or external reservation |
| Runtimes.StageHandled | src/flynn_agents_sdk/runtime.py:182-186 | once a failure is recorded the durable stage is dispatched for the tool stage, returned for evaluation, completed only for the last notification, and failed otherwise |
| Runtimes.Runtime.Recover | src/flynn_agents_sdk/runtime.py:193-214 | never runs a tool: an unknown effect is refused, an undispatched attempt is closed, a returned result is re-evaluated and published; one that returns leaves nothing pending, one that raises changes nothing |
| Runtimes.RecoveryClears | src/flynn_agents_sdk/runtime.py:193-214 | recovery raises, changing nothing, exactly for an ended run, an unknown effect, or a returned result that cannot be published; otherwise the next step finds nothing pending |
| Runtimes.RecoveryAnswers | src/flynn_agents_sdk/runtime.py:193-214 | what recovery raises or returns in each case, told from the stages of the rows, with the committed flag exactly for a satisfied update |
| Runtimes.RecoveryStopsAt | src/flynn_agents_sdk/runtime.py:208-214 | what stops the publication of a returned result in recovery, in order |
| Runtimes.RecoveryWrites | src/flynn_agents_sdk/runtime.py:204-214 | an undispatched attempt fails with its diagnostic and nothing else changes; a returned one completes with its evaluation, and a commit exactly for a satisfied update |
| Runtimes.PendingCompletes | src/flynn_agents_sdk/runtime.py:207-214 | an evaluation of the pending candidate is refused exactly when it does not bind that candidate |
| Executions.WithinCapacity | src/flynn_agents_sdk/sqlite_run.py:576-578 | tools ran at most as often as tool capacity was reserved, and external ones at most as often as external capacity |
| Executions.StepIsSound | src/flynn_agents_sdk/runtime.py:165-172 | wherever a step stops, what ran is dispatched with that call, on its reservations, once, and no output exists without a run |
| Executions.RecoverIsSound | src/flynn_agents_sdk/runtime.py:193-214 | recovery runs nothing and forgets nothing that ran |
| Sessions.Session.Advance | src/flynn_agents_sdk/session.py:183-186 | a step taken by a session settles its operation when it returns or its rejection is certified |
| Sessions.Session.Correct | src/flynn_agents_sdk/session.py:187-204 | only a certified rejection with a callback gets a correction; everything else is raised |
| Sessions.Session.Attend | src/flynn_agents_sdk/session.py:157-207 | the loop ends after at most one turn more than the inference calls left; every turn decides on what the run then shows, by correction or else by policy, and leaves one settled operation |
| Sessions.Session.Execute | src/flynn_agents_sdk/session.py:146-222 | refuses ended or pending runs unchanged; otherwise answers the application's stop or re-raises the exception, recording its kind and exactly the number of operations completed during the call, unless the process died |
| Sessions.KindsByException | src/flynn_agents_sdk/session.py:208-218 | cancelled, timed out and out of budget are recorded exactly for their own exception classes, the store's budget refusals included, and failed for any other |
| Sessions.TurnGoesOn | src/flynn_agents_sdk/session.py:157-207 | a turn raises nothing exactly when its decision was one and came in time, and its step returned to a quiet callback or was certified as rejected and corrected in time |
| Sessions.TurnRaises | src/flynn_agents_sdk/session.py:157-207 | otherwise the first of policy, deadline, decision type, callback, step and correction raises its own exception |
| Sessions.SessionRaises | src/flynn_agents_sdk/session.py:154-222 | the session raises what its last turn raised, but for its own timeout's cancellation, which is a TimeoutError |
| Sessions.ShownIsCurrent | src/flynn_agents_sdk/session.py:158-171 | every decision is taken on the accepted state, newest observation, newest result and completed count of that moment, by the correction that is due or else by the policy |
| Sessions.LastIsNewest | src/flynn_agents_sdk/session.py:184-205 | the last result shown is that of the newest turn that returned one |
| Sessions.GoesOn | src/flynn_agents_sdk/session.py:183-207 | a turn that continues spends exactly one inference call, leaves nothing pending, and raises the durable count exactly when it succeeded |
| Lifetimes.Perform | src/flynn_agents_sdk/runtime.py:193-214 | each driver keeps the record of what ran sound, and changes nothing but the outcome of a file that ended or has an unknown effect |
| Lifetimes.StoppedToolLeavesInert | src/flynn_agents_sdk/runtime.py:168-172 | a step that stopped while its tool was running, the process dying included, leaves a run in which nothing may be executed any more |
| Lifetimes.StoppedStepPends | src/flynn_agents_sdk/runtime.py:131-191 | a stopped step leaves something pending exactly when its tool was running, its result was being judged, or the process died before its failure was recorded, and then it is its own operation at the stage it reached |
| Lifetimes.Live | src/flynn_agents_sdk/sqlite_run.py:346-356 | over any number of processes that step, recover, hold sessions and die: the tables follow a history, no operation runs twice, runs and external runs stay within the limits, and nothing runs after an end or an unknown effect |
| Lifetimes.BornSound | src/flynn_agents_sdk/sqlite_run.py:85-196 | a new file is where such a life may begin |
| Contexts.SortsStably | src/flynn_agents_sdk/context.py:43-43 | the order is a permutation, required first and then by descending priority, and items of one key keep the order they came in |
| Contexts.SortsByPriority | src/flynn_agents_sdk/context.py:43-43 | of two items the one that stands first is required whenever the other is, and of the higher or the same priority when both or neither are |
| Contexts.GreedyTakes | src/flynn_agents_sdk/context.py:44-54 | an item is taken exactly when it still fits after those taken before it |
| Contexts.GreedyIsBest | src/flynn_agents_sdk/context.py:43-54 | of all selections whose joined text fits, the greedy one is lexicographically greatest |
| Contexts.RequiredFit | src/flynn_agents_sdk/context.py:46-48 | the required items are all taken exactly when they fit together |
| Contexts.RequiredKeepsRoom | src/flynn_agents_sdk/context.py:43-45 | the required items take the same room in sorted order as in the given one |
| Contexts.DedupesInOrder | src/flynn_agents_sdk/context.py:56-56 | evidence is kept once, in order of first occurrence |
| Contexts.ContextCompiler.Create | src/flynn_agents_sdk/context.py:30-33 | the budget must be positive |
| Contexts.ContextCompiler.Compile | src/flynn_agents_sdk/context.py:35-57 | raises exactly for repeated identities or required items that outgrow the budget, naming the first that does, and otherwise returns the packet of the greedy selection, whose text has the tracked size |
| Contexts.CompiledAccounts | src/flynn_agents_sdk/context.py:35-57 | the packet fits, holds every required item, and included and omitted items partition the given ones |
| Contexts.CompiledIsBest | src/flynn_agents_sdk/context.py:43-54 | no omitted item would still fit, and no other selection that fits is preferred |
| Contexts.OmittedForRoom | src/flynn_agents_sdk/context.py:43-54 | an optional item left out while one of lower priority is included did not fit after those that stand before it, all required or of at least its priority |
| Contexts.TextReads | src/flynn_agents_sdk/context.py:44-57 | the text gives each item under its bracketed identity, with a blank line between items |
| Contexts.SelectsInOrder | src/flynn_agents_sdk/context.py:49-54 | included and omitted items are listed in their sorted order, each in exactly one list |
| DeepSeeks.CeilingsAgree | src/flynn_agents_sdk/deepseek.py:196-207 | in a capped run wire ceiling, request ceiling and durable reservation are one number in 1..available, which start refuses neither as a mismatch nor as too large |
| DeepSeeks.PlannedCeiling | src/flynn_agents_sdk/deepseek.py:196-207 | planning fails for want of budget first and then for a ceiling that is no positive number, each with its class, and otherwise plans exactly the least of what is available, the adapter's limit and the prepared ceiling |
| DeepSeeks.LimitNarrows | src/flynn_agents_sdk/deepseek.py:201-207 | the ceiling sent is the adapter's limit, narrowed by a positive ceiling of the request; any other ceiling is a provider error |
| DeepSeeks.DeepSeekAdapter.Examine | src/flynn_agents_sdk/deepseek.py:346-403 | the cascade of checks names the first one that fails when each is judged on its own, or finds that decoding the arguments raises something else, or accepts |
| DeepSeeks.EnvelopeIsAccepted | src/flynn_agents_sdk/deepseek.py:355-422 | every response with one choice holding one permitted call whose arguments are an object is accepted as that call, whatever else it holds |
| DeepSeeks.AcceptedIsEnvelope | src/flynn_agents_sdk/deepseek.py:355-422 | and every accepted response has that shape |
| DeepSeeks.DescentAgrees | src/flynn_agents_sdk/deepseek.py:346-403 | the checks, each judged on its own, name exactly the place where a reader that descends from the body to the arguments first fails, or find its call |
| DeepSeeks.OneFailure | src/flynn_agents_sdk/deepseek.py:346-403 | no two checks are ever named for one response, and the number of a rejection tells which it was |
| DeepSeeks.Report | src/flynn_agents_sdk/deepseek.py:437-468 | the usage report of any response satisfies its constructor's checks |
| DeepSeeks.ReportCounts | src/flynn_agents_sdk/deepseek.py:437-468 | of a request that was sent, prompt_tokens is reported as input and completion_tokens as output, each exactly when it lies in 0..2^63-1, and known exactly when both do |
| DeepSeeks.ReportedCountsAreSaid | src/flynn_agents_sdk/deepseek.py:438-443 | a count is reported only when the response says that very integer under usage, so a missing or malformed one is none |
| DeepSeeks.ReportNames | src/flynn_agents_sdk/deepseek.py:444-457 | provider, requested model and configuration digest are those of the request; one that was never sent reports zero tokens, known |
| DeepSeeks.ReportQuotes | src/flynn_agents_sdk/deepseek.py:446-464 | response identity, response model and finish reason are exactly the response's own texts that are not blank |
| DeepSeeks.ReportSettles | src/flynn_agents_sdk/deepseek.py:437-468 | a model reservation takes the report exactly when the completion tokens stay within it; they are then spent and nothing of it is held |
| DeepSeeks.HeardExactly | src/flynn_agents_sdk/deepseek.py:330-352 | only a decoded answer with status 200 is read |
| DeepSeeks.SettlesAlike | src/flynn_agents_sdk/deepseek.py:437-468 | an accepted and a rejected response with the same usage settle the reservation alike |
| DeepSeeks.DeepSeekAdapter.Ask | src/flynn_agents_sdk/deepseek.py:313-494 | exactly one report is made, of what was heard and nothing else; the call is returned exactly for an accepted response, otherwise the first failure is raised, and what the trace callback raises overrides either |
| DeepSeeks.DeepSeekAdapter.Generate | src/flynn_agents_sdk/deepseek.py:302-311 | every answer carries that report, except an exception the adapter does not handle |
| DeepSeeks.RepliesCarryReport | src/flynn_agents_sdk/runtime.py:135-143 | the runtime records that one report, accepted, rejected or failed, exactly when no unhandled exception goes up |
| DeepSeeks.DeepArgumentsLoseReport | src/flynn_agents_sdk/deepseek.py:302-311 | a response of the right shape whose arguments are nested too deep to decode loses its report |

## Left out

- SQL text, pragmas, `flock` ownership and the fork check: a transaction is atomic, and a file has at most one owner.
- JSON encoding of stored records, SHA-256 digests and `configuration.py`: records are stored as themselves, and the
  configuration digest is an input.
- Schema versions, `inspect`, `records` and historical schemas: read-only audit; the tables are those of schema 5.
- Identities of guards and operations are strings; a `uuid4` collision is covered, as any identity may be given.
- Foreign objects appear only as whole answers of callbacks, not inside records.
- SQLiteRuns.SQLiteRun.Dispatch: does not say which guard refusal it raises, no decision or a refusing one: both are
  `DispatchDenied`, and with several guards the one found first depends on a row order that its query leaves open.
- Messages of exceptions: errors of one class that differ only in their text may share one reason.
- Callbacks do not call back into the store: one driver at a time works on a run, as the locks enforce.
- Times are real numbers; `float` rounding of stamps and deadlines is not modelled.
- Images in requests, and the tool schemas of the DeepSeek payload: whether the payload is refused, or its schemas
  nested too deep, for a reason other than its ceiling is an input of the adapter.
- `http.py`, the transport, error-body redaction and the contents of diagnostic traces: what comes of posting the
  request is an input, and so is what a trace callback raises.
- `program_worker.py` and `_program_bootstrap.py`: subprocesses and operating-system limits.
- `results.py`, `Tool.structured` and the JSON form of `SessionTermination`: record encoding.
- asyncio scheduling and real timers: any awaited callback may raise a cancellation, and a script says whether a
  timeout turns it into a `TimeoutError`, which depends on the Python version for `InferenceCancelled`.
- The process-local `events` list of `Runtime`: presentation only; the journal's event table is modelled.
- `ScriptedAdapter`, `release_notes.py` and package exports.
