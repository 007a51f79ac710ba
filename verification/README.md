# n0ding-dispatch: a verified model

n0ding-dispatch is an event-sourced scheduler. Operators' requests drive per-run command controllers in memory, every
effect is appended to a log before anything depends on it, and a restart rebuilds the controllers from the log. This
project models that behaviour in Dafny and proves what holds over all runs of it: in every interleaving of requests, with
any adapter answers, failed appends and restarts.

`dafny verify dfyconfig.toml` checks everything.

## How the project is laid out

| files | what they model |
|---|---|
| `Protocol` | one run of the server as a state machine: every controller call, append, look at the log and locked block is one step, any number of requests are in flight, a restart drops everything but the log |
| `Duties`, `DutyLaw` | what each thing a request can meet makes due, and the law that requests do exactly that, in every interleaving |
| `Causes`, `CommandCauses`, `Answers`, `ControlTokens`, `Outcomes`, `LogReading` | what follows from the law: no line of the log, no command and no state without an answer or an operator behind it; what becomes of answers; what the server reads back from the log |
| `CommandSafety`, `ScheduleSafety`, `ApprovalSafety`, `Fencing`, `StopSafety` | safety over whole runs: at-most-once sending, clearance, approvals, tokens, the emergency stop |
| `Recovery`, `Agreement`, `InTime`, `RecoveredFences`, `Orphans`, `Races`, `Traces` | what a restart brings back, when that is exact, and concrete runs in which it is not |
| `Progress`, `NotStuck`, `Completion`, `Expiry`, `Ending` | runs in which nothing fails: no stuck state, a falling measure, what an expired approval strands, and exactly when a run can be brought to its end |
| `EmptyRuns`, `Reloading`, `StoredDefinitions` | runs without tasks; what a restart makes of a run's definitions, which are stored redacted |
| `Planning`, `Identifiers` | from a catalog and a graph to a plan, before and after a restart; which identifiers the guarantees need |
| `Control`, `ControlRuns`, `Actions` | the controller, its invariants over all call sequences, and canonical action digests |
| `Graph`, `DagValidation`, `Topological` | graph validation by depth-first search and the scheduler's sort |
| `Router`, `RateLimit` | agent routing and the sliding-window limiter |
| `Redaction` | secret redaction over strings and nested values |
| `Status`, `StoreModel`, `StoreRuns`, `EventStore`, `Reading`, `Stream`, `Bundle`, `RoundTrip` | the event store and its tables, reopening, replay, paging, streaming, and replay bundles |
| `Ordering`, `Sequences`, `Model` | string order, sequences without repetition, and the shared records |

Objects that the source updates in place are classes proved against functions (`Control.Controller`, `RateLimit.Limiter`,
`DagValidation.Search`, `EventStore.Database`, `EventStore.Store`); loops are methods; concurrent handlers are a state
machine.

## What the model found

Each point is a proved statement with its exact condition or a concrete run.

- Definitions are stored redacted and read back after a restart. They come back as they were exactly when every string in
  them is clean (`StoredDefinitions.GraphComesBackIffClean`, `CatalogComesBackIffClean`); then a run works from one plan
  all its life and everything proved of a frozen plan holds of it (`Planning.CleanRunsKeepTheirPlan`).
- Completions are logged under redacted ids and looked up under the ids as given (`task-research` holds `sk-research`).
  Until its server restarts, a run can be completed exactly when every task id is clean (`Planning.CompletesIffIdsClean`),
  and nothing that depends on a task with another id is ever sent (`Planning.MaskedTaskHoldsItsDependents`).
- Two tasks whose ids redaction makes one are a graph that is admitted once and refused after a restart. The run is then
  without tasks, and the next completed result is logged as the completion of the run. A logged completion means that the
  tasks have completed exactly when no two ids are stored alike (`Planning.CompletionIsEarnedIffKeptApart`).
- Recovery brings a command back in its state exactly when its last report to the log did not go wrong
  (`Agreement.RecoveryIsExact`). Three branches make it go wrong: an event appended after the command has moved on, the
  refused transition to an unknown outcome of a command under poll, and a failed append. The first two happen in runs in
  which nothing fails: a late acknowledgement makes a completed command come back as acknowledged, and a poll in the
  middle of an unknown outcome loses the outcome (`Races`). Neither happens where checks wait for outcomes to be logged
  (`InTime.RecoveryInTimeIsExact`).
- An approval that is not given within a quarter of an hour is refused from then on, and the scheduler does not ask twice:
  the task is lost (`Expiry.ExpiredIsForever`, `Expiry.UnansweredIsLost`), and so is the end of the run. A run in which
  nothing fails can be finished exactly when no approval it still needs has expired (`Ending.FinishesIffNothingExpired`).
- A crash leaves a command `requested` for good, not resent, polled or reconciled, exactly when its request is the last
  the log holds of it: also when the acknowledgement is in memory and not appended yet (`Orphans.CrashOrphans`). The
  domain contracts document says that possible side effects with lost responses become `outcome_unknown`; the code does
  that for lost responses, not for lost processes.
- Event data that is still a Go struct when it is appended (an action, an adapter result) is stored unredacted
  (`Redaction.TypedPartsDecide`), although the threat model says that only redacted records reach the store.
- A run name is length-checked before it is redacted and redaction can lengthen it, so some exported bundles are refused
  on import (`RoundTrip.OutgrownNameIsRefused`).
- The stored status is read off the ending of an event type and the replayed one off the whole type: they agree for a
  vocabulary exactly when no type in it has the ending of a status event without being one (`Status.VocabularyAgrees`).
- A graph without tasks is valid. Its run can be logged as completed exactly when an emergency stop may be asked for: a
  result for the stop's own command then counts as the end of the run (`EmptyRuns.EmptyRunsCompleteIffStoppable`).
- The state machine document lists states (`paused`, `assigning`, ...) that the controller does not have; the model follows
  the controller.

## Model

| member | source | states |
|---|---|---|
| DutyLaw.RequestsDoWhatIsDue | internal/httpapi/dispatch.go:282-415 | whatever else is in flight, a request does exactly what the answers, replies, decisions and states it met make due, in that order; when it is done it has done all of it, and what a failed append makes due instead |
| Causes.EveryLineIsDue | internal/httpapi/dispatch.go:366-411 | every line of the log, but the note a restart leaves, is due on something a request met that was asked for just that |
| CommandCauses.EveryStateIsDue | internal/httpapi/dispatch.go:361-408 | every command was created, and is in its state, because that was due on something a request met, over any number of restarts |
| Answers.CompletionWasSaid | internal/httpapi/dispatch.go:881-937 | a logged completion of a task comes after a completed answer to a result check of that task, or after an applied reconciliation of a command of the task whose outcome was unknown |
| Answers.NothingCompletesByItself | internal/httpapi/dispatch.go:928-937 | in a run in which no adapter answers that a task is completed and no reconciliation is applied, no task is ever logged as completed |
| Answers.EndingsWereSaid | internal/httpapi/dispatch.go:900-927 | a task is logged as failed or cancelled only after a check of it was told just that, and a retry is allowed only after a reconciliation as not applied |
| Answers.StatesWereSaid | internal/httpapi/dispatch.go:877-929 | a command is completed, cancelled, failed, of unknown outcome or reconciled only if it was answered, replied or asked so of that very command |
| Answers.DecisionsAreAuthorized | internal/httpapi/dispatch.go:766-774 | a logged decision was asked for as it was taken, by an actor whom a logged request for that approval lists |
| Answers.OnlyOwnersAreListed | internal/httpapi/dispatch.go:341 | the requests for approval list the local owner and nobody else |
| Answers.OthersDecideNothing | internal/httpapi/dispatch.go:728-774 | an approval that only others than the local owner try to decide stays undecided |
| Answers.GuardedTasksNeedTheOwner | internal/httpapi/dispatch.go:338-346 | a guarded task is never requested on the word of others than the local owner |
| ControlTokens.ControlsWereCurrent | internal/httpapi/dispatch.go:525-539 | a command under an operator's key was created for an emergency stop, or for a control that was asked for before and whose token was exactly the task's fence, no stop in force, when it was checked |
| ControlTokens.LateControlsDoNothing | internal/httpapi/dispatch.go:530-533 | if every control under a key comes with a token below one already logged as issued for its task, no command, event or adapter call ever bears the key |
| ControlTokens.RetriesGetTheIssuedToken | internal/httpapi/dispatch.go:548-559 | the dispatch an accepted retry creates carries exactly the token issued to the retry's control |
| Outcomes.AnswersSettleCommands | internal/httpapi/dispatch.go:877-929 | whatever other requests do in between, a polled command is moved to completed, failed, cancelled or back to acknowledged as its check is told, and stays in the first three until a restart |
| Outcomes.RepliesMarkCommands | internal/httpapi/dispatch.go:380-408 | the same of replies: a refused command is failed and stays so until a restart, the others are acknowledged |
| Outcomes.AnswersAreLogged | internal/httpapi/dispatch.go:900-937 | a check that is done and whose appends went through has logged the completion, or the failure of the task and then of the run, or the cancellation of both |
| Outcomes.ReconciliationsAreLogged | internal/httpapi/dispatch.go:1033-1050 | a reconciliation that is done and whose appends went through has logged the completion of the command's task if it was applied, and else that the task may be retried |
| Outcomes.RepliesAreLogged | internal/httpapi/dispatch.go:386-413 | after the outcome of a dispatch the delegation, the failure of the run or its interruption is logged, as the adapter replied |
| Outcomes.StillUnknownChangesNothing | internal/httpapi/dispatch.go:1020-1027 | no step of a reconciliation as still unknown changes the controller |
| Outcomes.WholeWhileAppendsWork | internal/httpapi/server.go:199-207 | as long as every append goes through, no request leaves anything undone |
| LogReading.ActiveIsLastReport | internal/httpapi/dispatch.go:296-301 | a task is active exactly when the last report that acknowledges or ends a command of it acknowledges one |
| LogReading.LastRequestIsLast | internal/httpapi/dispatch.go:738-746 | a decision is checked against the last request for its digest |
| LogReading.RunningIsReplayed | internal/httpapi/dispatch.go:40-47 | recovery takes a run to be running exactly when its replayed status is |
| LogReading.RestartInterruptsRunning | internal/httpapi/dispatch.go:40-47 | a restart notes the interruption of a running run and leaves others alone; if the note is lost the server is unhealthy, and only then |
| LogReading.NoRequestsAfterFailure | internal/httpapi/server.go:136-143 | once an append has failed, no request is taken until a restart |
| CommandSafety.InvAlways | internal/httpapi/dispatch.go:354-415 | at every point of every run the controller knows each logged command under the logged id, task and fence, each command being sent or polled belongs to one request, and nothing was sent unlogged or twice |
| CommandSafety.SentAtMostOnce | internal/httpapi/dispatch.go:361-381 | no idempotency key reaches an adapter twice, over any interleaving, failed append and restart |
| CommandSafety.SentOnlyIfLogged | internal/httpapi/dispatch.go:377-381 | an adapter call is preceded by the logged request of its command |
| CommandSafety.PolledByOne | internal/httpapi/dispatch.go:878-882 | two requests never poll the same command at once |
| CommandSafety.RestartAlwaysRestores | internal/httpapi/dispatch.go:49-90 | recovery never fails on a log the server wrote, and every recovered command has the live id, task and fence |
| CommandSafety.RecoveryNeverFails | internal/dispatch/control.go:208-233 | recovery restores exactly the latest logged commands, their count, the top fences per task, and the stop if it is logged |
| ScheduleSafety.DispatchedAtMostOnce | internal/httpapi/dispatch.go:354-381 | the adapter is asked to dispatch a task of a run at most once |
| ScheduleSafety.RequestFollowsClearance | internal/httpapi/dispatch.go:282-352 | a logged dispatch request comes after the completion of every dependency and, for a guarded task, after the grant of its own action's digest, even when the pass worked from a stale log |
| ScheduleSafety.RequestsArePlanned | internal/httpapi/dispatch.go:315-350 | every dispatch request is for a task of the plan |
| ScheduleSafety.DispatchIsCleared | internal/httpapi/dispatch.go:380-381 | what reaches the adapter as a dispatch is a cleared task of the plan |
| ScheduleSafety.GuardedRequestWasApproved | internal/httpapi/dispatch.go:333-346 | a guarded task is requested only after its very action was put up for approval and then granted |
| ScheduleSafety.DeniedTaskIsNeverRequested | internal/httpapi/dispatch.go:798-802 | a guarded task whose action was denied is never requested, before or after |
| ApprovalSafety.OneDecisionPerApproval | internal/httpapi/dispatch.go:758-797 | the log holds at most one grant or denial per digest, with stale requests, failed appends that release the claim, and restarts that drop claims |
| ApprovalSafety.LateRequestIsToldTheDecision | internal/httpapi/dispatch.go:776-785 | a request that finds the approval decided is answered with the one decision the log holds |
| ApprovalSafety.DecisionAnswersARequest | internal/httpapi/dispatch.go:739-757 | a decision comes after a request for an action with that digest, and no other action has it |
| ApprovalSafety.ClaimsAreLetGo | internal/httpapi/dispatch.go:786-804 | no claim is left behind: whoever holds one on an undecided approval is about to decide it or to let it go |
| Fencing.LoggedTokensDiffer | internal/httpapi/dispatch.go:372-379 | tokens issued for a task and logged are pairwise different, across crashes between rotation and append |
| Fencing.SupersededTokenIsRefused | internal/dispatch/control.go:304-314 | a logged token exceeded by another logged one of its task is never accepted again |
| Fencing.RestartCoversIssuedTokens | internal/dispatch/control.go:218-221 | the fence a restart comes back with covers every token logged as issued |
| Fencing.TokensRiseInTurn | internal/dispatch/control.go:184-196 | when requests take turns, with crashes anywhere, logged tokens of a task rise in log order |
| StopSafety.LoggedStopIsInForce | internal/httpapi/dispatch.go:58-60 | a logged emergency stop is in force at every later moment, restarts included |
| StopSafety.StopFreezesTheRun | internal/httpapi/dispatch.go:564-576 | once the stop is logged no command is ever created |
| StopSafety.StopAndRestartSilence | internal/httpapi/dispatch.go:84-87 | after a logged stop and a restart nothing reaches an adapter any more |
| Recovery.RestartIsNeverAhead | internal/httpapi/dispatch.go:62-77 | a restart brings back only commands the server has, none further in its life than it is |
| Agreement.RecoveryIsExact | internal/httpapi/dispatch.go:49-90 | at every reachable point, failed appends included, a command no request is about to report comes back in its state, up to polling and reconciliation, exactly when its last report did not go wrong: appended after the command moved on, dropped with a refused unknown outcome, or not appended |
| InTime.RecoveryInTimeIsExact | internal/httpapi/dispatch.go:381-411 | where no result check polls a command whose outcome event is still owed and no command's append fails, every command no request is about to report comes back in its state |
| InTime.RecoveryInTurnIsExact | internal/httpapi/dispatch.go:49-90 | in particular when requests take turns and no command's append fails |
| Agreement.FoldedStates | internal/httpapi/dispatch.go:62-77 | polling and reconciled never come back from the log |
| RecoveredFences.LoggedUnlessLost | internal/httpapi/dispatch.go:377-379 | a command no request is about to report is missing after a restart exactly when its request's append failed |
| RecoveredFences.EveryCommandComesBack | internal/httpapi/dispatch.go:78-88 | whenever no event is owed, a restart brings back all commands with id, task and fence exactly when every request was logged |
| RecoveredFences.EveryFenceComesBack | internal/dispatch/control.go:218-221 | whenever no event is owed and every request was logged, in a run without an emergency stop every task's fence comes back as it was |
| Races.LateAcknowledgementWins | internal/httpapi/dispatch.go:408-411 | a run in which a result overtakes the logged acknowledgement: completed in memory and in the log, recovered as acknowledged |
| Races.UnknownOutcomeIsLost | internal/httpapi/dispatch.go:387-391 | a run in which a poll between the two transitions of an unknown outcome swallows it |
| Orphans.OrphanForever | internal/httpapi/dispatch.go:361-371 | a logged command nobody is sending stays requested over every continuation and never reaches an adapter |
| Orphans.CrashOrphans | internal/httpapi/dispatch.go:377-411 | a crash orphans a command exactly when its request is the last the log holds of it |
| Orphans.OrphanedByCrash | internal/httpapi/dispatch.go:361-371 | such a command stays requested over every continuation and is never sent |
| Progress.SmoothAlways | internal/httpapi/dispatch.go:852-961 | without failures, controls and restarts, all commands are the plan's, none fails, and every request is at a point of the plain flow |
| NotStuck.NeverStuck | internal/httpapi/dispatch.go:313-351 | whenever all requests are done, at whatever time, every task is completed and the run is logged as completed, or some dependency-complete task is acknowledged or awaits an approval that can still be given, or the approval of some dependency-complete task has expired |
| Completion.TaskCompletedOnce | internal/httpapi/dispatch.go:928-937 | without failures, controls and restarts, the log holds one completion per task |
| Completion.EveryResultCounts | internal/httpapi/dispatch.go:812-834 | each logged completion or grant strictly lowers the number of incomplete tasks and ungranted guarded tasks, and no step raises it |
| Ending.EveryRequestEnds | internal/httpapi/dispatch.go:282-352 | however requests interleave, each is done after a number of its own steps that depends on the plan only |
| Ending.FinishesIffNothingExpired | internal/httpapi/dispatch.go:938-959 | on a clock that never runs backwards, from the start and from every moment at which all requests are done, results and grants can bring the run to all tasks completed and the run logged as completed exactly when no task needs an approval that is requested, undecided and expired |
| Expiry.RequestsLastAQuarter | internal/httpapi/dispatch.go:341 | a logged request for approval expires a quarter of an hour after it was made, cut to the second |
| Expiry.ExpiredIsForever | internal/httpapi/dispatch.go:768-774 | a request for approval that has expired undecided at a moment of rest is never decided and no later request takes its place, in any continuation, restarts and failures included |
| Expiry.ExpiredTaskIsNeverRequested | internal/httpapi/dispatch.go:339-347 | the guarded task it was for is never requested, before or after |
| Expiry.UnansweredIsLost | internal/httpapi/dispatch.go:339-345 | a run that reaches such a moment by waiting a quarter of an hour: its task is never sent |
| EmptyRuns.EmptyRunsCompleteIffStoppable | internal/httpapi/dispatch.go:945-959 | of all runs of a graph without tasks in which only some controls are allowed, one is logged as completed exactly when an emergency stop is among them |
| EmptyRuns.ResultCompletesEmptyRun | internal/httpapi/dispatch.go:938-959 | in a run without tasks a completed result for any acknowledged command is logged as the completion of the run |
| Identifiers.CleanPlansAreGood | internal/core/core.go:243-253 | the scheduler's identifiers survive redaction exactly when run and task ids are clean |
| Identifiers.KeyIsClean | internal/httpapi/dispatch.go:361 | a dispatch key is left alone by redaction exactly when the run id and the task id are |
| Identifiers.CleanControlsAreAdmissible | internal/httpapi/dispatch.go:623 | a control's identifiers, retry key included, survive redaction exactly when key and task are clean |
| Identifiers.ResearchIsMasked | internal/core/core.go:387 | redaction rewrites the id `task-research` |
| Planning.PlanFollowsSort | internal/httpapi/dispatch.go:282-350 | the plan is what the scheduling loop meets going through the sorted tasks |
| Planning.GuardedIffSideEffects | internal/httpapi/dispatch.go:309-335 | in an admitted catalog a task needs approval exactly when one of the capabilities it requires has side effects |
| Planning.PlanIsOrdered | internal/httpapi/dispatch.go:282-325 | a valid graph's plan has distinct ids and every dependency earlier |
| StoredDefinitions.GraphComesBackIffClean | internal/core/core.go:112-135 | a graph is stored as it was given exactly when every string in it is clean |
| StoredDefinitions.CatalogComesBackIffClean | internal/core/core.go:112-135 | so is a catalog: its version, capabilities and agents |
| StoredDefinitions.GraphIsAdmittedAgainIffApart | internal/httpapi/dispatch.go:20-38 | an admitted graph passes validation again after a restart exactly when no two of its ids are stored alike |
| Planning.CleanRunsKeepTheirPlan | internal/httpapi/dispatch.go:839-850 | a run over admitted, clean definitions works from the same plan before and after every restart |
| Planning.CompletesIffIdsClean | internal/httpapi/dispatch.go:945-959 | until its server restarts, the run of a valid, routable graph can be logged as completed exactly when every task id is clean |
| Planning.MaskedTaskHoldsItsDependents | internal/httpapi/dispatch.go:317-325 | until its server restarts, a run never sends a task with a dependency whose id is not clean |
| Planning.CompletionIsEarnedIffKeptApart | internal/httpapi/dispatch.go:938-959 | over all runs and restarts, a logged completion of the run means that every task has completed exactly when no two task ids are stored alike |
| Planning.RequestedTaskIsCleared | internal/httpapi/dispatch.go:318-347 | over all runs of admitted, clean definitions and their restarts: a requested task's dependencies have completed, and if it needs a side-effecting capability, an approval naming this task, its best eligible agent, versions and scope was granted before |
| Planning.ApprovalsDoNotCarryOver | internal/httpapi/dispatch.go:337-338 | tasks of a graph never share an action digest |
| Planning.RunConfigIsWorkable | internal/httpapi/dispatch.go:282-330 | a valid, routable graph with clean ids and at most 10000 tasks meets what the progress theorems ask |
| Planning.ValidRunsCanFinish | internal/httpapi/dispatch.go:228-280 | such a graph has a run that results and grants bring to its end while the clock stands |
| ControlRuns.KeyCreatesOneCommand | internal/dispatch/control.go:132-153 | a key creates one command over all calls; asked for again it is answered with that command |
| ControlRuns.OutcomeSettlesOnce | internal/dispatch/control.go:154-174 | after its first final transition a command keeps its state and result over all calls, and every other transition is refused without effect |
| ControlRuns.IssuedTokenSupersedes | internal/dispatch/control.go:184-196 | however a token is issued (rotation, renewal, lease), it is accepted from then on unless stopped, and every older token of the task is refused for good |
| Control.Controller.Restore | internal/dispatch/control.go:208-233 | refuses invalid, repeated and too many commands, and otherwise rebuilds commands, fences, results and count |
| ControlRuns.LeaseGoesToOneHolder | internal/dispatch/control.go:272-303 | a lease is granted exactly when no other holder's lease of the task could commit, and then none of them can until it expires |
| Control.Controller.Stop | internal/dispatch/control.go:315-326 | stops and raises every known fence by one |
| Control.Controller.SnapshotCommands | internal/dispatch/control.go:198-207 | lists every command once in the order of its key |
| ControlRuns.ValidThroughout | internal/dispatch/control.go:132-233 | over every call sequence whose restores succeed: the count is the number of commands and within the bound, results match completed and reconciled commands, leases carry reached tokens |
| ControlRuns.ProgressThroughout | internal/dispatch/control.go:154-174 | over every call sequence commands keep id and task and only move forward, fences never fall, a stop is never lifted |
| ControlRuns.TerminalIsForever | internal/dispatch/control.go:160-164 | completed, failed, cancelled and reconciled are absorbing, and unknown leaves only to reconciled |
| ControlRuns.StopFreezesCommands | internal/dispatch/control.go:132-138 | after a stop no call creates a command |
| ControlRuns.TokensGrow | internal/dispatch/control.go:184-288 | of two tokens issued for a task the later is greater, whatever is called in between |
| ControlRuns.StaleTokenNeverCommits | internal/dispatch/control.go:304-314 | a token below the fence is refused for good |
| ControlRuns.LeaseIsExclusive | internal/dispatch/control.go:272-303 | until it expires a lease stays the task's only one and no other holder's lease commits |
| ControlRuns.SupersededLeaseNeverCommits | internal/dispatch/control.go:289-303 | a lease that was taken anew never commits under its old token |
| ControlRuns.RestoreRebuilds | internal/dispatch/control.go:208-233 | whatever the order, restoring the listing of a map of commands rebuilds that map with the greatest token per task, and fails only over the bound |
| Actions.ActionDigest | internal/dispatch/control.go:23-42 | hashes the parts of an action with every map as its pairs in key order |
| Actions.DigestIdentifiesAction | internal/dispatch/control.go:23-42 | two actions have the same digest exactly when they are equal, whatever the order of their maps |
| Actions.ValidFor | internal/dispatch/control.go:50-60 | accepts exactly an unexpired approval by an authorized actor, in scope, for this action's digest |
| Actions.ApprovalBindsOneAction | internal/dispatch/control.go:50-60 | no approval is valid for two different actions |
| DagValidation.Validate | internal/dispatch/model.go:78-149 | returns no error exactly for graphs that meet the whole declarative specification, and every error tells what is wrong |
| DagValidation.Search.Visit | internal/dispatch/model.go:120-138 | the three-colour search finishes what is reachable or proves a cycle |
| DagValidation.CheckTasks | internal/dispatch/model.go:85-102 | ids and versions present, ids distinct, and the mathematical cost sum within the budget although it is kept in 64 bits |
| DagValidation.CheckDependencies | internal/dispatch/model.go:103-119 | dependencies known and listed once, dependents counted against the fan-out bound |
| Topological.Sort | internal/httpapi/dispatch.go:426-459 | succeeds exactly when ids are distinct, dependencies resolve and the graph is acyclic, with the least-first order as result |
| Topological.LeastFirstCompletes | internal/httpapi/dispatch.go:442-454 | that order is a permutation of the tasks with dependencies first |
| Topological.LeastFirstIsLeast | internal/httpapi/dispatch.go:441-454 | it is lexicographically least among all such orders |
| Topological.LeastFirstIgnoresListing | internal/httpapi/dispatch.go:426-454 | it does not depend on the order tasks are listed in |
| Topological.AdmittedGraphIsSchedulable | internal/httpapi/dispatch.go:455-457 | a graph that passes validation can be scheduled |
| Router.Route | internal/dispatch/router.go:24-82 | candidates are a permutation of the judged agents, in order; the selected one is eligible and best; the error occurs exactly when none is eligible |
| Router.Judge | internal/dispatch/router.go:33-62 | each agent is judged by every eligibility condition, with every reason that applies, sorted |
| Router.BestIsUnique | internal/dispatch/router.go:64-80 | one id is best, even with several versions of an agent |
| Router.SelectionIgnoresListing | internal/dispatch/router.go:24-82 | listing agents, capabilities or requirements in another order changes nothing about the selection |
| RateLimit.Limiter.Allow | internal/httpapi/server.go:161-178 | compacts the slice in place and decides as the specification says |
| RateLimit.HeldIsWindow | internal/httpapi/server.go:166-173 | after every call the slice is exactly the accepted times still in the window |
| RateLimit.RateBound | internal/httpapi/server.go:161-178 | no minute-long window holds more than 120 accepted mutations |
| RateLimit.RefusedExactlyWhenFull | internal/httpapi/server.go:174-176 | a call is refused exactly when its window already holds 120 |
| Redaction.RedactedStringIsClean | internal/core/core.go:385-403 | a redacted string holds no match of either pattern |
| Redaction.FixedPointsAreClean | internal/core/core.go:400-403 | redaction leaves a string alone exactly when it holds no match |
| Redaction.BearerMatchIsGreedy | internal/core/core.go:386 | what is masked is a whole match of the bearer pattern and the longest one there |
| Redaction.SecretMatchIsGreedy | internal/core/core.go:387 | what is masked is a match of the first alternative that matches, as long as it reaches |
| Redaction.RedactedValueIsClean | internal/core/core.go:389-415 | no string of a redacted nested value holds a match and no sensitive key keeps its value |
| Redaction.RedactValueIdempotent | internal/core/core.go:400-415 | redacting a nested value again changes nothing |
| Redaction.TypedPartsDecide | internal/core/core.go:411-414 | everything stored is clean exactly when the typed parts of the data already were |
| Redaction.TypedSecretIsKept | internal/core/core.go:411-414 | a secret in a typed value is stored as it came |
| Redaction.JoinClean | internal/core/core.go:386-387 | a colon never lets a match span it |
| Status.StatusAfterEvent | internal/core/core.go:275-297 | what the replayed and the stored status are right after an event of each of the seven status types, whatever the log before |
| Status.ReplayedIsLast | internal/core/core.go:349-383 | the replayed status is that of the last event of these types, and created without one |
| Status.StoredByEnding | internal/core/core.go:279-292 | the stored status goes by the ending of any type about dispatching |
| Status.ValidTypesAreDotted | internal/core/core.go:86 | an event type is well formed exactly when it is made of two or more segments with dots between them |
| Status.ReadingsAgree | internal/core/core.go:275-297 | store and replay advance the status alike exactly for types that are not misread |
| Status.VocabularyAgrees | internal/core/core.go:349-383 | they give the same status for all logs over a vocabulary exactly when nothing in it is misread |
| Status.TwoSegmentTypesAgree | internal/core/core.go:86 | types of two segments are never misread |
| Status.DeepTypesAreMisread | internal/core/core.go:275-297 | a well-formed type with a third segment is |
| StoreModel.EventIDDetermines | internal/persistence/sqlite.go:155 | run id and sequence can be read back from an event id |
| StoreModel.NextRowIsUnique | internal/persistence/sqlite.go:151-158 | the next row of a run never violates a unique index |
| StoreModel.SequenceCounts | internal/persistence/sqlite.go:151-154 | the next sequence number is one more than the run has rows, and rows are numbered from one |
| StoreRuns.DurableAlways | internal/core/core.go:243-273 | after any calls memory mirrors the tables, ids rise, rows fit their runs, and the projection rows are up to date |
| StoreRuns.AppendGoesThrough | internal/core/core.go:243-273 | an append fails only for an invalid type, an unknown run, or a failed transaction |
| StoreRuns.IdsRiseAndSequencesCount | internal/core/core.go:243-273 | ids rise over all runs together and each run's sequence is one, two, three |
| StoreRuns.ReopenAgrees | internal/core/core.go:157-188 | the tables of any store open, with the runs, ids and events that were in memory |
| EventStore.Open | internal/core/core.go:157-188 | opening succeeds exactly when every row fits what came before it, and collects each run's events |
| EventStore.FreshID | internal/core/core.go:176 | the check for repeated event ids refuses nothing that the other checks let through |
| EventStore.Store.CreateRun | internal/core/core.go:197-221 | refuses bad ids, long names and existing runs, redacts the name, stamps the time, and stores both or neither |
| EventStore.Store.Append | internal/core/core.go:243-273 | redacts, stores with the advanced status, and keeps the event under the database's id and sequence, or changes nothing |
| EventStore.Database.Append | internal/persistence/sqlite.go:140-170 | inserts the event and advances its run's projection row, or neither |
| StoreRuns.CreateRunKeeps | internal/persistence/sqlite.go:124-137 | creating a run, accepted, refused or failed, leaves memory mirrored by the tables and every projection row equal to the replayed one |
| Reading.EventsAfter | internal/core/core.go:306-316 | returns the events after a cursor |
| Reading.EventsLimit | internal/core/core.go:318-332 | returns the first events after a cursor up to a limit, and tells exactly whether there are more |
| Reading.LaterIsRest | internal/core/core.go:306-316 | with rising ids, what is after a cursor is the rest of the log from one point on |
| Reading.Replay | internal/core/core.go:349-383 | replays the events up to an id into status, steps, last id and artifacts |
| Reading.ReplayUptoIsPrefix | internal/core/core.go:355-358 | a bounded replay takes exactly the events with no greater id |
| Reading.StoredProjectionIsReplayed | internal/core/core.go:255-260 | for runs without misread types the stored projection row is the replayed projection |
| Reading.StoredStepsAreReplayed | internal/persistence/sqlite.go:163 | the row's steps and last id are the replayed ones for all types |
| Stream.StreamSendsAStretch | internal/httpapi/server.go:298-327 | a stream sends a contiguous stretch of the log right after its start cursor, whatever is appended meanwhile |
| Stream.WaitingHasSentAll | internal/httpapi/server.go:313-327 | a stream that waits on an open channel has sent everything |
| Bundle.VerifyAndReplay | internal/bundle/bundle.go:66-112 | gives the verdict of the specification, check by check, and the replayed projection |
| Bundle.CheckIntegrity | internal/bundle/bundle.go:84-90 | accepts exactly one run's events numbered from one with distinct ids |
| RoundTrip.ExportedBundleReplays | internal/bundle/bundle.go:50-112 | importing an exported run succeeds exactly within the size limit, with a redacted name of at most 256 bytes, for dispatch runs or empty ones, and with plain artifact names; it gives the exported projection with the event count as cursor |
| RoundTrip.AcceptedBundleIsSound | internal/bundle/bundle.go:71-109 | an accepted bundle is of the size and format allowed, holds one run of well-formed events, sequence one to n, distinct ids, and matches both checksums |
| RoundTrip.ManifestDetermines | internal/bundle/bundle.go:74-109 | two accepted bundles with one manifest have the same events and projection |
| RoundTrip.OutgrownNameIsRefused | internal/core/core.go:200-206 | a run whose name outgrows its limit by redaction is created, and its bundle refused |

## Left out

- HTTP decoding, headers, authentication, origin checks and status codes: each request is its accept or reject decision; a wrong evidence digest in a reconciliation is a request that ends without effect.
- Adapters and their networking: an adapter answers anything, and a result is completed, failed, cancelled or none of these.
- SQLite itself, SHA-256 and JSON: transactions happen or do not, ids increase with arbitrary gaps, hashes are collision-free constructors, and a value written as JSON and read back only loses its Go type.
- Time outs and clocks: a clock reading is a parameter of the step that takes it; the results that need a clock that never runs backwards say so.
- Overwriting a catalog or a graph while a run uses it: a run's definitions change only by being reloaded. `Catalog.Validate` would add only easy members; its conditions are `StoredDefinitions.ValidCatalog`.
- Definitions with masked strings after a restart: how they are reloaded and what a logged completion then means is proved; the safety theorems over restarts are for definitions that come back as they were.
- A run whose start was never logged has no adapter after a restart and takes no results; the model lets it go on.
- Redaction.RedactedValueIsClean: strings inside typed parts of event data are not redacted at all; `Redaction.TypedPartsDecide` says exactly what that leaves.
- `validateReassign`: a reassignment may be let through whatever its target, so what is proved holds for a stricter check too.
- The window between the creation of a run and the installation of its controller: one step.
- Widths: fences and sequence numbers are unbounded (no wrap at 64 bits, no rounding of JSON numbers above 2^53); only the cost sum of a graph is kept to 64 bits.
- RecoveredFences.EveryFenceComesBack: does not cover runs with an emergency stop, which raises the fences in memory without logging them and takes any token.
- Fencing.TokensRiseInTurn: rotations of concurrent requests can be logged in another order than they were issued; then `Fencing.LoggedTokensDiffer` and `Fencing.SupersededTokenIsRefused` are what holds.
- Completion.TaskCompletedOnce: controls can make a second completion of a task, so they are excluded.
- Controls whose identifiers redaction rewrites: outside the theorems over runs, which admit clean ones only.
- `LoadFixture`, definition ids, `ListRuns` order, the command line, the web interface and packaging.
