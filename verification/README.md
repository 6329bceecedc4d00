# BPTL, modelled in Dafny

BPTL is a worker for process engines. It fetches Camunda external tasks under a lock, runs a unit
of work for each, and reports back; it does the same, in its own way, for internal tasks of
OpenKlant. This project models the parts of it that are state machines or algorithms and proves what
they guarantee, and in a few places exactly when they do not.

| file | what it models |
|---|---|
| `Retry.dfy` | the retry decorator, with its backoff, its hook and its exceptions |
| `CamundaRow.dfy` | one external task record, its delivery as a machine of atomic actions, and the engine's task |
| `CamundaProtocol.dfy` | any number of workers, records and tasks: safety in every reachable state |
| `CamundaRetryBound.dfy` | how often a delivery can extend its lock and run its work unit, although it recurses |
| `CamundaWorker.dfy` | the worker's code with its loops, recursion and exceptions, as a refinement of the protocol |
| `OpenKlantIntake.dfy` | polling OpenKlant, marking tasks as processed and creating rows, with crashes |
| `OpenKlantLedger.dfy` | deliveries, failed-task records and the daily retry pass, with crashes |
| `Dashboard.dfy` | the task counts per status |
| `Reports.dfy`, `UserSheet.dfy`, `Worksheets.dfy`, `Sorting.dfy` | the Excel reports |
| `Sequences.dfy` | nested loops that collect what every element contributes, used by the reports and the pagers |
| `Calendar.dfy` | the previous-month period |
| `Zaaktype.dfy`, `Filters.dfy` | choosing the version of a zaaktype; list filters |
| `Pagers.dfy` | the two paging loops |
| `ServiceValidation.dfy` | validating the services of a task mapping, and the lookups at run time |
| `ActorEmail.dfy` | the e-mail address for an interne taak |
| `Documents.dfy` | lock, update and unlock of all documents of a zaak, in parallel phases |

Remote systems, the clock, the scheduler and the library functions that are not modelled appear as
parameters or as free choices, so every result holds for all of their behaviours. Code that changes
things step by step is a method or a class here, proved against a specification; the properties are
then proved about that specification. In the worker, the intake and the ledger a crash is possible
between any two atomic actions.

## What turned out different from what one might expect

- **A failure report after an accepted complete.** One delivery can have its complete accepted and
  still post a failure. `ReportAfterAcceptIff` gives the exact case: three answers 500 from the
  engine, then an accepted complete, then a callback that answers 500. `LateCallbackHappens` is a run
  that does it. The engine refuses the report (`NeverBothAccepted`).
- **Work units can overlap.** The lock keeps two rows of one task from *passing the expiry guard* at
  the same time (`GuardExcludes`, `LiveLocksExclude`), but a work unit that outlives its lock runs on
  next to the one of the worker that fetched the task again (`WorkUnitsMayOverlap`). A row inside its
  work unit can be joined there if and only if it has been already or the engine has not closed the
  task (`JoinedIff`).
- **The recursion of `_execute` is bounded only for short attempts.** If three attempts and their
  pauses fit in one lock there is at most one extension; if they do not, there is no bound at all
  (`RetryBoundIff`).
- **The `on_failure=fail_task` hook never reports anything.** The decorator hands the exception to
  `fail_task` as its task, which raises an `AttributeError`; an exhausted inner retry is therefore
  never retried by an outer one, and the report comes from the surrounding handler. The comment
  above the decorator says "http errors other than 500"; the code retries exactly the 500s.
- **A performed OpenKlant task can be performed again.** The work unit of a task can still succeed if
  and only if the task has not been delivered yet or its failed-task record is queued
  (`CanSucceedIff`). For a performed task that means a queued record, which takes a pass that was
  killed over it (`PerformedRunsAgainIff`; `WorkRunsTwice` is such a run): the first attempt of the
  next pass fails the guard, which marks the task failed, and the second one runs it
  (`PerformedTaskRunsAgain`). A task performed by its first delivery is never touched again
  (`UnqueuedStays`).
- **OpenKlant tasks can be lost.** What a poll marked as processed before it failed or died, and had
  no row yet, never gets one (`EndedPollLoses`; `ATaskIsLost` is such a run). Between polls a task
  without a row can still get one if and only if it is te_verwerken and asks for a handeling
  (`LostIff`).
- **A performed task may be reported as failed.** When OpenKlant refuses the update that follows a successful
  retry, the record, already saved as succeeded, becomes failed and is notified
  (`RefusedUpdateIsReported`, `TurnByAnswers`).
- **The pager writes to its caller's dictionary**, so using the dictionary again returns only the
  last page (`SecondUseOfParams`).
- **Service validation.** A form that is marked for deletion still satisfies a requirement, although
  it is not saved (`DeletedFormIsCounted`). An accepted set keeps its promise to the lookups if and
  only if the forms that are kept serve every requirement (`PromiseKeptIff`). A work unit that needs one type both under an alias and without is
  accepted with mappings that can never work (`SharedTypeNeverWorks`). A wrong type is a form error
  only for the last required alias; otherwise `clean` fails with an `AttributeError`
  (`WrongTypeCrashesIff`), because, as the comment in the code says, the set has no cleaned data
  once a form has an error.
- **The address of a unit may be somebody else's.** Once one organisatorische eenheid is active, the
  loop asks for the addresses of all active actors (`OtherActorMaySupplyTheAddress`). The address found
  is a unit's if and only if the one active actor with an address is a unit (`AddressOfUnitIff`).
- **A failed document update cannot be retried**: every further try stops at the locks the first one
  left behind (`PerformAgain`).

## Model

| member | source | states |
|---|---|---|
| Retry.Wrapper | src/bptl/utils/decorators.py:117-147 | the loop meets its contract for every configuration and every sequence of outcomes: which call is the last, that every call before it failed as expected, each sleep, the hook and the exit |
| Retry.ContractIsExact | src/bptl/utils/decorators.py:117-147 | the contract determines the number of calls, every sleep, the hook and the exit, so nothing else meets it |
| Retry.HookIffAllCallsFail | src/bptl/utils/decorators.py:126-145 | for every configuration, `on_failure` runs once if and only if all min(times, max_times) + 1 calls raise expected exceptions and no pause between them would be negative, and never twice |
| Retry.UnexpectedEscapesAtOnce | src/bptl/utils/decorators.py:126-145 | the first unexpected exception escapes from the call that raised it, without the hook, if and only if no pause before it would be negative |
| Retry.PausesPossible | src/bptl/utils/decorators.py:141-145 | with a delay, a rate and a cap that are not negative no pause is negative |
| Retry.TotalSleepBound | src/bptl/utils/decorators.py:120-145 | at most N + 1 calls, and all sleeps together are at most N times max_backoff, for any delay and rate |
| Retry.ExponentialSleepBound | src/bptl/utils/decorators.py:141-145 | for a rate above one, all sleeps together are at most delay * (rate^N - 1) / (rate - 1) |
| Retry.BackoffRange | src/bptl/utils/decorators.py:141-145 | every sleep lies between zero and max_backoff, and below the uncapped exponential |
| Retry.CamundaPauses | src/bptl/camunda/tasks.py:93-98 | the wrapper around `_execute` makes four attempts, one second apart |
| Retry.OpenKlantPauses | src/bptl/openklant/tasks.py:63-69 | the OpenKlant wrapper makes six attempts, 3, 6, 12, 24 and 30 seconds apart |
| Retry.AttemptsAreCapped | src/bptl/utils/decorators.py:120-123 | the number of calls is one more than the smaller of the two limits |
| CamundaRow.PausesOfTheDecorator | src/bptl/camunda/utils.py:82-87 | the attempts and the pause used in the row machine are those the decorator computes |
| CamundaRow.ActedKeepsRow | src/bptl/camunda/tasks.py:77-134 | every action of a delivery keeps the row consistent: claim count, position, status, log, attempts at complete, failure report |
| CamundaRow.ActedKeepsHold | src/bptl/camunda/utils.py:74-177 | every action keeps row and engine in agreement (a lock that looks alive is alive), and changes the engine's task only as its lock holder |
| CamundaProtocol.MoveKeepsInv | src/bptl/camunda/tasks.py:77-134 | an action of one row keeps the invariant of all rows, including the other rows of its task |
| CamundaProtocol.FetchKeepsInv | src/bptl/camunda/utils.py:27-71 | a fetch with a fresh worker id keeps the invariant of the rows that already exist, also when it takes over a lock that ran out |
| CamundaProtocol.RunKeepsInv | src/bptl/camunda/tasks.py:37-134 | the invariant holds after every run of fetches, deliveries, crashes, passing time and resolved incidents |
| CamundaProtocol.LiveLocksExclude | src/bptl/camunda/models.py:54-58 | of two rows of one task at most one is not expired, in every reachable state, unless the engine accepted a failure of one |
| CamundaProtocol.LiveLockIsHeld | src/bptl/camunda/utils.py:166-177 | a row that is not expired, while its task is open for it, holds the engine's lock for at least as long as it believes |
| CamundaProtocol.GuardExcludes | src/bptl/tasks/api.py:69-71 | two rows of one task never both pass the expiry guard at the same instant, nor one while the other works under a live lock |
| CamundaProtocol.WorkUnitsMayOverlap | src/bptl/camunda/utils.py:27-71 | the limit of that guarantee: a reachable state in which two rows of one task are both inside their work units |
| CamundaProtocol.JoinedIff | src/bptl/camunda/utils.py:27-71 | a row inside its work unit can be joined there by another row of its task, in some run that leaves it as it is, if and only if it has been already or the engine has not closed the task |
| CamundaProtocol.ClosedStaysAlone | src/bptl/tasks/api.py:69-71 | once the engine has closed a task, no further row of it ever enters its work unit |
| CamundaProtocol.CompletedMeansAccepted | src/bptl/camunda/api.py:21-35 | status completed means the engine closed the task for this row's worker id and the callback was absent or answered without error |
| CamundaProtocol.AtMostOneAccepted | src/bptl/camunda/utils.py:121-133 | at most one row of a task ever has its complete accepted or reaches completed; an accept counts also when the process died before the callback was done |
| CamundaProtocol.NeverBothAccepted | src/bptl/camunda/tasks.py:108-132 | the engine never accepts both a complete and a failure from one row, crashes included |
| CamundaProtocol.ReportAfterAcceptIff | src/bptl/camunda/utils.py:74-133 | a failure is posted after an accepted complete only if the attempts were 500, 500, 500 and an accepted one whose callback answered 500, and a delivery that was not cut short always does so in that case |
| CamundaProtocol.LateCallbackHappens | src/bptl/camunda/utils.py:74-133 | a reachable state in which exactly this has happened |
| CamundaProtocol.ClaimedAtMostOnce | src/bptl/camunda/tasks.py:81-90 | a row is claimed at most once, works only under that claim, and is completed or failed after a delivery that was not cut short |
| CamundaProtocol.FinishedRowsAreFrozen | src/bptl/camunda/tasks.py:81-84 | after a delivery has ended or crashed, no redelivery and nothing elsewhere ever changes the row |
| CamundaProtocol.LogFollowsStatus | src/bptl/utils/decorators.py:63-94 | the latest logged status of a queued row is its stored status, except that in_progress shows as initial |
| CamundaProtocol.StepKeepsQueue | src/bptl/camunda/tasks.py:47-53 | a queued row stays queued under every step, and its log keeps its first entry |
| CamundaProtocol.DeliveryClaimsInitial | src/bptl/camunda/tasks.py:81-109 | in any state: a delivery turns an initial row into one in progress that calls execute with four tries, and leaves any other row as it is |
| CamundaProtocol.GuardDecides | src/bptl/tasks/api.py:50-71 | execute reports a task it knows no work for, asks for more time exactly when the stored expiry is past, and otherwise works |
| CamundaProtocol.ExtensionDecides | src/bptl/camunda/utils.py:166-177 | a granted extension is ten minutes from now and is followed by a second look at the expiry; a 500 is retried after one second with one try fewer while there are any; everything else leads to the failure report |
| CamundaProtocol.RecheckDecides | src/bptl/camunda/tasks.py:99-106 | within the new lock execute is called again with four tries of its own, otherwise the failure is reported |
| CamundaProtocol.WorkIsRetriedOn500 | src/bptl/camunda/tasks.py:93-98 | a work unit that ends in a 500 with tries left is followed, after exactly one second, by another attempt with one try fewer |
| CamundaProtocol.WorkIsReportedOnError | src/bptl/camunda/tasks.py:93-113 | any other error, whatever tries are left, and a 500 on the last try leave the failure report as the only thing that can follow |
| CamundaProtocol.WorkIsSubmittedOnSuccess | src/bptl/camunda/tasks.py:115-134 | a work unit that succeeds is followed by complete_task and by nothing else |
| CamundaProtocol.EngineObeysHolder | src/bptl/camunda/utils.py:74-177 | extend, complete and failure requests do what they ask for exactly when they come from the lock holder and are applied, a lost response included: a new lock, a closed task, an incident; otherwise the task stays as it is |
| CamundaProtocol.BecomesCompletedIff | src/bptl/camunda/utils.py:121-133 | the one step that makes a row completed is a callback that is absent or answers without error, after the engine's accept |
| CamundaProtocol.PostIsRepeated | src/bptl/camunda/utils.py:82-87 | after a 500, of the engine or of the callback, complete posts again in exactly one second while tries are left, and then gives up |
| CamundaProtocol.PostErrorEnds | src/bptl/camunda/api.py:21-35 | any other error answer to complete ends the delivery as failed with neither another try nor a report, even when only the response was lost |
| CamundaProtocol.CallbackErrorEnds | src/bptl/camunda/utils.py:127-133 | a callback that fails otherwise than with a 500 ends the delivery as failed |
| CamundaProtocol.ReportEnds | src/bptl/camunda/tasks.py:107-113 | a failure report ends the delivery, whatever the engine answers |
| CamundaProtocol.SurrenderEnds | src/bptl/camunda/utils.py:74-79 | the report of complete is followed by the save of the status and nothing else |
| CamundaProtocol.AcceptedReportIsIncident | src/bptl/camunda/utils.py:136-163 | a failure the engine accepts from the lock holder makes the task an incident and is on record |
| CamundaProtocol.IncidentStays | src/bptl/camunda/utils.py:27-71 | over every run without an operator an incident stays one, and no fetch hands the task out |
| CamundaProtocol.IncidentHappens | src/bptl/camunda/utils.py:136-163 | a reachable state with an incident |
| CamundaRetryBound.RetryBoundIff | src/bptl/camunda/tasks.py:93-106 | in every run of the whole system a delivery has at most one extension, eight calls of execute and seven runs of the work unit if and only if 3 * (d + 1) < 600; otherwise for every n some run extends a lock n times |
| CamundaRetryBound.ReplayKeepsBound | src/bptl/camunda/tasks.py:93-106 | for attempts that are short enough, every sequence of timely actions of a delivery keeps the counts of calls, runs and extensions tied to the tries that are left in both wrappers |
| CamundaRetryBound.GuardKeepsBound | src/bptl/camunda/tasks.py:99-106 | after one extension the guard of execute never finds the lock expired again |
| CamundaRetryBound.ManyRounds | src/bptl/camunda/tasks.py:99-106 | with attempts of 199 seconds the recursion extends the lock any number of times, as a run of the whole system |
| CamundaRetryBound.SlowDelivery | src/bptl/camunda/tasks.py:76-134 | a reachable row, not delivered yet, whose delivery extends its lock n times |
| CamundaRetryBound.RunIsReplay | src/bptl/camunda/tasks.py:77-134 | in a run of the whole system a row does what its own actions alone determine |
| CamundaRetryBound.RunsAreCapped | src/bptl/camunda/tasks.py:93-106 | the bound holds in runs of the whole system with any number of other workers |
| CamundaWorker.Worker.Execute | src/bptl/tasks/api.py:33-71 | which exception leaves execute, in which status and at which point of the retry wrappers; undisturbed and in time it runs the work unit once |
| CamundaWorker.Worker.RunWorkUnit | src/bptl/tasks/api.py:73-80 | the outcome of the work unit decides the status and what the wrapper sees: a return, the HTTP 500 it retries, or an error it does not |
| CamundaWorker.Worker.ExtendTask | src/bptl/camunda/utils.py:166-177 | an accepted extension is followed by the second look at the expiry, any other answer ends or retries the attempt |
| CamundaWorker.Worker.RetriedExecute | src/bptl/camunda/tasks.py:92-106 | `_execute` with its wrapper and its recursion ends in performed, or failed with an exception no wrapper expects, or is killed; an expected exception never leaves it |
| CamundaWorker.Worker.CompleteOnce | src/bptl/camunda/utils.py:88-133 | one call of complete_task: the engine's answer and the callback decide between completed, failed, another try in one second and giving up |
| CamundaWorker.Worker.CallBack | src/bptl/camunda/utils.py:127-133 | after the engine's accept only the callback decides; with a callback that is absent or answers, the row is completed |
| CamundaWorker.Worker.Notified | src/bptl/camunda/utils.py:127-133 | how each outcome of the callback ends the attempt |
| CamundaWorker.Worker.Complete | src/bptl/camunda/api.py:21-35 | unless killed, complete returns if and only if the row is completed, and otherwise leaves it failed; undisturbed under a held lock it closes the engine's task |
| CamundaWorker.Worker.Surrendered | src/bptl/camunda/utils.py:74-79 | after the last 500 a failure is posted and then the row is saved as failed; a kill can come between the two; an accepted report makes the task an incident |
| CamundaWorker.Worker.FailTask | src/bptl/camunda/utils.py:136-163 | a failed execution ends with a posted failure report, whatever the engine answers, and leaves the row failed; accepted while the row holds the task, it makes the task an incident |
| CamundaWorker.Worker.Claim | src/bptl/camunda/tasks.py:81-90 | only a row in status initial is claimed; any other is left exactly as it is |
| CamundaWorker.Worker.TaskExecuteAndComplete | src/bptl/camunda/tasks.py:76-134 | a run of the protocol; a row that is not initial stays as it is, any other ends completed or failed unless killed; undisturbed and in time it works once and completes the task at the engine |
| CamundaWorker.Worker.TaskFetchAndLock | src/bptl/camunda/tasks.py:37-61 | every task of the response becomes a row with the lock's expiry, and only then are rows logged and queued one by one, while queued ones may already be delivered; a kill leaves exactly the first rows one stage ahead of the others |
| CamundaWorker.Worker.StaysReachable | src/bptl/camunda/tasks.py:37-134 | whatever this code does from a reachable state is reachable, so all safety results apply to it |
| OpenKlantIntake.StepKeepsInv | src/bptl/openklant/utils.py:33-50 | every step of a poll, of OpenKlant or a crash keeps rows distinct and their tasks marked |
| OpenKlantIntake.IntakeIsSafe | src/bptl/openklant/utils.py:33-50 | with crashes and remote errors anywhere, every local row's task is verwerkt in OpenKlant and no task has two rows |
| OpenKlantIntake.LostForGood | src/bptl/openklant/utils.py:61-77 | a task that is out of reach of every query, and not among the rows a running poll has yet to create, never gets a row |
| OpenKlantIntake.EndedPollLoses | src/bptl/openklant/utils.py:80-102 | every task that a poll marked but had not created a row for when it failed or crashed never gets one |
| OpenKlantIntake.LostIff | src/bptl/openklant/utils.py:33-50 | between polls a task without a row can still get one if and only if it is te_verwerken and asks for a handeling |
| OpenKlantIntake.ATaskIsLost | src/bptl/openklant/utils.py:33-50 | a run from the beginning after which a published task can never get a row |
| OpenKlantIntake.FilterFinds | src/bptl/openklant/utils.py:61-77 | the query and the filter on gevraagdeHandeling find exactly the allowed tasks that are te_verwerken, each once |
| OpenKlantIntake.Poller.UpdateTasksStatus | src/bptl/openklant/utils.py:80-85 | the tasks before the first failing update, or before a kill, are processed, and this poll marked no others; all of them are if and only if nothing fails |
| OpenKlantIntake.Poller.CreateModels | src/bptl/openklant/utils.py:88-102 | rows are created in order, all of them unless the process is killed |
| OpenKlantIntake.Poller.FetchAndPatch | src/bptl/openklant/utils.py:33-50 | a poll without errors creates exactly the allowed tasks that were te_verwerken; a failed update creates none and has marked exactly the tasks before it; a kill leaves a prefix |
| OpenKlantIntake.Poller.MarkedIsLost | src/bptl/openklant/utils.py:45-48 | what a finished, failed or killed poll left processed without a row never gets one |
| OpenKlantIntake.Poller.StaysSafe | src/bptl/openklant/utils.py:33-50 | the rows this code leaves behind are safe, whatever happens around it |
| OpenKlantLedger.Ledger.ExecuteRetried | src/bptl/openklant/tasks.py:63-72 | six attempts, then save_failed_task, as the specification of `_execute` says for every sequence of outcomes |
| OpenKlantLedger.Ledger.TaskExecute | src/bptl/openklant/tasks.py:75-100 | the task and nothing else changes, as specified for every sequence of outcomes and kills |
| OpenKlantLedger.DeliveryOutcome | src/bptl/openklant/tasks.py:75-100 | an initial task ends performed without a record or failed with one record in state initial, with one run of the work unit exactly in the first case; any other delivery changes nothing |
| OpenKlantLedger.RetriedOutcome | src/bptl/openklant/tasks.py:63-72 | `_execute` succeeds at most once, leaves an existing record's status alone and creates at most one record, only after giving up |
| OpenKlantLedger.RetriedByAnswers | src/bptl/openklant/tasks.py:63-72 | on the answers of the work unit: `_execute` of an unperformed task succeeds with the first success among the permitted attempts; when all of them fail the failure is saved; with fewer answers it was killed |
| OpenKlantLedger.Ledger.RetryRecord | src/bptl/openklant/tasks.py:116-145 | one turn of the pass, with a remote update that can fail after the record was saved as succeeded |
| OpenKlantLedger.RecordOutcome | src/bptl/openklant/tasks.py:118-126 | a turn that ends settles the record: succeeded, with a performed task, or failed and listed for the notification |
| OpenKlantLedger.TurnByAnswers | src/bptl/openklant/tasks.py:116-145 | a turn that is not killed ends with the record succeeded if and only if `_execute` succeeded and the remote update was answered with success; otherwise the record is failed and its id goes to the notification |
| OpenKlantLedger.TurnCutShort | src/bptl/openklant/tasks.py:131-145 | a kill leaves the record queued until it has been saved, and succeeded between that save and the remote update |
| OpenKlantLedger.RefusedUpdateIsReported | src/bptl/openklant/tasks.py:118-126 | a work unit that succeeds at once while the update is refused: the task is performed and its record failed |
| OpenKlantLedger.Ledger.RetryFailedTasks | src/bptl/openklant/tasks.py:107-128 | a pass settles every record of its query, hands exactly the failed ones to the notification in the order of the query, and touches no other task |
| OpenKlantLedger.PassOutcome | src/bptl/openklant/tasks.py:107-128 | the same for the specification of a pass, for every sequence of outcomes and kills |
| OpenKlantLedger.EventKeepsInv | src/bptl/openklant/tasks.py:75-145 | arrivals, deliveries, passes and kills keep the invariant of every task and of the pass in progress |
| OpenKlantLedger.LedgerOverRuns | src/bptl/openklant/tasks.py:75-145 | over any run a record is tried by one pass more than were killed over it, the work unit succeeds at most that often, and succeeded implies performed |
| OpenKlantLedger.UnqueuedStays | src/bptl/openklant/tasks.py:81-113 | a delivered task without a queued record is never touched again over any run, be it performed, settled, or killed |
| OpenKlantLedger.SettledStays | src/bptl/openklant/utils.py:105-112 | succeeded and failed are absorbing over any run, because update_or_create never resets the status |
| OpenKlantLedger.CanSucceedIff | src/bptl/openklant/tasks.py:75-128 | in every state, during a pass or between passes, some run makes the work unit of a task succeed once more if and only if the task is initial or its record is queued |
| OpenKlantLedger.PerformedRunsAgainIff | src/bptl/tasks/api.py:65-67 | a performed task runs again in some run if and only if its record is queued, and then a pass was killed over it |
| OpenKlantLedger.PerformedTaskRunsAgain | src/bptl/tasks/api.py:65-67 | the guard against a second run does not survive the retry wrapper: the first attempt fails whatever the work unit would do, and the second one runs it |
| OpenKlantLedger.WorkRunsTwice | src/bptl/openklant/tasks.py:107-128 | a run from the empty ledger in which a performed task keeps a queued record, and its continuation in which the work unit succeeds a second time |
| OpenKlantLedger.AttemptsOfTheDecorator | src/bptl/openklant/tasks.py:63-69 | the number of attempts used here is the one the decorator computes |
| Dashboard.AggregateData | src/bptl/dashboard/api/views.py:38-66 | every cell is the sum of its groups, every total the sum of its cells over the engines, and without entries everything is zero for every engine and status |
| Dashboard.SummedIsCount | src/bptl/dashboard/api/views.py:41-54 | a cell is the number of latest entries with its engine and status |
| Dashboard.CountsAreTasks | src/bptl/dashboard/api/views.py:28-54 | a cell is the number of tasks of its engine whose latest status within the window it is |
| Dashboard.CountedExactlyOnce | src/bptl/dashboard/api/views.py:28-36 | every task with a status entry in the window is counted in exactly one cell |
| Dashboard.TotalsAddUp | src/bptl/dashboard/api/views.py:48-54 | all totals together are the number of tasks with a status entry in the window |
| Dashboard.DashboardCountsTheLog | src/bptl/dashboard/api/views.py:18-66 | from the log to the returned dictionaries: each task in the window belongs to exactly one cell, of a latest entry; cells count their tasks, totals are the sums over engines, and all totals together are the tasks in the window; without entries everything is listed with zero |
| Dashboard.CountedAsLastSeen | src/bptl/dashboard/api/views.py:21-36 | the tasks counted are exactly those with a status entry no older than the window, each under the youngest status it has in the whole log |
| UserSheet.DateRange | src/bptl/work_units/zgw/zac/utils.py:73-79 | exactly the consecutive days from the first to the last, whatever the times of day |
| UserSheet.ColumnsIgnoreOrder | src/bptl/work_units/zgw/zac/utils.py:300-304 | the columns are the same when the bounds are swapped, and are all days between them |
| UserSheet.Bounds | src/bptl/work_units/zgw/zac/utils.py:306-315 | the earliest and the latest login over all users, by full datetime |
| UserSheet.Period | src/bptl/work_units/zgw/zac/utils.py:300-319 | the given period in order, else the span of the logins, else today |
| UserSheet.NormalizePerDay | src/bptl/work_units/zgw/zac/utils.py:343-347 | the map from header to count, where a later login of the same day replaces an earlier one |
| UserSheet.RowShowsCounts | src/bptl/work_units/zgw/zac/utils.py:349-351 | the cell under a day is the user's count for that day, or 0 |
| UserSheet.LastLoginCounts | src/bptl/work_units/zgw/zac/utils.py:343-347 | of several logins on one day the last one in the list is shown |
| UserSheet.CellsOfTheSheet | src/bptl/work_units/zgw/zac/utils.py:321-355 | the header and the cell of every column of every user's row |
| UserSheet.AddUsersSheet | src/bptl/work_units/zgw/zac/utils.py:284-355 | the sheet is the header with one column per day and one row per user, sorted by name |
| UserSheet.CellsConserveCounts | src/bptl/work_units/zgw/zac/utils.py:343-351 | the cells of a row and the replaced counts together are the user's counts |
| UserSheet.RowsAreLossless | src/bptl/work_units/zgw/zac/utils.py:305-351 | with no period given the day cells written into each row of the sheet miss exactly what was replaced within a day, so nothing when the user's days are distinct |
| UserSheet.RowsAreOrderedUsers | src/bptl/work_units/zgw/zac/utils.py:331-334 | one row per user, ordered by name without regard to case |
| Reports.AppendZaakLine | src/bptl/work_units/zgw/zac/utils.py:250-268 | the date set after the append goes into the row that was appended |
| Reports.CreateZakenReport | src/bptl/work_units/zgw/zac/utils.py:170-268 | the sheet is the header and the concatenation of the exploded zaken in stably sorted order |
| Reports.RowsOfAZaak | src/bptl/work_units/zgw/zac/utils.py:242-268 | max(1, number of related objects) rows per zaak, all with its own date |
| Reports.LinesConcatenate | src/bptl/work_units/zgw/zac/utils.py:242-261 | the rows of several zaken are the rows of each, one after the other |
| Reports.LineAt | src/bptl/work_units/zgw/zac/utils.py:242-261 | row j of a zaak stands right behind all rows of the zaken before it |
| Reports.ObjectsOfAZaak | src/bptl/work_units/zgw/zac/utils.py:218-258 | a row shows one related object and its type, a bare text as an object without type, and N.v.t. without objects |
| Reports.FieldsOfAZaak | src/bptl/work_units/zgw/zac/utils.py:180-260 | every other cell under its header, with the count from either spelling of its key |
| Reports.ZakenReportIsChronological | src/bptl/work_units/zgw/zac/utils.py:202-208 | in the finished sheet the dates ascend and undated rows come last |
| Reports.ZakenReportIsStable | src/bptl/work_units/zgw/zac/utils.py:202-208 | no zaak is lost or doubled, and zaken of one day keep their order |
| Reports.FirstColonIsFirst | src/bptl/work_units/zgw/zac/utils.py:396-401 | the zaaktype is cut at the first colon, and only if there is one |
| Reports.ZaaktypeFollowsColon | src/bptl/work_units/zgw/zac/utils.py:396-401 | the zaaktype is what follows the first colon, or the whole text without one |
| Reports.Explode | src/bptl/work_units/zgw/zac/utils.py:404-453 | one pending row per related zaak, or one with empty cells, in the order of the documents |
| Reports.PendingConcatenate | src/bptl/work_units/zgw/zac/utils.py:406-453 | the rows of several documents are the rows of each, one after the other |
| Reports.FieldsOfADocument | src/bptl/work_units/zgw/zac/utils.py:384-465 | every cell of a document's rows under its header, the date or the raw text included |
| Reports.AddInformatieobjectenSheet | src/bptl/work_units/zgw/zac/utils.py:363-465 | the sheet is the header and the rendering of the stably sorted exploded rows, each date or raw text in its own row |
| Reports.DocumentReportIsSorted | src/bptl/work_units/zgw/zac/utils.py:456-458 | the rows are ordered by the full six-part key, are exactly the exploded rows, and equal keys keep their order |
| Reports.DocumentSheetIsSorted | src/bptl/work_units/zgw/zac/utils.py:423-458 | on the cells of the finished sheet: the dates ascend, rows without a date come last, and otherwise the lowered informatieobjecttype, bestandsnaam, auteur and zaaktype ascend lexicographically |
| Reports.UndatedLast | src/bptl/work_units/zgw/zac/utils.py:423-430 | below an undated row there are only undated rows, whatever day a dated one carries |
| Reports.DocumentRowCount | src/bptl/work_units/zgw/zac/utils.py:406-453 | max(1, number of related zaken) rows for every document in all |
| Sorting.SortsElements | src/bptl/work_units/zgw/zac/utils.py:202-208 | `sorted` gives an ordered permutation |
| Sorting.KeepsOrderOfPeers | src/bptl/work_units/zgw/zac/utils.py:202-208 | `sorted` is stable |
| Sorting.SortedAndStableIsUnique | src/bptl/work_units/zgw/zac/utils.py:456-458 | order and stability determine the result: there is no other arrangement with both |
| Sorting.StringLeIff | src/bptl/work_units/zgw/zac/utils.py:331-334 | strings are ordered by prefix or by the first character that differs |
| Calendar.FromOrdinalInverts | src/bptl/work_units/zgw/zac/utils.py:152 | day numbers and dates convert into each other without loss |
| Calendar.OrdinalDetermines | src/bptl/work_units/zgw/zac/utils.py:149-152 | day numbers are equal, or ordered, exactly when the dates are |
| Calendar.MonthLengths | src/bptl/work_units/zgw/zac/utils.py:149-152 | the lengths of the months, February in leap years included |
| Calendar.GregorianCycle | src/bptl/work_units/zgw/zac/utils.py:149-152 | the calendar repeats every 400 years with 97 leap days |
| Calendar.MinusOneSecondMeans | src/bptl/work_units/zgw/zac/utils.py:152 | subtracting a second goes back one second on the wall clock, and fails only at the first second of year 1 |
| Calendar.PeriodIsThePreviousMonth | src/bptl/work_units/zgw/zac/utils.py:137-162 | for every now, January and leap years included: 00:00:00 on day 1 to 23:59:59 on the last day of the month before, one second before this month begins |
| Calendar.PeriodsTileTheCalendar | src/bptl/work_units/zgw/zac/utils.py:137-162 | a second lies in the period if and only if its month is the one before |
| Calendar.ConsecutivePeriodsMeet | src/bptl/work_units/zgw/zac/utils.py:137-162 | periods of consecutive months neither overlap nor leave a gap |
| Zaaktype.CreateZaakTask.GetZaaktype | src/bptl/work_units/zgw/tasks/zaak.py:72-161 | the remembered answer, the given url, or the selected version; only a url is remembered |
| Zaaktype.ChosenAreBest | src/bptl/work_units/zgw/tasks/zaak.py:116-145 | filter, then prefer, is one filter: valid today and no valid version ends later |
| Zaaktype.SelectedIffUniqueBest | src/bptl/work_units/zgw/tasks/zaak.py:116-158 | a url is returned if and only if exactly one valid version has the greatest end date, and it is that one's |
| Zaaktype.SelectedByDates | src/bptl/work_units/zgw/tasks/zaak.py:116-158 | in terms of the dates: a url is returned if and only if one version that has begun and not ended outlasts all others that have, and it is that one's |
| Zaaktype.DistinctEndsSuffice | src/bptl/work_units/zgw/tasks/zaak.py:127-158 | with pairwise different end dates it fails only when no version is valid today |
| Zaaktype.FailureReason | src/bptl/work_units/zgw/tasks/zaak.py:147-156 | the message without "unique" means that no version is valid today |
| Filters.FilterSingle | src/bptl/work_units/zgw/tasks/zaak.py:126-147 | a comprehension leaves one element exactly when one position passes, and then that one |
| Pagers.GetPaginatedResults | src/bptl/work_units/zgw/utils.py:6-31 | on any finite chain: the results of the first pages in order, and the page left behind in the caller's dictionary |
| Pagers.SearchMetaObjects | src/bptl/work_units/zgw/objects/services.py:86-136 | on any finite chain: the results of all pages in order, none without a filter, an error without configuration |
| Pagers.PagersAgree | src/bptl/work_units/zgw/utils.py:6-31 | both pagers return the concatenation of all pages |
| Pagers.ResultsConcatenate | src/bptl/work_units/zgw/utils.py:14-29 | the results of some pages and then others are those of the first followed by those of the others; a page gives its own results |
| Pagers.ResultAt | src/bptl/work_units/zgw/utils.py:14-29 | element j of a page stands right behind all elements of the earlier pages |
| Sequences.FlatMapConcatenates | src/bptl/work_units/zgw/utils.py:14-29 | what collecting over two lists gives: the collection of the first, then that of the second |
| Sequences.FlatMapAt | src/bptl/work_units/zgw/zac/utils.py:242-261 | the place of every single contribution |
| Pagers.NoMinimumReadsAll | src/bptl/work_units/zgw/utils.py:16-31 | without a minimum, or with zero, every page is read |
| Pagers.MinimumReadsFewest | src/bptl/work_units/zgw/utils.py:16-29 | with a minimum the fewest pages that reach it are read, at least one, or everything |
| Pagers.ChainIsUnique | src/bptl/core/utils.py:6-15 | from one request the next urls lead along one chain only |
| Pagers.SecondUseOfParams | src/bptl/work_units/zgw/utils.py:9-24 | a second use of the same dictionary returns the last page only |
| ServiceValidation.DefaultServiceFormset.Clean | src/bptl/tasks/forms.py:74-153 | when the set validates and which error ends the validation, for every list of forms, deleted and invalid ones included; without deletions, which requirement is named in the error and which form is marked |
| ServiceValidation.DefaultServiceFormset.CheckAliases | src/bptl/tasks/forms.py:92-128 | the first round: its verdict, the forms it marks and the forms it pins |
| ServiceValidation.DefaultServiceFormset.CheckTypes | src/bptl/tasks/forms.py:137-153 | the second round: the first type without a candidate, if there is one |
| ServiceValidation.AcceptsIff | src/bptl/tasks/forms.py:74-153 | without deletions the set validates if and only if every required alias names a service of its type and every other type is offered by a service no required alias claims |
| ServiceValidation.AnswerIsGiven | src/bptl/tasks/forms.py:92-153 | which requirement a set without deletions is refused for: the first aliased one no form serves, as missing if and only if no form carries its alias, and otherwise with the error on exactly the form that does; and if there is none, the first one without alias that finds no free service |
| ServiceValidation.AliasLookupIff | src/bptl/work_units/services.py:7-24 | for every set that can be saved, deletions included: the lookup by alias finds exactly one service, of the type, if and only if a kept form offers it under that alias; it never finds several |
| ServiceValidation.ClientLookupIff | src/bptl/work_units/zgw/tasks/base.py:38-45 | for every set that can be saved: the query of get_client is not empty if and only if a kept form offers the type |
| ServiceValidation.PromiseKeptIff | src/bptl/tasks/forms.py:92-153 | an accepted set answers all requirements at run time if and only if its kept forms serve them |
| ServiceValidation.AliasLookupSucceeds | src/bptl/work_units/services.py:7-24 | without deletions, after an accepted mapping the lookup by alias finds exactly one service, of the required type |
| ServiceValidation.ClientLookupFindsSome | src/bptl/work_units/zgw/tasks/base.py:38-51 | without deletions, after an accepted mapping the query of get_client is not empty, so only MultipleServices remains |
| ServiceValidation.ClientFoundIff | src/bptl/work_units/zgw/tasks/base.py:42-51 | get_client finds its service if and only if exactly one kept form offers the type |
| ServiceValidation.SharedTypeNeverWorks | src/bptl/work_units/zgw/tasks/base.py:46-49 | with one type required both under an alias and without, every accepted mapping ends in MultipleServices |
| ServiceValidation.DeletedFormIsCounted | src/bptl/tasks/forms.py:101-104 | an accepted set that breaks the promise: the only form with the alias is marked for deletion |
| ServiceValidation.WrongTypeCrashesIff | src/bptl/tasks/forms.py:94-126 | a wrong type ends in an AttributeError if and only if another alias is required after it |
| ServiceValidation.SavedUnique | src/bptl/tasks/models.py:76-85 | the saved rows have different services and, blank ones aside, different aliases |
| ServiceValidation.UniqueIff | src/bptl/tasks/models.py:76-85 | the uniqueness check of the form set passes if and only if the rows to be saved differ in service and, blank ones aside, in alias |
| ActorEmail.UnitEmailIff | src/bptl/work_units/open_klant/utils.py:19-48 | an address exactly when one object has one, and then that; an IndexError exactly when there are objects and none has one |
| ActorEmail.GetActorEmail | src/bptl/work_units/open_klant/utils.py:51-151 | the answer for every list of actors and every state of the objects |
| ActorEmail.CollectAddress | src/bptl/work_units/open_klant/utils.py:120-151 | the loop over the active actors finds the single address, and one broken lookup ends everything |
| ActorEmail.AddressIff | src/bptl/work_units/open_klant/utils.py:69-151 | an address is given if and only if it is that of the single candidate |
| ActorEmail.WorkerAddressIff | src/bptl/work_units/open_klant/utils.py:78-103 | on the actors' fields: with an active medewerker, the address of the only active medewerker identified by e-mail |
| ActorEmail.UnitBreaksIff | src/bptl/work_units/open_klant/utils.py:120-138 | with no active medewerker but an active unit: an IndexError if and only if some active actor has objects without any address |
| ActorEmail.UnitAddressIff | src/bptl/work_units/open_klant/utils.py:105-151 | and otherwise an address if and only if one active actor has just one address in its objects |
| ActorEmail.AnswerIsUnique | src/bptl/work_units/open_klant/utils.py:51-151 | the actors and the objects determine the answer |
| ActorEmail.WorkerRulesOutUnits | src/bptl/work_units/open_klant/utils.py:78-103 | with an active medewerker the address is that of the only one with an e-mail, whatever the objects contain |
| ActorEmail.OrderDoesNotMatter | src/bptl/work_units/open_klant/utils.py:54-151 | permuting the actors gives the same address or the same error |
| ActorEmail.AddressOfUnitIff | src/bptl/work_units/open_klant/utils.py:105-151 | without an active medewerker the address found is a unit's if and only if the one active actor with an address is a unit |
| ActorEmail.OtherActorMaySupplyTheAddress | src/bptl/work_units/open_klant/utils.py:121-131 | the address may come from an actor that is neither a unit nor a medewerker |
| Documents.Api.LockAll | src/bptl/work_units/zgw/tasks/documents.py:165-175 | in any order of the calls: on success all documents are locked under their own ids and were unlocked and different; a document changes only from unlocked to locked |
| Documents.Api.UpdateAll | src/bptl/work_units/zgw/tasks/documents.py:177-185 | in any order: every update uses the document's own lock, all stay locked, and on success every flag is False |
| Documents.Api.UnlockAll | src/bptl/work_units/zgw/tasks/documents.py:187-216 | in any order: every unlock uses the document's own lock, and on success all are unlocked |
| Documents.Api.Perform | src/bptl/work_units/zgw/tasks/documents.py:218-238 | every update and unlock uses the lock granted for that document in this run; all calls succeed: unlocked with the flag False; a failed update: no unlock is sent and all stay locked; a failed lock: nothing else is sent; a reliable API finishes exactly when the documents are different and unlocked |
| Documents.Api.PerformAgain | src/bptl/work_units/zgw/tasks/documents.py:218-238 | after a failed update every further try fails at the locks, changes no document at all and sends nothing but lock requests |
| Documents.OrderDoesNotMatter | src/bptl/work_units/zgw/tasks/documents.py:226-236 | the result of a successful run does not depend on the order of the calls nor on the lock ids |

## Left out

- HTTP, Celery, Redis and the ORM are free choices or plain values; saves succeed, and a save is one step with its log entry.
- The `execute_task --force` command, which resets a row without telling the engine, and `execute_task` on rows that are not queued yet.
- Two deliveries of one Camunda row at the same instant: the check of the status and the save of the claim are one step.
- Clock skew between engine and worker; extendLock and the re-read of the expiry are one step; a fetch response lists a task once.
- The process variables: serialisation, result variables and what a work unit does with them.
- OpenKlant ledger: a delivery and a turn of the retry pass are not interleaved with each other; the work unit and the save of its outcome are one step, so a mail that was sent just before a kill is not counted; the text of the notification.
- OpenKlantLedger.LedgerOverRuns: counts passes per kill, because a record whose pass is killed before it is settled is tried by the next one.
- OpenKlantIntake.IntakeIsSafe: polls do not overlap, the list a poll fetches is one snapshot, and nobody sets a task in OpenKlant back to te_verwerken: a poll would take such a task for a new one.
- Retry.ExponentialSleepBound: over the reals; overflow of floating point powers is not modelled.
- CamundaProtocol.LiveLocksExclude: excludes rows whose failure the engine accepted, because an operator can release such a task while the row still looks alive.
- Dashboard.CountsAreTasks: among entries with the same timestamp the database may take any.
- Reports.DocumentSheetIsSorted: for a `lower` that keeps the empty text empty, as Python's does.
- Parsing dates and datetimes, `lower` and `strip`, and formatting a day as a header, which must be different for different days.
- `date.max` as the end of a period, which the day loop cannot step over.
- Column widths, filters, fonts and the bytes of a workbook.
- Calendar.PeriodIsThePreviousMonth: on the wall clock of the zone; offsets and daylight saving are not part of it.
- Checks for missing process variables and the requests before the list of zaaktype versions.
- `JSONClient.list`, which ignores the page; the model's client sends it.
- ServiceValidation: the parsing of the forms themselves, and the credentials get_client adds after it found its service. That a form with an error takes the cleaned data of the set away, and that forms marked for deletion do not count as invalid, is the behaviour of Django's formsets, which are not part of this model.
- Documents: one document per url; nobody else locks documents during a run; inferring the uuid and the client from the url.
- ActorEmail: which request fails first when retrieving actors, and the log messages.
- The crontask worker, templates, mail, the admin, authentication and the work units that make a single request.
