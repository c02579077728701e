# The replay engine of a Cadence worker, and what surrounds it

A Cadence worker forgets a workflow between two decision tasks. For each task it starts a fresh executor, feeds it the
whole history window by window, runs the workflow code again in fibers, predicts the event ids that the server will
assign, answers side effects and release checks from recorded markers, routes completions to futures, and compares the
commands in the history with those the code issues now. This project models that engine, the server protocol around it,
and the smaller parts that have theorems of their own: the thread pool with its pollers, sagas, reset points and
asynchronous activity tokens.

## How the model is laid out

The classes carry the source's mutable objects: `StateManager`, `Dispatcher`, `Executor` (context, futures and fibers),
`History` and `Window`, `ThreadPool`, `Saga`. Each of their methods is proved equal to a function on values (`Engine`,
`StateManagers`, `Histories`, `ThreadPools`, `Sagas`), and the theorems are about those functions.

| files | content |
|---|---|
| `Base`, `Decimal`, `Decisions`, `Events`, `TypeNames` | values, ids, decisions, events, the prefix table of event types |
| `Histories`, `StateManagers`, `Engine`, `Executors` | windows and paging, id prediction and the decision list, fibers, futures and handlers, the objects |
| `Growth`, `Mirror`, `MirrorRun`, `Windows`, `Protocol`, `Replay` | the server protocol and the refinement of a remembering worker by a forgetful one |
| `Shortfalls` | concrete runs of the protocol in which deterministic code cannot be replayed |
| `Runs` | a run as the sequence of its states, one for each event; what every single step keeps |
| `Routing`, `CompletionRouting`, `Delivery`, `Deliveries`, `Settlements` | completions reach exactly their futures, in order, in every window of a rebuilt worker; which events finish a future |
| `Requests`, `FiberStarts`, `Futures`, `Clocks` | what the code is answered, which fibers start and why, the decision behind each future, the clock |
| `Conservation`, `RootFiber`, `Refusals` | everything scheduled is matched or returned; how the workflow ends; which events raise |
| `Checks`, `Stickiness`, `Erasure`, `Deployments`, `Upgrades` | release checks: sticky answers, removing a check, deploying one, and runs whose code changes on the way |
| `Lifecycle`, `OrderlyHistories`, `Phases` | phases of decisions |
| `ThreadPools`, `PoolSafety`, `PoolProgress`, `PoolThreads` | the pool as interleaved threads, and its methods as steps of these |
| `Sagas`, `ResetPoints`, `AsyncTokens` | compensation, reset points, tokens |

**Workflow code** is any function from the log of everything that has happened to it (fibers started, requests made and
answers received) to its next request. So fibers may share variables, nest blocks and loop forever; the only thing code
cannot be is dependent on something that is not in the log, which is what the library means by deterministic. A fiber
may make `budget` requests before it counts as hung; every theorem holds for every budget.

**Live side effects** draw from an oracle, one for each task, so a value may differ on each attempt; replay must not
depend on it. JSON payloads are values, already parsed.

**The server** is a list of rounds, one for each completed decision task. A round holds what happened since the last
one (outcomes, signals, failed and timed-out attempts of the task), the start time, the oracle, and which cancellations
the server refuses. The server appends DecisionTaskStarted, DecisionTaskCompleted right after it, and one command event
for each decision. `KeptRun` gives the rounds to one executor that keeps its state and reads only the newest window;
`StatelessRun` gives each round to a fresh executor that reads the whole history, as `DecisionTaskProcessor#process`
does.

**Release checks.** Which answers a program asks for and what it does with them is read off its log. For every program,
also one whose fibers share what a check answered, there is a version without the checks (`EveryCheckCanBeDropped`); the
theorems about removing and about deploying a check relate the two. `KeptRun` and `StatelessRun` take the world in which
they begin: `START`, where nothing has happened, or any other from which a worker can take over (`Resumable`). A world in
which new code has taken over is one of these (`NewCodeTakesOver`), so one deployment may follow another.

Assumptions on the server are stated where they are used: `ValidRound` (command events appear only in reply to
commands), `TimelyOutcomes` (one outcome for a command, after the command), `OrderlyNews` (what the server reports about
one decision comes in the order of its life; that its commands do follows), `FailuresAnswerActivities` (a failure quotes
the event that scheduled the activity).

## Where the code falls short of its comments

The model follows the code in each of these, and the theorems say what it costs.

- A recorded activity id is read back with `to_i` (`lib/cadence/workflow/history/event.rb:68`), so an activity whose id
  the user chose as text trips the determinism check on the next task, although the code is deterministic.
  `CancelTimerFailed` calls `state_machine.failed`, which does not exist (`lib/cadence/workflow/state_manager.rb:196`), so
  the task after a refused timer cancellation fails. `TextActivityIdAlarms` and `RefusedCancellationRaises` are runs of
  the protocol, from its first event, in which this happens. `Replayable` is the absence of the two, and
  `ReplayRefinesIncremental` shows that replay works exactly as long as it holds and which of the two errors comes first.
- `decision_id` asks six types of event for a `scheduledEventId` that their attributes do not have
  (`lib/cadence/workflow/history/event.rb:17-23,56`), so these raise although their branches are empty:
  WorkflowExecutionTerminated, UpsertWorkflowSearchAttributes, ExternalWorkflowExecutionSignaled,
  ExternalWorkflowExecutionCancelRequested, SignalExternalWorkflowExecutionFailed and
  RequestCancelExternalWorkflowExecutionFailed. The other types with empty branches are ignored.
- The table of event types promises that the first matching prefix is the longest. The row for cancellations of external
  workflows stands after a shorter one that hides it; `FirstMatchIsLongest` says that this is the only exception.
- `TimerCanceled` and `ActivityTaskCanceled` resolve to the target of the cancel request
  (`lib/cadence/workflow/history/event_target.rb:23-26`), so they never settle the future of the timer or activity;
  `CancellationNeverSettles` says which events do.
- A failed or timed-out decision task clears a field that nothing reads instead of the id base
  (`lib/cadence/workflow/history/window.rb:27`); the base comes from the last DecisionTaskStarted.
- A pool without threads keeps its poller waiting for ever: shutdown terminates exactly for positive sizes
  (`ShutdownNeedsAThread`).
- A percent literal without a letter is a string, so the reset strategies search a text instead of a list of names;
  `SearchIsMembership` says that this makes no difference for the 42 type names of the server.
- A token loses an empty run id and mixes up parts that contain the separator; `TokenRoundTrip` says that nothing else
  is lost.

## Model

| member | source | states |
|---|---|---|
| Replay.ReplayRefinesIncremental | lib/cadence/workflow/executor.rb:22-34 | For all code and all rounds: rebuilding from the whole history gives the same history, decisions, handlers, futures, fibers, answers and releases, or the same error, as having kept the state, as long as every recorded decision is replayable; after one that is not, every later task fails, with the error of the first such decision |
| Replay.RefinesFrom | lib/cadence/workflow/executor.rb:22-34 | The same from any world whose history, rebuilt with any oracle, leads to its executor |
| Replay.ReplayHistory | lib/cadence/workflow/history.rb:18-27 | Replaying the recorded history succeeds if and only if every recorded decision is replayable, and ends in the kept executor's state with an empty decision list; otherwise it raises the error of the first decision that is not: the determinism check for a textual id, the missing method for a refused timer cancellation |
| Replay.WindowReplay | lib/cadence/workflow/state_manager.rb:74-87 | The same for one window from any pair of related states, whatever releases are true or false in it: markers first, then the news, then the commands |
| Replay.NoFalseAlarm | lib/cadence/workflow/state_manager.rb:285-297 | Deterministic code with replayable decisions is never called non-deterministic |
| Replay.KeptRunNeverAlarms | lib/cadence/workflow/state_manager.rb:289-296 | A live run never raises the determinism error |
| Shortfalls.TextActivityIdAlarms | lib/cadence/workflow/history/event.rb:64-75 | A run from the first event: the task that schedules an activity under a textual id is completed, and the next task raises the determinism error |
| Shortfalls.RefusedCancellationRaises | lib/cadence/workflow/state_manager.rb:195-198 | A run from the first event: a timer is started and cancelled, the server refuses the cancellation, and the next task calls the missing method |
| Decimal.WireRoundTrip | lib/cadence/workflow/history/event.rb:68 | An id sent as a string and read back with `to_i` is the same if and only if it was a number |
| Replay.IdsArePredicted | lib/cadence/workflow/history/window.rb:23-25 | The decisions of a task carry consecutive ids from the base, a terminal one only at the end, and the server's command event for each stands in the history at the predicted id |
| StateManagers.NextFreeId | lib/cadence/workflow/state_manager.rb:40-43 | The skip loop terminates at the least id above the counter that no recorded marker has |
| Mirror.ScheduleMirrors | lib/cadence/workflow/state_manager.rb:37-62 | During replay an ordinary decision gets the id it had live, by skipping exactly the markers, and the states stay related |
| Mirror.SideEffectMirrors | lib/cadence/workflow/context.rb:146-155 | A side effect answers in replay the value that was drawn live, whatever its block would draw now |
| Mirror.ReleaseMirrors | lib/cadence/workflow/state_manager.rb:312-320 | A release check answers in replay what it answered live, true or false |
| Replay.AnswersAreStable | lib/cadence/workflow/state_manager.rb:64-72 | The log of all requests and answers of any earlier task is a prefix of the log that every later rebuild produces |
| Stickiness.StickyAnswers | README.md:386-395 | Over every run of any code on any history: once a check of a release was answered, a later one is answered true if and only if the earlier one was, or a marker of the release was handled in between |
| Checks.EveryCheckCanBeDropped | README.md:400-401 | Every program, whatever its fibers share, has a version in which each check of a release is replaced by one and the same branch |
| Erasure.ErasingCheckPreservesReplay | README.md:400-401 | If all checks of a release were true, the code with these checks replaced by their true branch replays the same history to the same state in every respect except the erased questions |
| Erasure.EveryCheckCanBeErased | README.md:400-401 | The same of every program: its version without the checks exists and replays all its histories |
| Deployments.DeployingCheckPreservesReplay | README.md:386-395 | A history that the old code recorded is replayed by code with a new check whose false branch is the old code, given enough requests: every check answers false, the state is the same but for the questions, and the release is known, as false, exactly if the new code asked |
| Deployments.DeployableExactlyWhen | README.md:386-395 | Some number of requests is enough if and only if the new code, told false, does not ask for ever anywhere in what that history has done |
| Deployments.EveryCheckCanBeDeployed | README.md:390-395 | The same equivalence for every program with checks and its version without them |
| Upgrades.NewCodeTakesOver | README.md:386-395 | A workflow in progress can be handed to the new code: with enough requests, rebuilding it with any oracle leads to one state, which goes on from that of the old code |
| Upgrades.UpgradeRefines | lib/cadence/workflow/executor.rb:22-34 | When the first tasks are handled by the old code and all later ones by the new, fresh executors are indistinguishable from one that took the new code over at that point and kept its state, as long as what was recorded since is replayable, and never call the code non-deterministic; afterwards every task fails with the first fault |
| Upgrades.UpgradeKeepsAnswers | lib/cadence/workflow/state_manager.rb:64-72 | Across the change of code, the log of any earlier task is a prefix of the log of every later rebuild; for tasks of the old code, but for the added checks, all of them answered false |
| Upgrades.UpgradeIsSticky | README.md:386-395 | In every task and every rebuild after the change, all checks of the release answer false if the new code checked it in what the old code had done, and otherwise all answer true (or raise) |
| Replay.WindowsAreTasks | lib/cadence/workflow/history.rb:28-43 | A task's history is cut into one replay window for each completed task, holding the commands that very task issued, and one live window |
| Replay.HistoryWindows | lib/cadence/workflow/history.rb:40 | Events that arrive later never change the windows of a recorded history |
| Histories.WindowsPartitionHistory | lib/cadence/workflow/history.rb:28-43 | The windows of any history are non-empty and concatenate to it |
| Histories.SplitAppend | lib/cadence/workflow/history.rb:33-40 | Windowing distributes over appending at a closed window |
| Histories.FetchFullHistory | lib/cadence/workflow/decision_task_processor.rb:72-89 | However a history is paged, the pages in order are what is windowed |
| Histories.PagesInOrder | lib/cadence/workflow/decision_task_processor.rb:72-89 | Page number k is the one that the token of the page before fetches |
| Histories.ReplayWindow | lib/cadence/workflow/history/window.rb:19-36 | A window is a replay if and only if its decision task was completed |
| Histories.ClockOfWindow | lib/cadence/workflow/history/window.rb:23-31 | Id base and clock of a window are those of the last start of its task, the clock only if that attempt did not fail or time out |
| Histories.Window.Add | lib/cadence/workflow/history/window.rb:19-36 | The whole new state of a window for every kind of event |
| Histories.History.NextWindow | lib/cadence/workflow/history.rb:28-43 | The window holds exactly the next segment, and the iterator stands after it; none at the end |
| Conservation.PerformCarriesOut | lib/cadence/workflow/context.rb:43-70 | For each request of the code, the decision that it asks for is appended exactly when the answer says so, field by field: the type and input that were given, the identifier that was given or else the decision's own event id, the least free one |
| Requests.AnsweredAsPromised | lib/cadence/workflow/context.rb:43-240 | Every request is answered as its caller is promised: a handle or a refusal, a recorded or a drawn value, the outcome of a future, the clock; futures and blocks are numbered as they come |
| Requests.EndsAsPromised | lib/cadence/workflow.rb:11-29 | The root fiber completes or fails the workflow or raises the refusal; any other fiber that raises is rescued by nobody |
| Futures.FuturesQuoteTheirDecisions | lib/cadence/workflow/context.rb:232-245 | Over every run, each future was made together with a decision: its target is that decision's, and a cancellation through it quotes that decision's own identifier |
| FiberStarts.SignalsReachTheirBlocks | lib/cadence/workflow/context.rb:222-228 | Over every run of any code on any history, event by event: a signal runs each block registered for signals before it, once, in order of registration, with the signal's name and input; the workflow's start begins one fiber with its input; nothing else does either; and the callbacks of a future are the blocks registered for it |
| Clocks.ClockStandsStill | lib/cadence/workflow/context.rb:218-220 | Each reading of the clock made in a task gives the time at which that task was started, in every later rebuild too |
| Refusals.RaisesExactly | lib/cadence/workflow/state_manager.rb:116-297 | Every reason for which an event raises, and no other; an event that answers a decision takes the oldest off the list exactly if it has its id, kind and attributes, and no other event touches the list |
| Conservation.QueueConservation | lib/cadence/workflow/state_manager.rb:285-297 | For any code and any history: all decisions that the requests and their answers say were scheduled are, in order, those matched one by one by command events with the same id, kind, activity id, type and input, followed by those returned |
| Conservation.TerminalDecisionIsLast | lib/cadence/workflow/state_manager.rb:97-114 | For any code and any history, the returned decisions complete or fail the workflow at most once, and last |
| Conservation.TerminalOrderIsLast | lib/cadence/workflow/state_manager.rb:58-59 | For any code and any history, all that was ever scheduled completes or fails the workflow at most once, and last; and it does so exactly when the returned decisions end with that decision |
| RootFiber.RootEndsWorkflow | lib/cadence/workflow.rb:11-29 | Over every run of any code on any history: once the workflow has begun and its root fiber waits for nothing, the returned decisions end with the one decision that completes or fails it |
| CompletionRouting.CompletionsReachTheirFutures | lib/cadence/workflow/context.rb:58-70 | In every rebuilt worker each future has exactly the outcome that the history records for its command, no fiber sleeps on a finished future, every wait was answered with the final outcome, and the guards of `set` and `fail` never raise |
| CompletionRouting.RoutedRounds | lib/cadence/workflow/context.rb:206-216 | The routing invariant holds after every round: futures, handlers, parked fibers and the log agree with the events so far |
| Routing.DeliverRouted | lib/cadence/workflow/dispatcher.rb:14-18 | Delivering an outcome keeps the routing invariant whatever the woken code does, and never raises because of a future or a fiber |
| Delivery.DeliveredInOrder | lib/cadence/workflow/context.rb:206-216 | The future is settled first; the waiters are exactly the fibers parked on it, each once, in the order in which they began to wait; and each goes on with the outcome, which is the next entry of the log |
| Deliveries.EveryDeliveryInOrder | lib/cadence/workflow/dispatcher.rb:14-18 | Every outcome in every window of a worker that rebuilds the workflow for a task, replayed or live, is delivered in that order; with a result the callbacks of the future run first, each once, in order and with the result, and no other block runs |
| Deliveries.NewsInOwnWindow | lib/cadence/workflow/history.rb:28-43 | What the server recorded before a task, a signal at the very front included, is in the window of that very task |
| Settlements.SettlementsAgree | lib/cadence/workflow/context.rb:62-67 | Events, targets and handlers together finish a future by exactly the events listed one by one, with the results listed there |
| Settlements.CancellationNeverSettles | lib/cadence/workflow/history/event_target.rb:23-26 | In every rebuilt worker a timer's future is finished exactly when the history has its TimerFired, and an activity's exactly when it completed, failed or timed out, cancelled or not |
| Routing.SelectList | lib/cadence/workflow/dispatcher.rb:24-28 | For the handlers of a future, selection gives its own handler followed by all its waiters in the order of waiting |
| Lifecycle.LivesMoveForward | lib/cadence/workflow/decision_state_machine.rb:15-45 | Over every run on the history of an orderly server, each decision's phase at a later event is at or beyond its phase at an earlier one, and a finished one never changes |
| OrderlyHistories.HistoryOrderly | lib/cadence/workflow/decision_state_machine.rb:15-45 | If what the server reports between tasks is in order, the whole history that the protocol writes is, commands included |
| OrderlyHistories.ProtocolLivesMoveForward | lib/cadence/workflow/decision_state_machine.rb:15-45 | The same as the first over every run of the protocol, assuming order of the news alone |
| Lifecycle.TrackedStep | lib/cadence/workflow/state_manager.rb:55-56 | One event sets the phase of the decision it is about; all code that it wakes only requests decisions never tracked before |
| Phases.PhaseByName | lib/cadence/workflow/state_manager.rb:116-279 | An event sets the phase that its type names, and exactly the listed types set none |
| Phases.DecisionByName | lib/cadence/workflow/history/event.rb:49-62 | Which decision an event is about, by its type: the one it quotes, the workflow, or itself |
| Lifecycle.WindowKeepsPhases | lib/cadence/workflow/state_manager.rb:79-86 | Handling the markers of a window first keeps the order of the events about each decision |
| TypeNames.PrefixTable | lib/cadence/workflow/history/event_target.rb:62-70 | For each of the 42 event types of the server, the first matching row of the prefix table gives its target type; decision task events have none |
| TypeNames.FirstMatchIsLongest | lib/cadence/workflow/history/event_target.rb:21-39 | For every name, the first match is the longest match if and only if the name is not a cancellation of an external workflow |
| TypeNames.CommandsByName | lib/cadence/workflow/history.rb:47-59 | For each of the 42 event types, whether its events stay in the window of the task before them is whether its name is one of the eleven command types |
| StateManagers.StateManager.Schedule | lib/cadence/workflow/state_manager.rb:37-62 | The whole new state and the result or exception of `schedule`, with its loop |
| StateManagers.StateManager.Release | lib/cadence/workflow/state_manager.rb:64-68 | The whole new state and answer of `release?` |
| StateManagers.StateManager.AbsorbEvent | lib/cadence/workflow/state_manager.rb:116-279 | What each event of the 42 types does to the tracker, the markers and the decision list, which types are ignored, and which raise |
| StateManagers.StateManager.DiscardDecision | lib/cadence/workflow/state_manager.rb:285-297 | The oldest decision leaves the list; any difference raises |
| Executors.Dispatcher.HandlersFor | lib/cadence/workflow/dispatcher.rb:24-28 | A snapshot of exact and wildcard handlers in registration order |
| Executors.Executor.ExecuteTracked | lib/cadence/workflow/context.rb:58-70 | The decision, the future and both handlers of an activity, timer or child workflow |
| Executors.Executor.DrawOrReplay | lib/cadence/workflow/context.rb:146-155 | The recorded value if one is left, otherwise a drawn one with its marker |
| Executors.Executor.AboutFuture | lib/cadence/workflow/future.rb:30-68 | Waiting, reading, `done` and `cancel` of a future in each of its states |
| Executors.Executor.EndFiber | lib/cadence/workflow.rb:11-29 | A return completes the workflow, a raise fails it, also when completing raises |
| Executors.Executor.RunFiber | lib/cadence/workflow/context.rb:206-216 | A fiber runs until it parks with a wildcard handler, ends, raises or hangs |
| Executors.Executor.SetFuture | lib/cadence/workflow/future.rb:40-45 | The result is stored and every callback runs in a fiber of its own; a failed future raises |
| Executors.Executor.FailFuture | lib/cadence/workflow/future.rb:47-51 | The failure is stored; a fulfilled future raises |
| Executors.Executor.ResumeWaiter | lib/cadence/workflow/context.rb:209-211 | The wildcard handler resumes its fiber if the future is finished; a dead fiber raises |
| Executors.Executor.Dispatch | lib/cadence/workflow/dispatcher.rb:14-18 | The handlers of the snapshot run in order up to the first that raises |
| Executors.Executor.Apply | lib/cadence/workflow/state_manager.rb:74-87 | A window's flags are set, its markers handled, then its events |
| Executors.Executor.RunHistory | lib/cadence/workflow/executor.rb:22-34 | The loop over windows computes exactly the function that the theorems are about |
| ThreadPools.ThreadPool.Schedule | lib/cadence/thread_pool.rb:31-36 | One critical section: a place less, a job more at the end |
| ThreadPools.ThreadPool.ScheduleExits | lib/cadence/thread_pool.rb:38-41 | One exit job for each thread, after all jobs |
| ThreadPools.ThreadPool.Poll | lib/cadence/thread_pool.rb:50-60 | The loop of one thread left alone runs the tasks before the first exit job in order, gives back a place for each, and takes that exit job |
| PoolThreads.WorkerPolls | lib/cadence/thread_pool.rb:50-60 | The steps of one worker, with nobody else moving, take the system to where `Poll` takes the pool, and record the same tasks as started and run |
| PoolThreads.CallerSchedulesExits | lib/cadence/thread_pool.rb:38-41 | The steps of the caller up to the joins take the system to where `ScheduleExits` takes the pool |
| PoolThreads.PollerSchedules | lib/cadence/thread_pool.rb:31-36 | Three steps of a poller that holds a task take the system to where `Schedule` takes the pool |
| PoolSafety.ExclusiveKept | lib/cadence/thread_pool.rb:24-35 | Threads are inside a critical section exactly when they hold the mutex, at every step |
| PoolSafety.PoolConservation | lib/cadence/thread_pool.rb:50-60 | Under every interleaving the counter is the size less jobs queued, in flight and reserved and threads gone; before shutdown there are never more jobs than threads |
| PoolSafety.TasksPolled | lib/cadence/workflow/poller.rb:66-72 | Under every interleaving the tasks polled are, in order, those accepted and the one that the poller has in hand |
| PoolSafety.TasksConserved | lib/cadence/workflow/poller.rb:54-73 | At every point the tasks accepted are, in order, those started and those queued; those started have run or are running |
| PoolSafety.GracefulShutdown | lib/cadence/activity/poller.rb:34-39 | When `wait` returns the queue is empty, every thread left on an exit job of its own, and every task that was ever polled ran exactly once, started in order of polling |
| PoolProgress.NoLostWakeUp | lib/cadence/thread_pool.rb:23-29 | While the poller sleeps the counter is at most zero or a signal is on its way, some worker can move, and no interleaving gets past the remaining load without waking the poller |
| PoolProgress.NoDeadlock | lib/cadence/thread_pool.rb:38-44 | With at least one thread, some thread can move until `wait` has returned |
| PoolProgress.ShutdownTerminates | lib/cadence/activity/poller.rb:53-72 | After `stop` every interleaving is bounded, up to spurious wake-ups, and one that can go no further has returned |
| PoolProgress.ShutdownNeedsAThread | lib/cadence/thread_pool.rb:18-20 | `wait` can return from wherever `stop` is called if and only if the pool has a thread |
| Sagas.Saga.Compensate | lib/cadence/saga/saga.rb:13-17 | The loop runs the compensations from the last to the first and stops at the first that raises |
| Sagas.RunSaga | lib/cadence/saga/concern.rb:7-25 | The outcome and the final world for every block and configuration |
| Sagas.CompensationOrder | lib/cadence/saga/saga.rb:13-17 | The compensations that ran are a prefix of the reverse order, all of it when none raised; one that raised is the last that ran |
| Sagas.OldestRaises | lib/cadence/saga/saga.rb:13-17 | All compensations ran although one raised if and only if the one that raised is the oldest: the others ran and it raises in the world they leave |
| Sagas.SagaUndo | lib/cadence/saga/concern.rb:15-20 | If each compensation undoes its action, an abort at any point with an error to compensate restores the initial world, each compensation having run once in reverse |
| Sagas.RolledBackExactlyWhen | lib/cadence/saga/concern.rb:27-34 | A rollback is reported if and only if the error is standard, on the first list or, when that is empty, not on the second, and all compensations succeeded |
| Sagas.ChoiceOfErrors | lib/cadence/saga/concern.rb:15-34 | What each of the two lists does: with a first list exactly the standard errors on it are compensated; without one exactly those on the second pass through; an error that passes through leaves the block's world |
| Sagas.BlockInOrder | lib/cadence/saga/concern.rb:7-12 | A block runs its statements one after the other, up to the first that raises |
| Sagas.OneStatement | lib/cadence/saga/saga.rb:9-11 | What each kind of statement does to the world, the compensations and the block |
| ResetPoints.LastFailedActivityReset | lib/cadence/client.rb:200-206 | In every recorded history, whatever events of the server follow the last completed task, the strategy finds nothing if and only if no activity failed, otherwise the completion of the very task that scheduled the activity that failed last, between the first and the last decision task |
| ResetPoints.ResetWorkflow | lib/cadence/client.rb:89-98 | For every strategy or none, known or not, and every id or none: which target `reset_workflow` sends or which error it raises |
| TypeNames.SearchIsMembership | lib/cadence/client.rb:195-202 | For each of the 42 event types of the server, searching the text of type names is membership in the list that was meant |
| AsyncTokens.TokenRoundTrip | lib/cadence/activity/async_token.rb:10-31 | Decoding an encoded token gives back its four parts if and only if none contains the separator and the run id is not empty |
| AsyncTokens.TokenText | lib/cadence/activity/async_token.rb:28-31 | A token says the four parts in the order domain, activity, workflow, run, with the separator between |
| AsyncTokens.LettersOfAlphabet | lib/cadence/activity/async_token.rb:30 | The letters are those of the URL-safe alphabet of RFC 4648, in order |
| AsyncTokens.GroupsAreNumbers | lib/cadence/activity/async_token.rb:30 | Four letters write the number in base 64 that their three bytes write in base 256, highest first |
| AsyncTokens.Base64RoundTrip | lib/cadence/activity/async_token.rb:28-31 | URL-safe Base64 with padding loses nothing |
| AsyncTokens.DecodeEncodes | lib/cadence/activity/async_token.rb:14-19 | The partner: a text that decodes is the encoding of its bytes, up to the alphabet and missing padding |

## Left out

- What external-workflow cancellation and signals, continue-as-new and search attributes carry: their branches in
  `apply_event` do nothing, so their events have a type and no attributes.
- Thrift, JSON text, serializers, connections, logging, metrics, error handlers, middleware and header propagation.
- Configuration, execution options, retry policies, metadata, executable lookup: records and merges with easy members only.
- The random id of a child workflow: the model uses the decision's own id, and nothing in the engine reads it.
- `execute_local_activity`, `sleep`, `wait_for_all` and the raising variants of `execute_activity` and `execute_workflow`:
  they are workflow code built from the requests that are modelled.
- The server's freedom to add events inside a batch of commands, other than cancel requests after it: one command event
  for each decision is assumed.
- Attempts of a decision task that fail inside the worker: they leave no decisions, so a round lists them only as events.
- Executors.Executor: futures and fibers are records in lists of the executor, not objects of their own; what two
  references to one future share is modelled by its index.
- Executors.Executor.EndFiber: when completing raises, the reason given to `fail` is a placeholder, because scheduling it
  raises as well and the reason is never seen.
- Executors.Executor.RunFiber: a fiber that never yields is cut off after an arbitrary number of requests and reported as
  hung; the original would block its thread.
- ThreadPools.ThreadPool: the methods are the critical sections run alone; how they interleave is in the step functions
  of the same module. The time a task takes and the result of a poll are arbitrary.
- Sagas.RunSaga: a block is given by what it does in one run, in order; its choices between alternatives are covered by
  quantifying over all such lists.
- AsyncTokens.TokenRoundTrip: strings are compared as bytes; Ruby's encoding tags are not modelled.
- Crew forking, signal traps, the worker's sleep loop, UUIDs, time conversion and the local stand-in for the context that tests use.
