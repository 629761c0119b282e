# A verified model of ansible-rulebook's concurrent core

ansible-rulebook listens to event sources, matches events against rules and runs
actions. This Dafny project models the parts of it in which an error would be
hard to see, and proves what they keep:

- **Action records** (`ActionStore`, `ActionRecords`, `ActionCalls`,
  `ActionReplay`, `ActionRunner`): the record of action progress that survives a
  crash of the process, over every run with crashes, cancellations and restarts.
- **Job templates** (`JobTemplate`, `JobTemplateAction`): which jobs a
  `run_job_template` action launches over all the process lives it takes.
- **Action loop** (`ActionLoop`, `ActionOrder`, `ActionProgress`, `RuleSetRunner`):
  dispatch of rule matches under the sequential and the parallel strategy, and the
  graceful shutdown.
- **Concurrency gate** (`ConcurrencyGate`, `GateHistory`): the process-wide
  semaphore and the named locks.
- **Shared job monitor** (`JobUrls`, `JobMonitor`, `PollCycle`, `MonitorProgress`,
  `SharedJobMonitor`): many callers share one polling loop and a table of futures.
- **Event log websocket** (`EventLogSender`, `WebSocketClient`): ordered delivery
  across disconnects.
- **Chunked notifications** (`ChunkAssembler`): messages rebuilt from interleaved
  chunks.
- **Key rewriters** (`OrderedDict`, `EventTree`, `DashesToUnderscores`,
  `DashesWalk`, `JsonFilter`, `NormalizeKeys`): the in-place stack walks and the
  recursive rewrites they amount to.
- **Conditions** (`ConditionTypes`, `ConditionParser`, `ConditionForms`,
  `ConditionCompiler`, `ConditionMeaning`, `ConditionChains`): from the tokens of one precedence level
  to the tree the rule engine is given, and what that tree means.
- **Plugin redirects** (`PluginRouting`): the bounded walk with loop detection.

Concurrent parts are state machines: a `State`, a `Step` with `Enabled` and
`Apply`, and theorems over every run. One step is one stretch of code between two
waits; waits are where any other step may come in between. Objects whose fields
the program updates are classes beside them, and each method is proved to take
the step of the same name. `Strings`, `Sequences` and `Wrappers` are shared
helpers.

`dafny verify dfyconfig.toml` checks everything.

## What does not hold

Where the code does not meet what one would expect of it, the project shows an
input and says exactly when it does.

- An action can run again after a crash that falls between its end and its record
  (`ActionReplay.ExecutedTwiceAfterCrash`). In every reachable state an action can
  still be executed if and only if its end is not recorded and its match is not
  closed (`ActionReplay.ExecutableUntilRecorded`).
- A crash between launching a job and recording its URL loses the URL
  (`JobTemplate.UrlCanBeLost`). The life that follows can launch a second job beside
  the open one, at once or later, unless the label query names the open job, or names
  another one and no retry is left after that one (`JobTemplate.LostJobIsDoubled`).
  The query takes the first job with the label (job_template_runner.py:725-728), and
  with a retry that can be an older one that failed
  (`JobTemplate.OlderJobFoundDoubles`).
- A job registered again after its future was cancelled gets the cancelled future
  (`JobMonitor.CancelledFutureIsReused`): if and only if the run cancelled the
  future tracked under the key and neither a cleanup nor a failing loop has come
  since (`JobMonitor.ReturnedFutureIsLive`).
- `json_filter` changes a dict that is reached both through a list and around it in
  both places (`JsonFilter.SharedWithList`). The event reads as the recursive prune
  if and only if no key is dropped inside a list (`JsonFilter.PrunedExactlyWhen`),
  which is so for every event that is a tree (`JsonFilter.TreesKeepLists`).
- A chain of `and` and `or` groups strictly to the left. It means what `and`
  before `or` would make of it exactly when no `and` comes after an `or`
  (`ConditionChains.PrecedenceKeptExactlyWhen`); docs/conditions.rst:570 asks for
  parentheses, and the parser accepts the chain without.
- An inlined boolean reaches the rule engine under the key of integers. Inlining
  keeps the meaning of a condition, for every engine, exactly when no inlined value
  holds a boolean (`ConditionMeaning.MeaningKeptExactlyWhen`).
- docs/conditions.rst:138 lists `*`; it parses and never compiles
  (`ConditionMeaning.ProductsDoNotCompile`).
- A `select` or `selectattr` test with an argument too many is accepted and the
  argument dropped (`ConditionParser.ExtraArgumentLost`,
  `ConditionParser.FoldReadsBack`).
- The comment at websocket.py:56 misprints the number of the RFC; the delay follows
  section 7.2.3 of RFC 6455.

The slot of the event log sender keeps an event for the next connection only if it
is not empty; what follows for an empty one is exact
(`EventLogSender.LostExactlyWhenEmpty`, `WebSocketClient.EmptyEventLost`). In this
program nothing is lost by it: every event put has a `type` (helper.py:84-97,
rule_set_runner.py:183, 253 and 708, app.py:187 and 199, util.py:337). That no empty event is put
is therefore an assumption where delivery is stated.

## Model

| member | source | states |
|---|---|---|
| ActionRecords.RecordsOverEveryRun | ansible_rulebook/rule_set_runner.py:406-478 | over every run with crashes, cancellations and restarts, and any interleaving of matches, the records of a match are those of its first k actions, all but at most the last completed; a closed match has none and each of its actions ran to its end; nothing is executed after its completion was recorded |
| ActionRecords.ResumeExecutesExactlyTheRest | ansible_rulebook/rule_set_runner.py:512-543 | within one process life a match with k completed actions executes k, k+1, ... in order, each once, and all of them if it closes |
| ActionRecords.CancelledActionIsResumed | ansible_rulebook/rule_set_runner.py:662-699 | cancelling an action before its body is over keeps its record; after a restart the match is dispatched again and that action is the first not completed |
| ActionRecords.NotesAreKept | ansible_rulebook/persistence.py:122-140 | what an action notes while it runs is merged into its record and read by the next life after a crash |
| ActionRecords.LastActionClearsMatch | ansible_rulebook/rule_set_runner.py:683-700 | finishing the last action removes the records of all indices of the match, no record of another match, and the match is not dispatched again |
| ActionReplay.ExecutedTwiceAfterCrash | ansible_rulebook/rule_set_runner.py:634-699 | a run in which one action is executed twice: the crash falls between its end and its record |
| ActionReplay.ExecutableUntilRecorded | ansible_rulebook/rule_set_runner.py:525-543 | in every reachable state there is a run that executes a given action, again or for the first time, if and only if its end is not recorded and its match is not closed |
| ActionReplay.EndedRunsAgain | ansible_rulebook/rule_set_runner.py:634-700 | so an action whose body has ended and whose record is still to be written can be executed again, in every reachable state |
| ActionRecords.StepKeepsInv | ansible_rulebook/rule_set_runner.py:419-543 | every step keeps the shape of the records, what each dispatch knows, and that no recorded action is executed again |
| ActionRunnerClass.ActionRunner.UpdateActionInfo | ansible_rulebook/persistence.py:91-140 | creating replaces the record, updating merges key by key into what is stored, new values winning; nothing happens without persistence |
| ActionRunnerClass.ActionRunner.GetActionAPriori | ansible_rulebook/persistence.py:143-150 | returns the stored record, or none; a record means that all earlier actions of the match are recorded as completed, and a completed one that this action ran to its end |
| ActionRunnerClass.ActionRunner.RunAction | ansible_rulebook/rule_set_runner.py:419-478 | reads what earlier lives left and stores "started" only when there is nothing |
| ActionRunnerClass.ActionRunner.CallAction | ansible_rulebook/rule_set_runner.py:512-725 | the body runs exactly when no completed record was found; a call raises exactly when its body ran and ended in an escaping error, a cancellation, or a cancelled put or broadcast; an end that is no cancellation is recorded as successful or failed, or clears the match; the steps taken are a run of the record machine |
| ActionRunnerClass.ActionRunner.CallWithSemaphore | ansible_rulebook/rule_set_runner.py:480-510 | a task cancelled at the semaphore executes nothing, leaves its record as it was and ends the match's loop; otherwise the call is made |
| ActionCalls.CallIsRun | ansible_rulebook/rule_set_runner.py:525-700 | skipping, cancelling and finishing an action, each with its exact effect on the store |
| ActionCalls.CallStores | ansible_rulebook/rule_set_runner.py:683-700 | what a call leaves in the store, by its outcome: nothing new for a cancellation or a skip, "successful" or "failed" merged into the record, or no record of the match at all |
| ActionStore.StoredWords | ansible_rulebook/persistence.py:91-150 | a new record says just "started", and a completed one says "failed" or "successful" |
| ActionRunnerClass.ActionRunner.RunActions | ansible_rulebook/rule_set_runner.py:406-478 | dispatching a match of which k actions are recorded as completed: if every action from k on is a call that succeeds, or ends in a handled error or shutdown request that is not cancelled, and none before is cancelled before its call, all from k on are executed in order, each once, and the match closes; otherwise it raises at the first action of another kind, after executing those before it, and that one if it was called |
| ActionRunnerClass.ActionRunner.RunMultipleActions | ansible_rulebook/rule_set_runner.py:406-417 | the loop over the actions, from a match just dispatched |
| JobTemplate.LaunchesOverEveryRun | ansible_rulebook/action/run_job_template.py:99-149 | over all lives in which no lost URL stays lost, a job is launched only when every job launched before was seen failed |
| JobTemplate.LaunchesPerLife | ansible_rulebook/action/run_job_template.py:120-149 | in every life, the lost URL found or not, at most retries + 1 jobs are launched, and at most retries when it resumes one |
| JobTemplate.LivesGoOn | ansible_rulebook/action/run_job_template.py:99-149 | a life that is not closed can be interrupted wherever it is and another one start; once its end is recorded nothing more happens |
| JobTemplate.OnlyUnrecordedCrashLoses | ansible_rulebook/action/run_job_template.py:130-138 | only a crash between launch and record loses an open job |
| JobTemplate.LostJobIsDoubled | ansible_rulebook/action/helper.py:247-268 | for every state in which the open job's URL was lost and every answer of the label query: the life can get to a launch beside the open job if and only if the answer does not name the open job and, should it name another one, a retry is left |
| JobTemplate.OlderJobFoundDoubles | ansible_rulebook/job_template_runner.py:725-728 | a reachable state in which the query names an older failed job and the life can launch a third one beside the open second one |
| JobTemplate.OldJobUrlOfOpenJob | ansible_rulebook/action/helper.py:247-268 | a new life resumes the open job from the record, and if its URL was lost whatever the label query answers, or nothing without labels |
| JobTemplate.UrlCanBeLost | ansible_rulebook/action/run_job_template.py:130-138 | whatever the arguments, a state in which the URL was lost and looked up again is reachable |
| JobTemplate.EffectiveRetries | ansible_rulebook/action/run_job_template.py:100-104 | retry asks for at least one retry, retries are never negative, and otherwise the number given is kept |
| JobTemplateAction.RunJobTemplate.UpdateActionState | ansible_rulebook/persistence.py:122-140 | the job URL is merged into the record of the action |
| JobTemplateAction.RunJobTemplate.GetOldJobUrl | ansible_rulebook/action/helper.py:247-268 | a recorded URL comes first, then the label query if the record says "started" and labels are in use, else none; so the open job is resumed unless its URL was lost |
| JobTemplateAction.RunJobTemplate.RunWithRetries | ansible_rulebook/action/run_job_template.py:99-149 | the retry loop is a run of the machine, whatever the lookup finds; its result and the jobs it launches are those of the retry rule; ending with a failed job leaves no URL recorded, and no open job unless a lost one was not found |
| JobTemplateAction.RetriesUntilNotFailed | ansible_rulebook/action/run_job_template.py:120-149 | the retry rule: the result is a failed job exactly when every turn failed, there is at most one launch a turn and none for a resumed job, and every job launched but the last failed |
| ActionLoop.EarlyStopOnlyWhenDrained | ansible_rulebook/rule_set_runner.py:197-224 | before the delay is over a graceful shutdown cancels the loop only when the queue is empty and no task of any context ever dequeued is unfinished |
| ActionLoop.StopsWhenDrained | ansible_rulebook/rule_set_runner.py:208-213 | in every reachable state a shutdown without pending work has cancelled the loop, or it is over |
| ActionLoop.LastCompletionStops | ansible_rulebook/rule_set_runner.py:318-332 | the completion of the last active task cancels the loop, in a state where every task is over |
| ActionOrder.SequentialOrder | ansible_rulebook/rule_set_runner.py:389-417 | sequential strategy: the actions dispatched are a prefix of the concatenated action lists in queue order, and at most one is in flight |
| ActionOrder.ActionsFollowPredecessors | ansible_rulebook/rule_set_runner.py:406-417 | under either strategy an action exists only when all earlier actions of its context have returned |
| ActionOrder.SequentialWaits | ansible_rulebook/rule_set_runner.py:389-393 | sequential strategy: when the next context is taken, every task has returned and the actions dispatched are exactly those of the contexts taken |
| ActionOrder.DrainedMeansDone | ansible_rulebook/rule_set_runner.py:362-417 | when everything is over and nothing raised, every action of every dequeued context was dispatched |
| ActionProgress.TakenInOrder | ansible_rulebook/rule_set_runner.py:362-393 | over every run the contexts taken, then those waiting, are exactly those put, in order; under the sequential strategy the actions dispatched are a prefix of theirs |
| ActionProgress.LoopEndsForAReason | ansible_rulebook/rule_set_runner.py:389-404 | without a shutdown the loop ends only under the sequential strategy after something raised; a loop told to stop can do so at once |
| ActionProgress.PutIsCarriedOut | ansible_rulebook/rule_set_runner.py:362-417 | in every reachable state in which nothing has raised and the loop runs, a context can be put, and the program's own steps can carry out all that was put: every action of it is dispatched and returns |
| ActionLoop.StepKeepsTasks | ansible_rulebook/rule_set_runner.py:362-478 | each context has one task of its own, a driver has started exactly the actions before its index, and what is not over is active |
| RuleSetRunnerClass.RuleSetRunner.DrainOne | ansible_rulebook/rule_set_runner.py:365-393 | taking a context: a driver for several actions, the action itself for one; when sequential, everything dispatched before has returned and the loop waits |
| RuleSetRunnerClass.RuleSetRunner.PutContext | ansible_rulebook/rule_generator.py:47-58 | a context goes to the end of the queue, whenever it comes |
| RuleSetRunnerClass.RuleSetRunner.RunNextAction | ansible_rulebook/rule_set_runner.py:410-417 | the driver starts the next action and waits for it; the earlier actions of the context have returned |
| RuleSetRunnerClass.RuleSetRunner.ActionAwaited | ansible_rulebook/rule_set_runner.py:410-417 | when the awaited action is over the driver raises if it did, goes on with the next one, or returns after the last |
| RuleSetRunnerClass.RuleSetRunner.DriverCancelled | ansible_rulebook/rule_set_runner.py:406-417 | a cancelled driver raises |
| RuleSetRunnerClass.RuleSetRunner.TaskAwaited | ansible_rulebook/rule_set_runner.py:389-404 | the loop goes on when the awaited task returned and ends when it raised |
| RuleSetRunnerClass.RuleSetRunner.LoopStops | ansible_rulebook/rule_set_runner.py:395-404 | a cancelled loop ends |
| RuleSetRunnerClass.RuleSetRunner.HandleActionCompletion | ansible_rulebook/rule_set_runner.py:318-332 | the done callback forgets the task; when it cancels the loop, a shutdown waits, the queue is empty and every task is over |
| RuleSetRunnerClass.RuleSetRunner.HandleShutdown | ansible_rulebook/rule_set_runner.py:197-219 | "now" cancels the loop; a graceful shutdown cancels it at once exactly when the queue is empty and no task is active, every task then being over, and else starts the delay |
| RuleSetRunnerClass.RuleSetRunner.AfterDelay | ansible_rulebook/rule_set_runner.py:220-222 | after the delay the loop is cancelled or was over; the runner stays in a reachable state |
| ConcurrencyGate.GateOverEveryRun | ansible_rulebook/rule_set_runner.py:480-510 | free permits plus actions inside always make up the limit, over all rulesets; two parallel actions of one ruleset that ask for the same lock by a name never run their bodies together; a sequential action, or one that asks for none, never waits for a lock |
| GateHistory.EveryActionAccounted | ansible_rulebook/rule_set_runner.py:480-543 | over every run the actions are those created, as they asked; one that is done ran its body, was skipped or was cancelled, and a skipped one never ran it |
| GateHistory.NewActionCanRun | ansible_rulebook/rule_set_runner.py:480-510 | whatever happened before, a new action can be created, run its body and come to its end with all the others |
| GateHistory.CancelReleases | ansible_rulebook/rule_set_runner.py:334-356 | an action can be cancelled wherever it is; its permit and its lock come back, and nobody else's |
| ConcurrencyGate.SomeActionCanStep | ansible_rulebook/rule_set_runner.py:334-356 | no deadlock: while an action is unfinished some action can step |
| ConcurrencyGate.AllActionsFinish | ansible_rulebook/rule_set_runner.py:480-510 | a run without new actions has a bounded number of steps, and one that no action can continue has finished all of them |
| ConcurrencyGate.EffectiveLimit | ansible_rulebook/app.py:408-424 | the limit is at least 1: the configured one, or 25 when that is 0 |
| JobUrls.KeyInjective | ansible_rulebook/shared_job_monitor.py:52-59 | on well-formed URLs two keys are equal exactly when type and number are |
| JobUrls.KeyOfDocumentedUrl | ansible_rulebook/shared_job_monitor.py:53-59 | a documented URL gets the documented key and id, with or without trailing slashes |
| JobUrls.WorkflowUrls | ansible_rulebook/shared_job_monitor.py:161-164 | a URL is a workflow job's exactly when it reads something, `workflow_jobs`, something |
| JobUrls.TypeOfDocumentedUrl | ansible_rulebook/shared_job_monitor.py:161-164 | so a documented URL has the type it names, whatever slashes follow |
| JobUrls.KeyEndsInId | ansible_rulebook/shared_job_monitor.py:70-80 | whatever the URL looks like, its key ends in its id |
| JobMonitor.FateOfReturnedFuture | ansible_rulebook/shared_job_monitor.py:61-105 | under every interleaving a returned future is tracked under its key or done, is settled at most once, and a result it holds has its own id and a terminal status |
| JobMonitor.SnapshotEntryStillTracked | ansible_rulebook/shared_job_monitor.py:259-265 | a snapshot entry whose future is not done is still the tracked entry |
| JobMonitor.ReturnedFutureIsLive | ansible_rulebook/shared_job_monitor.py:72-82 | after every run: the future handed out is pending or cancelled, and it is cancelled if and only if some step cancelled the future tracked under the key and no cleanup and no failing loop came after that step |
| JobMonitor.StepKeepsTrackedLive | ansible_rulebook/shared_job_monitor.py:242-265 | no tracked future ever holds a result or an exception, whatever step is taken |
| JobMonitor.CancelledFutureIsReused | ansible_rulebook/shared_job_monitor.py:73-75 | a reachable state in which registering hands out a cancelled future |
| JobMonitor.ExactlyOneMonitor | ansible_rulebook/shared_job_monitor.py:352-366 | in every reachable state is_healthy holds, at most one loop can still poll, and one does while jobs are tracked, also when registering races with a loop that exits or fails all jobs |
| JobMonitor.StepKeepsInv | ansible_rulebook/shared_job_monitor.py:107-149 | every locked block keeps: entries match their futures, undone futures are tracked, futures are settled at most once, one loop |
| JobMonitor.FailAllFails | ansible_rulebook/shared_job_monitor.py:317-326 | when the loop fails every future that is not done gets the exception, the others stay, and nothing is tracked any more |
| JobMonitor.RunEvolves | ansible_rulebook/shared_job_monitor.py:242-265 | over any run futures keep their job, and one that is done never changes again |
| PollCycle.BatchRefinesAlone | ansible_rulebook/shared_job_monitor.py:151-233 | from every reachable state and for every batch size a fault-free batched cycle leaves the state that asking for every job alone would leave |
| PollCycle.SettledExactly | ansible_rulebook/shared_job_monitor.py:206-265 | a job is settled and dropped if and only if it was pending and the controller reports a terminal status for the type and number its URL names |
| MonitorProgress.CycleIsPollAll | ansible_rulebook/shared_job_monitor.py:107-240 | a cycle of the interleaved machine that nobody interferes with leaves exactly the state of the poll cycle above, and the loop asleep |
| MonitorProgress.PendingJobCanSettle | ansible_rulebook/shared_job_monitor.py:107-149 | in every reachable state whose loop has not failed, once the controller reports a terminal status the loop alone can settle the job's future with it |
| MonitorProgress.FailureFailsAll | ansible_rulebook/shared_job_monitor.py:144-149 | from any place a failure ends the loop with every pending future failed, nothing tracked and no loop left |
| MonitorProgress.OutcomesHaveCauses | ansible_rulebook/shared_job_monitor.py:107-149 | over every run a future is cancelled exactly when its caller did so, fails only after an error of the loop, and holds a result only if a response reported it |
| PollCycle.AskedExactlyOnce | ansible_rulebook/shared_job_monitor.py:158-178 | each pending job is asked for exactly once per cycle, and with the type its URL names |
| PollCycle.ChunksCover | ansible_rulebook/shared_job_monitor.py:187-192 | the chunks one after the other are the list of jobs |
| JobMonitor.ChunkMembers | ansible_rulebook/shared_job_monitor.py:187-192 | no chunk is empty or longer than the limit |
| PollCycle.FewestChunks | ansible_rulebook/shared_job_monitor.py:187-192 | there are as few chunks as the limit allows |
| PollCycle.WellFormedIdsDistinct | ansible_rulebook/shared_job_monitor.py:210-215 | with well-formed URLs the number identifies a tracked job within its type |
| SharedJobMonitorClass.SharedJobMonitor.Register | ansible_rulebook/shared_job_monitor.py:61-105 | the locked block of register_job is the Register step and returns the future it says |
| SharedJobMonitorClass.SharedJobMonitor.CleanupStale | ansible_rulebook/shared_job_monitor.py:290-315 | exactly the entries with a cancelled or failed future go |
| SharedJobMonitorClass.SharedJobMonitor.FailAll | ansible_rulebook/shared_job_monitor.py:317-326 | every undone future gets the exception, the others stay, the table is emptied and the monitor forgotten |
| SharedJobMonitorClass.SharedJobMonitor.Snapshot | ansible_rulebook/shared_job_monitor.py:126-126 | lists every entry of the table once |
| SharedJobMonitorClass.SharedJobMonitor.ProcessResultOf | ansible_rulebook/shared_job_monitor.py:242-265 | one result settles its future and drops the entry, or changes nothing |
| SharedJobMonitorClass.SharedJobMonitor.PollJobChunk | ansible_rulebook/shared_job_monitor.py:206-240 | one request for the ids of the chunk, and every result processed for the entry with its id |
| SharedJobMonitorClass.SharedJobMonitor.MakeChunks | ansible_rulebook/shared_job_monitor.py:187-192 | the slicing loop computes the chunks the lemmas above are about |
| SharedJobMonitorClass.SharedJobMonitor.GroupJobs | ansible_rulebook/shared_job_monitor.py:155-164 | splits the undone jobs by type, order kept |
| SharedJobMonitorClass.SharedJobMonitor.PollAllJobs | ansible_rulebook/shared_job_monitor.py:151-204 | a whole cycle: its state and exactly its requests, in order; from a reachable state the id of every pending job is asked for under the type its URL names, and nothing else is asked for |
| SharedJobMonitorClass.SharedJobMonitor.IsHealthy | ansible_rulebook/shared_job_monitor.py:352-366 | tells whether tracked jobs have a running monitor, which they do in every reachable state |
| EventLogSender.NothingLost | ansible_rulebook/websocket.py:293-316 | without empty events, events sent, then the slot, then the queue are everything put; the peer saw the sent ones in order, each at least once, up to immediate repeats |
| EventLogSender.LostExactlyWhenEmpty | ansible_rulebook/websocket.py:293-316 | for every history and everything that can happen on a connection: an event leaves the slot unsent if and only if the connection found an empty one there and took another one, and then it is that one |
| WebSocketClient.EmptyEventLost | ansible_rulebook/websocket.py:299-316 | a run of the client in which an empty event whose send failed is never sent |
| EventLogSender.ExitMeansAllSent | ansible_rulebook/websocket.py:309-311 | a normal return means that all events before Exit were sent, in order |
| EventLogSender.EventLogQueue.SendSlot | ansible_rulebook/websocket.py:313-316 | sending takes the course of the connection on: the slot is emptied, or keeps its event |
| EventLogSender.EventLogQueue.HandleNext | ansible_rulebook/websocket.py:305-316 | one turn of the loop takes the course of the connection on, or ends as it does |
| EventLogSender.CourseConserves | ansible_rulebook/websocket.py:293-316 | on every course of a connection nothing is lost or reordered, and a normal end means that Exit is next |
| EventLogSender.EventLogQueue.HandleSendEventLog | ansible_rulebook/websocket.py:293-316 | the handler leaves exactly the history, and ends exactly as, the course of the connection says |
| WebSocketClient.AttemptsKeep | ansible_rulebook/websocket.py:99-173 | over any sequence of connections and failures, raised by connecting or by the handler, with waits and token renewals that may themselves fail, the history stays conserved, waits are bounded, the token is refreshed at most once between two connections, and a normal return means that Exit is next |
| WebSocketClient.FailureDecides | ansible_rulebook/websocket.py:108-169 | after which failures the client waits and connects again, after which it renews the token, and after which it gives up, close code by close code |
| WebSocketClient.ConnectWebsocket | ansible_rulebook/websocket.py:83-173 | the loop leaves exactly the history, the actions and the outcome of the attempts taken one after the other; if it returns and no empty event was put, everything put before Exit was sent in order over all connections, and the peer saw just that up to immediate repeats |
| WebSocketClient.WaitBeforeRetry | ansible_rulebook/websocket.py:51-75 | the wait is within bounds, the delay grows until it reaches the maximum and stays there |
| ChunkAssembler.CompleteStreamsDelivered | ansible_rulebook/event_source/pg_listener.py:329-383 | for every interleaving of complete chunk streams and plain notifications each plain datum is delivered on arrival, each message with its last chunk, and the cache ends empty |
| ChunkAssembler.CompletedExactlyOnce | ansible_rulebook/event_source/pg_listener.py:361-364 | exactly one notification completes a message |
| ChunkAssembler.DeliveredIsJustified | ansible_rulebook/event_source/pg_listener.py:357-383 | whatever arrives, what is delivered came as such or decodes from consecutive chunks of one message with the declared count and hash |
| ChunkAssembler.Listener.HandleChunkedMessage | ansible_rulebook/event_source/pg_listener.py:343-389 | appends the chunk, and on the last one empties the cache entry and delivers, drops or fails |
| ChunkAssembler.Listener.ProcessNotifications | ansible_rulebook/event_source/pg_listener.py:320-340 | handles notifications in order up to the first error |
| DashesWalk.RenameInPlace | ansible_rulebook/event_filter/dashes_to_underscores.py:47-62 | the stack walk ends, although values are pushed twice, and leaves the tree equal to the recursive rename, also when objects are shared |
| DashesWalk.PushesWeighAtMostDouble | ansible_rulebook/event_filter/dashes_to_underscores.py:33-44 | all values pushed for a dict together weigh at most twice what its entries weigh: the measure by which the walk ends |
| DashesWalk.RenameTwice | ansible_rulebook/event_filter/dashes_to_underscores.py:33-44 | renaming a renamed dict changes nothing, so a dict met again is left alone |
| DashesWalk.ProcessDict | ansible_rulebook/event_filter/dashes_to_underscores.py:33-44 | the dict ends renamed, and the values pushed are those found under each key when its turn comes |
| DashesToUnderscores.RenameLeavesNoDash | ansible_rulebook/event_filter/dashes_to_underscores.py:36-44 | no key of any dict, under dicts or lists, keeps a dash |
| DashesToUnderscores.RenamedDictShowsWinner | ansible_rulebook/event_filter/dashes_to_underscores.py:28-44 | which value each key shows: with overwrite the last dashed key wins, without an existing key or else the first dashed one |
| DashesToUnderscores.RenamePlanWinners | ansible_rulebook/event_filter/dashes_to_underscores.py:28-44 | running the rename key by key agrees with that rule, which does not run it |
| DashesToUnderscores.LastAndFirst | ansible_rulebook/event_filter/dashes_to_underscores.py:36-43 | the keys called last and first dashed are so |
| JsonFilter.FilterInPlace | ansible_rulebook/event_filter/json_filter.py:91-106 | for every event, objects shared or not: the stack walk ends, exactly the dicts reached through kept keys are filtered and nothing else is changed; the event reads as the recursive prune if and only if no key is dropped inside a list |
| JsonFilter.PrunedExactlyWhen | ansible_rulebook/event_filter/json_filter.py:100-106 | that condition, for every heap the walk can leave |
| JsonFilter.TreesKeepLists | ansible_rulebook/event_filter/json_filter.py:100-106 | it holds for every event that is a tree |
| JsonFilter.SharedWithList | ansible_rulebook/event_filter/json_filter.py:74-88 | an event with a shared dict for which it does not hold |
| JsonFilter.ProcessDictKeys | ansible_rulebook/event_filter/json_filter.py:74-88 | exactly the kept entries stay, in order, and their values are pushed |
| JsonFilter.PruneDropsExactly | ansible_rulebook/event_filter/json_filter.py:64-88 | of a dict exactly the keys that are or match an excluded one, and neither are nor match an included one, are dropped |
| JsonFilter.PruneTwice | ansible_rulebook/event_filter/json_filter.py:91-106 | filtering twice changes nothing more |
| JsonFilter.PruneClean | ansible_rulebook/event_filter/json_filter.py:74-88 | no key that is to be dropped is left at any depth under dicts |
| NormalizeKeys.NormalizeEmbeddedKeys | ansible_rulebook/event_filter/normalize_keys.py:58-86 | the recursion that fills new dicts and lists computes the normalized value |
| NormalizeKeys.NormalizeDict | ansible_rulebook/event_filter/normalize_keys.py:63-81 | its dict branch, key by key in order |
| NormalizeKeys.NormalizeLeavesNormal | ansible_rulebook/event_filter/normalize_keys.py:58-86 | only word-character keys are left at every depth, and they are distinct |
| NormalizeKeys.RunBecomesUnderscore | ansible_rulebook/event_filter/normalize_keys.py:45-67 | wherever a run of other characters stands in a key, it becomes one underscore, and what is before and after it is normalized by itself |
| NormalizeKeys.NormalizeTwice | ansible_rulebook/event_filter/normalize_keys.py:58-86 | normalizing again, with either setting, changes nothing |
| NormalizeKeys.NormalizedDictShowsWinner | ansible_rulebook/event_filter/normalize_keys.py:66-80 | on collisions the last key in order wins, except that without overwrite an original key that is normal already keeps its own value |
| ConditionParser.OperatorExpressionFactory | ansible_rulebook/condition_parser.py:204-239 | the loop over tokens computes the fold the lemmas below are about, errors included |
| ConditionParser.SearchTypeFactory | ansible_rulebook/condition_parser.py:195-201 | pairs the options up behind the pattern; an even number of tokens fails |
| ConditionParser.FoldReadsBack | ansible_rulebook/condition_parser.py:204-239 | for every token list that folds, leading search and select forms included, the tree is nested to the left and read in order gives the tokens back, if and only if no select form dropped an argument |
| ConditionParser.FoldsExactlyWhen | ansible_rulebook/condition_parser.py:207-239 | a list folds exactly when its leading form reads and the rest comes in pairs |
| ConditionParser.ChainGroupsLeft | ansible_rulebook/condition_parser.py:229-238 | a chain of single-token operands folds to the left, whatever operators it mixes |
| ConditionParser.ExtraArgumentLost | ansible_rulebook/condition_parser.py:179-185 | a selectattr test with an extra argument folds as if it were not there |
| ConditionParser.SpecialOperandMustLead | ansible_rulebook/condition_parser.py:234-238 | a search or select form after the first operator is an error |
| ConditionForms.SearchForm | ansible_rulebook/condition_parser.py:195-218 | `is` or `is not` before `match`, `regex` or `search` reads a pattern and its options in pairs, and fails on an even number of arguments |
| ConditionForms.SelectattrForm | ansible_rulebook/condition_parser.py:179-185 | a selectattr test reads key, operator and operand exactly when the operator is one of the thirteen; each error case |
| ConditionForms.SelectForm | ansible_rulebook/condition_parser.py:188-192 | a select test reads operator and operand exactly when the operator is one of the nine; each error case |
| ConditionForms.PlainForm | ansible_rulebook/condition_parser.py:229-233 | anything else is an operand, an operator and an operand |
| ConditionTypes.ToConditionType | ansible_rulebook/condition_types.py:108-122 | a converted value holds no identifier, so compiling it ends; a boolean becomes an integer node around that boolean |
| ConditionMeaning.CompilesExactlyWhen | ansible_rulebook/json_generator.py:72-211 | a condition compiles if and only if every node its tree is made of is supported by itself |
| ConditionMeaning.TreeMeansCondition | ansible_rulebook/json_generator.py:72-211 | in every world and for every reading of the operators the tree, which is given no variables, evaluates to what the condition means with variables looked up and booleans in them read as the engine reads a boolean under the key of integers |
| ConditionMeaning.MeaningKeptExactlyWhen | ansible_rulebook/condition_types.py:108-122 | the meaning is kept in all worlds if and only if no inlined variable holds a boolean, and always in a world that reads a boolean under the key of integers as itself |
| ConditionMeaning.OperatorByForm | ansible_rulebook/json_generator.py:143-194 | every operator form compiles under the key the engine reads the same way, or to an empty tree, or fails |
| ConditionMeaning.NameCompiles | ansible_rulebook/json_generator.py:84-107 | the tree of a name by its spelling: fact, event, events and facts with a path, vars with a key |
| ConditionMeaning.NameMeans | ansible_rulebook/json_generator.py:84-107 | what that name means, by the same spelling |
| ConditionMeaning.OtherNamesFail | ansible_rulebook/json_generator.py:101-107 | a name spelled otherwise is an invalid identifier |
| ConditionMeaning.EmptyTreeExactlyWhenSilent | ansible_rulebook/json_generator.py:153-192 | an operator expression has an empty tree exactly when `is` or `is not` is followed by something that is no test |
| ConditionMeaning.ProductsDoNotCompile | ansible_rulebook/json_generator.py:193-194 | products and quotients fail as unhandled, for all operands |
| ConditionMeaning.AssignsExactlyTo | ansible_rulebook/json_generator.py:320-336 | an assignment is accepted exactly when on its left stands a string, name or boolean whose text is `events` or `facts`, a dot and one name; the error otherwise |
| ConditionChains.ChainMeans | ansible_rulebook/condition_parser.py:317-322 | tokens of an `and`/`or` chain fold, the fold compiles, and the tree evaluates to the chain grouped strictly from the left |
| ConditionChains.PrecedenceKeptExactlyWhen | ansible_rulebook/condition_parser.py:317-322 | that agrees with `and` before `or`, for all values, if and only if no `and` comes after an `or` |
| PluginRouting.FollowRedirects | ansible_rulebook/collection.py:368-419 | for every redirect graph the walk ends with the outcome decided by a chain of distinct names: an end after at most 9 redirects, a tombstone, malformed data, a loop within 10 hops, or too long |
| PluginRouting.OutcomeUnique | ansible_rulebook/collection.py:373-414 | no two chains from one name decide differently |
| PluginRouting.ApplyPluginRouting | ansible_rulebook/collection.py:325-419 | the legacy map comes first; past it the outcome is the only one that any chain decides |
| PluginRouting.CycleIsLoop | ansible_rulebook/collection.py:398-404 | whenever a redirect within the limit goes back to a name on the chain the outcome is a loop error with the path |

## Left out

- The rule engine, template rendering, vault decryption, ansible-runner, the HTTP and database clients, the websocket transport and the parser engine are not part of this model; they are parameters, or the stated assumptions about them.
- asyncio is modelled as atomic steps between waits, done callbacks, cancellation, a semaphore and locks served in any order; fairness is not modelled, so what gets done is said as what can always be done.
- The action runner is three machines (records, gate, loop) over the same code, not one; each lets the others' effects happen at any time.
- ActionRecords.RecordsOverEveryRun: actions have supported names and matches have an id; an unsupported name (rule_set_runner.py:701-705) leaves its record as it was.
- ActionRunnerClass.ActionRunner.UpdateActionInfo: a stored text that is no JSON counts as an empty record in the code and cannot occur in this store; only this method models the persistence switch.
- JobTemplate.LaunchesOverEveryRun: excludes runs in which the label query does not name the job whose URL a crash lost, for which `LostJobIsDoubled` gives the exact condition; a launch that raises is taken to have created no job.
- ActionLoop.EarlyStopOnlyWhenDrained: session statistics are off (heartbeat 0); with them on an item can be dequeued and not yet active while the put waits (rule_set_runner.py:369-377).
- JobMonitor.FateOfReturnedFuture: `unregister_job` is not modelled, because an old snapshot can then delete a newer entry (shared_job_monitor.py:259-262); the monitor is not cancelled from outside.
- PollCycle.BatchRefinesAlone: URLs end in `jobs/<n>` or `workflow_jobs/<n>`, and nobody registers or cancels during the cycle; interference is the subject of JobMonitor.
- WebSocketClient.ConnectWebsocket: the connections and failures are a finite script; times are reals, and the random delay is a parameter. That no empty event is put is an assumption of the clause about delivery.
- ChunkAssembler.CompleteStreamsDelivered: hash and JSON decoder are parameters; message ids are not used twice.
- DashesWalk.RenameInPlace: objects must not form cycles; sharing is allowed.
- JsonFilter.FilterInPlace: objects must not form cycles; sharing is allowed.
- NormalizeKeys.NormalizeEmbeddedKeys: what a word character is, is a parameter, and the underscore is one.
- ConditionMeaning.MeaningKeptExactlyWhen: what the engine makes of a boolean under the key of integers is a parameter of the world; the engine is not part of this model.
- ConditionMeaning.TreeMeansCondition: template substitution is a parameter from text to text; a native value it may produce instead is not modelled, nor are globs in variable paths.
- ConditionParser.FoldReadsBack: an attribute error on an operand that has no value at all is reported as an unsupported select operator.
- PluginRouting.ApplyPluginRouting: deprecation warnings are logging only; reading the runtime files is the parameter `graph`.
- `run_workflow_template` repeats the job template loop and is not modelled again.
- Back pressure, the generic and range sources, the event splitter, the meta filters, the filtered queue, session statistics, command line, settings, schema validation, webhook authentication, labels and HTTP retries would only add easy members.
- Rules, rulesets, throttles and sources in json_generator.py:214-317 are copied field by field and not modelled.
