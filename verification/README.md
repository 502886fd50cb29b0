# Verification of the Kubernetes monitoring tool

Dafny models of the monitoring tool's concurrent alert pipeline and its shutdown, of the WebSocket hub, of the
dashboard's state and its reconnecting socket, and of the condition evaluators and the in-memory store, with
proofs about every run of each. `dafny verify dfyconfig.toml` checks everything.

## What is modelled

| file | component |
|---|---|
| `WorkerPool.dfy` | the worker pool: `Submit` in two steps, `Stop` in four, any number of submitters and workers |
| `EventBus.dfy` | the bounded event bus and its dispatcher |
| `Application.dfy` | the running program: three collectors, five workers, the bus dispatcher and `main`, as one step system |
| `Pipeline.dfy` | the inductive invariant of that system |
| `Shutdown.dfy` | the main results about it: safety, accounting, refinement of the pool, freedom from deadlock |
| `Histories.dfy` | what each goroutine of that system does with the events, tasks and alerts that pass through it, in order |
| `Progress.dfy` | a bound on every schedule of that system, and that every schedule ends with the shutdown completed |
| `Queries.dfy` | the alert queries and the dashboard page, asked of the running program |
| `Hub.dfy` | the WebSocket hub's run loop |
| `Collectors.dfy`, `AlertContents.dfy` | the pod, node and metric evaluators and the alert builders; what their alerts say |
| `Repository.dfy`, `StateManager.dfy`, `Models.dfy` | the in-memory store, the alert service, store-then-publish, the alert itself |
| `Dashboard.dfy`, `PageFacts.dfy` | the page's counters, window, unread count and toasts; what it shows when |
| `WebSocketManager.dfy`, `Reconnection.dfy` | the browser's reconnect, heartbeat and back-off state machine; what it does over whole runs |
| `Tasks.dfy`, `Sums.dfy`, `Options.dfy` | the tasks in the pool; sums over processes; optional values |

A concurrent component is a state (a datatype), a set of steps, `Enabled`, `Apply` and `Run`: a step is what one
goroutine does between two points at which the scheduler may switch, a `select` chooses any ready branch, and a
theorem about `Run` is a theorem about every interleaving. Fields such as `accepted`, `stored` or `log` record
history. The objects of the source (`WorkerPool`, `EventBus`, `Hub`, `InMemoryAlertRepo`, `Page`,
`WebSocketManager`) are also classes whose methods update the source's fields in place. The specification state
is their ghost field `model`, or the function `Contents`, and each method's contract says which step of the step
system it takes.

## What the environment is taken to guarantee

- A task that a worker has started finishes: `Create` returns, successfully or not.
- A `WebSocket` on which `close()` was called never opens, messages arrive only on an open socket, a socket reports
  its close once, and only timers and intervals that have not been cleared fire.
- A connection registers with the hub once.
- The 32-bit sum of restart counts wraps around; every other integer stays within its width.

## Where the code differs from what is said about it

- The pool's own locking does not keep `Submit` from sending on the closed queue; only the join order in `shutdown`
  does. `WorkerPool.PanicIsReachableIff` says exactly when the panic can happen, `Shutdown.NeverCrashes` that it never
  does in this program.
- Past the 32-bit range the restart alert can be lost (`Collectors.RestartAlertLostToOverflow`) or carry a wrong total
  (`Collectors.RestartAlertCarriesWrappedTotal`); it tells the truth if and only if the total fits 32 bits
  (`Collectors.RestartAlertTruthfulIff`).
- An OOM, crash-loop or image-pull alert names the first container of the pod that has the condition, not the one it
  is raised for (`Collectors.SecondContainerGoesUnnamed`; exact condition in
  `Collectors.AlertNamesItsContainerIffFirst`).
- The two stores order their newest alerts differently: the SQL query sorts newest first, as the page expects, the
  in-memory store hands them out oldest first (`Queries.FetchInStoreOrderTracksIff`).
- An update to an alert that has left the 100-entry window is counted as a new alert
  (`Dashboard.EvictionHappens`; exact condition in `Dashboard.AddAlertTracksIff`).
- The unread cap of 50 is not kept by a fetch (`Dashboard.UnreadCapIff`), and the unread count drifts from the window
  exactly in the cases named by the three `...KeepsUnreadExactIff` lemmas, each with an input beside it
  (`Dashboard.OpeningDrifts`, `Dashboard.UpdateDrifts`, `Dashboard.NewAlertDrifts`).
- One failed broadcast write blocks the hub's loop for good (`Hub.OneFailedWriteBlocks`, `Hub.BlockedIffAWriteFailed`, `Hub.BlockedForGood`).
- A socket that `disconnect` let go of still has its close handler; if it reports its close after the next connection
  is open, it stops that connection's heartbeat and schedules a reconnect
  (`WebSocketManager.StaleCloseStopsTheHeartbeat`, exact condition in `WebSocketManager.HeartbeatGoesOnIff`).
- The repository's README.md says alerts are created or updated (line 87) and lists CrashLoopBackOff as critical
  (line 162); the code creates every alert as new and gives crash loops severity high. The comment on `ProcessAlert`
  says it always returns true; it returns false when `Create` fails. The model follows the code.

## Model

| member | source | states |
|---|---|---|
| `Shutdown.NeverCrashes` | cmd/monitoring-tool/main.go:143-169 | In every reachable state of the whole program no send has met a closed queue and no channel was closed twice; whenever a collector is about to send, `Stop` has not even set its flag |
| `Shutdown.NoCreateAfterDatabaseClosed` | cmd/monitoring-tool/main.go:155-166 | After the database is closed no worker can take a `Create` step, and no worker holds any work |
| `Shutdown.ObserversSeeStoredAlerts` | internal/processor/state_manager.go:28-47 | Whatever any observer was notified of, is about to be notified of, or waits in the bus's buffer is already stored |
| `Shutdown.StoredAlertsAreCollectorAlerts` | internal/collector/alert_builder.go:36-145 | In every reachable state everything stored is firing and critical, high or medium |
| `Shutdown.StoredAreIssuedOnce` | internal/models/alert.go:40-61 | No two stored alerts share an identifier, in any reachable state |
| `Shutdown.EveryTaskIsSomewhere` | internal/collector/pod_collector.go:114-161 | At every moment the events and ticks that arrived are, as a multiset, those dropped, buffered or held by a collector, rejected, queued, running and finished; the buffers stay within 500, 300, 300 and 200 |
| `Shutdown.EveryAlertIsSomewhere` | internal/processor/state_manager.go:28-47 | At every moment each issued alert is stored, failed or still to be stored by one worker, and each stored one was dispatched, waits in the bus, was dropped there, or is about to be published |
| `Shutdown.NoTaskStartsTwice` | internal/pool/worker_pool.go:57-84 | No task starts twice, and tasks start in the order in which they were accepted |
| `Shutdown.AtExit` | cmd/monitoring-tool/main.go:143-169 | When the program ends, all joined goroutines are gone, unfinished tasks are exactly those dropped, left in a channel, rejected or left in the queue, every issued alert was stored or failed, and every stored one was dispatched, dropped or left in the buffer |
| `Shutdown.PoolTakesItsTurn` | internal/pool/worker_pool.go:57-137 | One step of the program is, seen from the pool, one step of the pool or none |
| `Shutdown.RefinesPool` | internal/pool/worker_pool.go:57-137 | Every run of the program is, seen from the pool, a run of the pool |
| `Shutdown.EngineStopIsBounded` | internal/processor/evaluator.go:49-51 | Once the engine is being stopped, no schedule gives the pool more productive steps than its measure allows |
| `Shutdown.ShutdownIsNeverStuck` | cmd/monitoring-tool/main.go:143-169 | Before the end, `main` or a goroutine it waits for can always take a step that lowers the distance to the end |
| `Shutdown.ScheduleToTheEnd` | cmd/monitoring-tool/main.go:143-169 | From every state that satisfies the invariant, a schedule that reaches the end |
| `Shutdown.ShutdownCanComplete` | cmd/monitoring-tool/main.go:143-169 | From every reachable state the shutdown can still be completed |
| `Shutdown.CollectorCanGoOn` | internal/collector/pod_collector.go:136-161 | A collector that was told to stop and has not returned can take a step, and the step brings it closer to returning |
| `Shutdown.WorkerCanGoOn` | internal/pool/worker_pool.go:57-84 | While `Stop` waits, some worker can take a step that lowers the work left |
| `Shutdown.ReachableRun` | cmd/monitoring-tool/main.go:42-169 | What a reachable state can lead to is reachable |
| `Histories.WatchDropsIffFull` | internal/collector/pod_collector.go:114-123 | A watch event is dropped if and only if the channel holds 500 pod events or 300 node events; otherwise it goes to the channel's end |
| `Histories.WatcherKeepsOrder` | internal/collector/node_collector.go:106-151 | Over any run, for pods and for nodes, what was in the channel and what was added without being dropped is what the dispatcher took followed by what is in the channel |
| `Histories.SubmitterKeepsOrder` | internal/collector/pod_collector.go:136-161 | Over any run the tasks a collector began to submit are those queued or rejected, followed by those it holds, in order |
| `Histories.EventsKeepOrder` | internal/collector/pod_collector.go:114-161 | From the start of the program the events not dropped are, in order of arrival, those handed to the pool or rejected, those with the dispatcher and those in the channel |
| `Histories.EveryTickSubmitsBothChecks` | internal/collector/metrics_collector.go:59-99 | Over every run the metrics loop submits a pod check and then a node check at the start and on each tick, and nothing else |
| `Histories.RejectedOnlyIf` | internal/pool/worker_pool.go:89-115 | A task is rejected only after cancellation, after the pool was stopped or by a queue of 300; a send that finds room puts it at the end of the queue |
| `Histories.AdmittedOnlyIf` | internal/pool/worker_pool.go:89-115 | A task passes the context check only while the context is not done, the pool's check only while it is not stopped, and enters the queue only after both; watcher and submitter return only when told |
| `Histories.StartIssuesItsDrafts` | internal/collector/pod_collector.go:164-184 | A worker that starts a task takes the oldest, issues one firing alert per draft of its evaluation in order, and has exactly these to store |
| `Histories.IssuedAreEvaluations` | internal/collector/pod_collector.go:164-184 | Over every run the alerts issued are the evaluations of the started tasks one after the other: of the pod or node as received, or of some metrics, with the program's thresholds |
| `Histories.EveryTaskIsEvaluated` | internal/collector/metrics_collector.go:102-214 | The same between any two states of a run |
| `Histories.WorkerKeepsOrder` | internal/processor/state_manager.go:28-47 | Over any run each worker stores or fails to store its alerts in the order in which they were issued to it, and publishes those it stored in that order, all but the one it has just stored |
| `Histories.AlertsKeepOrder` | internal/processor/state_manager.go:28-47 | The same from the start of the program, for each of the five workers |
| `Histories.PublishDropsIffFull` | internal/processor/event_bus.go:46-52 | A worker publishes the alert it has just stored, and the bus drops it if and only if 200 wait |
| `Histories.NothingLeavesBeforeTheSignal` | cmd/monitoring-tool/main.go:93-109 | In every reachable state in which `main` still serves, the watchers, the three submitters, five workers and the bus dispatcher are all up |
| `Histories.ShutdownGoesInOrder` | cmd/monitoring-tool/main.go:143-169 | The context is done from the signal on, the pool is stopped only after every watcher and submitter returned, the bus only after every worker exited and the queue was closed, the database only after the bus dispatcher returned |
| `Progress.EveryScheduleIsBounded` | cmd/monitoring-tool/main.go:143-169 | No schedule of the whole program starts more tasks than it began with and received; and if no task raises more than a given number of alerts, the program's own steps are bounded by the work at the start and the number of arrivals alone |
| `Progress.SilentScheduleIsBounded` | cmd/monitoring-tool/main.go:143-169 | Once the outside world is silent, the length of every schedule is bounded by the state it starts from and the number of alerts one task raises |
| `Progress.RunMovesTasks` | internal/pool/worker_pool.go:57-103 | Tasks started plus tasks left in the channels, with the submitters and in the queue never exceed those at the start plus the arrivals |
| `Progress.EveryScheduleEndsDone` | cmd/monitoring-tool/main.go:143-169 | A schedule that goes on until the program has no step of its own left has taken `main` through the whole shutdown to the closed database |
| `Progress.StepPays` | internal/pool/worker_pool.go:57-137 | Every step of a collector, a worker, the bus or `main` lowers the work left, but for what it is known to add |
| `Progress.RunPays` | internal/pool/worker_pool.go:57-137 | Steps taken plus work left never exceed the work at the start plus what was added, on every run |
| `Pipeline.InitialInv` | cmd/monitoring-tool/main.go:42-91 | The started program satisfies the invariant |
| `Pipeline.CollectorStepKeepsInv` | internal/collector/node_collector.go:127-151 | Every step of a dispatcher, a watcher or the metrics loop keeps the invariant |
| `Pipeline.WorkerStepKeepsInv` | internal/processor/state_manager.go:28-47 | Every step of a worker, from dequeuing through storing and publishing, keeps it |
| `Pipeline.MainStepKeepsInv` | cmd/monitoring-tool/main.go:143-169 | Every step of `shutdown` keeps it: cancel, close and join each collector, the four steps of `Stop`, the bus, the database |
| `Pipeline.RunKeepsInv` | cmd/monitoring-tool/main.go:42-169 | The invariant of the program (shape, pool, bus, join order, conservation of tasks and alerts) holds on every run |
| `Pipeline.SubmittersPrecedeStop` | cmd/monitoring-tool/main.go:155-160 | A submitter that has not been joined means that the pool's `Stop` has not begun |
| `Pipeline.CollectorConserves` | internal/collector/metrics_collector.go:59-99 | What a collector held and received is what it holds, handed over and gave up, for every step of its two goroutines |
| `Pipeline.ProducesCollectorDrafts` | internal/collector/alert_builder.go:201-269 | Whatever a task evaluates to, every alert of it is critical, high or medium |
| `WorkerPool.EveryRunIsAccounted` | internal/pool/worker_pool.go:57-137 | On every run the queue is within capacity, accepted tasks are the started ones followed by the queue, and each started task is finished or in one worker's hands |
| `WorkerPool.StopReturnsQuiet` | internal/pool/worker_pool.go:118-137 | When `Stop` returns no worker is live, every started task has finished, and the queue holds exactly what never ran |
| `WorkerPool.NothingRunsAfterStop` | internal/pool/worker_pool.go:118-137 | From then on nothing is queued, started or finished |
| `WorkerPool.StepLowersMeasure` | internal/pool/worker_pool.go:57-84 | Once `stopped` is set every productive step lowers the measure and no step raises it |
| `WorkerPool.StopIsBounded` | internal/pool/worker_pool.go:120-137 | Whatever the selects choose, the productive steps after `stopped` is set are at most the measure |
| `WorkerPool.StopIsNeverStuck` | internal/pool/worker_pool.go:120-137 | Until `Stop` returns, a worker or the stopping goroutine can take a productive step |
| `WorkerPool.StopAlwaysReturns` | internal/pool/worker_pool.go:120-137 | A schedule with no productive step left has let `Stop` return, or a send panicked |
| `WorkerPool.SleepingSubmitterPanics` | internal/pool/worker_pool.go:89-103 | From any state with a submitter between its check and its send, a schedule that ends in the panic |
| `WorkerPool.PanicIsReachableIff` | internal/pool/worker_pool.go:89-103 | The panic is reachable exactly when a submitter is past its check or could still get there |
| `WorkerPool.SealedNeverPanics` | internal/pool/worker_pool.go:89-103 | With nobody past the check and `stopped` set, no run panics |
| `WorkerPool.WorkerPool.constructor` | internal/pool/worker_pool.go:30-44 | The new pool is the initial state; non-positive counts fall back to one worker and a queue of 100 |
| `WorkerPool.WorkerPool.SubmitCheck` | internal/pool/worker_pool.go:90-95 | First half of `Submit`: admitted exactly when the pool is not stopped |
| `WorkerPool.WorkerPool.SubmitSend` | internal/pool/worker_pool.go:97-102 | Second half: appended, refused with a full queue, or a panic, which happens exactly on a closed queue |
| `WorkerPool.WorkerPool.ReceiveTask` | internal/pool/worker_pool.go:60-83 | A worker takes the oldest queued task and the invariant is kept |
| `WorkerPool.WorkerPool.StopBegin` | internal/pool/worker_pool.go:121-127 | Only the first caller goes on; the flag is set for everybody |
| `WorkerPool.WorkerPool.StopCloseTaskQueue` | internal/pool/worker_pool.go:132-136 | After the wait the queue is closed with all workers gone and the leftovers accounted for |
| `EventBus.EveryRunIsAccounted` | internal/processor/event_bus.go:40-97 | On every run accepted events are the dispatched ones followed by the buffer, every publish was accepted or dropped, and each observer was notified once and in order of every event dispatched since it subscribed |
| `EventBus.ObserversAgree` | internal/processor/event_bus.go:63-92 | Between two events, observers subscribed from the start have seen the same events: all that were dispatched |
| `EventBus.EventBus.Publish` | internal/processor/event_bus.go:46-52 | The event is buffered, or dropped when the buffer holds 200; nothing else changes |
| `EventBus.EventBus.DispatchNext` | internal/processor/event_bus.go:63-92 | One turn of the dispatcher starts exactly one notification with the oldest event for each observer |
| `EventBus.EventBus.Subscribe` | internal/processor/event_bus.go:40-43 | The new observer starts with no notifications and the others keep theirs |
| `StateManager.ProcessAlert` | internal/processor/state_manager.go:28-47 | A successful call stores the alert last and then publishes it; a failed `Create` changes neither the store nor the bus |
| `Hub.EveryClientReceivesItsStretch` | internal/websocket/hub.go:62-103 | On every run, failed writes included, a client has received the contiguous stretch of the broadcast log from its registration to its departure or to now, less the broadcast it still awaits; the hub closes each departed connection once and no other |
| `Hub.EveryBroadcastIsAccounted` | internal/websocket/hub.go:62-122 | On every run each message offered was dropped, waits in the channel or is in the log, in the order of acceptance; at most 500 wait |
| `Hub.OfferDropsIffFull` | internal/websocket/hub.go:116-122 | On every run a message is dropped if and only if 500 wait; otherwise it waits behind them |
| `Hub.ReturnsOnlyWhenCancelled` | internal/websocket/hub.go:99-101 | The loop returns only when the context is done |
| `Hub.BlockedForGood` | internal/websocket/hub.go:92-97 | After a failed write nothing but offers and cancellation can happen: clients, deliveries and log are fixed and the broadcast channel only grows, up to 500 |
| `Hub.BlockedIffAWriteFailed` | internal/websocket/hub.go:92-97 | A run ends blocked exactly if some broadcast write on it failed |
| `Hub.OneFailedWriteBlocks` | internal/websocket/hub.go:92-97 | A run of four steps from the new hub that ends blocked |
| `Hub.Hub.Broadcast` | internal/websocket/hub.go:116-138 | The message is buffered, or dropped when 500 wait |
| `Hub.Hub.RunRegister` | internal/websocket/hub.go:67-71 | The client joins with nothing received |
| `Hub.Hub.RunUnregister` | internal/websocket/hub.go:73-80 | A known client leaves and its connection is closed; an unknown one changes nothing |
| `Hub.Hub.RunBroadcast` | internal/websocket/hub.go:82-97 | The oldest message goes to every client registered when the loop began; the loop is blocked exactly if one of their connections fails |
| `Repository.SeverityTotals` | internal/service/alert_service.go:57-80 | The four counts miss exactly the firing alerts of other severities |
| `Repository.SeveritiesPartitionIff` | internal/service/alert_service.go:57-80 | The four counts add up to the firing alerts if and only if every firing alert has one of the four severities |
| `Repository.ConcurrentTotalIsBetween` | internal/service/alert_service.go:57-80 | With alerts created between the four reads, their sum lies between the firing counts at the first and the last read |
| `Repository.CountsGrow` | internal/repository/alert.go:69-80 | Creating alerts never lowers a severity's count |
| `Repository.InMemoryAlertRepo.Create` | internal/repository/alert.go:32-37 | The alert is appended, and every slice handed out earlier still shows its holder the same references, whether `append` wrote in place or moved to a new array |
| `Repository.InMemoryAlertRepo.GetRecent` | internal/repository/alert.go:39-48 | The last min(limit, n) alerts, oldest first, as a slice of the shared backing array; out of range exactly for a negative limit |
| `Repository.InMemoryAlertRepo.CountWithStatus` | internal/repository/alert.go:56-67 | The loop counts the stored alerts that have the status now |
| `Repository.InMemoryAlertRepo.CountWithSeverity` | internal/repository/alert.go:69-80 | The loop counts the stored alerts of the severity that are firing now |
| `Repository.EffectiveLimit` | internal/service/alert_service.go:42-47 | A limit in 1..1000 is kept and any other becomes 100 |
| `Repository.GetRecentAlerts` | internal/service/alert_service.go:42-47 | For every requested limit, the last min(effective limit, n) alerts, handed out beside all slices handed out before |
| `Repository.HoldWhileCreating` | internal/service/alert_service.go:42-47 | The slice a caller of the service got still shows the same references after any number of later `Create`s, and so does every slice handed out earlier |
| `Repository.GetSeverityCounts` | internal/service/alert_service.go:57-80 | Each of the four counts is the number of firing alerts of its severity, and together they miss those of other severities |
| `Queries.SeveritiesPartitionTheStore` | internal/service/alert_service.go:57-80 | In every reachable state all stored alerts are firing, and critical, high and medium partition them |
| `Queries.SeverityCountsDuringARun` | internal/service/alert_service.go:57-80 | While the program runs on between the four reads, their sum lies between the numbers of stored alerts at the first and the last |
| `Queries.StoredOnlyGrows` | internal/repository/alert.go:32-37 | No step of the program removes or reorders stored alerts |
| `Queries.FetchShowsTheStore` | internal/service/alert_service.go:42-80 | Whatever the page showed, a fetch that gets the newest hundred newest first makes window, total, active and severity counts the truth about the store, for every store of distinct alerts |
| `Queries.FetchInStoreOrderTracksIff` | internal/repository/alert.go:39-48 | Fetched in the order in which the in-memory store hands them out, they do so if and only if there is at most one alert |
| `Queries.StoreCountsAreTallies` | internal/repository/alert.go:56-80 | The counting queries of the store and the page's recount of its log agree |
| `Queries.PageFollowsTheStore` | web/static/js/app.js:78-231 | A page that fetched the store and then received, in any order, those alerts stored since that were not dropped on the way: at the end of any run total, active and each severity count fall short of the store's by exactly the dropped alerts, and the window is the newest hundred in order of arrival |
| `Queries.PageFollowsInOrder` | web/static/js/app.js:78-231 | With nothing dropped and the store's order, the window too is the truth about the store at the end of any run |
| `Queries.PageReceives` | web/static/js/app.js:166-231 | The same for any page that showed the truth about a store and any later store whose alerts have distinct identifiers |
| `Collectors.GetHighestRestartContainer` | internal/collector/alert_builder.go:167-177 | The loop returns the name that goes with the running maximum |
| `Collectors.HighestRestartIsFirstMaximum` | internal/collector/alert_builder.go:167-177 | That name belongs to the first container of maximal restart count once some count is positive, and is the fallback otherwise |
| `Collectors.EvaluateContainers` | internal/collector/pod_collector.go:218-239 | The loop over containers raises their alerts in order and sums restarts in wrapping 32-bit arithmetic |
| `Collectors.EvaluatePodConditions` | internal/collector/pod_collector.go:202-255 | Exactly the alerts of the recursive specification, in order, for every pod |
| `Collectors.PodDraftCounts` | internal/collector/pod_collector.go:202-255 | How many alerts of each type every pod raises: one per afflicted container, one per pod-level condition, none of any other type |
| `Collectors.PodDraftBound` | internal/collector/pod_collector.go:202-255 | At most two alerts per container and two more |
| `AlertContents.PodAlertsByCondition` | internal/collector/pod_collector.go:202-255 | How many alerts of each type a pod raises, by its phase, age and total and by the termination and waiting reasons of its containers |
| `AlertContents.PodAlertContents` | internal/collector/alert_builder.go:36-105 | Source, severity by type, namespace and pod labels, which other labels there are, and the value of every alert of every pod |
| `AlertContents.ContainerAlertValues` | internal/collector/pod_collector.go:218-239 | The alerts of one container: at most two, OOM first, with the restart count as value, or 1 for an image-pull error |
| `AlertContents.CrashLoopReason` | internal/collector/alert_builder.go:158-165 | The reason of a crash-loop alert is the waiting message of the container it names |
| `Collectors.ContainerLabelsNameAfflictedContainers` | internal/collector/alert_builder.go:149-187 | Every OOM, crash-loop and image-pull alert of a pod names the first container that has the condition, never the fallback |
| `Collectors.ContainerAlertsAreInPlace` | internal/collector/pod_collector.go:218-239 | Which stretch of a pod's alerts are the alerts of its container j |
| `Collectors.ContainerAlertNamesItsOwnIff` | internal/collector/alert_builder.go:149-187 | An OOM, crash-loop or image-pull alert emitted for container j carries its name if and only if the first container with the condition goes by that name |
| `Collectors.AlertNamesItsContainerIffFirst` | internal/collector/alert_builder.go:149-187 | With distinct container names, such an alert names container j if and only if no container before j has the condition |
| `Collectors.SecondContainerGoesUnnamed` | internal/collector/alert_builder.go:149-187 | For each of the three conditions, a pod of two containers whose two alerts both name the first |
| `Collectors.RestartAlertIsExact` | internal/collector/pod_collector.go:241-245 | Within 32 bits the restart alert appears exactly when the true total exceeds the threshold, carries that total and names the first container of maximal count |
| `Collectors.RestartAlertLostToOverflow` | internal/collector/pod_collector.go:218-245 | Two containers whose total is over the threshold and whose restart alert is lost |
| `Collectors.RestartAlertCarriesWrappedTotal` | internal/collector/pod_collector.go:218-245 | Three containers whose restart alert is raised but carries 7 where the total is 4294967303 |
| `Collectors.RestartAlertTruthfulIff` | internal/collector/pod_collector.go:218-245 | For all nonnegative counts the restart alert is raised exactly over the threshold and carries the true total if and only if the total fits 32 bits |
| `Collectors.RestartAlertAgreesIff` | internal/collector/pod_collector.go:218-245 | Whether the alert is raised, whatever total it carries: that is right if and only if the total fits 32 bits or its wrapped value is over the threshold |
| `Collectors.EvaluateNodeConditions` | internal/collector/node_collector.go:189-225 | Exactly the alerts of the recursive specification, in order, for every node |
| `AlertContents.NodeIsQuietIff` | internal/collector/node_collector.go:189-225 | A node raises no alert if and only if every condition Ready is true and no memory, disk or PID pressure is |
| `AlertContents.NodeAlertsByCondition` | internal/collector/node_collector.go:189-225 | One NodeNotReady alert per condition Ready that is not true, one pressure alert per true condition of that pressure |
| `AlertContents.NodeAlertContents` | internal/collector/alert_builder.go:108-145 | Every node alert is of one of the four types, critical, high, high or medium, names the node, and carries the value 1 |
| `AlertContents.NodeAlertsInOrder` | internal/collector/node_collector.go:189-225 | A node's alerts come in the order of its conditions |
| `Collectors.CheckPodMetrics` | internal/collector/metrics_collector.go:102-160 | The alerts for one list of pod metrics, in order |
| `AlertContents.PodMetricAlertsByCondition` | internal/collector/metrics_collector.go:102-160 | One CPU alert per pod with a CPU request over the CPU threshold, one memory alert per pod with a memory request over the memory threshold |
| `AlertContents.PodMetricAlertContents` | internal/collector/alert_builder.go:201-234 | Every alert of a pod metrics check comes from a pod with a request over its threshold, is high, and carries its percentage, namespace, name and metric |
| `AlertContents.PodMetricAlertsInOrder` | internal/collector/metrics_collector.go:112-157 | Metric alerts come in the order of the metrics |
| `Collectors.CheckNodeMetrics` | internal/collector/metrics_collector.go:163-214 | The alerts for one list of node metrics, in order |
| `AlertContents.NodeMetricAlertsByCondition` | internal/collector/metrics_collector.go:163-214 | One CPU alert per node over the CPU threshold, one memory alert per node over the memory threshold |
| `AlertContents.NodeMetricAlertContents` | internal/collector/alert_builder.go:237-269 | Every alert of a node metrics check comes from a node over its threshold, is critical, and carries its percentage, name and metric |
| `AlertContents.NodeMetricAlertsInOrder` | internal/collector/metrics_collector.go:173-211 | Node metric alerts come in the order of the metrics |
| `Collectors.PodSeverities` | internal/collector/alert_builder.go:36-105 | Every alert of every pod is critical, high or medium |
| `Models.AlertObject.Resolve` | internal/models/alert.go:64-69 | The shared object becomes resolved, its resolved and updated times are now, and it is otherwise unchanged |
| `Dashboard.AddAlertTracksIff` | web/static/js/app.js:166-231 | If the page shows the truth about the log, then after one more alert it still does if and only if the alert has not left the window and a firing alert that stays firing keeps its counted severity |
| `Dashboard.UpdateTracksIff` | web/static/js/app.js:172-199 | The same for an update in the window |
| `Dashboard.NewAlertTracks` | web/static/js/app.js:200-227 | A new alert always leaves the page showing the truth |
| `Dashboard.EvictedAlertIsMiscounted` | web/static/js/app.js:166-231 | An update to an alert that left the window makes the total one too many |
| `Dashboard.EvictionHappens` | web/static/js/app.js:222-226 | 101 different alerts after which the empty page counts the first of them a second time |
| `Dashboard.ShuffledArrivals` | web/static/js/app.js:166-231 | Of new alerts those that arrive, in any order, leave each counter short of a recount of all by the missing ones exactly |
| `Dashboard.PageTracksLog` | web/static/js/app.js:166-246 | Over any sequence of alerts the page can follow, total, active count and severity counts equal a recount of the full log and the window is its newest hundred entries |
| `Dashboard.FreshAlertsAreFollowed` | web/static/js/app.js:166-231 | New alerts with distinct identifiers can always be followed, and the log they lead to is theirs, newest first, before the old one |
| `Dashboard.ClampsNeverBind` | web/static/js/app.js:182-189 | While the page shows the truth, `Math.max(0, ...)` never changes a counter |
| `Dashboard.StaysBounded` | web/static/js/app.js:78-378 | Through any events the unread count stays within 0..100, the window within 100 and the toasts within 3 |
| `PageFacts.CountersStayNonNegative` | web/static/js/app.js:78-231 | Through any events no counter falls below zero, even on a page that no longer shows the truth |
| `Dashboard.HealthFollowsCountsIff` | web/static/js/app.js:78-246 | Over any events among which no fetch fails, the health shown ends up right if and only if it was right at the start or was computed anew on the way |
| `Dashboard.HealthFollowsLastFetch` | web/static/js/app.js:78-246 | If the last fetch succeeded the health shown is the health of the counts, whatever happened before |
| `Dashboard.FailedFetchHealthIff` | web/static/js/app.js:103-246 | Through any events after a failed fetch the health shown is right if and only if the counts meant degraded anyway or some event computes it anew |
| `PageFacts.HealthAfterLastFetch` | web/static/js/app.js:233-246 | Through any events whose last fetch succeeded the page ends up critical iff the critical count is positive, else degraded iff more than three are high, else warning iff one is, else healthy |
| `PageFacts.CriticalShownIff` | web/static/js/app.js:166-246 | A page that shows the truth about its log and whose health is up to date shows critical iff the log holds a firing critical alert, and healthy iff it holds no firing critical or high one |
| `PageFacts.ToastShownIff` | web/static/js/app.js:148-159 | An arriving alert shows a toast iff it is critical or high; with three shown the oldest goes |
| `PageFacts.OtherToasts` | web/static/js/app.js:103-106 | A failed fetch shows a toast, a toast whose time is up goes and the others stay, and no other event changes the toasts |
| `PageFacts.FirstSameAlertIsReplaced` | web/static/js/app.js:166-227 | An arriving alert replaces the first in the window with its identifier or its nonempty fingerprint; otherwise it goes to the front of a window of 100 |
| `PageFacts.OpenedIsNeverUnread` | web/static/js/app.js:353-366 | Once opened, an alert is never unread again, whatever happens |
| `PageFacts.OnlyReadByReading` | web/static/js/app.js:357-378 | An alert becomes read only by being opened, or by being listed as firing when all is marked as read |
| `Dashboard.UnreadCapIff` | web/static/js/app.js:95-98 | Every event keeps the unread count within 50 except a fetch that finds more |
| `Dashboard.OpeningKeepsUnreadExactIff` | web/static/js/app.js:357-366 | Marking an alert read keeps the unread count equal to a recount of the window exactly if the alert was read, nothing was unread, or it is shown as unread |
| `Dashboard.NewAlertKeepsUnreadExactIff` | web/static/js/app.js:215-226 | A new alert keeps the unread count equal to the recount exactly if it is left uncounted by the cap and pushes an unread alert out, or neither |
| `Dashboard.UpdateKeepsUnreadExactIff` | web/static/js/app.js:172-199 | An update keeps it equal exactly if the alert is as unread as the entry it replaces |
| `Dashboard.OpeningDrifts` | web/static/js/app.js:357-366 | Opening a resolved alert beside one unread alert makes the page show none unread |
| `Dashboard.UpdateDrifts` | web/static/js/app.js:172-199 | An unread alert that is resolved in place goes on being counted |
| `Dashboard.NewAlertDrifts` | web/static/js/app.js:215-220 | After a fetch of 50 unread alerts the next one is not counted |
| `Dashboard.NothingUnreadAfterReadAll` | web/static/js/app.js:368-378 | After marking all as read a recount of the window finds nothing unread |
| `Dashboard.ResetsMakeUnreadExact` | web/static/js/app.js:95-98 | A fetch and marking all as read leave the unread count equal to a recount of the window, whatever it was before |
| `Dashboard.ToastComesAndGoes` | web/static/js/app.js:316-338 | A toast that disappears leaves the earlier toasts, less the one it pushed out |
| `Dashboard.Page.Add` | web/static/js/app.js:166-231 | The page object computes `AddAlert`, and for every log it tracked it tracks the extended log if and only if the update can be followed |
| `Dashboard.Page.FetchAlerts` | web/static/js/app.js:78-110 | All counters are reset from the answers, or the health is degraded and a toast shown |
| `Dashboard.Page.HandleWebSocketMessage` | web/static/js/app.js:148-159 | The alert is added, and a critical or high one shows a toast |
| `WebSocketManager.EveryRunIsOrderly` | web/static/js/websocket.js:42-201 | In every reachable state: at most one live reconnect timer and heartbeat interval, each held in its field; a wanted connection has a timer pending or a socket whose close starts one; an open socket has at most two missed heartbeats and two pings since its last message |
| `WebSocketManager.RunKeepsInv` | web/static/js/websocket.js:42-201 | The manager's invariant holds through any order of events |
| `WebSocketManager.IdleUntilNextConnect` | web/static/js/websocket.js:187-201 | After `disconnect` and until the next `connect` no socket, timer or interval is held, whatever happens |
| `Reconnection.DisconnectLasts` | web/static/js/websocket.js:187-201 | From a call of `disconnect` until something calls `connect`, nothing is held, every socket was told to close and no timer can fire |
| `Reconnection.ConnectsIff` | web/static/js/websocket.js:42-60 | After `connect`, the network coming back, becoming visible without an open socket, or the reconnect timer, the new socket is current, connecting and handled and no reconnect is pending; no other event makes a socket |
| `Reconnection.SocketsAreCounted` | web/static/js/websocket.js:42-177 | On every run there are as many sockets as there were such events |
| `Reconnection.LostConnectionIsReplaced` | web/static/js/websocket.js:100-177 | A wanted connection that closes leaves a timer, and when the timer fires the page has a new connecting socket |
| `Reconnection.OpenStartsAfresh` | web/static/js/websocket.js:62-71 | A connection that opens is current, with no attempt and no missed heartbeat counted and a heartbeat running |
| `Reconnection.AttemptsAreCounted` | web/static/js/websocket.js:150-177 | On every run the attempt number counts exactly the reconnects scheduled since a connection last opened |
| `Reconnection.MissedAreUnanswered` | web/static/js/websocket.js:73-91 | On every run the missed heartbeats are at most the ticks since the last message that could be parsed |
| `Reconnection.AnsweredConnectionIsKept` | web/static/js/websocket.js:73-140 | On every run a tick closes no socket unless the two ticks before it went unanswered as well; otherwise it pings |
| `WebSocketManager.ThirdMissedHeartbeatCloses` | web/static/js/websocket.js:122-140 | On a silent open socket the tick that makes three missed heartbeats closes it and no earlier one does; each earlier tick sends one ping |
| `WebSocketManager.HeartbeatGoesOnIff` | web/static/js/websocket.js:100-148 | While the same socket stays open its heartbeat goes on exactly if the event is not the close of a stale socket |
| `WebSocketManager.StaleCloseStopsTheHeartbeat` | web/static/js/websocket.js:100-112 | A run on which an open connection loses its heartbeat to the close of an older socket |
| `WebSocketManager.BaseDelayIsCappedIff` | web/static/js/websocket.js:160-166 | The base delay never falls from one attempt to the next and is 30000 ms exactly from attempt 6 on |
| `WebSocketManager.TotalBaseDelayClosedForm` | web/static/js/websocket.js:160-166 | Closed form of the summed base delays of n straight failures |
| `WebSocketManager.JitterAddsLessThanASecondEach` | web/static/js/websocket.js:168-170 | Jitter adds at least nothing and less than 1000 n ms in all |
| `WebSocketManager.BackoffOnEveryRun` | web/static/js/websocket.js:150-177 | On every run the base delays scheduled since the connection was last open add up to that closed form |
| `WebSocketManager.WebSocketManager.OpenConnection` | web/static/js/websocket.js:42-120 | `connect` on the object: the old timer and socket are gone, a new socket or a reconnect timer is held, and the invariant is kept |
| `WebSocketManager.WebSocketManager.CloseConnection` | web/static/js/websocket.js:187-201 | `disconnect` on the object: nothing is held afterwards |
| `WebSocketManager.WebSocketManager.SocketClosed` | web/static/js/websocket.js:100-112 | The close handler stops the heartbeat and schedules a reconnect unless the close was intended |
| `WebSocketManager.WebSocketManager.HeartbeatTick` | web/static/js/websocket.js:126-139 | One tick of the heartbeat on the object |

## Left out

- Goroutines as threads: the dispatchers, the metrics loop, the workers and `main` together are a step system on values, since nothing runs two method bodies at once here; the classes cover what one goroutine does between two scheduling points.
- The event bus appends to its observers without a lock while the dispatcher may be reading them: the model takes a subscription as one atomic step, so that data race is not captured.
- `StopWithTimeout`, `GetQueueSize` and `IsStopped` of the pool: no caller in the program depends on them.
- The time limit of the shutdown context and the HTTP server's own shutdown: no effect on the modelled goroutines.
- Kubernetes: watch reconnection, the metrics server and kubeconfig. Watch events and metrics are arbitrary inputs; percentages are reals, so rounding is not modelled.
- `PostgresAlertRepo`, migrations and connection handling. In the application the store is an append-only log whose `Create` may fail, with a closed flag.
- Observer goroutines after they are started: they are not joined, so nothing is said about when or in which order they finish.
- Email, HTTP handlers, routes, configuration, logging, JSON, message text, UUIDs (a counter) and wall-clock times.
- The hub's read loop, ping and pong frames and the upgrade: they reach the hub only as registrations and unregistrations.
- Alpine rendering, filters, local storage and `refreshCounts`, which nothing calls.
- A fetch whose answers arrive while alerts are added: a fetch is one step, with arbitrary answers.
- Severity strings that name a property every JavaScript object has: `severityCounts` is taken to have its four entries only.
- Queries.PageFollowsTheStore: the order of the window. Observers are started without waiting and each worker stores and publishes on its own, so alerts may reach the page in another order than that of the store; the window then shows the order of arrival. Each alert reaches the page at most once and the fetch is one step.
- Progress.EveryScheduleEndsDone: takes the signal that starts the shutdown as a step that comes, and says nothing about a scheduler that lets watch events or ticks of the metrics ticker go first for ever; a `select` may prefer them to the stop channel, and the bound grows with each one.
