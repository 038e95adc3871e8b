# ClusterProbe in Dafny

ClusterProbe's API stores a scenario as a row of `scenario_events`, publishes it to
RabbitMQ, and workers pick it up, run a load generator, count and report, and append
the outcome to the same table. Stops arrive at any time, every call can fail (also
after it took effect), connections are lost, messages come again, and the same message
can be in two handlers at once. This project models that system and proves what holds
of it in every run.

`dafny verify dfyconfig.toml` checks the whole project.

## The files

| file | what it holds |
|---|---|
| `Basics.dfy`, `Int64.dfy` | options and counting; 64-bit arithmetic |
| `Workload.dfy` | scenario requests, their validation, the generator table |
| `Topology.dfy` | AMQP topic matching (section 3.1.3.3 of the AMQP 0-9-1 specification), the declared topology, the code that declares it |
| `Lifecycle.dfy` | the state machine: log, counters, broker, consumers, handlers, API calls; one step per store read, store append, increment, publish and settle |
| `Handlers.dfy` | what holds of every handler and its stop watcher |
| `StopSafety.dfy` | how final a stop is |
| `Accounting.dfy`, `Ledger.dfy` | the chain of counters; what each counter, event and notice stands for |
| `BrokerSafety.dfy`, `Delivery.dfy` | where messages are, and how often they are delivered |
| `Demo.dfy` | the common beginning of the example runs |
| `Runtime.dfy` | the running system with other actors interfering, as imperative code sees it |
| `Worker.dfy`, `Consumption.dfy`, `Api.dfy` | `handleMessage`, `Consume`, `CreateScenario` and `StopScenario` as imperative code on that system; what they do is part of its runs |
| `MixedSplit.dfy`, `MixedExecute.dfy` | sharing out a mixed scenario's time, in 64-bit arithmetic, and running its phases |
| `CpuLoop.dfy` | the CPU generator's wrap-around arithmetic |
| `Connection.dfy` | who owns a RabbitMQ connection |
| `Monitoring.dfy`, `Clients.dfy` | a producer's or consumer's end and the goroutine that monitors it: how final `Close` is, and the code of connect, reconnect, monitorReconnect and Close |
| `LogViews.dfy` | the queries over `scenario_events` |
| `Migration.dfy` | the start-up migration and the DB-write generator |
| `Schema.dfy` | cutting and applying the start-up schema |
| `CommandArgs.dfy` | chaos-ctrl's argument splitting |
| `Sse.dfy` | the dashboard's event stream and the parser of section 9.2.6 of the WHATWG HTML Standard |

A run is a sequence of steps from the empty system; each step is enabled or not
(`Lifecycle.Take`), and "in every run" means every sequence whose steps are all enabled:
`Leads(START, steps, s)` says that the steps are such a sequence and end in `s`.
Calls have three outcomes: done, failed before it took effect, failed although it took
effect; an unconfirmed send to the broker can also seem to succeed and be lost. The
imperative files get these outcomes, and what other actors do between two calls, from
arguments or an oracle object, so that their contracts hold whatever those say.

## Where the code and a natural expectation part

- A stop is not final: the status check and the append it guards are two steps.
  `StopSafety.StopIsFinalExactlyOutsideWindows` says exactly when it is, and
  `StopSafety.StopCanBeBuried` is a run in which it is not.
- `splitMixedDurations` multiplies in 64 bits. `MixedSplit.SplitMixedDurations` shows
  that the result is right if and only if no phase but the largest overflows and the
  percentages do not wrap around into the admitted range; an overflow of the largest
  phase is repaired by the remainder. `MixedSplit.OverflowBreaksShares` names an input
  for which it is wrong. No duration that the API admits is one.
- `Close` of a producer does not keep it closed: closing the connection wakes the monitor,
  which dials again. `Monitoring.CloseIsFinalExactlyWhenQuiet` says exactly when it does.
- There can be fewer result notices than terminal events, as the broker does not confirm
  sends: `Accounting.NoticesCoverTerminalEvents`, with a run in `Accounting.LostNoticeUncovers`.
- Migrating an old row that carries the timestamp of a scenario's latest row displaces
  that row: `Migration.MigrationDisplacesExactlyNotOlder`, `Migration.EqualTimestampDisplaces`.
- Splitting arguments again is not always stable: `CommandArgs.ResplitIsStable`,
  `CommandArgs.ResplitCanChange`.
- The CPU loop's zero sink means "no work" only while the count fits 63 bits:
  `CpuLoop.SinkZero`, `CpuLoop.CountCanWrapFirst`.

## Model

| member | source | states |
|---|---|---|
| `StopSafety.StopIsFinalExactlyOutsideWindows` | cmd/worker/main.go:340-391 | In every reachable state where a scenario's newest event is a stop: whatever happens later only stops follow it, if and only if no handler of the scenario is between a not-stopped read and the append that read guards |
| `StopSafety.StoppedScenarioNeverStarts` | cmd/worker/main.go:340-355 | From such a state on no delivery, old or new, starts the scenario's generator |
| `StopSafety.StopIsBuriedOnlyByOlderRead` | cmd/worker/main.go:340-391 | Whenever a stop is directly followed in its scenario's log by another status, the handler that appended that status made the read that guards this very append (the first for running, the terminal one for completed and failed) before the stop was appended, and no other step of its own in between |
| `StopSafety.StopCanBeBuried` | cmd/worker/main.go:340-351 | A concrete run in which a stop lands between guard read and append and the scenario ends up running |
| `Handlers.CancelledOnlyByStop` | cmd/worker/reporting.go:77-91 | The generator's context is cancelled during execution only after the handler's own watcher read a stop, which had been appended after the handler's guard read |
| `Handlers.JoinNeverBlocks` | cmd/worker/main.go:353-357 | A handler that waits for its watcher can always go on within two steps, all of them the watcher's and its own |
| `Handlers.NoWatcherAfterReturn` | cmd/worker/main.go:353-357 | Outside execution and the wait, no step of a handler's watcher is possible |
| `Handlers.OverStaysOver` | cmd/worker/main.go:307-393 | A handler that has returned never has another effect |
| `Handlers.StoppedExecutionIsSilent` | cmd/worker/main.go:358-367 | A cancelled execution whose re-read finds the stop acknowledges the message and leaves no snapshot, counter change, notice or terminal event, then or later |
| `Accounting.AccountingChain` | cmd/worker/reporting.go:97-140 | In every run: running events >= snapshots >= total counter >= sum of type counters >= result notices, lost ones included; notices plus lost ones = terminal events + deliveries that sent their notice and appended none; failed events <= error counter <= sum of type counters |
| `Accounting.NoticesCoverTerminalEvents` | cmd/worker/reporting.go:135-137 | There are at least as many notices as terminal events exactly as long as no more notices were lost than such deliveries are; always, if none was lost |
| `Accounting.LostNoticeUncovers` | cmd/worker/reporting.go:135-137 | A run in which the unconfirmed notice is lost and the scenario completes: one terminal event, no notice |
| `Accounting.OnlyRunnableKindsAreCounted` | cmd/worker/reporting.go:125-127 | No per-type counter other than those of runnable types is ever above zero |
| `Accounting.AddsOnce` | cmd/worker/reporting.go:97-140 | One delivery never has the same effect twice |
| `Ledger.CountersAreSteps` | cmd/worker/reporting.go:119-133 | In every run each counter is exactly the increments that took effect, and the counter of a type exactly those of deliveries whose message carries that workload type |
| `Ledger.EventsAreSteps` | cmd/worker/reporting.go:21-42 | In every run the queued, running, terminal and stopped events of a scenario are exactly the inserts that took effect of the API calls for its id and of the deliveries whose message carries its id |
| `Ledger.NoticesAreSteps` | cmd/worker/reporting.go:135-137 | In every run the notices under `results.<id>` are exactly the sends that took effect of deliveries whose message carries that id |
| `BrokerSafety.EveryMessageInOnePlace` | internal/messaging/rabbitmq.go:434-469 | In every run each routed message is in exactly one of ready, unacknowledged, acknowledged and dead-lettered, in its own queue or that queue's dead-letter queue; an unrouted one is in none |
| `BrokerSafety.RoutedByBindings` | internal/messaging/rabbitmq.go:247-276 | A message counts as routed exactly if the declared bindings take its key to some queue |
| `BrokerSafety.BrokerAlwaysConsistent` | internal/messaging/rabbitmq.go:434-469 | The inductive invariant: places are conserved, lanes are kept, only messages no worker could run are dead-lettered, and handlers, consumers and deliveries fit together |
| `Delivery.DeliveryBound` | internal/messaging/rabbitmq.go:434-469 | N messages of the API and F faults make at most N + F deliveries of those messages, in any run |
| `Delivery.DeliveriesOfOneMessage` | internal/messaging/rabbitmq.go:434-469 | One API message is delivered at most once more often than a fault was about it |
| `Delivery.PublishedAlwaysOk` | cmd/api/handlers/scenarios.go:64-72 | Every message of the API is about a scenario with a stored event and a type that the worker can run |
| `Delivery.ApiScenariosAreNeverDeadLettered` | cmd/worker/main.go:315-323 | No message of the API is ever dead-lettered, whatever fails |
| `Delivery.NoticesEnterNoQueue` | internal/messaging/rabbitmq.go:247-276 | Result and stop notices are never in any queue, nor anywhere else |
| `Workload.AdmittedTypesAreRunnable` | internal/workload/types.go:30-70 | A workload type can pass validation if and only if it is a key of the worker's generator table |
| `Workload.AdmittedMeans` | internal/workload/types.go:30-70 | A request is admitted exactly if its name, rates, duration, size, concurrency and queue pass and its type is one of the five, each written out |
| `Workload.GeneratorOfType` | cmd/worker/main.go:298-304 | The five types of the table and the generator of each |
| `Topology.TopicWithoutWildcards` | internal/messaging/rabbitmq.go:247-276 | A binding key without wildcards matches a routing key, word by word, if and only if they are equal |
| `Topology.LiveRouting` | internal/messaging/rabbitmq.go:247-276 | Through the declared bindings a live publish reaches the one queue its key names, or none |
| `Topology.RoutesWrittenOut` | internal/messaging/rabbitmq.go:247-276 | The queue of each of the three keys on either exchange, with all names written out |
| `Topology.Wildcards` | internal/messaging/rabbitmq.go:247-276 | A star matches exactly one word and a hash any number, as the topic exchange that is declared does |
| `Topology.DeadLetterRouting` | internal/messaging/rabbitmq.go:266-271 | A message rejected from a queue goes, by that queue's arguments, to its own dead-letter queue only |
| `Topology.NoticesAreUnrouted` | cmd/worker/reporting.go:135 | The keys `results.<id>`, for any id, and `scenario.stop` match no binding |
| `Topology.Channel.DeclareLane` | internal/messaging/rabbitmq.go:256-275 | One turn of the loop succeeds exactly if no call is refused and nothing there contradicts it, and then adds the two queues and two bindings of a lane; otherwise at most part of the bindings |
| `Topology.Channel.DeclareTopology` | internal/messaging/rabbitmq.go:231-279 | Succeeds exactly if none of its fourteen calls is refused and nothing there contradicts it; then exactly the topology is added to what was there, and on failure no other binding is |
| `Worker.Worker.HandleMessage` | cmd/worker/main.go:307-393 | For a delivery in a consumer's hands, any interference and any outcome of its calls: its steps in the run are exactly the calls of `Script` with those outcomes, and no other; it rejects exactly undecodable messages and unknown types, acknowledges exactly if its last call found a stop or appended the terminal event, and if no call fails and no stop is read it acknowledges with a running and the right terminal event in the log |
| `Worker.Worker.Start` | cmd/worker/main.go:314-351 | Decoding, lookup, guard read and running mark, up to the first that ends the handler |
| `Worker.Worker.Guard` | cmd/worker/main.go:340-347 | The guard read returns the newest status, no row, or fails as its outcome says; a stop ends the handler with nil, a failure with an error, anything else lets it go on to the guarded step |
| `Worker.Worker.LatestScenarioStatus` | cmd/worker/reporting.go:44-56 | Returns the newest status of the log it finds, no row, or fails exactly as its outcome says |
| `Worker.Worker.MarkRunning` | cmd/worker/reporting.go:21-42 | Appends the running event as its outcome says; the handler goes on exactly if success is reported |
| `Worker.Worker.MarkTerminal` | cmd/worker/reporting.go:21-42 | Appends completed or failed by the result, as its outcome says |
| `Worker.Worker.WatchScenarioStop` | cmd/worker/reporting.go:62-95 | The watcher reads at every tick until it reads a stop, and goes on after a failed read |
| `Worker.Worker.Execute` | cmd/worker/main.go:353-357 | The generator runs beside the watcher, which ticks before and after the generator's return, in any order of the return and its cancellation; the result is a cancellation only if the watcher cancelled before it; the handler goes on after the watcher has exited |
| `Worker.Worker.ReportResult` | cmd/worker/reporting.go:97-140 | The calls are made in order with their outcomes up to the first that fails, the error counter only for a failed result |
| `Worker.Worker.IncrementType` | cmd/worker/reporting.go:125-127 | If the call takes effect, the counter of the message's own workload type goes up by one, and no other |
| `Worker.ScriptEndsEarly` | cmd/worker/main.go:315-351 | The calls written out for a message that is rejected, a guard read that finds a stop or fails, and a running mark that fails |
| `Worker.ScriptOfExecution` | cmd/worker/main.go:349-390 | The calls written out, in order, for an execution that succeeds and for one that fails |
| `Worker.ScriptOfStop` | cmd/worker/main.go:353-367 | The calls written out for an execution that a stop cancels |
| `Worker.GoesOn` | cmd/worker/main.go:307-393 | A call that did to store, counters and broker what its act does is one enabled step of the system |
| `Api.ScenarioHandler.CreateScenario` | cmd/api/handlers/scenarios.go:39-77 | The answer is 400, 500, 502 or 202 exactly as validation, insert and publish went; the run is extended by exactly the insert and, if it reported success, the publish of the validated scenario; 202 and 502 leave a new queued event |
| `Api.ScenarioHandler.StopScenario` | cmd/api/handlers/scenarios.go:206-255 | The answer is 400, 404, 500, 502 or 200 exactly as lookup, decoding, append and publish went; the run is extended by exactly these steps; after 200 and 502 only stops have followed this call's stop by then, unless a handler was in a window when it was appended |
| `Api.TookHold` | cmd/api/handlers/scenarios.go:240-248 | A stop appended while no handler is in a window is still in force at any later point of the run |
| `Runtime.SettledStays` | internal/messaging/rabbitmq.go:447-469 | A settled delivery is never settled again, nor killed |
| `Consumption.Consumer.Consume` | internal/messaging/rabbitmq.go:394-473 | The run it extends is its turns, one after the other: in each the others take their steps, and then a delivery that is there is taken, handled by exactly the calls of `Script`, and settled as the handler returned; a turn passes without one exactly if none is there then; the consumer takes no other step; it ends exactly with its context or with a failed settle |
| `Consumption.Consumer.Serve` | internal/messaging/rabbitmq.go:428-471 | The part of the run that it adds is one delivery from its arrival to its settle, or nothing but the others' steps if no delivery is there after them |
| `Consumption.Consumer.Take` | internal/messaging/rabbitmq.go:432-445 | Takes the delivery exactly if there is one, and starts its handler |
| `Consumption.Consumer.Drain` | internal/messaging/rabbitmq.go:427-471 | The same as `Consume` for the deliveries of one channel, until it closes |
| `Consumption.Consumer.Settle` | internal/messaging/rabbitmq.go:446-469 | Nil is acked, an unrecoverable error nacked into the dead-letter queue, any other error nacked back into the queue, if the call takes effect; a delivery that was lost can only be settled in vain; the consumer survives exactly a call that reported success |
| `MixedSplit.SplitMixedDurations` | internal/workload/mixed.go:103-177 | The result is the one of unbounded arithmetic, errors included, if and only if 64 bits do no harm; then the trimming loop runs at most once |
| `MixedSplit.SplitConserves` | internal/workload/mixed.go:125-176 | The phases add up to the total, active ones get at least 1 ms and inactive ones none |
| `MixedSplit.SplitSucceedsExactly` | internal/workload/mixed.go:103-140 | When the split succeeds, and with which error it fails otherwise, in terms of the total and the three percentages |
| `MixedSplit.SplitByName` | internal/workload/mixed.go:119-176 | What CPU, write and read each get: their sum, their minimum, and how far each is from its own percentage |
| `MixedSplit.UnsetProfile` | internal/workload/mixed.go:111-114 | A profile of zeroes is split as 34, 33 and 33 percent |
| `MixedSplit.SplitIsAccurate` | internal/workload/mixed.go:125-157 | A phase that is not the largest is less than 1 ms from its exact proportion, the largest less than 2 ms when the percentages total 100 |
| `MixedSplit.SplitIsMonotone` | internal/workload/mixed.go:125-170 | A larger percentage never gets fewer milliseconds |
| `MixedSplit.TrimOnce` | internal/workload/mixed.go:158-170 | Before trimming the sum is at most 1 ms too large, and then only the largest phase can lose it |
| `MixedSplit.BeforeIsRight` | internal/workload/mixed.go:142-157 | If no phase but the largest overflows, the times before trimming are right, even when the largest one's product did overflow |
| `MixedSplit.OverflowIsLost` | internal/workload/mixed.go:129-157 | A smaller phase whose product overflows gets less than its share before trimming |
| `MixedSplit.OverflowBreaksShares` | internal/workload/mixed.go:129 | An input on which a phase comes out negative although the profile is admissible |
| `MixedSplit.Trim` | internal/workload/mixed.go:159-166 | One pass takes 1 ms from the first phase above 1 ms, or changes nothing if there is none |
| `MixedSplit.TrimToFit` | internal/workload/mixed.go:158-170 | The trimming loop only takes time away and, where nothing overflowed, ends within one pass in the right times |
| `MixedSplit.FindTarget` | internal/workload/mixed.go:142-154 | The sum in 64 bits, and the first phase with the largest positive percentage |
| `MixedSplit.SumDurations` | internal/workload/mixed.go:179-185 | The sum in 64 bits |
| `MixedExecute.MixedGenerator.Execute` | internal/workload/mixed.go:32-101 | Returns the split's error, or runs the phases with exactly the times of the split; the split is the right one exactly where 64 bits do no harm |
| `MixedExecute.OpsAreSummed` | internal/workload/mixed.go:54-95 | Ops is the sum of the operations of the phases that ran, the failed one included |
| `MixedExecute.RunsUpToFailure` | internal/workload/mixed.go:54-95 | Every phase with time runs up to the first that fails, which is the last to run |
| `MixedExecute.RunsInOrder` | internal/workload/mixed.go:54-95 | Only phases with time run, in order |
| `MixedExecute.RunsHandOutAll` | internal/workload/mixed.go:54-95 | Without a failure the durations handed out make up the whole time |
| `MixedExecute.AdmittedMixedScenario` | cmd/worker/main.go:330-338 | For every duration of n nanoseconds that the API admits: no harmful overflow, the split succeeds exactly from n = 3000000 on, and then write and read get max(1, 33*T/100) and CPU the rest of T = n/1000000 ms |
| `MixedExecute.AdmittedMixedRun` | cmd/worker/main.go:330-338 | From 3 ms on, whatever the generators reply, every duration handed out is positive and without a failure they total n/1000000 ms for a duration of n nanoseconds |
| `MixedExecute.RunMixed` | cmd/worker/main.go:330-355 | For a duration of n nanoseconds: below 3000000 no generator is called; from there on CPU, write and read are handed, in order and up to the first that fails, the rest, a third and a third of n/1000000 ms |
| `CpuLoop.Execute` | internal/workload/cpu.go:16-58 | After k blocks the count is 1000k and the sink 499500k in 64 bits; missing work is reported exactly for a zero sink |
| `CpuLoop.BlocksMean` | internal/workload/cpu.go:31-44 | The blocks run are those before the deadline or the cancellation that ends the loop |
| `CpuLoop.SinkZero` | internal/workload/cpu.go:40-47 | The sink is zero after exactly the multiples of 2^62 blocks |
| `CpuLoop.NoWorkIsExact` | internal/workload/cpu.go:40-47 | While the count fits 63 bits, the sink is zero exactly when nothing was done |
| `CpuLoop.CountCanWrapFirst` | internal/workload/cpu.go:40-47 | After 2^61 blocks the count is back at zero while the sink is not |
| `Connection.EveryConnectionHasOneOwner` | internal/messaging/rabbitmq.go:117-138 | However connect, reconnect and Close interleave, every dialled connection is in flight, installed, or closed exactly once; the installed channel is the installed connection's |
| `Monitoring.CloseIsFinalExactlyWhenQuiet` | internal/messaging/rabbitmq.go:148-185 | In every reachable state without a connection of a producer's end and its monitor, or of a consumer's end where other goroutines connect too: it stays without one for good if and only if no other goroutine connects, no connect is in flight, and the monitor has no attempt left and watches no connection that is gone |
| `Monitoring.CloseOfWatchedIsUndone` | internal/messaging/rabbitmq.go:282-303 | Closing an end whose monitor watches a connection is never final: it wakes the monitor |
| `Monitoring.CloseUndone` | internal/messaging/rabbitmq.go:148-168 | A run in which a producer with one connection is closed and its monitor installs another |
| `Monitoring.LifeIsInterleaving` | internal/messaging/rabbitmq.go:117-138 | Every life of such an end is an interleaving of connects and closes as `Connection.EveryConnectionHasOneOwner` has them |
| `Connection.CloseCanBeOvertaken` | internal/messaging/rabbitmq.go:123-138 | A concrete interleaving in which a connect installs a connection after Close |
| `Clients.Client.Connect` | internal/messaging/rabbitmq.go:496-520 | Its moves in the end's life are the dial, the opening of a channel and the installation, up to the first that fails, beside whatever others do; on success its own connection is installed, one without a channel has been closed once, and a failed dial changes nothing |
| `Clients.Client.Reconnect` | internal/messaging/rabbitmq.go:544-559 | Its moves are those of one connect for each attempt; it succeeds exactly if one of ten attempts works before the context ends; ten failing attempts are ten, with 55.5 seconds of waits |
| `Clients.TenWaits` | internal/messaging/rabbitmq.go:545-557 | The waits after each of the ten attempts, added up, in milliseconds |
| `Clients.Client.MonitorReconnect` | internal/messaging/rabbitmq.go:522-542 | Its moves are rounds of looking for a connection, noticing its loss and reconnecting, every round with all its attempts; it ends exactly when there is no connection to watch or its context ends while it watches |
| `Clients.Client.CloseAll` | internal/messaging/rabbitmq.go:282-303 | Closes what is installed, once, and leaves nothing installed |
| `LogViews.GetIsLatest` | cmd/api/handlers/scenarios.go:21-22 | The row query returns the row with the greatest (created_at, id) of the scenario, or none if there is none |
| `LogViews.HistoryEndsWithLatest` | cmd/api/handlers/scenarios.go:23-24 | The events query has exactly the scenario's rows in strict order, and ends with the row query's row |
| `LogViews.DistinctLatestMeans` | cmd/api/handlers/scenarios.go:17-20 | The distinct-on subquery has exactly one row for every scenario, the row query's |
| `LogViews.ListingMeans` | cmd/api/handlers/scenarios.go:17-20 | The list shows at most fifty latest rows, newest first, no scenario twice, and leaves one out only when it has fifty, for rows that are no older |
| `LogViews.CountsAgree` | cmd/api/handlers/status.go:21-27 | The count of a status is the number of scenarios whose latest row has it |
| `LogViews.AppendOrderIsQueryOrder` | cmd/worker/reporting.go:15-16 | When timestamps and ids grow with every append, the worker's query returns the row appended last |
| `Lifecycle.NewestIsLast` | cmd/worker/reporting.go:15-16 | The newest status of a scenario is that of its last event in the log |
| `Migration.Database.Migrate` | internal/db/schema/postgres.sql:15-25 | The statement appends, under new ids, the status-bearing rows without an equal lifecycle row, and nothing else |
| `Migration.OneRunMatchesAll` | internal/db/schema/postgres.sql:15-25 | After one run every status-bearing row has its lifecycle row |
| `Migration.SelectedRows` | internal/db/schema/postgres.sql:15-25 | A row is selected exactly if it has a status and no lifecycle row has its scenario, payload and timestamp |
| `Migration.MigratedRow` | internal/db/schema/postgres.sql:15-25 | After a run every row with a status has a lifecycle row with its scenario, payload and timestamp |
| `Migration.NothingLeft` | internal/db/schema/postgres.sql:15-25 | The statement inserts nothing if and only if every status-bearing row has one |
| `Migration.MigrationRunsOnce` | internal/db/schema/postgres.sql:15-25 | After one run no later run inserts anything, whatever samples and lifecycle rows are written in between |
| `Migration.MigrationDisplacesExactlyNotOlder` | internal/db/schema/postgres.sql:15-25 | A run changes a scenario's latest row if and only if it brings in a row of it that is not older: a strictly newer latest event is never displaced |
| `Migration.EqualTimestampDisplaces` | internal/db/schema/postgres.sql:15-25 | An input for it: a migrated row with the latest row's timestamp takes its place |
| `Migration.Database.GenerateLoad` | internal/workload/db_write.go:20-78 | Adds only samples without a status; writes exactly the batches before the deadline, a cancellation or a failed insert ends it, each of the size asked for or else ten; returns the error of what ended it, and reports the inserts that succeeded |
| `Migration.Database.WriteBatch` | internal/workload/db_write.go:63-71 | One batch adds its samples up to the first insert that fails, which may have taken effect |
| `Schema.SplitSqlStatements` | internal/db/postgres.go:186-197 | The statements are trimmed, not empty and without semicolons, and together are the text without blanks and semicolons, in order |
| `Schema.JoinThenSplit` | internal/db/postgres.go:186-197 | Joining statements with semicolons and cutting again gives them back if and only if each is trimmed, not empty and without a semicolon |
| `Schema.NothingIsLost` | internal/db/postgres.go:186-197 | Cutting loses blanks and semicolons only |
| `Schema.TwoLines` | internal/db/postgres.go:186-197 | Two statements on lines of their own, cut and trimmed |
| `Schema.Blanks` | internal/db/postgres.go:190 | Which ASCII characters are trimmed |
| `Schema.Server.InitSchema` | internal/db/postgres.go:165-179 | Executes the statements in order up to the first that is refused, and succeeds exactly if there is none |
| `CommandArgs.SplitCommandArgs` | cmd/chaos-ctrl/main.go:136-164 | The index loop computes the recursive split that the lemmas below are about |
| `CommandArgs.CommandWords` | cmd/chaos-ctrl/main.go:166-173 | The five command words |
| `CommandArgs.GlobalFlags` | cmd/chaos-ctrl/main.go:175-186 | A global flag is one or more dashes, one of the five names, and perhaps an equals sign and a value |
| `CommandArgs.UpToTheCommand` | cmd/chaos-ctrl/main.go:143-150 | An argument before the command is global; the first command word is the command |
| `CommandArgs.AfterTheCommand` | cmd/chaos-ctrl/main.go:152-160 | After the command a global flag is global, with the next argument unless it carries its value or is the last; any other argument is the command's |
| `CommandArgs.SplitIsPartition` | cmd/chaos-ctrl/main.go:136-164 | Every argument goes to exactly one of globals, command and command arguments, each in input order; the command is the first command word |
| `CommandArgs.CommandArgsHaveNoGlobalFlag` | cmd/chaos-ctrl/main.go:152-160 | No command argument is a global flag |
| `CommandArgs.ResplitIsStable` | cmd/chaos-ctrl/main.go:136-186 | Splitting globals, command and command arguments again gives the same parts if and only if no global is a command word |
| `CommandArgs.ResplitCanChange` | cmd/chaos-ctrl/main.go:136-186 | An input for which it is not: `status -o apply` |
| `Sse.RoundTrip` | cmd/ui/handlers/dashboard.go:84-91 | The standard's parser gives back exactly the written messages if and only if event names are not empty and free of line breaks and data free of carriage returns |
| `Sse.WrittenText` | cmd/ui/handlers/dashboard.go:84-91 | The text written for data of one line and of two |
| `Sse.DataLinesMean` | cmd/ui/handlers/dashboard.go:85-86 | What the standard's parser does with a data line, with and without a space or a colon |
| `Sse.OtherLinesMean` | cmd/ui/handlers/dashboard.go:85-86 | What it does with comments, event names and other fields |
| `Sse.BlankLineMeans` | cmd/ui/handlers/dashboard.go:85-86 | What it does with the blank line that ends a message |

## Left out

- JSON encoding: payloads are values, with one case for a message that does not decode; a stored payload that does not decode is an outcome of the read, not a row of the log.
- Status strings: the lifecycle has five statuses and does not model the case folding and trimming in `isStoppedScenarioStatus`.
- Event order in the lifecycle is append order; `LogViews.AppendOrderIsQueryOrder` says when the queries see the same order, and the view and migration lemmas do not assume it.
- Clocks, tickers and deadlines: a watcher can tick at any time, and loops that wait for a deadline are told by an oracle when it has passed.
- A generator that never returns: `Consumption.Consumer.Consume` is about handlers that come back; that a process can die in the middle is a step of the state machine.
- Fairness: nothing says that a handler, a consumer or the broker ever takes its next step; only `Handlers.JoinNeverBlocks` says that one can.
- `startConsumers`, `newConsumerWithRetry`: consumers are added and connections lost at any time; the loops around that are not modelled. A worker uses the high and low queues only, as `startConsumers` does.
- Failures to encode, the `queue is required` check of `Consume`, and the list and events handlers' row loops: one-branch checks and copies.
- Publisher state of the AMQP client: a publish without a channel is a failed publish.
- Clients.Client.Reconnect: the oracle has an entry for each of the ten attempts.
- A byte order mark at the start of an event stream, and the `id` and `retry` fields that `writeSSE` never writes.
- SQL beyond the five statements above: types, transactions, concurrent inserts during the migration statement, and semicolons inside literals or comments, which the splitter does not know.
- Memory and DB-read generators, chaos experiments, user interface pages, configuration, telemetry, HTTP routing and deployment files.
