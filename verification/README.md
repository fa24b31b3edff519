# Price tracker: verified model

The repository is a price tracker made of services that talk over at-least-once
queues and transactional outboxes. A **Gateway** owns users, products,
subscriptions and price history; a **Scheduler** keeps a replica of what is
watched and hands out scraping tasks; an **Extractor** turns tasks into results;
a **Notifier** sends Telegram messages; a **Bot** talks to users. This project
models that protocol and its two self-contained algorithms, and proves what
holds in every run. `dafny verify dfyconfig.toml` checks all of it.

| file | what it holds |
|---|---|
| `Platform` | URL detection, normalization and the Scheduler's identity check |
| `GatewayDb`, `GatewayStore` | the Gateway's transactions as functions on its tables, and as a class whose methods do what the functions say |
| `Commands`, `Replies` | what each command and each price result leaves in the tables, column by column, and when it succeeds |
| `Gateway`, `AlertLog`, `Alerting`, `Results`, `Arrival`, `Catalog` | what those transactions keep: truthful snapshots, the alert log, deserved alerts, exactly-once effects, independence of arrival order, permanent unique URLs, one reply per force request |
| `Transactions`, `LockOrder` | the same commands statement by statement, interleaved under row locks; lock order against commit order |
| `SchedulerDb`, `SchedulerStore`, `Scheduling` | the Scheduler's tables, class and due batches |
| `System`, `Replica`, `Relay`, `Consumers` | Gateway, Scheduler and Extractor together over unreliable queues, what the replica shows along a run, what becomes of a page that was read, and the consumers between them |
| `Outbox`, `OutboxStore` | the lease protocol, the two outbox stores and the worker loop |
| `Broker`, `BrokerWait`, `BrokerRuns` | publishing with confirms over one shared channel, the loop that waits for the confirm, and calls that nothing disturbs |
| `Telegram`, `Notifier`, `NotifierDelays`, `NotifierConsumer` | the sender's retries, the notification queues, requested delays along a copy's way, one delivery handled |
| `Sessions`, `BotLookup`, `LookupBot`, `Dialog`, `Dispatcher` | bot sessions, the lookup protocol and the functions that follow it, the price dialog, the per-chat dispatcher |
| `Paging`, `MyList`, `ListPage` | UTF-16 truncation, the greedy pages of the product list, and what a page shows and offers |

Tables are maps and sets, queues are multisets (sequences where order matters),
prices are kopecks, times are integers that never decrease, UUIDs are numbers
that are new when they are drawn, and JSON is the identity except that it cannot
carry NaN or an infinity. A transaction is one atomic function from tables to
tables, except in `Transactions`, where it is a sequence of statements. Crashes,
lost acknowledgements, redelivery and reordering are steps, or steps that do not
happen. What the environment decides (network answers, page loads, clocks,
cancellation, which rows others have locked) is a parameter or an arbitrary step.

Where a property does not hold unconditionally, the exact condition is stated:

* Results that arrive in another order may leave another alert state when two of
  them carry the same timestamp. `Arrival.OrderIrrelevantIffTiesAgree` says when
  exactly; with distinct timestamps (`Arrival.OrderIndependence`) order never matters.
* A publish that starts too late can overlap with another worker's.
  `Outbox.LateStartClashes` gives the limit; it differs by one tick between the
  two stores, because one compares `<` and the other `<=`.
* A negative price is rejected as invalid, so a force request scraped with one keeps
  a live copy if and only if another copy existed (`System.NegativePriceLosesRequest`);
  pages never yield one, so requests are conserved.
* A cancelled lookup changes its chat's session if and only if it completes between
  the cancellation and the handler's own write (`BotLookup.LateCompletionIsHarmless`).
  `BotLookup.WindowIsReachable` reaches such a state, and
  `BotLookup.ReplacementHidesCompletion` shows that nothing of the change lasts.
* A result that carries an unprocessed force task's id together with a lookup id
  marks the task processed and answers nobody (`Catalog.ResultForceOk`). No service
  here sends one.

Some facts about single steps are helpers for the results below and have no row:
`System.AppliedSnapshot` and `System.AcceptedForce` (what a committed snapshot or
force command does to the Scheduler's tables), `Replica.VersionsNeverDecrease` (no
step lowers a replica's version), `Results.NoHistoryConflict` (an unprocessed task
has no history row), `BotLookup.TimelyCompletionArrives` (a completion reaches the
session that waits for it) and `Sessions.CompletesOnce` (a second completion changes
nothing).

## Model

| member | source | states |
|---|---|---|
| Platform.FindsLeftmost | shared/pkg/platform/platform.go:9 | the product id found is the one the leftmost match of the pattern captures, and none is found only if nothing matches |
| Platform.NormalizedIsCanonical | shared/pkg/platform/platform.go:20-27 | whatever the input, a normalized URL has the canonical form with at least one digit |
| Platform.NormalizeIdempotent | shared/pkg/platform/platform.go:21-27 | normalizing a normalized URL returns it unchanged |
| Platform.AcceptsExactlyCanonical | services/scheduler/internal/store/dispatch.go:21-28 | the Scheduler's identity check accepts a URL if and only if it is canonical and the platform is wb |
| Platform.CanonicalIsDetected | shared/pkg/platform/platform.go:12-18 | every canonical URL is recognised as Wildberries, so a stored lookup URL keeps its platform |
| Platform.DetectsHostName | shared/pkg/platform/platform.go:12-18 | a text is recognised if and only if it contains the host name, in any mix of cases |
| Gateway.MutateTells | services/gateway/internal/store/monitoring.go:46-113 | pause, resume, thresholds and delete keep every product's newest snapshot truthful, on every error path too |
| Gateway.CreateTells | services/gateway/internal/store/monitoring.go:128-167 | creating, restoring or updating a subscription keeps the newest snapshot truthful even when nothing changes and none is emitted |
| Gateway.BumpAllTells | services/gateway/internal/store/monitoring.go:203-241 | reconciliation keeps every snapshot truthful while it renumbers all products |
| Gateway.ResultIsUnrelated | services/gateway/internal/store/results.go:21-177 | a price result never changes what the monitoring protocol depends on |
| Gateway.OpTells | services/gateway/internal/store/monitoring.go:37-44 | every transaction of the store keeps the newest snapshot truthful |
| Gateway.RunTells | services/gateway/internal/store/monitoring.go:104-111 | after any run, the snapshot at monitor_version is active if and only if some subscription is active and not paused |
| Gateway.OpExtends | services/gateway/internal/store/outbox.go:58-65 | outbox payloads are never rewritten and events never removed |
| Commands.RunIsSound | services/gateway/internal/store/monitoring.go:128-167 | over every run: one row per user and product, one user per chat, owners known, URLs unique, snapshots truthful, history consistent, and no command or reply of a force request without its request or its result |
| Commands.MutationLeaves | services/gateway/internal/store/monitoring.go:46-113 | pause, resume, thresholds and delete succeed exactly for the owner of an active row; afterwards that row is paused, unpaused, has the thresholds (and a quiet alert state under a new version exactly if they changed), or is inactive; every other column and row stays, and the product's state is announced once, under a free key |
| Commands.MutationIsFelt | services/gateway/internal/store/monitoring.go:37-44 | a resumed subscription makes its product wanted; a paused or deleted one leaves it wanted exactly if somebody else wants it; thresholds change nothing about that |
| Commands.ResumeUndoesPause | services/gateway/internal/store/monitoring.go:77-80 | pausing and then resuming gives back all subscriptions as they were |
| Commands.CreationLeaves | services/gateway/internal/store/monitoring.go:128-167 | creating succeeds exactly for a known user and product; the user's one row for the product is then active, unpaused and has the given thresholds, its alert state starts afresh exactly if it was deleted or they changed; nothing is announced exactly if nothing changed |
| Commands.CreationIsFelt | services/gateway/internal/store/monitoring.go:37-44 | after a successful creation the product is wanted |
| Commands.ForceLeaves | services/gateway/internal/store/monitoring.go:169-200 | a force request succeeds exactly for the owner of an active row asking from the own chat, and saves the product, the user and the chat with a command that names product, URL and chat |
| Commands.LookupLeaves | services/gateway/internal/handler/handler.go:71-110 | a lookup is stored as pending under the canonical link, with its command, exactly if the text names the host and holds a product link |
| Commands.ProductLeaves | services/gateway/internal/store/store.go:129-141 | a finished lookup yields the one product with its URL, renamed, or a new one without versions and results |
| Commands.UserLeaves | services/gateway/internal/store/store.go:94-107 | the first contact of a chat adds its one user, later ones find it |
| Commands.ReconciliationLeaves | services/gateway/internal/store/monitoring.go:203-241 | reconciliation moves every product up by exactly one version and announces it as it is, and adds nothing else |
| Gateway.OpVersions | services/gateway/internal/store/monitoring.go:93-111 | in every transaction each product's monitor_version stays or moves up by one, and new products start at 0 |
| AlertLog.OpAlertStep | services/gateway/internal/store/results.go:159-175 | in every transaction alert columns stay or the version moves by one, and a new alert event announces the state its row has just entered |
| AlertLog.RunKeepsInv | services/gateway/internal/store/monitoring.go:147-149 | over whole runs each version of each subscription had exactly one alert state, and each alert event agrees with the state at its version |
| AlertLog.NoRepeatedAlert | services/gateway/internal/store/results.go:159-175 | between two alerts of one direction for one subscription lies a version at which it was not in that direction |
| AlertLog.RunKeepsKeysBehind | services/gateway/internal/store/results.go:164-174 | after any run no alert event is ahead of its subscription's version, so the next alert key is free |
| Alerting.AlertsAreDeserved | services/gateway/internal/store/results.go:134-192 | after any run, processing any message adds the alert event at a key if and only if the result is timely, the subscription watches, the price left its range on a side not announced last and the key is its next; `ON CONFLICT DO NOTHING` never discards one; the event names side, threshold and price and goes to the subscriber's chat |
| Alerting.ZonesFollow | services/gateway/internal/store/results.go:134-176 | after any run, a timely result puts every following subscription into the zone of its price, one alert version on exactly if that is a new zone, leaves all other rows as they were, and adds no events but alerts of those subscriptions |
| Alerting.NextSnapshotKeyIsFree | services/gateway/internal/store/monitoring.go:104-111 | after any run the next snapshot key of every product is free, so no snapshot is swallowed by an older event |
| Results.LookupSettledOnce | services/gateway/internal/store/results.go:28-56 | the first result of a lookup task settles that lookup alone, as found or failed; invalid results and unknown lookups settle nothing |
| Results.RedeliveryIsNoop | services/gateway/internal/store/results.go:40-46 | a delivery of a processed task changes nothing, whatever else it carries |
| Results.ExactlyOnce | services/gateway/internal/store/results.go:96-102 | a run ends in the same tables as the run with every delivery of an already processed task erased |
| Results.RunKeepsHistory | services/gateway/internal/store/results.go:103-116 | over whole runs history has at most one row per task, each processed, and latest_result_at is the maximum time recorded for its product |
| Replies.OutcomeIsExact | services/gateway/internal/store/results.go:21-102 | after any run, a message is rejected exactly if it is malformed, about an unknown product, about another product than its force request, or would be recorded without a time; it comes back exactly if its price does not fit the column; otherwise it is committed and its task processed |
| Replies.ForceIsAnswered | services/gateway/internal/store/results.go:117-127 | after any run, the first storable result of a force request adds exactly one event: the current price with currency, or the error, with the product's name and link, for the chat saved with the request; price and time are recorded and no subscription changes |
| Replies.OthersAreRecorded | services/gateway/internal/store/results.go:103-133 | a first failed or outdated result without a force request is recorded and tells nobody anything |
| Replies.TimelyIsRecorded | services/gateway/internal/store/results.go:103-116 | a timely periodic result is recorded in the same way: processed mark, one history row, newer time |
| Replies.NothingElse | services/gateway/internal/store/results.go:84-102 | all other product results change nothing, except that an orphaned force result is marked as processed |
| Arrival.OneScrape | services/gateway/internal/store/results.go:103-176 | everything one successful periodic result does: processed mark, history row, latest time, alert zone of every watching subscription, or nothing but history when stale |
| Arrival.NewestDecides | services/gateway/internal/store/results.go:111-163 | after any list of results the final alert zones and latest time are those of the newest one that arrived last, or unchanged if all were stale |
| Arrival.OrderIrrelevantIffTiesAgree | services/gateway/internal/store/results.go:111-116 | a subscription ends in the same alert state under every permutation if and only if results tied for newest put it in the same zone |
| Arrival.OrderIndependence | services/gateway/internal/store/results.go:96-186 | with distinct task ids and distinct times, every permutation leaves the same processed set, history rows, latest times and alert states |
| Catalog.OpGrows | services/gateway/internal/store/store.go:129-141 | no transaction changes a product's URL or removes an event, a force request or a processed mark |
| Catalog.OpUrls | services/gateway/internal/handler/handler.go:89-104 | every stored URL is canonical and no two products share one |
| Catalog.OpForceOk | services/gateway/internal/store/results.go:77-127 | every transaction keeps force requests exact: a command for each, a reply if and only if it was processed, addressed to the chat saved with it. The one exception, which is exact: a lookup result under an unprocessed force task's id |
| Catalog.ResultForceOk | services/gateway/internal/store/results.go:28-56 | a result keeps them exact if and only if it is not such a message, which the lookup branch accepts and marks processed without a reply |
| Transactions.StatementKeeps | services/gateway/internal/store/monitoring.go:46-112 | each statement of a locked command keeps what the command may rely on: versions read under the lock are current, pending snapshots true |
| Transactions.OthersSurvive | services/gateway/internal/store/monitoring.go:30-35 | a commit that touches none of a transaction's locked products leaves intact all that transaction knows |
| Transactions.EndsAtomically | services/gateway/internal/store/monitoring.go:128-167 | a command run statement by statement returns, and leaves, exactly what the atomic operation would at its last statement |
| Transactions.Serializable | services/gateway/internal/store/monitoring.go:46-241 | every interleaving of pause, resume, thresholds, delete, create, reconcile and the other operations, with aborts anywhere, equals running the committed ones one after the other, and all snapshots are truthful |
| LockOrder.LockOrderIsSerialOrder | services/gateway/internal/store/monitoring.go:30-35 | of two transactions that locked the same product and committed, the first to lock it committed before the second one got the lock, so the serial order is the lock order |
| LockOrder.NoConflictWhileLocked | services/gateway/internal/store/monitoring.go:30-35 | from a transaction's lock to its commit, no operation in the serial order touches the locked product |
| LockOrder.AnswersAreSerial | services/gateway/internal/store/monitoring.go:46-167 | every command that ended, committed or early, answered exactly what the atomic operation answers at its place in the serial order |
| GatewayStore.Store.MutateSubscription | services/gateway/internal/store/monitoring.go:46-113 | new tables and outcome are those of the specification, on every branch; `Commands.MutationLeaves` says what these are |
| GatewayStore.Store.CreateSubscription | services/gateway/internal/store/monitoring.go:128-167 | new tables and outcome are those of the specification; `Commands.CreationLeaves` says what these are |
| GatewayStore.Store.TakeSnapshot | services/gateway/internal/store/monitoring.go:37-44 | the snapshot's active flag is whether some row is active and not paused |
| GatewayStore.Store.QueueForce | services/gateway/internal/store/monitoring.go:169-200 | saves the request and its command together, or changes nothing |
| GatewayStore.Store.ReconcileMonitoring | services/gateway/internal/store/monitoring.go:203-241 | the loop over the locked products bumps each once, in order of id |
| GatewayStore.Store.ProcessLookup | services/gateway/internal/store/results.go:28-56 | lookup results: deduplicated, stored as done or failed, or rejected |
| GatewayStore.Store.RaiseAlerts | services/gateway/internal/store/results.go:159-175 | the loop over the rows moves each to its zone with one new version, and adds exactly one event for each that entered a direction |
| GatewayStore.Store.ProcessProduct | services/gateway/internal/store/results.go:57-177 | product results: force replies, stale and failed results, history and alerts, in one transaction |
| GatewayStore.Store.ProcessPriceResult | services/gateway/internal/store/results.go:21-177 | new tables and outcome are those of the specification for every message; `Replies`, `Alerting` and `Results` say what these are |
| SchedulerStore.Store.ApplySnapshot | services/scheduler/internal/store/dispatch.go:41-104 | applies only strictly newer snapshots, keeps tombstones, rejects mismatches |
| SchedulerStore.Store.EnqueueForce | services/scheduler/internal/store/dispatch.go:158-217 | stores a forced task once per task id, leaving the schedule alone |
| SchedulerStore.Store.SelectDue | services/scheduler/internal/store/dispatch.go:114-137 | the first hundred due rows in order of (next_check_at, id) that are not locked by others |
| SchedulerStore.Store.EnqueueDue | services/scheduler/internal/store/dispatch.go:107-155 | the returned count is the size of such a batch, and exactly its rows advance and get one event each; `Scheduling.CallAdvances` says how far |
| SchedulerStore.RunKeepsDistinct | services/scheduler/internal/store/dispatch.go:75-155 | over every run of the three transactions row ids stay distinct, which the batch query's order needs to be total |
| SchedulerStore.BatchIsUnique | services/scheduler/internal/store/dispatch.go:114-137 | with distinct row ids the batch query has exactly one answer, row for row |
| SchedulerStore.SnapshotLeaves | services/scheduler/internal/store/dispatch.go:41-104 | a snapshot is committed exactly if its fields are those of a state, its URL canonical and product and URL match the rows there are; it inserts a row due at once, or brings a newer version, activity and interval and keeps the row's id and time |
| SchedulerStore.ForceLeaves | services/scheduler/internal/store/dispatch.go:158-217 | a force command is committed exactly if it is complete, canonical and matches; the first of a task stores its one scrape, for the requesting chat |
| SchedulerStore.ServedApart | services/scheduler/internal/store/dispatch.go:107-155 | over every run of snapshots, force commands and batches, two batches with the same product are at least 3600 s times its interval apart |
| Scheduling.CallCounts | services/scheduler/internal/store/dispatch.go:138-154 | count returned, new outbox events and advanced rows coincide |
| Scheduling.EventsAreDue | services/scheduler/internal/store/dispatch.go:114-116 | every new event is for a row that was active and due |
| Scheduling.BatchIsDue | services/scheduler/internal/store/dispatch.go:114-137 | a batch is at most a hundred active rows whose time has come, earliest first and by id among equals, and nothing unlocked is left out unless a full batch goes before it |
| Scheduling.CallAdvances | services/scheduler/internal/store/dispatch.go:138-154 | a call sets the next time of each row of its batch to 3600 s times its interval from now, and changes no other row |
| Scheduling.ServedWithin | services/scheduler/internal/store/dispatch.go:107-155 | a due row with k due rows ahead is enqueued within k/100 + 1 calls, with positive intervals and no rows locked |
| System.StepKeeps | services/scheduler/internal/consumer/consumer.go:50-79 | every step of the three services, reordered, duplicated, interrupted or repeated, keeps the global invariant |
| System.ForceRequestsConserved | services/gateway/internal/store/monitoring.go:169-200 | in every reachable state a force request is answered, by one event to the saved chat, if and only if it was processed; otherwise a live copy is in an outbox, a queue or unacknowledged |
| System.NegativePriceLosesRequest | services/gateway/internal/store/results.go:60-62 | in every state the invariant allows, a negative price for an unprocessed force request is dropped without a reply, and the request still has a live copy if and only if there was another one |
| Replica.ReplicaSafe | services/scheduler/internal/store/dispatch.go:75-82 | along every run, a replica row shows a version the Gateway had at an earlier step, and is active if and only if some subscription was active and not paused at that step |
| Replica.ReplicaShowsTruth | services/scheduler/internal/store/dispatch.go:75-103 | from any reachable state on: whenever a replica row later shows the version a product has now, its active flag is what the subscriptions say now |
| Replica.ReplicaConverges | services/scheduler/internal/store/dispatch.go:40-104 | once the newest snapshot was applied, in whatever order and company, the replica equals the current truth |
| Relay.ScrapeIsKept | services/extractor/internal/consumer/consumer.go:172-224 | end to end: what a page load yielded is what its result reports; however the system runs on, when that result is handled as the first of its task, the history gets one row with the page's price, currency and time, and a force request is told that price or error in its chat |
| Relay.LookupIsSettled | services/extractor/internal/consumer/consumer.go:119-170 | end to end: the first result of a lookup settles it with the name and price of the page, or with its error |
| System.NothingRejected | services/scheduler/internal/store/dispatch.go:42-54 | no snapshot or force command that the Gateway generates is rejected as invalid |
| Consumers.HandleTrackRequest | services/scheduler/internal/consumer/consumer.go:50-79 | acknowledged if stored, dropped if invalid, requeued on other errors; nothing changes unless acknowledged |
| Consumers.HandlePriceResult | services/gateway/internal/consumer/consumer.go:60-81 | the same for price results |
| Consumers.HandleScraper | services/extractor/internal/consumer/consumer.go:172-224 | answers with a result that carries the task's id, product and force flag, success exactly if the page loaded, its price, currency or error, the time, and no name; acknowledges only after the broker took it |
| Consumers.HandleLookup | services/extractor/internal/consumer/consumer.go:119-170 | the same for lookups, with the lookup's id and the page's name |
| Consumers.TrackStep | services/scheduler/internal/consumer/consumer.go:66-78 | a step of the system model is one delivery to this consumer |
| Outbox.BackoffBounded | shared/pkg/outbox/worker.go:106-116 | for every attempt count the delay is between 1 s and 60 s, doubling up to the bound |
| Outbox.StepKeeps | shared/pkg/outbox/worker.go:45-104 | every step of several workers, crashes and lost statements included, keeps the lease invariant |
| Outbox.PublishedIsTerminal | services/gateway/internal/store/outbox.go:46-50 | no step changes a published row |
| Outbox.PublishedOnlyAfterConfirm | services/scheduler/internal/store/outbox.go:51-61 | a row becomes published only through the mark of a worker whose own publish succeeded under the token the row still carries |
| Outbox.SupersededTokenIsPowerless | services/gateway/internal/store/outbox.go:52-56 | marking or retrying with another token changes nothing |
| Outbox.OnePublisher | shared/pkg/outbox/worker.go:12-18 | no event is published by two workers at once, provided that a worker whose token was replaced started in time; the owner of the token may start whenever it likes |
| Outbox.LateStartClashes | services/scheduler/internal/store/outbox.go:20-27 | a worker that starts a given delay after its claim can be joined by a second publisher if and only if its timeout may outlast the lease |
| Outbox.BoundedRecovery | services/gateway/internal/store/outbox.go:20-24 | every unpublished row is claimable again within 60 s: at 60 in one store, after 60 in the other |
| Outbox.InsertedIsReady | services/gateway/internal/store/outbox.go:58-65 | a new event can be claimed at once, for its first attempt |
| Outbox.ClaimLeases | services/gateway/internal/store/outbox.go:14-44 | a claim counts as an attempt and keeps everybody else out for exactly 60 s |
| Outbox.RetryWaits | shared/pkg/outbox/worker.go:84-95 | an owner that gives up makes the row claimable again exactly after the back-off of its attempt |
| OutboxStore.Store.Claim | services/scheduler/internal/store/outbox.go:13-49 | takes an oldest claimable row outside the locked ones, or none if there is none, and leases only it |
| OutboxStore.PickIsOldest | services/scheduler/internal/store/outbox.go:13-49 | what a claim takes is, among unlocked rows that are unpublished, due and not under a lease, one created first, by id among equals in the Scheduler; and none if there is none |
| OutboxStore.Store.MarkPublished | services/scheduler/internal/store/outbox.go:52-61 | publishes only an owned row; a lost lease is an error in the Scheduler only |
| OutboxStore.Store.Retry | services/gateway/internal/store/outbox.go:53-56 | releases only an owned row, with the given delay |
| OutboxStore.TurnLeaves | shared/pkg/outbox/worker.go:52-101 | a turn leaves the claimed row published, put off by its back-off from the end of the attempt, or leased for 60 s, and says exactly when each; other rows stay |
| OutboxStore.Worker.Deliver | shared/pkg/outbox/worker.go:45-101 | one turn: which row is claimed, whether it is published, marked, retried or left leased; the loop stops if and only if the context was cancelled during the turn |
| OutboxStore.Worker.Run | shared/pkg/outbox/worker.go:45-104 | the loop takes turns up to and including the first in which its context is cancelled; no refused publish, lost claim or bad payload ends it |
| OutboxStore.RunRefines | shared/pkg/outbox/worker.go:45-104 | every run of the loop is a run of the lease protocol that leaves the same rows |
| Broker.StepKeeps | shared/pkg/broker/rabbitmq.go:285-321 | under any interleaving of calls, redials, Close, channel failures and broker answers, what is outstanding on a channel belongs to the call that holds the gate |
| Broker.ConfirmAttribution | shared/pkg/broker/rabbitmq.go:266-283 | Publish returns nil only if a message written by this very call was positively confirmed and not returned |
| Broker.VerdictIsExact | shared/pkg/broker/rabbitmq.go:334-353 | when a confirm is taken, the verdict is success if and only if the caller's own message was confirmed positively and not returned |
| Broker.FreeGateIsQuiet | shared/pkg/broker/rabbitmq.go:413-430 | while the gate is free an open channel has no confirm or return outstanding |
| Broker.OneInFlight | shared/pkg/broker/rabbitmq.go:288-293 | at most one publish is in flight |
| Broker.AwaitConfirm | shared/pkg/broker/rabbitmq.go:323-358 | the loop answers by the first decisive signal, and reports a return seen before it or waiting beside it |
| BrokerWait.LoopIsVerdict | shared/pkg/broker/rabbitmq.go:323-358 | the signals a call takes along any run of the protocol are signals its loop may select; the first decisive one ends the wait, and the protocol's verdict is success if and only if the loop answers that the message was published |
| BrokerWait.AnswerIsExact | shared/pkg/broker/rabbitmq.go:323-358 | in reachable states the loop's answer at a confirm is that its own message was returned, else published if it was confirmed and refused if not; without a confirm it is that the channel broke or the call was cancelled |
| BrokerRuns.PublishSucceeds | shared/pkg/broker/rabbitmq.go:285-321 | an undisturbed call on a live channel succeeds when its message is confirmed, and leaves the channel usable |
| BrokerRuns.SecondTrySucceeds | shared/pkg/broker/rabbitmq.go:266-283 | an undisturbed call whose first try failed for want of a live channel redials, installs a new channel and succeeds there |
| BrokerRuns.TwoMessagesAtMost | shared/pkg/broker/rabbitmq.go:266-283 | under any interleaving, at most two messages are written for one call |
| Telegram.Send | services/notifier/internal/alert/alert.go:65-90 | at most four requests, each after a retryable reply and the longer of the fixed and the requested delay; stops on success, permanent errors, delays over 30 s and cancellation |
| Notifier.StepKeeps | services/notifier/internal/consumer/consumer.go:69-149 | every step of the queues and the consumer keeps the notification invariant |
| Notifier.NotificationsConserved | services/notifier/internal/consumer/consumer.go:129-149 | every notification was sent, is dead-lettered, or has a copy in the task queue, the retry queue or an unacknowledged delivery; only hopeless ones are dead |
| Notifier.LimitsRespected | services/notifier/internal/consumer/consumer.go:76-105 | no request starts earlier than Telegram last asked for, whether the wait was local, in the 30 s queue or under NotBefore |
| Notifier.DeferredOwes | services/notifier/internal/consumer/consumer.go:99-105 | a copy moved to the retry queue after a reply asking for A owes at least A from that reply |
| NotifierDelays.EveryCopyFollows | services/notifier/internal/consumer/consumer.go:69-149 | every copy in the queues or in hand comes from a copy before the step, or is a new message, so following copies loses none |
| NotifierDelays.DelayIsHonoured | services/notifier/internal/consumer/consumer.go:76-105 | after a reply asking for A, the copy written to the retry queue is not requested again before A has passed since the reply, through any deliveries, expiries, holds, requeues and further retries |
| NotifierConsumer.SendTelegram | services/notifier/internal/alert/alert.go:65-90 | the sender's requests are requests the protocol allows |
| NotifierConsumer.Transfer | services/notifier/internal/consumer/consumer.go:129-149 | acknowledges only after a successful publish, otherwise requeues |
| NotifierConsumer.Handle | services/notifier/internal/consumer/consumer.go:69-106 | each delivery ends sent, dead, deferred or requeued as it should: one whose time has come is asked for, one that is early waits 30 s unchanged, one asked to wait longer carries exactly that time; handling it is a run of the protocol |
| Sessions.Store.Get | services/bot/internal/state/state.go:39-47 | the stored session, or an idle one |
| Sessions.Store.Set | services/bot/internal/state/state.go:49-57 | replaces or removes one chat's session |
| Sessions.Store.Update | services/bot/internal/state/state.go:59-74 | applies the change, and forgets a session with nothing left in it |
| Sessions.Store.CompleteLookup | services/bot/internal/state/state.go:76-87 | succeeds exactly if the chat still waits on this id, keeping the page |
| Sessions.Store.Clear | services/bot/internal/state/state.go:89-93 | removes one chat's session |
| Sessions.UpdateIsSeen | services/bot/internal/state/state.go:61-74 | the next read sees the update in everything that steers the dialog, other chats see nothing |
| BotLookup.StepKeeps | services/bot/internal/bot/search.go:24-131 | every critical section of handlers and lookup goroutines keeps the lookup invariant |
| BotLookup.SlotsBounded | services/bot/internal/bot/search.go:44-56 | at most eight lookups hold a slot, and the count is exact |
| BotLookup.WaitersAreServed | services/bot/internal/bot/search.go:31-90 | outside a handler and before shutdown, a chat waiting on an id has that very lookup active, uncancelled and not past completion |
| BotLookup.LateCompletionIsHarmless | services/bot/internal/bot/search.go:92-131 | in every reachable state, shut down or not, a completion that is cancelled, of another chat or no longer awaited changes a chat's session if and only if that chat's handler is between cancelling the lookup and replacing the session, which still waits on it |
| BotLookup.ReplacementHidesCompletion | services/bot/internal/bot/search.go:24-43 | in that window nothing of the completion lasts: with or without it the handler leaves the same sessions, and a new lookup inherits the same page |
| BotLookup.WindowIsReachable | services/bot/internal/bot/search.go:80-131 | the window exists: a run in which a cancelled lookup still changes its session |
| LookupBot.Bot.CancelLookup | services/bot/internal/bot/search.go:80-90 | removing and then cancelling the active lookup are the protocol's two steps |
| LookupBot.Bot.HandleURLSubmit | services/bot/internal/bot/search.go:24-56 | undisturbed, a submission is a run of the protocol that leaves the chat waiting on a live lookup with its own id, or idle if all eight slots are taken, and keeps the page |
| LookupBot.Bot.RunLookup | services/bot/internal/bot/search.go:57-131 | undisturbed, a lookup goroutine is a run of the protocol that gives its slot back and forgets only itself; it leaves the waiting chat asking for the lowest price with the page's name, link and price and the Gateway's lookup id, or idle, and touches no session once cancelled |
| LookupBot.Bot.HandleClear | services/bot/internal/bot/bot.go:139-150 | undisturbed, /cancel is a run of the protocol that leaves neither lookup nor session |
| BotLookup.OneLookupPerChat | services/bot/internal/bot/search.go:80-90 | a chat has at most one lookup that is neither cancelled nor over |
| Dialog.AnswerLeaves | services/bot/internal/bot/search.go:133-183 | a price moves the dialog from the lowest to the highest price and remembers it; a higher second price that the Gateway accepts ends it; anything else changes nothing |
| Dialog.TwoPrices | services/bot/internal/bot/search.go:133-183 | two messages in an undisturbed chat end the dialog exactly if the second price is higher and accepted |
| Dialog.EditingLeaves | services/bot/internal/bot/edit.go:10-38 | editing asks for the lowest price, knows the subscription and the old thresholds and keeps the page |
| Dialog.ShowingLeaves | services/bot/internal/bot/mylist.go:40-60 | showing a page of the list saves its number and leaves the rest of the dialog alone |
| Dispatcher.OrderKeeps | services/bot/internal/bot/dispatch.go:25-83 | every step keeps a chat's updates in arrival order |
| Dispatcher.ChatOrder | services/bot/internal/bot/dispatch.go:61-82 | for any hash and interleaving, handled, in progress, queued and held updates of a chat make up exactly those received, in order; after the stop a prefix is handled |
| Dispatcher.QueuesBounded | services/bot/internal/bot/dispatch.go:73-80 | updates wait only in the queue their hash names, at most 32 in each |
| Dispatcher.OneAtATime | services/bot/internal/bot/dispatch.go:31-52 | two workers never handle updates of one chat at once |
| Paging.TruncatedFits | services/bot/internal/bot/mylist.go:154-185 | the result fits, and is the text or its longest prefix that leaves room for the ellipsis |
| Paging.TruncateUTF16 | services/bot/internal/bot/mylist.go:154-185 | the two loops compute that prefix |
| Paging.DecimalReads | services/bot/internal/bot/mylist.go:132-134 | numbers are written as the decimal form that reads back as the number |
| MyList.EntryFits | services/bot/internal/bot/mylist.go:136-152 | an entry alone fits beside any header, whatever the name and the address |
| MyList.PagesPartition | services/bot/internal/bot/mylist.go:76-91 | the pages hold all subscriptions in order |
| MyList.PageFitsMessage | services/bot/internal/bot/mylist.go:70-130 | every rendered page has at most ten entries, none only for an empty list, and at most 4096 UTF-16 units |
| MyList.GreedyIsOptimal | services/bot/internal/bot/mylist.go:79-91 | no split into pages that obey both limits uses fewer pages |
| MyList.CutPages | services/bot/internal/bot/mylist.go:76-91 | the loop computes the greedy pages |
| MyList.BuildMyListPage | services/bot/internal/bot/mylist.go:70-130 | the page shown is the one asked for, clamped, with its text and all its buttons |
| ListPage.PageReads | services/bot/internal/bot/mylist.go:99-152 | the text of a page is its heading and then, in list order, the lines of its subscriptions: number, name, pause mark, range and link, each cut to its room |
| ListPage.KeyboardOffers | services/bot/internal/bot/mylist.go:99-125 | each subscription of the page has its three rows of buttons in that order: edit with resume if it is paused and pause otherwise, history with check, delete |
| MyList.TurnsToNeighbours | services/bot/internal/bot/mylist.go:116-125 | the buttons turn exactly to the neighbouring pages that exist |
| MyList.EveryPageReachable | services/bot/internal/bot/mylist.go:92-98 | from the first page the buttons lead to every page |

## Left out

- HTTP routing, authentication, request limits, logging, lifecycles, configuration and deployment; only the rule that a lookup stores a normalized URL is kept.
- Telegram, browser pages and AMQP as such: a request, a page load, a delivery or a publish is an arbitrary outcome. Handshakes, socket deadlines and timers around `openPublisher` are not modelled.
- `url.Parse`: scheme and host are read as the text before and after `://`; the canonical form leaves nothing else to parse.
- UUID spelling (case, braces) and UUID collisions; task ids of snapshots and alerts, which nothing reads. A new id differs from all earlier ones.
- Floating-point rounding and conversion to `NUMERIC(12,2)`: prices and thresholds are kopecks, and a price outside the column's range is a database error. Thresholds outside it are not modelled.
- Message wording beyond what the list page shows; the values put into each message are kept. Rendered thresholds are strings of at most 310 characters, which every finite float64 satisfies, and lists are shorter than 2^63.
- SQL text and planning. Row locks, unique keys, `SKIP LOCKED`, commit and rollback are modelled; read anomalies that row locks do not prevent are not.
- Transactions: reads outside the lock statements see the committed tables of their moment; weaker anomalies of the database's isolation level are not modelled.
- System.ForceRequestsConserved: lookups travel through `lookup.tasks` as a step that may happen any number of times, which allows more than the queue does; the delivery of replies to users is the outbox and notifier models' business.
- System: results carry finite, non-negative prices or failures; a result with NaN or an infinity cannot be encoded and is requeued. `NegativePriceLosesRequest` shows what happens otherwise.
- Scheduling.ServedWithin: no snapshots arrive and no rows are locked between the calls.
- Outbox: clocks of database and workers advance together; waits between turns of the loop are free passage of time.
- Outbox.OnePublisher: a publish under a replaced token must have started in time; `LateStartClashes` shows the condition is needed.
- OutboxStore.RunRefines: one worker at a time; interleavings of several are covered by the protocol itself.
- Broker: the Connection's fields are the state of an interleaving model, not a class, because its methods block on each other; `json.Marshal` errors end a call before it begins.
- Notifier: a request that outlives its delivery (connection lost while posting) is not followed further; its copy is requeued as usual.
- Notifier.LimitsRespected: a delay is remembered only if the transfer to the retry queue was published; a requeued delivery forgets it, as the code does.
- BotLookup: dialog texts are left out and gateway calls are outcomes. The methods of `LookupBot.Bot` run undisturbed; interleavings are those of the protocol.
- Dispatcher: its queues and workers are the state of an interleaving model, not a class, because the loops block on each other.
- MyList.BuildMyListPage: the function's three loops are three methods; button captions are left out, their targets kept.
- Row retention, the periodic cleaner, and the upgrade of an existing schema: history and processed marks are never deleted here.
- The platform column, which is always `wb`, and the count limit on pending lookups.
- Delivery within some time in the presence of unfair networks or brokers: only safety, bounded recovery and quiescent convergence are stated.
