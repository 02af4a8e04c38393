# retrykafka, modelled and proved

retrykafka consumes messages from Kafka-like topics, retries failed ones through retry topics
(or in place), sends exhausted ones to a dead-letter topic, and can make the route and the
offset commit one transaction. This project models its consumer, its in-memory broker, its
retry metadata and topic naming, its per-key loop and its idempotency stores in Dafny, and
proves what they promise.

## How the model is built

- **Values first.** `Broker` says what every locked region of `driver/memory.go` does to
  topics, logs, group offsets, subscriptions and transactions. `MemoryDriver` has the broker
  as it is written: objects with fields updated in place, every
  method verified against those functions.
- **A protocol machine.** `Protocol` is the consumer as atomic steps: each partition worker has
  a program counter that follows `process`, `failAndRoute`, `publishOutcome`,
  `publishTransactional` and `commit` statement by statement. The dispatcher, other producers
  and groups, revocation, cancellation, closing, fencing, crashes and restarts are steps too,
  and every label sequence is a run. One clock and the idempotency store's records are part
  of the world. `Safety` and `Runs` carry the invariant; `Guarantees`, `Losses`, `Redelivery`,
  `Exclusion`, `Barriers`, `Strategy`, `Workers`, `Timing`, `Deduplication`, `Records` and `Drain`
  state what follows over all runs; `CounterRuns` shows the statements are tight.
- **The same worker as code.** `Consumer` is the worker as structured, imperative Dafny over
  the broker objects, with the rest of the system acting between any two of its actions. It
  logs each action and is proved to be a run of the machine; `Exclusion.OthersInterfere` shows
  that nothing another part of the machine does exceeds the interference it was verified for.
- **One message's way.** `Lifecycle` and `Journeys` follow a message over its hops; `Timing`
  shows that the routed records of every run are such hops; `Drain` bounds what a backlog can
  cause, and `DeadLetters` says exactly for which consumers.
- **Claims.** `Claims` interleaves any number of workers over the atomic calls of the stores,
  each with its own sampled clock; `Stores` has the stores themselves, proved call by call to
  be that machine; `Leases` compares the adapters with the in-process store; `Deduplication`
  shows that the running consumer is a set of such workers and says what that means for its
  handlers.

## What the theorems assume

- One live subscription per group: the in-memory broker assigns every partition to every
  subscription. A run may have any number of subscriptions, one after the other.
- A non-empty group ID, as configuration validation demands.
- Fencing is part of every run. A route refused by a fenced broker is given up while its worker
  goes on, and a later commit can pass it: `Losses.LostExactly` names the very commits that
  lose an offset this way, and `FencingLosesAMessage` is such a run.
- A message skipped because another worker holds its claim is a decision of its own; it is
  left uncommitted by the plain loop, but a later commit may pass it.
- The per-key loop commits each message once more after `process`. `PerKey` proves that this is
  all its queue, map and rescan amount to, and the machine's per-key workers do exactly that.
- One clock, which never goes back, is read by the worker's timers, the configured clock and
  the store. A timer that fires lets time pass up to its end.
- Times are integers; where a header holds a time, its text is the decimal text of the integer.

## Findings

- A retry finds its own handler exactly when its topic's name is not itself a handler and the
  message counts as coming from that handler's topic (`Routing.RoutedLookupExact`). It fails
  in two ways. A message published straight to a retry topic without an original-topic header
  is handled once; its own retry then finds no handler and is dropped
  (`DirectRetryPublishIsDropped`). And when "t.retry.1" is registered as a handler besides "t",
  an ordinary message of "t" is retried by the other handler (`RegisteredRetryNameTakesOver`).
- When a handler is registered on a derived name, `lookup` and `orderingForPartition` can
  disagree about a message (`DerivedHandlerDisagrees`).
- Whatever its key and its partition, a routed message goes to partition 0 of its retry or
  dead-letter topic (`RoutedBySettings`).
- Revoking a partition, like cancelling, stops its worker's writes with one exception: a worker
  past its last check still makes the one write it was about to make (`BarrierEndsWrites`).
- The attempt header is parsed, never checked: a negative one routes a retry to a topic nobody
  consumes, unless that name happens to be a handler (`RetryStaysInPlan`).
- Per-key mode commits every message once more, with all of commit's own checks. That commit
  moves the offset exactly when its last check passes for a message `process` had left
  uncommitted because another worker holds its claim or because a fenced broker refused its
  route; for every other message it changes nothing (`Losses.ExtraCommitExactly`). A refused
  message is thereby lost on the spot.
- A consumer may read its own dead letters. Retries run dry if and only if, from every handler,
  the chain of dead-letter topics ends, by way of handled topics, at one that is not consumed
  (`DeadLetters.DrainsOrLoops`). Default names always do. Two kinds of consumers with a custom
  namer do not, and pass every check of the topic plan: dead letters named like a retry topic,
  which is read without a handler of its own (`UnhandledKindAccepted`), and handlers that are
  each other's dead-letter topics (`CycleKindAccepted`). There a message at every maximum goes
  round with its attempt unchanged for as long as handlers fail.
- Retrying over topics and in place come to the same exactly when every retry that is asked for
  is consumed and looked up as the same handler (`JourneysAgree`).
- DynamoDB's whole-second leases never steal early and may steal up to a second late
  (`DynamoErrsLate`); an owner that outlives its lease completes a key twice
  (`LateOwnerCompletesTwice`), and so does a record dropped before its time
  (`DroppedRecordCompletesTwice`).

## Model

| member | source | states |
|---|---|---|
| Guarantees.NothingCommittedIsLost | consumer.go:317-485 | over every run with failures, crashes, restarts, revocations, cancellation, closing and fencing, in both guarantees and all orderings: each offset below the group's was handled, dropped or skipped for a stated reason, or has a copy in the broker's logs, unless its own route was refused by a fence |
| Losses.LostExactly | consumer.go:436-439 | an offset the group has passed is unaccounted for if and only if some action of the run committed past it when the fenced broker had refused its route in that very subscription, no subscription had decided it, and its message has a handler; once lost it stays lost |
| Losses.RefusedExactly | driver/memory.go:106-121 | an offset counts as refused if and only if, at some step with no process end since, its worker stood before the broker's write with the broker fenced and open |
| Losses.ExtraCommitExactly | consumer.go:605-613 | in every world of every run the per-key loop's extra commit goes on from check to check exactly as its checks pass, and raises the group's offset, to the job's end, if and only if the last one passes for a message left by process to another claim or to a fence |
| Guarantees.UnfencedLosesNothing | consumer.go:470-485 | on a broker never fenced every committed offset is accounted for |
| Guarantees.RoutedRecordsAreCopies | consumer.go:457-468 | every retry or dead-letter record still has the ID, key and payload of the record it came from |
| Guarantees.TransactionalRoutesOnce | consumer.go:487-560 | in transactional mode, in every run, fenced or not, no two routed records share a source, and every routed source lies below the group's offset |
| Guarantees.CallsAreSequential | consumer.go:277-289 | handler calls of a partition are strictly ordered by offset, then in-place attempt |
| Guarantees.OffsetsAreOrdered | driver/memory.go:355-366 | committed <= fetched <= log length |
| Guarantees.OffsetsNeverFall | driver/memory.go:386-392 | over any continuation of any run group offsets never fall and no stored record changes |
| Guarantees.DeliveriesAreConsecutive | driver/memory.go:329-372 | a subscription gets each partition's offsets consecutively from the group offset in force at its first delivery |
| Barriers.BarrierEndsWrites | consumer.go:470-573 | from any world of any run where the live subscription is closed or has the partition revoked, or the context is done, and over any continuation with no process end: that stays so, and the worker routes a message of the partition or moves its offset at most once more, only if it was past its last such check, and for the message it had in hand |
| Barriers.DisownedGetsNothing | driver/memory.go:341-354 | over such a continuation the subscription is given no record of a revoked partition any more, and a closed one none at all |
| Barriers.CancelledTakesNothing | consumer.go:277-289 | once the context is done no worker takes a further message |
| Barriers.BarriersRise | driver/memory.go:94-104 | what revoking, cancelling, ending the dispatcher, closing, fencing and eviction do to a live run, and when they do nothing |
| Barriers.RestartBegins | consumer.go:249-257 | only a new process lowers them: it starts with no cursor, no revocation and nothing of the old process, and isolates reads exactly in transactional mode |
| Barriers.ClosedIsFinal | driver/memory.go:203-209 | over any continuation a closed broker keeps its topics, logs and offsets as they are |
| Barriers.FencedIsSilent | driver/memory.go:106-121 | while the broker is fenced no log grows, whoever writes, and nothing is routed |
| Strategy.SettingsHold | options.go:216-235 | a handler's own ordering, maximum and backoffs take precedence over the consumer's, one by one |
| Strategy.FailedCallGoes | consumer.go:356-421 | in every run a failed call is repeated in place after its backoff exactly when the handler's ordering is per partition and its maximum is not reached; else the message goes on to the store's Fail, its next retry topic, its dead-letter topic or nowhere |
| Strategy.SleptCallGoes | consumer.go:411-420 | the repeated call comes at the end of the backoff, not before, with its attempt and error in the headers |
| Strategy.FailedVerdictGoes | consumer.go:374-377 | the store's Fail, whether it errs or not, leads where a failed message without a store goes |
| Strategy.StoreErrorGoes | consumer.go:341-346 | an error of TryStart routes the message over topics, whatever the ordering |
| Strategy.RecalledInPlace | consumer.go:386-421 | two calls of one offset in one subscription occur only for a handler whose ordering is per partition, count the attempts up and stay within its maximum |
| Strategy.RoutedBySettings | consumer.go:423-468 | in every run each routed record is, for the handler found for its source, the next retry, with exactly its timestamp plus the backoff as not-before time, and then the handler does not retry in place or the store had erred for the source; or a dead letter whose attempts are used up. It lies in partition 0 |
| Strategy.ChainNamesSource | convert.go:59-77 | along any chain of routed records of any run every record names topic, partition and offset of the first message |
| Workers.WorkersFitTheirTopics | consumer.go:105-155 | in every run a worker runs the per-key loop exactly when its topic's ordering is per key, its channel holds at most 32 messages, at most 34 records are read past the start of its job, and it leaves only after cancellation or the dispatcher's end |
| Redelivery.RoutedOncePerProcess | consumer.go:470-485 | from any point of any run on, whatever earlier processes did, two records routed since then with no process end in between never share a source, in either guarantee |
| Redelivery.DuplicatesNeedRestart | README.md:57-59 | two copies of one message occur only in at-least-once mode, and the end of a process lies between the two steps that routed them |
| CounterRuns.FencingLosesAMessage | consumer.go:436-439 | a run, for every plain consumer, where a fenced route loses a committed message |
| CounterRuns.AtLeastOnceDuplicates | README.md:57-59 | a run, for every plain at-least-once consumer, with two routed copies of one message |
| Runs.RunInv | consumer.go:73-169 | the protocol's invariant holds in every world of every run |
| Exclusion.TransactionsExclusive | consumer.go:496-497 | in every run at most one worker is inside a transaction, and the lock is held exactly while one is |
| Exclusion.OthersInterfere | consumer.go:105-121 | in every world of every run, whatever any other part does is interference the worker code was verified against |
| Drain.StepNeverRaises | consumer.go:423-468 | without new messages no action raises the sum of records taken (or handler calls made) and fuel left |
| Drain.ScoreNeverRises | consumer.go:423-468 | from any world of any run on, records taken (or calls made) plus fuel left never exceed what they were |
| Drain.FreshMessagesBound | consumer.go:341-468 | N uncommitted messages that have not failed yet cause at most N * (max retries + 1) * (levels of consumed dead letters) records in the subscribed logs, themselves included, and as many handler calls, also when the store always fails, and whatever the logs hold below the group's offsets |
| Drain.DefaultBudgetFits | consumer.go:186-239 | under default naming and the planned subscriptions the bound always applies, with at most one level per handler |
| DeadLetters.BudgetExactly | consumer.go:443-455 | the bound's budget exists if and only if from every handler the chain of consumed dead-letter topics ends on handled topics; it then needs one level per handler at most |
| DeadLetters.BacklogBound | consumer.go:386-468 | when those chains end, in every run without new messages the uncommitted backlog causes at most that many records and handler calls |
| DeadLetters.DrainsOrLoops | consumer.go:259-275 | otherwise a handler's topic has a message at every maximum that is dead-lettered into a consumed topic n times, for every n, errors and times |
| DeadLetters.UnhandledKindAccepted | consumer.go:186-239 | a consumer the topic plan accepts that reads its dead letters without a handler, and has no budget |
| DeadLetters.CycleKindAccepted | internal.go:131-157 | a consumer the topic plan accepts whose handlers dead-letter to each other, and has no budget |
| DeadLetters.DefaultNamesEnd | internal.go:54-56 | under default naming and the planned subscriptions the chains always end |
| Journeys.JourneysAgree | consumer.go:386-468 | for every maximum and every sequence of handler answers, retrying in place and over topics call the handler for the same attempts and end in the same success, drop, or dead letter up to times, if and only if each retry asked for is consumed and found for the same handler |
| Journeys.AlwaysFailingVisits | consumer.go:423-455 | an always-failing message visits its topic, retry topics up to the maximum and the dead-letter topic, in order, or up to the first retry that is not consumed or finds another handler |
| Journeys.VisitsAreDistinct | internal.go:40-56 | under default naming these topics are pairwise different and the dead-letter topic is none of them |
| Journeys.EveryHopFindsHandler | consumer.go:259-275 | every lookup of a journey has one answer, the message's own handler, if (and for an always-failing handler only if) the message counts as coming from its topic and no retry name ahead is a handler |
| Lifecycle.HopsKeepMessage | convert.go:59-86 | over any number of hops through records, with headers in any order, ID, key, payload and user headers stay, origin and first failure stay as first set, the attempt counts the hops, the last error is the last hop's |
| Lifecycle.StartsAfterBackoff | internal.go:83-92 | hops whose attempts wait for their times: attempt k starts no earlier than the first failure's routing plus the first k backoffs |
| Lifecycle.TotalBackoffClosed | internal.go:83-92 | the sum of the first k backoffs in closed form |
| Timing.NothingStartsEarly | consumer.go:575-592 | in every run no handler call begins before its message's not-before time, later calls of a partition do not begin earlier, and an in-place attempt begins no earlier than its backoff after the previous one began |
| Timing.RoutedRecordsAreHops | consumer.go:423-468 | in every run each routed record is exactly what retryMessage makes of its source for the handler found for it, stamped after its source was due and after its source was itself routed |
| Timing.BackoffsAddUp | internal.go:83-92 | in every run, along a chain of retries of any length, a call on the last one begins no earlier than the first failure was routed plus the sum of the backoffs in between |
| Deduplication.SkippedWasHandled | consumer.go:341-353 | in every run a message skipped as completed has the ID of a message handled successfully before |
| Deduplication.HandledOncePerId | consumer.go:361-369 | when leases outlast the handling and successes are reported, between any two successes of one ID the store records a completion of it and drops it more than four leases later; with the in-process store there are never two |
| Deduplication.CompletionsAreApart | consumer.go:361-365 | when leases outlast the handling, two completions of one ID have the first one's removal between them, more than four leases after it |
| Deduplication.HandlerClaimsAreSeparated | consumer.go:341-353 | in every run, two handler starts under claims of one ID are separated by a failure, a removal, or an expired lease nobody completed under |
| Records.RunFollows | idempotency/store.go:70-97 | in every world of every run each key's record is there, and in the state, that the last event of the key left |
| Records.LastEventDecides | consumer.go:341-353 | in every run a worker about to claim, undisturbed, has its handler called within four actions if its ID was never claimed, failed last or was dropped, and skips the message if it was completed last |
| Records.FailIsRecorded | consumer.go:374-376 | the store's Fail, unless it errs, becomes the last event of its ID |
| Records.FailedRetryIsHandled | consumer.go:341-369 | a routed message whose source's failure was the last event of its ID reaches its handler, with every store |
| Consumer.Worker.Commit | consumer.go:562-573 | the group's offset is raised past the job exactly when commit succeeds, amid interference |
| Consumer.Worker.PublishOutcome | consumer.go:470-485 | success means a routed copy and a committed offset; in transactional mode failure means neither; no offset is committed without a copy |
| Consumer.Worker.PublishTransactional | consumer.go:487-560 | nil exactly when the copy was appended together with the offset; a begun transaction is finished on every path |
| Consumer.Worker.FillTxn | consumer.go:521-546 | copy and offset are buffered in one transaction, or it is on its way to abort |
| Consumer.Worker.CommitTxn | consumer.go:548-554 | all or nothing, and the transaction is done on success |
| Consumer.Worker.AbortTxn | consumer.go:511-519 | the transaction is finished, the lock released, the broker untouched |
| Consumer.Worker.FailAndRoute | consumer.go:423-441 | at most one decision, and the offset moves past the message only with one |
| Consumer.Worker.RouteTerminal | consumer.go:443-455 | the same for the dead-letter route, or a drop when there is none |
| Consumer.Worker.Process | consumer.go:317-375 | consecutive handler calls up to the in-place bound, then at most one decision; the offset only ever moves past this message, and only once it is decided; the store sees one claim and at most one verdict: the handler runs exactly when the answer was Proceed, a skip is exactly the store's answer, and Complete is called exactly when the handler succeeded |
| Consumer.Worker.FindHandler | consumer.go:317-323 | a message without handler is decided as such and goes to commit |
| Consumer.Worker.WaitNotBefore | consumer.go:575-592 | the message goes on only at or after its not-before time by the clock; only a done context ends the wait early |
| Consumer.Worker.StartAndRun | consumer.go:341-374 | the handler is called exactly when there is no store to ask or it answered Proceed; each skip is the store's answer; an error of the store is routed like a failure without a call |
| Consumer.Worker.TryStart | consumer.go:341-353 | the store's calls on what it holds at each moment, until a grant, a skip or an error |
| Consumer.Worker.ProcessInPlace | consumer.go:386-421 | attempts go up by one; without success and without cancellation the maximum is reached; a context done during a backoff ends it with no decision, no verdict and the offset where it was |
| Consumer.Worker.Backoff | consumer.go:411-420 | the next call in place begins no earlier than its backoff is over |
| Consumer.Worker.PartitionLoop | consumer.go:277-289 | jobs are started in channel order, one at a time; the group's offset never falls and only names ends of started messages |
| PerKey.KeyLoop.Drain | consumer.go:605-613 | exactly the done items at the front are committed, in order |
| PerKey.KeyLoop.ProcessItem | consumer.go:615-622 | one call of process, then the drain; the key is free |
| PerKey.KeyLoop.RescanOnce | consumer.go:639-654 | a pass makes progress unless queue and map are empty |
| PerKey.KeyLoop.Rescan | consumer.go:637-658 | the rescan terminates with queue and map empty |
| PerKey.KeyLoop.Receive | consumer.go:624-658 | from an empty queue: one process call, one commit, and the queue is empty again |
| PerKey.KeyLoop.Loop | consumer.go:596-659 | the whole loop does process and commit, job by job in channel order, with queue and map empty in between |
| Transactions.Play | driver/memory.go:427-501 | any sequence of calls on a transaction, mixed with other clients' publishing, offset commits, topics, subscriptions, whole transactions, closing and fencing, acts on the objects as the functions say |
| Transactions.BuffersHoldCalls | driver/memory.go:427-452 | a transaction is done exactly when a call ended it, and until then buffers exactly the calls that succeeded |
| Transactions.CommitSucceedsExactly | driver/memory.go:454-492 | when a commit succeeds, and that it applies exactly the buffered records and offsets |
| Transactions.OnlyCommitWrites | driver/memory.go:427-501 | no other call on a transaction changes the broker |
| Transactions.CommitsOnce | driver/memory.go:461-463 | a transaction commits at most once |
| Transactions.AppendAllExact | driver/memory.go:473-475 | each log gains exactly the records bound for it, in order, at consecutive offsets |
| Transactions.RaiseAllExact | driver/memory.go:482-488 | each group offset becomes the highest of what it was and what was sent |
| Transactions.CommitIsExact | driver/memory.go:473-489 | both, partition by partition, for one commit |
| Transactions.HighestIsMax | driver/memory.go:482-488 | the raised offset bounds all offsets sent and is one of them or the old one |
| MemoryDriver.Memory.constructor | driver/memory.go:76-82 | an empty broker |
| MemoryDriver.Memory.Revoke | driver/memory.go:94-104 | every subscription loses the partition and nothing else |
| MemoryDriver.Memory.AppendLocked | driver/memory.go:273-287 | the record is stored at the end of its partition, at the offset it carries |
| MemoryDriver.Memory.Publish | driver/memory.go:106-121 | appends exactly when the context stands and the broker is neither closed nor fenced |
| MemoryDriver.Memory.CreateTopicSpecs | driver/memory.go:131-152 | every named topic exists afterwards, existing ones unchanged |
| MemoryDriver.Memory.Subscribe | driver/memory.go:154-176 | a subscription with no cursor and no revocations; the group exists |
| MemoryDriver.Memory.BeginTxn | driver/memory.go:187-201 | a fresh transaction with the next ID, or an error and no change |
| MemoryDriver.MemSub.TryPoll | driver/memory.go:329-372 | the scan returns exactly the record at the cursor of the first such partition, under either isolation, and moves only that cursor; a returned record is of a subscribed partition that is not revoked, and none means that every such partition is read to the end |
| MemoryDriver.MemSub.Commit | driver/memory.go:374-394 | raises the offset exactly when the context stands, the partition is assigned and the broker open |
| MemoryDriver.MemSub.Assigned | driver/memory.go:396-404 | open and not revoked |
| MemoryDriver.MemTxn.Publish | driver/memory.go:427-438 | buffers only |
| MemoryDriver.MemTxn.SendOffsets | driver/memory.go:440-452 | buffers only |
| MemoryDriver.MemTxn.Commit | driver/memory.go:454-492 | all of the buffered records and offsets, or nothing |
| MemoryDriver.MemTxn.Abort | driver/memory.go:494-501 | finished, with nothing buffered |
| Broker.PartitionFor | driver/memory.go:300-310 | a partition in range |
| Broker.AppendFacts | driver/memory.go:273-287 | an append lengthens one log by one record and keeps every record at its own offset |
| Broker.EnsureAllFacts | driver/memory.go:131-152 | exactly the named topics are added and no log changes |
| Broker.EnsureAllPartitions | driver/memory.go:131-152 | a new topic has as many partitions as its first mention asks for, or the broker's own number |
| Broker.AppendPlaces | driver/memory.go:273-287 | a record goes to the partition it names if its topic has it, else where its key says, at the end of that log |
| Broker.KnownHashes | driver/memory.go:300-310 | published FNV-1a values |
| Broker.KnownPartitions | driver/memory.go:300-310 | where such keys go among three partitions |
| Broker.RaiseFacts | driver/memory.go:386-392 | one offset is raised by maximum, no other moves |
| Broker.PollTargetIsFirst | driver/memory.go:341-371 | a record is returned exactly when some subscribed partition that is not revoked has one at its cursor, and of the first such one: what comes before it is revoked or read to the end |
| Broker.ApplyOne | driver/memory.go:473-489 | the consumer's transaction appends one record and raises one offset |
| Claims.ClaimsAreSeparated | adapters/dynamodb/store.go:48-153 | for any number of workers interleaving the stores' calls: between a claim and the previous claim of its key there is a failure or removal of the key, or the earlier lease had run out by the later claimant's clock and nobody had completed the key |
| Claims.CompletedNotReclaimed | adapters/redis/store.go:38-75 | a completed key is claimed again only after a failure or a removal of it, whoever gives verdicts and whatever the clocks |
| Claims.ExpiredIsOver | adapters/dynamodb/store.go:80-81 | a lease counted as expired is over, whole seconds or not |
| Claims.KeptExactly | adapters/dynamodb/store.go:93-109 | how long a service keeps each kind of record |
| Claims.CompletedAtMostOnce | idempotency/store.go:70-97 | when owners finish within their leases and stores drop records only after their expiration: a second completion of a key comes more than four leases after the first, whose record was dropped in between; never with the in-process store; until then TryStart answers SkipCompleted |
| Claims.FourLeasesIsTight | adapters/redis/store.go:77-83 | a disciplined run, for every service, that completes a key twice two seconds after the four leases |
| Claims.LateOwnerCompletesTwice | adapters/mongo/store.go:80-87 | an owner that outlives its lease completes a key a second time |
| Claims.DroppedRecordCompletesTwice | adapters/dynamodb/store.go:93-100 | a record dropped before its expiration lets owners in time complete a key twice |
| Leases.AloneIsAtomic | adapters/mongo/store.go:43-78 | undisturbed, TryStart claims a key that is absent, failed, or whose lease has run out by the adapter's own comparison, and otherwise changes nothing and says why |
| Leases.VerdictsDecide | idempotency/store.go:70-97 | for every adapter and clock a failed key is granted, a completed one skipped, and one under way left alone while its lease lasts |
| Leases.InterleavedAnswer | adapters/dynamodb/store.go:48-91 | what a TryStart answers whose three calls meet three different sets of records |
| Leases.OneCallAgrees | adapters/dynamodb/store.go:48-109 | from related records an adapter and the in-process store answer alike and stay related if and only if the call is not one of the named differing ones |
| Leases.DynamoErrsLate | adapters/dynamodb/store.go:80-81 | DynamoDB never steals early and always once a lease is over by a full second |
| Leases.HistoriesAgree | idempotency/store.go:70-97 | two stores answer a whole history of calls alike if and only if no call of it is one of the named differing ones |
| Leases.MongoBisimilar | adapters/mongo/store.go:43-96 | for Mongo every history does |
| Stores.MemoryStore.TryStart | idempotency/store.go:70-83 | one atomic claim, skip or steal |
| Stores.MemoryStore.Complete | idempotency/store.go:85-90 | the record is completed whatever it was |
| Stores.MemoryStore.Fail | idempotency/store.go:92-97 | the record is failed whatever it was |
| Stores.UndisturbedAnswer | adapters/redis/store.go:38-75 | a TryStart of any adapter that nobody came between answers as the records it found demand, and grants an absent or failed key |
| Stores.DynamoApi.PutIfAbsent | adapters/dynamodb/store.go:121-129 | writes exactly when the key is absent |
| Stores.DynamoApi.ReplaceIf | adapters/dynamodb/store.go:138-153 | writes exactly when state and lease condition hold |
| Stores.DynamoStore.TryStart | adapters/dynamodb/store.go:48-91 | is the claim machine's TryStart, call by call, whatever others do in between |
| Stores.DynamoStore.Complete | adapters/dynamodb/store.go:93-100 | the record is completed |
| Stores.DynamoStore.Fail | adapters/dynamodb/store.go:102-109 | the record is failed |
| Stores.MongoCollection.InsertOne | adapters/mongo/store.go:112-120 | writes exactly when the key is absent |
| Stores.MongoCollection.FindOneAndUpdate | adapters/mongo/store.go:129-151 | writes exactly when a listed state matches and the lease condition holds |
| Stores.MongoStore.TryStart | adapters/mongo/store.go:43-78 | is the claim machine's TryStart, call by call |
| Stores.MongoStore.Complete | adapters/mongo/store.go:80-87 | the record is completed |
| Stores.MongoStore.Fail | adapters/mongo/store.go:89-96 | the record is failed |
| Stores.RedisClient.SetNX | adapters/redis/store.go:95-103 | writes exactly when the key is absent |
| Stores.RedisClient.CompareAndSwap | adapters/redis/store.go:131-139 | writes exactly when the value matches |
| Stores.RedisStore.TryStart | adapters/redis/store.go:38-75 | is the claim machine's TryStart, call by call |
| Stores.RedisStore.Complete | adapters/redis/store.go:77-79 | the key is completed |
| Stores.RedisStore.Fail | adapters/redis/store.go:81-83 | the key is failed |
| TopicPlan.TopicPlan | consumer.go:186-239 | fails exactly when a registration is unacceptable; for every iteration order the subscribe list is duplicate-free and exactly bases and retry topics, the create list exactly that and enabled dead-letter topics |
| TopicPlan.AcceptedExactly | consumer.go:211-226 | what makes a registration acceptable, condition by condition |
| TopicPlan.PlannedExactly | consumer.go:227-236 | which names are subscribed and created, name by name |
| TopicPlan.Plan.AddSubscribe | consumer.go:191-200 | adds a new non-empty name once |
| TopicPlan.Plan.AddCreate | consumer.go:201-210 | adds a new non-empty spec once |
| TopicPlan.Plan.AddHandler | consumer.go:227-236 | one handler's block of both lists |
| TopicPlan.ValidateBackoffs | internal.go:122-129 | accepts exactly non-negative lists |
| TopicPlan.ValidateTopicNames | internal.go:131-157 | accepts exactly the names the checks describe |
| TopicPlan.RetryDestinationsSubscribed | consumer.go:423-435 | every retry of a message with attempt 0 or more goes to a subscribed and created topic |
| TopicPlan.RetryStaysInPlan | consumer.go:423-435 | a retry below the maximum stays in the plan if and only if the attempt before it is not negative or its topic is a handler |
| TopicPlan.DefaultNamesValid | internal.go:131-157 | default naming passes validation exactly for non-empty topics |
| Routing.TopicMatchesLogical | consumer.go:305-315 | decides whether a topic is one of a handler's names |
| Routing.Lookup | consumer.go:259-275 | an answer some map order gives |
| Routing.OrderingForPartition | consumer.go:291-303 | an ordering some map order gives |
| Routing.BaseUnique | consumer.go:269-273 | an unregistered topic derives from at most one handler |
| Routing.LookupDeterministic | consumer.go:259-275 | every map order gives lookup the same answer |
| Routing.OrderingDeterministic | consumer.go:291-303 | every map order gives a partition the same ordering |
| Routing.StrayLookupExact | consumer.go:259-315 | a message without origin on a topic that is no handler's: which handler it finds and which ordering its worker has, for retry topics within and beyond the maximum, dead-letter topics and any other |
| Routing.RoutedLookupExact | consumer.go:259-303 | a routed retry finds its logical topic if and only if its own topic is not a handler and that is its original topic; what it finds otherwise; and the one ordering its worker has |
| Routing.RetryOrderingExact | consumer.go:291-303 | the one ordering a retry topic's worker has: its own handler's, else that of the handler it retries |
| Routing.RegisteredRetryNameTakesOver | consumer.go:259-275 | a retry name registered as a handler takes an ordinary message's retry over |
| Routing.DirectRetryPublishIsDropped | consumer.go:265-268 | a message published to a retry topic without origin loses its handler on the second hop |
| Routing.DerivedHandlerDisagrees | consumer.go:259-303 | a handler on a derived name makes lookup and ordering disagree |
| Config.RetryNameInjective | internal.go:40-52 | retry names determine topic and attempt |
| Config.DlqNameInjective | internal.go:54-56 | dead-letter names determine the topic |
| Config.RetryIsNotDlq | internal.go:40-56 | no retry name is a dead-letter name |
| Config.DerivedIsLonger | internal.go:40-56 | no topic is its own derived name |
| Config.NamesAsDocumented | internal.go:40-56 | the default names of a topic |
| Config.BackoffExactly | internal.go:83-92 | no wait without a retry, then the listed waits, then the last one |
| Decimal.AtoiOfItoa | headers.go:58-68 | what one hop prints the next hop parses back |
| Decimal.AtoiReads | headers.go:58-68 | signs and leading zeros, within 64 bits |
| Decimal.AtoiRefuses | headers.go:58-68 | nothing without digits or with anything else |
| Decimal.ItoaIsShort | internal.go:50-52 | no leading zero, no plus sign |
| Decimal.ItoaInjective | internal.go:50-52 | decimal texts determine the number |
| Envelope.FoldRecordHeaders | convert.go:10-26 | the message read from a record, field by field, with the last value of a header listed twice |
| Envelope.FoldKeepsLast | convert.go:10-26 | the last value listed for a key is the message's |
| Envelope.RecordFromMessage | convert.go:28-42 | a record with all headers, once each, in any order |
| Envelope.ConversionRoundTrip | convert.go:10-42 | record and back gives the same message, its ID taken from the header |
| Envelope.AttachRetryMetadata | convert.go:59-86 | the step-by-step header writes build the metadata the other lemmas describe |
| Envelope.AttachKeepsOrigin | convert.go:59-77 | write-once headers keep what they have and are set when empty |
| Envelope.AttachStampsAttempt | convert.go:78-81 | the attempt parses back; the error is stored, or an older one stays |
| Envelope.AttachStampsNotBefore | convert.go:82-84 | a positive delay sets the not-before time to exactly now plus the delay; without one an older time stays |
| Envelope.FirstHopNamesSource | convert.go:59-77 | the first hop writes the message's own ID, topic, partition, offset and the time |
| Envelope.AttachKeepsUserHeaders | convert.go:59-86 | no other header is touched |
| Envelope.BuildRetryMessage | consumer.go:457-468 | the routed envelope |

## Left out

- driver/kafka/franz.go: foreign client calls; its SendOffsets does nothing, so the transactional theorems are about the in-memory driver.
- adapters/postgres/store.go: its meaning is in SQL text.
- Publisher, Client, options, serialization, random IDs, telemetry, logging: thin, or without effect on routing and offsets.
- Two subscriptions of one group alive at once: the in-memory broker hands both the same partitions, and the theorems speak of one.
- Shutdown timeouts: a worker that outlives Run's wait ends with the process in the model.
- Wake-up notifications, TopicRecords, UncommittedCount, the timestamp an append fills in when it is zero: nothing modelled reads them.
- nil against empty maps and byte slices: the source treats them alike on these paths.
- Several processes on one idempotency store: Claims interleaves any number of them; in the protocol machine one process at a time uses the store, and the store drops records by itself.
- A store call that errors leaves the store as it was, inside the consumer as well.
- Envelope.AttachRetryMetadata: times in headers are decimal integers, not RFC 3339 text (section 5.6).
- Config.RetryNameInjective: the default namer only; custom namers are validated by comparing adjacent attempts alone.
- Claims.CompletedAtMostOnce: one way; that owners finish in time and records are kept for their time is needed, as LateOwnerCompletesTwice and DroppedRecordCompletesTwice show.
- Deduplication.HandledOncePerId: one way; its hypotheses are about the clock, crashes between a success and its report, and the store's expiration.
- Claims.ClaimsAreSeparated: a store call that takes effect but reports an error is not modelled; the in-repository services report none.
- Records.LastEventDecides: silent about an ID whose last event is a claim under way; Leases.VerdictsDecide says when such a claim is left alone.
- Barriers.BarrierEndsWrites: writes alone; handler calls for messages already in a worker's channel may still begin after a revocation, as in the source.
- Drain.FreshMessagesBound: counts what one process does; a restart delivers uncommitted messages again.
- Journeys.JourneysAgree: undisturbed journeys only, between which the store grants each claim; first-failure and not-before times differ between the two ways and are not compared.
- Timing.BackoffsAddUp: times within 64 bits, as a header's decimal text holds them; delays of zero or less leave an older not-before header in place, as in the source.
- Consumer.Worker.Process: the handler's results, errors of the store, and what others do meanwhile are chosen by the environment.
