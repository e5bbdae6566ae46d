# Verified model of the Go Splash core

This project models six parts of the Go Splash services in Dafny and proves properties of whole runs of
them, with failures, crashes, repeats and interleavings.

* **Wallet** (`Ledger`, `WalletSpec`, `WalletOutcomes`, `WalletService`, `WalletTx`,
  `WalletAlone`, `WalletRace`): a double-entry ledger with
  reservations, idempotency keys and row locks. `WalletSpec` gives each call a meaning on the stored data,
  `WalletService` is the service step by step with every store call allowed to fail, and `WalletTx` runs any
  number of such transactions at once, with locks held to commit and reads that see committed data;
  `WalletAlone` ties each of them, run alone, to its meaning.
* **Event pipeline** (`Decimal`, `Headers`, `Lineage`, `Consumers`, `Outbox`, `Catalog`, `Pipeline`,
  `Recovery`): the outbox and its relay, the main and the retry consumer, the dead letter queue, the way back from it, and the
  catalog's claim-once indexer; each as it runs, and `Pipeline` all of it as one transition system, of which
  `Recovery` shows that it can always still finish.
* **Partition engine** (`Engine`): one worker per partition, its channels, and the rebalance fence.
* **Batching writer** (`BatchWriter`): concurrent Adds, a timer, cancellation.
* **Redis protocols** (`TokenBucket`, `PlaceOrder`): the rate limiter's script, and one order per key.
* **Search and fan-out** (`SearchIndex`, `Reindex`, `WatchHub`): versioned indexing, reindexing behind an
  alias, and the in-memory hub of watchers.

`Wrappers` and `Errors` hold the shared types. `dafny verify dfyconfig.toml` checks everything.

How to read it. A part that changes state step by step is a class whose methods are proved against a function
of the old state. A part that runs concurrently is also a transition system: a `State` (or `Sys`), a `Step`
type that includes crashes and failures, `Do` for one step and `Execute` for any sequence of them; theorems
quantify over all sequences. What the environment decides (which request fails, which publish is
acknowledged, what time it is) is a parameter, usually called `luck`.

Some promises do not hold unconditionally. For these the exact condition is proved, and an input or a run that
violates it is given:

* An event can be lost when an offset is committed in a consumer session that has left an earlier record
  behind after a failed publish or a wait cut short (`Pipeline.LosslessIff`, `Pipeline.ALostEvent`).
* The token bucket bounds every window only if `refill * ttl >= capacity` (`TokenBucket.WindowBoundIff`; for a
  clock that may go back, `TokenBucket.UpwardBoundIff`).
* A key of PlaceOrder leads to no order before it expires exactly when its owner failed before Complete
  (`PlaceOrder.PlaceableIff`).
* Repeats of Reserve that run at once all get the one reservation exactly when the key was stored before or the
  account could pay twice (`WalletRace.ConcurrentRepeats`; the comment at
  services/wallet/internal/app/service.go:142-148 suggests that they always do), and Commits under one key all
  get the same entries exactly when they name one reservation (`WalletRace.SharedCommitKey`).
* The rebalance fence leaks a worker if a partition is assigned while it still has one (`Engine.OrphansIff`),
  and a callback can return before its worker has, if stopAll is waiting for it (`Engine.StopReturns`).
* A round of the relay keeps the events of one key in order exactly when no failed row, and no row another relay
  holds, stands before an acknowledged one of its key (`Outbox.KeysInOrderIff`).
* Reordered index events converge only if the youngest events of a listing agree (`SearchIndex.ConvergesIff`).
* Reprocessing gives back a record's exact headers only if it came without any of the six headers of the retry
  scheme (`Lineage.DlqRoundTrip`).

One is a bound instead: orders created under a key number at most one plus its expiries
(`PlaceOrder.OneCreatePerExpiry`), and one expiry is enough for a second (`PlaceOrder.TwoCreatesAfterExpiry`).

## Model

| member | source | states |
|---|---|---|
| WalletSpec.RunKeeps | services/wallet/internal/app/service.go:76-423 | over any sequence of calls: the ledger only grows, every currency total is constant, no account that could spend is overdrawn, every reservation stays balanced (committed: one debit and one credit of its amount under one operation and one event; otherwise none) |
| WalletSpec.ServeKeeps | services/wallet/internal/app/service.go:76-423 | one call keeps all of that, and a failed call changes nothing |
| WalletSpec.ReserveAmounts | services/wallet/internal/app/service.go:102-139 | what a Reserve takes from the available amount of its account, and from no other |
| WalletSpec.CommitAmounts | services/wallet/internal/app/service.go:229-283 | a Commit lowers nobody's available amount and raises at most the payee's, whatever its answer |
| WalletSpec.ReleaseAmounts | services/wallet/internal/app/service.go:349-423 | a Release gives back exactly what its reservation held |
| WalletSpec.Replay | services/wallet/internal/app/service.go:94-100 | after any other calls, repeating a successful Reserve, Commit or Release with its key gives the first answer and changes nothing, also when Commit and Release share a key |
| WalletSpec.ReplayCommit | services/wallet/internal/app/service.go:185-194 | the same for Commit, whatever reservation the repeat names |
| WalletSpec.ReplayRelease | services/wallet/internal/app/service.go:357-366 | the same for Release |
| WalletSpec.FinalStates | services/wallet/internal/app/service.go:201-227 | committed and released are final: a committed reservation cannot be released and every commit of it names the same two entries; a released one cannot be committed |
| WalletSpec.PairStays | services/wallet/internal/domain/domain.go:9-33 | the pair of entries of a committed reservation is never added to |
| WalletSpec.CommitIsRecorded | services/wallet/internal/ports/ports.go:106-115 | a successful Commit is on record under its key with exactly its answer |
| WalletOutcomes.Unkeyed | services/wallet/internal/app/service.go:76-82 | without a key every call is refused, and an amount that is not positive is, each if and only if that is so |
| WalletOutcomes.ReserveOutcome | services/wallet/internal/app/service.go:102-126 | a Reserve under a new key succeeds if and only if its account is known, in its currency, and has the amount to spend; each refusal if and only if its own reason holds |
| WalletOutcomes.ReserveChanges | services/wallet/internal/app/service.go:124-139 | it then leaves one more row, active, with these fields, and the account with the amount less to spend; nothing else changes |
| WalletOutcomes.CommitOutcome | services/wallet/internal/app/service.go:196-242 | a Commit under a new key succeeds if and only if the reservation is committed, or active with a payee known in its currency; each refusal if and only if its own reason holds |
| WalletOutcomes.CommitPosts | services/wallet/internal/app/service.go:244-264 | a first Commit adds exactly the debit of the amount on the row's account and its credit on the payee's, under one operation and the reservation's name, and answers with the two |
| WalletOutcomes.CommitChanges | services/wallet/internal/app/service.go:260-287 | the row becomes committed, one event tells of the debit with its fields, the answer goes on record, nothing else changes |
| WalletOutcomes.CommitPays | services/wallet/internal/app/service.go:229-283 | the payee has exactly the amount more to spend and everybody else what they had |
| WalletOutcomes.CommitAgainChanges | services/wallet/internal/app/service.go:201-219 | a Commit of a committed reservation answers with its two entries and only adds the journal line |
| WalletOutcomes.ReleaseOutcome | services/wallet/internal/app/service.go:368-384 | a Release under a new key succeeds if and only if its reservation is active or released; each refusal if and only if its own reason holds |
| WalletOutcomes.ReleaseChanges | services/wallet/internal/app/service.go:386-423 | the row ends released, its account has what an active row held to spend again, the answer is that account's new reading and on record, nothing else changes |
| Ledger.PostedTotals | services/wallet/internal/domain/domain.go:9-33 | posting a pair leaves every currency total as it was |
| Ledger.PostedEntries | services/wallet/internal/app/service.go:248-272 | a confirmed reservation has exactly its debit and its credit in the ledger |
| WalletService.InOrder | services/wallet/internal/app/service.go:299-326 | the order in which two accounts are locked: ascending, one lock when they are equal |
| WalletService.TxStore.LockAccount | services/wallet/internal/ports/ports.go:56-63 | takes the row lock, which the caller has to ask for above all it holds, or fails and takes none |
| WalletService.TxStore.InsertReservation | services/wallet/internal/ports/ports.go:80-88 | inserts if the key is absent and says whether it did |
| WalletService.TxStore.RecordOperation | services/wallet/internal/ports/ports.go:106-115 | journal line per key and kind, inserted if absent |
| WalletService.Service.Reserve | services/wallet/internal/app/service.go:76-169 | step by step, with any store call failing: the new state and the answer are those of the serial specification, unless a statement failed, and then the data are as before, or those of the specification with the answer lost in the commit; locks rise, and a new row is written under those of its account and key |
| WalletService.Service.Commit | services/wallet/internal/app/service.go:177-289 | the same for Commit, under the lock of the reservation and, for a first commit, of both accounts |
| WalletService.Service.Transfer | services/wallet/internal/app/service.go:229-289 | the part of Commit after the status check |
| WalletService.Service.PostPair | services/wallet/internal/app/service.go:244-287 | debit, credit, status, event and journal line, in this order |
| WalletService.Service.LockAccountsSorted | services/wallet/internal/app/service.go:299-326 | returns the accounts in the caller's order having locked them in ascending order |
| WalletService.Service.Release | services/wallet/internal/app/service.go:349-423 | the same for Release, under the lock of the reservation |
| WalletService.UnseenIsSound | services/wallet/internal/app/service.go:87-169 | whatever an unsettled failure leaves behind, the stored data keep the invariant |
| WalletService.UnseenThenRetried | services/wallet/internal/app/service.go:94-100 | if it left more behind than drawn identifiers, the call had taken effect: after any other calls a repeat with its key gets exactly the lost answer and changes nothing |
| WalletTx.ExecuteKeeps | services/wallet/internal/app/service.go:76-423 | in every interleaving of transactions, with aborts anywhere and commits that take effect with their answer lost: ledger append-only, currency totals constant, no account that could spend overdrawn, and what each transaction has read under its locks still true |
| WalletTx.OnlyReserveTakes | services/wallet/internal/app/service.go:229-423 | no step of a Commit or of a Release, wherever it stands among the others, lowers any account's available amount |
| WalletTx.RefusalsAreTrue | services/wallet/internal/app/service.go:196-242 | in every interleaving each refusal that can be told from the data is true of them: AlreadyCommitted of a committed reservation, AlreadyReleased of a released one, an unknown account, another currency; and no Reserve ends without the winner of its key |
| WalletTx.OnlyFaultsFail | services/wallet/internal/app/service.go:87-169 | no step of a call's own ends it in a store failure |
| WalletTx.LoserGetsWinner | services/wallet/internal/app/service.go:141-160 | a Reserve that finds its key taken at the insert ends two steps later with the reservation that took it |
| WalletTx.AbortUndoes | services/wallet/internal/adapters/pg/store.go:33-37 | a rollback can hit any unfinished transaction, leaves the data and the others alone and gives its locks back |
| WalletTx.LostAnswerIsFound | services/wallet/internal/app/service.go:94-100 | when a commit takes effect and its answer is lost, a repeat of the call gets that answer in its first step, after any further steps of anybody |
| WalletTx.ReserveLeavesFunds | services/wallet/internal/app/service.go:102-139 | the commit of a new reservation leaves its account with at least what the answer says, and not below zero |
| WalletTx.OneReservationPerKey | services/wallet/internal/app/service.go:137-160 | concurrent Reserves under one key that succeed give one reservation |
| WalletTx.CommitAnswersWithThePair | services/wallet/internal/app/service.go:201-289 | a successful concurrent Commit answers with the one debit and the one credit of a committed reservation, the one it names unless its key is on record for another |
| WalletTx.OnePairPerReservation | services/wallet/internal/app/service.go:201-283 | all concurrent Commits of one reservation answer with the same two entries |
| WalletTx.WantsAbove | services/wallet/internal/app/service.go:196-232 | every lock asked for ranks above those held: reservation row, accounts by ascending id, unique keys |
| WalletTx.NoDeadlock | services/wallet/internal/app/service.go:299-326 | in every reachable state with an unfinished transaction, one can take its next step |
| WalletTx.Completes | services/wallet/internal/app/service.go:76-423 | from every reachable state all transactions can be brought to an end, within the number of steps they have left |
| WalletAlone.AloneIsSerial | services/wallet/internal/app/service.go:76-423 | in any reachable state with nobody else under way, each of the three calls left to run ends with exactly the database and the answer of the serial specification |
| WalletAlone.ReleaseAlone | services/wallet/internal/app/service.go:349-423 | so a Release of an active reservation frees the row, gives back exactly its amount and answers with the account's reading; AlreadyCommitted if and only if the row is committed |
| WalletRace.ConcurrentRepeats | services/wallet/internal/app/service.go:94-160 | for any number of equal Reserve calls that pass the checks, all who are answered are given one and the same reservation in every schedule, with rollbacks and lost answers anywhere, if and only if the key was stored before or the account could pay twice |
| WalletRace.SharedCommitKey | services/wallet/internal/app/service.go:185-287 | for any number of Commits that could each succeed, started under one key not yet on record, all who are answered are given the same entries in every schedule if and only if they all name one reservation |
| Decimal.ParseFormat | pkg/kafkax/dlq.go:47-68 | a formatted number is parsed back to itself if and only if it fits the width |
| Headers.ReadBack | pkg/kafkax/retry.go:29-50 | a header that was set reads back, and no other is affected |
| Headers.OthersStay | pkg/kafkax/retry.go:42-50 | setting a header of the scheme leaves all other headers in place and in order |
| Headers.OriginOf | pkg/kafkax/dlq.go:40-68 | origin and round are the header's if it is there and a number of its width, else the record's own place and round 0 |
| Headers.TopicsAreApart | pkg/kafkax/topics.go:60-61 | a topic, its retry topic and its dead letter queue are three different topics |
| Headers.SetHeader | pkg/kafkax/retry.go:42-50 | in place in the caller's slice, or appended |
| Headers.BuildDlqHeaders | pkg/kafkax/dlq.go:27-34 | the dead-letter headers, built in a copy |
| Headers.BuildRetryHeaders | pkg/kafkax/retry.go:91-109 | the headers of a first retry, built in a copy |
| Headers.BuildNextRoundHeaders | pkg/kafkax/retry.go:354-360 | the headers of a further round, built in a copy |
| Headers.DropHeaders | tools/kafka-reprocess/cmd/kafka-reprocess/main.go:223-239 | keeps every header not in the scheme, in order |
| Lineage.AttemptsMade | pkg/kafkax/kafka.go:376-391 | attempts in place go on to the first verdict that is not transient, at most three |
| Lineage.LineageEnds | pkg/kafkax/retry.go:284-322 | at most MaxRetryAttempts + MaxRetryRounds handler calls before success or the dead letter queue, whatever headers the record came with |
| Lineage.LineageBoundIsTight | pkg/kafkax/retry.go:313-321 | the bound is reached, and then the record is dead |
| Lineage.HandledIff | pkg/kafkax/kafka.go:361-408 | a record counts as handled if and only if its envelope parses and the last handler call made returned without an error, all before it having failed transiently; else it is in its own dead letter queue with the cause of that call |
| Lineage.FirstSendsOn | pkg/kafkax/kafka.go:362-408 | an envelope that does not parse and a fatal verdict go to the dead letter queue with their cause, three transient verdicts to the retry topic for round 1 with the time to wait for, a success nowhere |
| Lineage.VisitSendsOn | pkg/kafkax/retry.go:303-322 | a retry visit sends its record nowhere, to the next round, or to the dead letter queue with the cause, by verdict and round |
| Lineage.LineageRemembers | pkg/kafkax/dlq.go:40-68 | every retry and dead-letter record carries the source's topic, partition, offset, key, value and foreign headers |
| Lineage.DlqRoundTrip | tools/kafka-reprocess/cmd/kafka-reprocess/main.go:191-239 | dead on any path and reprocessed from the dead letter queue it is in, a record comes back to its own topic with key and value, and with exactly its headers if and only if it carried none of the six headers of the scheme |
| Lineage.ReprocessedIsClean | tools/kafka-reprocess/cmd/kafka-reprocess/main.go:223-239 | a reprocessed record carries none of the six headers |
| Consumers.Consumer.ProcessOne | pkg/kafkax/kafka.go:361-408 | handler calls made, record stored and offset committed for one source record; the offset moves only if a call returned without an error or one more record that carries the source's origin and content is stored and acknowledged; its own headers are not written to |
| Consumers.Consumer.FinishWithDlq | pkg/kafkax/kafka.go:417-431 | offset committed only after an acknowledged publish |
| Consumers.Consumer.FinishWithRetry | pkg/kafkax/kafka.go:435-455 | offset committed only after an acknowledged publish |
| Consumers.RetryConsumer.ProcessOne | pkg/kafkax/retry.go:284-322 | one visit to the retry topic: nothing at all if the wait is cut short; else handled, sent round again, or dead; the offset moves only then, with the same guarantee for whatever source the record comes from |
| Consumers.RetryConsumer.Reescalate | pkg/kafkax/retry.go:354-374 | the next round's record, and the offset only after its acknowledgement |
| Consumers.RetryConsumer.FinishWithDlq | pkg/kafkax/retry.go:376-396 | the dead-letter record with the origin read from the headers |
| Consumers.Reprocessor.Run | tools/kafka-reprocess/cmd/kafka-reprocess/main.go:140-188 | publishes and commits a prefix of what the polls bring, up to the limit, to the first poll that fails, or to the first publish not acknowledged, and says which; a dry run leaves no trace |
| Consumers.Reprocessor.RunBatch | tools/kafka-reprocess/cmd/kafka-reprocess/main.go:159-180 | one fetch of it |
| Consumers.Reprocessor.ReprocessOne | tools/kafka-reprocess/cmd/kafka-reprocess/main.go:191-217 | one record back to its topic |
| Pipeline.NothingVanishes | pkg/kafkax/kafka.go:410-463 | in every reachable state of a run that dropped nothing, every event of the outbox is unpublished, or at or beyond a committed offset of the source, retry or dead-letter topic, or applied |
| Pipeline.LosslessIff | pkg/kafkax/engine.go:64-73 | a run ends with no committed offset past an unsettled record if and only if no offset was committed in a session that had dropped one |
| Pipeline.CarefulIsLossless | pkg/kafkax/retry.go:286-295 | committing nothing more in a session after an unacknowledged publish or a wait cut short is enough |
| Pipeline.ALostEvent | pkg/kafkax/kafka.go:441-447 | a run that does lose an event: a failed retry publish followed by the commit of the next record |
| Pipeline.DrainedIsExactlyOnce | pkg/outbox/relay.go:188-298 | when a run that dropped nothing has drained, every event of the outbox has had its effect exactly once |
| Recovery.CanStillFinish | pkg/outbox/relay.go:135-162 | from every state that a run without a loss can reach, some continuation brings every event of the outbox to its effect, exactly once |
| Recovery.Drains | pkg/outbox/relay.go:135-162 | every reachable state can be drained without dropping anything |
| Pipeline.EffectAtMostOnce | pkg/idempotency/processed.go:73-95 | in every run of the composed system an event's effect is there if and only if its mark is, and then once; mark and effect are one atomic step here, which Catalog.Serializable shows the concurrent transactions to amount to |
| Pipeline.BatchesAreDisjoint | pkg/outbox/relay.go:209-216 | two relays never hold the same row |
| Pipeline.ExecuteKeeps | pkg/outbox/relay.go:188-263 | the invariant of the composed system under every step: crashes, duplicates, failed publishes, redelivery |
| Pipeline.DoLossless | pkg/kafkax/kafka.go:457-463 | a step loses a record if and only if it commits past a dropped one |
| Pipeline.DoStaysLossy | pkg/kafkax/kafka.go:457-463 | a lost record stays lost |
| Pipeline.NotedIfAcked | pkg/outbox/relay.go:273-298 | the relay notes a row for marking if and only if its publish was acknowledged; what was not lost is in the topic |
| Pipeline.CutShortSkips | pkg/kafkax/retry.go:284-295 | a wait cut short leaves its record uncommitted and unsettled and the session goes on, doubtful |
| Outbox.FirstFree | pkg/outbox/relay.go:209-216 | exactly the first free rows, in order, as many as the limit allows; none is passed over |
| Outbox.BuildRow | pkg/outbox/outbox.go:73-113 | the row of an event: its key, topic, payload, and headers naming the service that wrote it |
| Outbox.Shard.Write | pkg/outbox/outbox.go:43-56 | one unpublished row more, or an error and no change; whoever delivers it, it shows the event's id and type and the writing service, and the trace context as it was given |
| Outbox.HeadersToRecordHeaders | pkg/outbox/relay.go:302-315 | every stored header can be read back from the record |
| Outbox.HasHeader | pkg/outbox/relay.go:331-338 | whether the header is there |
| Outbox.Relay.RecordFor | pkg/outbox/relay.go:276-290 | the record shows the row's headers, and the relay as producer only if the row names none |
| Outbox.Relay.PublishBatch | pkg/outbox/relay.go:273-298 | returns exactly the acknowledged rows, in order; the topics grow by exactly what was not lost |
| Outbox.Relay.PollShard | pkg/outbox/relay.go:188-263 | after a round that takes effect a row is published if and only if it was before, or was picked and its publish acknowledged; otherwise no row has changed; no other field ever does |
| Outbox.Relay.PollAllShards | pkg/outbox/relay.go:170-176 | every shard gets such a round whatever happens to the others |
| Outbox.MarkedIff | pkg/outbox/relay.go:239-255 | a round leaves a row marked if and only if it took effect, picked it and its publish was acknowledged; else the row is as it was |
| Outbox.KeysInOrderIff | pkg/outbox/relay.go:273-298 | a round leaves events of one key marked in order if and only if it takes no effect, or no row that failed, or that another relay holds, stands before an acknowledged one of its key |
| Outbox.BacklogIsDrained | pkg/outbox/relay.go:209-216 | with everything working, a backlog shorter than the batch is gone after one round |
| Catalog.Serializable | services/catalog/internal/ports/ports.go:50-85 | in every interleaving of deliveries, repeats, failures and crashes, the committed database is what the committed events make of an empty one in commit order, each at most once and exactly when its mark is there |
| Catalog.CommitWrites | services/catalog/internal/adapters/pg/tx.go:81-160 | every commit, in every interleaving, writes field by field what its event says: each size its new key, the others the old ones, published at the event's time, the same row in the outbox with the name stored for its author; of an upload a draft with exactly what was fetched, and only where there is none |
| Catalog.ListingsAre | services/catalog/internal/app/indexer.go:65-164 | in every run a photo has a listing if and only if an upload of it was committed, with author, title and price of the first, and of every size the key of the last committed thumbnail event that has it |
| Catalog.AloneIsApplied | services/catalog/internal/ports/ports.go:50-85 | a delivered event that meets nobody is applied unless it has no id, has been applied, or its listing does not exist |
| Catalog.NobodyIsStuck | services/catalog/internal/adapters/pg/tx.go:111-123 | while a transaction is open some open one can take its next step |
| Catalog.AbortUndoes | services/catalog/internal/ports/ports.go:50-85 | a failed transaction leaves no trace, and whoever waited for its mark can go on |
| Catalog.OneOutboxRowEach | services/catalog/internal/app/indexer.go:121-144 | a listing has exactly one outbox row for each applied thumbnail event, and is published if and only if there is one |
| Catalog.NeverBackToDraft | services/catalog/internal/adapters/pg/tx.go:67-108 | listings never go away or back to draft, keep author, title and price, and lose no thumbnail |
| Catalog.CommitSparesOthers | services/catalog/internal/adapters/pg/tx.go:111-123 | a commit leaves what every other open transaction has read and written valid |
| Catalog.ReplayCounts | services/catalog/internal/app/indexer.go:121-144 | outbox rows and publications agree after any applicable events |
| Catalog.Indexer.Claim | pkg/idempotency/processed.go:73-95 | inserts the mark if absent and says whether it did; an empty id is an error |
| Catalog.Indexer.ApplyThumbnails | services/catalog/internal/adapters/pg/tx.go:111-160 | every size of the event gets its key, the listing is published at the event's time; or no listing is found |
| Catalog.Indexer.HandlePhotoUploaded | services/catalog/internal/app/indexer.go:65-105 | all that the event means is committed, field by field, or nothing, never twice; when it reports success, retry or dead letter; watchers told exactly when this run did it |
| Catalog.Indexer.HandlePhotoThumbnailReady | services/catalog/internal/app/indexer.go:110-164 | the same; a listing not yet there is a reason to try again |
| Engine.WorkersAreSafe | pkg/kafkax/engine.go:57-77 | quit is closed at most once; what a worker finished is an in-order prefix of what it was sent; at most one record is finished after quit was closed |
| Engine.NeverSentToStopped | pkg/kafkax/engine.go:147-163 | dispatch sends only to a worker whose quit is open, of the batch's own partition |
| Engine.LookUpTargets | pkg/kafkax/engine.go:147-163 | looking up a batch that is not empty, of a partition with a worker, holds it for that worker; any other is passed over |
| Engine.AllIsHandedOut | pkg/kafkax/engine.go:147-163 | from every poll of every run: when dispatch has come to the end of the fetches, every worker of the map has been sent all they held for its partition, in order, and no other worker anything, whatever workers and callbacks do meanwhile |
| Engine.DispatchEnds | pkg/kafkax/kafka.go:303-344 | and to that end it comes, by its own steps and those of the workers it waits for; then a rebalance is allowed |
| Engine.DispatchGoesOn | pkg/kafkax/engine.go:41-55 | a full channel does not block the loop for ever |
| Engine.StoppedWorkerMoves | pkg/kafkax/engine.go:57-77 | a stopped worker that has not returned can move |
| Engine.StoppedWorkerReturns | pkg/kafkax/engine.go:138-140 | it returns within three steps of its own, so the wait in stop ends |
| Engine.WaitsEnd | pkg/kafkax/engine.go:123-141 | from every reachable state the workers a callback or stopAll waits for can all return by their own steps, and then it does |
| Engine.OrphansIff | pkg/kafkax/engine.go:96-104 | a run leaves a worker nobody will stop if and only if it assigned a partition that still had one |
| Engine.StopReturns | pkg/kafkax/engine.go:123-141 | when stop returns, no worker of its partitions is left, if and only if stopAll is not still waiting for one of them |
| Engine.StillStays | pkg/kafkax/engine.go:106-121 | from then on nothing of the partition is processed in any run that does not assign it again |
| Engine.StopAllStopsAll | pkg/kafkax/engine.go:169-177 | when stopAll returns with no callback waiting, and no partition was assigned while it had a worker, no worker is left |
| Engine.OrphanRunsOn | pkg/kafkax/engine.go:96-104 | a worker left out of the map goes on processing what is in its channel, whatever has been stopped |
| Engine.CallbackReturnsEarly | pkg/kafkax/kafka.go:297-301 | a run in which a callback returns while stopAll still waits for its worker |
| Engine.ExecuteKeeps | pkg/kafkax/kafka.go:303-344 | the engine's invariant under every step of loop, callbacks and workers |
| Engine.AssignAllDoes | pkg/kafkax/engine.go:96-104 | assigning starts one worker per partition and touches no other |
| Engine.CloseAllDoes | pkg/kafkax/engine.go:123-136 | closing hits exactly the mapped workers of the partitions, each once |
| Engine.PartitionEngine.Assigned | pkg/kafkax/engine.go:96-104 | one started worker for each partition, in order; a partition assigned again gets a new one |
| Engine.PartitionEngine.Stop | pkg/kafkax/engine.go:123-141 | closes each quit once, and every worker it closed has returned |
| Engine.PartitionEngine.Run | pkg/kafkax/engine.go:57-77 | the worker's loop: in order, up to the first look at quit that finds it closed, and everything if none does |
| Engine.PartitionEngine.Await | pkg/kafkax/engine.go:57-77 | a stopped worker running until it returns |
| Engine.PartitionEngine.Dispatch | pkg/kafkax/engine.go:147-163 | every mapped worker is sent exactly what the fetches hold for it, in order |
| Engine.PartitionEngine.MakeRoom | pkg/kafkax/engine.go:41-52 | a send into a full channel waits for the worker |
| Engine.PartitionEngine.StopAll | pkg/kafkax/engine.go:169-177 | the map is empty and every mapped worker has returned |
| BatchWriter.EveryRowInOneInsert | services/analytics/internal/adapters/clickhouse/batch.go:81-155 | in every interleaving each row is in exactly one insert call, or still pending and in none |
| BatchWriter.AnswersAreTrue | services/analytics/internal/adapters/clickhouse/batch.go:107-122 | Add returns nil only if the insert holding its row did, an insert error only if it did not |
| BatchWriter.NotBeforeTheInsert | services/analytics/internal/adapters/clickhouse/batch.go:107-122 | an Add whose row is pending has not returned except by its context |
| BatchWriter.TellingNeverBlocks | services/analytics/internal/adapters/clickhouse/batch.go:151-154 | no flush blocks on a waiter that has gone |
| BatchWriter.NothingIsStranded | services/analytics/internal/adapters/clickhouse/batch.go:88-91 | pending is non-empty exactly while a timer is set, which runs or has its flush on the way; a full batch does not wait for it |
| BatchWriter.NobodyWaitsForEver | services/analytics/internal/adapters/clickhouse/batch.go:81-155 | an Add that has not returned can go on, or what it waits for can |
| BatchWriter.EverybodyReturns | services/analytics/internal/adapters/clickhouse/batch.go:81-155 | from every reachable state, without a new row and without a context ending, all Adds return within a number of steps known beforehand |
| BatchWriter.StepsDescend | services/analytics/internal/adapters/clickhouse/batch.go:81-155 | which every step but a new Add brings nearer |
| BatchWriter.InsertDecides | services/analytics/internal/adapters/clickhouse/batch.go:150-154 | a batch's result is what its one insert call answered, for good |
| BatchWriter.ContextEnds | services/analytics/internal/adapters/clickhouse/batch.go:112-122 | a waiting Add can be ended by its context at any time; its row stays and nobody else notices |
| BatchWriter.Writer.Enter | services/analytics/internal/adapters/clickhouse/batch.go:82-91 | the row and its own channel appended, timer set, full when the batch is |
| BatchWriter.Writer.Flush | services/analytics/internal/adapters/clickhouse/batch.go:128-155 | one insert of everything pending, one answer to each channel; nothing on an empty batch |
| BatchWriter.Writer.Add | services/analytics/internal/adapters/clickhouse/batch.go:81-123 | run alone: the answer of the insert that holds its row, or the end of its context; the row stays pending only if Add gives up on a batch that is not full |
| TokenBucket.WindowBoundIff | pkg/redisx/ratelimit.go:41-72 | with a clock that does not go back, every window lets through at most capacity plus refill, for every sequence of calls, if and only if refill times TTL reaches capacity |
| TokenBucket.WindowBound | pkg/redisx/ratelimit.go:41-72 | if refill times TTL reaches capacity, no window lets through more than capacity plus refill |
| TokenBucket.TwoBursts | pkg/redisx/ratelimit.go:83-88 | otherwise a burst, silence until the expiry, and another burst break it |
| TokenBucket.UpwardBoundIff | pkg/redisx/ratelimit.go:41-72 | with any clock, every sequence of calls lets through at most capacity plus the refill of all upward moves of the clock, if and only if refill times TTL reaches capacity |
| TokenBucket.BackwardClock | pkg/redisx/ratelimit.go:53-54 | a clock that goes back and forth lets through more than its first and last reading allow, and all that its upward moves allow |
| TokenBucket.RetryAfterIsExact | pkg/redisx/ratelimit.go:53-67 | a refused caller succeeds after a wait if and only if it is at least the answer, or the key has expired |
| TokenBucket.NoRefillNoHint | pkg/redisx/ratelimit.go:62-67 | without refill the answer is 0 and only the expiry helps |
| TokenBucket.RunKeeps | pkg/redisx/ratelimit.go:53-61 | an allowed call takes exactly one token from the level |
| TokenBucket.RunTakes | pkg/redisx/ratelimit.go:53-67 | a call for any number of tokens is allowed if and only if they are there, takes exactly them, and nothing if refused |
| TokenBucket.Redis.TokenBucketScript | pkg/redisx/ratelimit.go:41-72 | the script, line by line, is the specification, and touches one key |
| TokenBucket.Redis.Allow | pkg/redisx/ratelimit.go:96-114 | one token of an hour-long bucket; capacity must be positive |
| PlaceOrder.OneCreatePerExpiry | services/order/internal/app/order_service.go:60-139 | in every interleaving of calls under a key, Create is reached at most once plus once for each expiry of the key |
| PlaceOrder.SameOrder | services/order/internal/app/order_service.go:60-139 | while the key does not expire, all calls that return an order return the same one, also when its owner failed before or at Complete |
| PlaceOrder.PlacedIsCreated | services/order/internal/app/order_service.go:72-79 | every order returned was passed to Create by a call under the caller's key, for that call's buyer and listing |
| PlaceOrder.CreatesAsAsked | services/order/internal/app/order_service.go:84-118 | Create is passed an order of a published listing, for the buyer and listing asked for, at the price, in the currency and from the author that the listing had when it was read |
| PlaceOrder.FailureLeavesTheKey | services/order/internal/app/order_service.go:84-128 | whichever way a call fails once it has asked Redis, its caller is told so, the key is left as it lies and nobody else notices |
| PlaceOrder.AnyCallCanCrash | services/order/internal/app/order_service.go:60-139 | a call can crash wherever it is |
| PlaceOrder.RefusedLooks | pkg/redisx/idempotency.go:92-119 | a call refused the key gets the stored order, is told that the first is at work, or starts over if the key has gone |
| PlaceOrder.TwoCreatesAfterExpiry | pkg/redisx/idempotency.go:74-120 | the allowance for an expiry is needed |
| PlaceOrder.PlaceableIff | services/order/internal/app/order_service.go:60-139 | for a key in the store of any reachable state: some continuation without an expiry newly answers a call under it with an order, if and only if the key is not held by a call that failed before Complete |
| PlaceOrder.AbandonedStays | services/order/internal/app/order_service.go:84-91 | a key whose owner failed before Complete creates nothing more until it expires, and every call under it is told that the first is still at work, or fails |
| PlaceOrder.Redis.Begin | pkg/redisx/idempotency.go:74-120 | SETNX, then GET, then all over again if the key has gone |
| PlaceOrder.OrderService.PlaceOrder | services/order/internal/app/order_service.go:60-139 | what is created, field by field, started, stored and answered for every outcome of every dependency |
| SearchIndex.ConvergesIff | services/search/internal/app/indexer.go:53-93 | all reorderings and repetitions of a set of events end in one state if and only if no listing has two youngest events that ask for different things |
| SearchIndex.HoldsAYoungest | services/search/internal/ports/ports.go:12-28 | what is stored was asked for by a youngest event |
| SearchIndex.EndShows | services/search/internal/app/indexer.go:53-93 | however the events were ordered and repeated, a listing whose youngest event removed it is not found, and any other is found field by field as its youngest event shows it |
| SearchIndex.TakenShows | services/search/internal/app/indexer.go:66-90 | an event that is taken leaves its listing so and every other as it was |
| SearchIndex.YoungestWins | services/search/internal/app/indexer.go:53-93 | with distinct versions the end is what the greatest version asks for |
| SearchIndex.RepeatIsHarmless | services/search/internal/app/indexer.go:53-93 | an event delivered again has no effect |
| SearchIndex.Indexer.HandleListingPublished | services/search/internal/app/indexer.go:53-93 | the index shows the event, field by field, or holds something younger, or is as before; what is done, what is not to be tried again |
| Reindex.Reindexer.Run | tools/search-reindex/internal/reindex/reindex.go:123-168 | it succeeds if and only if every request does that it needs and the new name is free; after every request, whichever fail: an alias that pointed to one existing index does so, to the new one only when that is complete; the old index goes only after the switch; a dry run changes nothing and counts what a fill writes |
| Reindex.Reindexer.Rebuild | tools/search-reindex/internal/reindex/reindex.go:133-168 | the writing part of it |
| Reindex.Reindexer.SwitchOver | tools/search-reindex/internal/reindex/reindex.go:143-165 | switch first, then delete; the old index is never the new one |
| Reindex.Reindexer.Fill | tools/search-reindex/internal/reindex/reindex.go:171-190 | succeeds if and only if every page is handed out and written; then everything is in the new index, and nothing anywhere else |
| Reindex.NamesDiffer | tools/search-reindex/internal/reindex/reindex.go:123-132 | runs at different moments make different indices, none named like the alias |
| Reindex.Reindexer.CountAll | tools/search-reindex/internal/reindex/reindex.go:194-208 | the same total without a write |
| Reindex.HoldsExactly | tools/search-reindex/internal/reindex/es_adapter.go:63-122 | a filled index holds exactly the listings of all pages, of a repeated one a youngest copy |
| Reindex.SwitchIsSafe | tools/search-reindex/internal/reindex/es_adapter.go:198-223 | the atomic switch leaves the alias on the complete new index |
| Reindex.DeleteIsSafe | tools/search-reindex/internal/reindex/reindex.go:154-165 | deleting the index the alias has left changes nothing for it |
| Reindex.Cluster.CreateIndex | tools/search-reindex/internal/reindex/es_adapter.go:34-49 | a taken name is refused |
| Reindex.Cluster.BulkIndex | tools/search-reindex/internal/reindex/es_adapter.go:63-122 | every document over nothing younger |
| Reindex.Cluster.SwitchAlias | tools/search-reindex/internal/reindex/es_adapter.go:198-223 | add and remove in one request |
| WatchHub.GapFree | services/catalog/internal/app/watchhub.go:51-97 | what a subscriber received plus what is buffered is a gap-free run of its listing's events from its subscription, all of them while subscribed, a proper prefix once closed |
| WatchHub.SubscriberGetsAll | services/catalog/internal/app/watchhub.go:51-97 | in every run whoever subscribes and does not cancel carries exactly what the listing is notified of from then on as long as its channel is open, and a proper prefix of it once closed |
| WatchHub.OnlyOpenOnesAreOffered | services/catalog/internal/app/watchhub.go:84-97 | no closed channel is sent to or closed again |
| WatchHub.ClosedIff | services/catalog/internal/app/watchhub.go:89-96 | a notification closes a channel if and only if it is subscribed and full |
| WatchHub.LeavingIsDone | services/catalog/internal/app/watchhub.go:61-97 | a channel leaves the hub when its owner cancels it and when a notification closes it |
| WatchHub.DoneIsDone | services/catalog/internal/app/watchhub.go:61-72 | and then carries nothing more in any run |
| WatchHub.ReadsInOrder | services/catalog/internal/app/watchhub.go:51-60 | what is buffered is read in its order, and reading touches no one else |
| WatchHub.SlowOnesHarmNobody | services/catalog/internal/app/watchhub.go:74-83 | whether one subscriber reads or not changes nothing for any other |
| WatchHub.Hub.Subscribe | services/catalog/internal/app/watchhub.go:51-60 | a fresh empty channel joins the listing's subscribers, from which moment on it carries every event |
| WatchHub.Hub.Cancel | services/catalog/internal/app/watchhub.go:61-72 | takes the channel out, and the listing with its last one |
| WatchHub.Hub.Notify | services/catalog/internal/app/watchhub.go:84-97 | the loop over subscribers in any order has one result |

## Left out

- Money is an unbounded integer and amounts do not overflow; services/wallet/internal/domain/domain.go uses int64.
- The error header's text is the cause itself; the code puts words before it for an unparsed envelope and for exhausted rounds.
- UUID v7 identifiers are drawn from a counter, so they are distinct by construction.
- JSON and protobuf encoding are taken as a round trip, including the wallet's journal entries.
- WalletTx.ReserveLeavesFunds: speaks of the moment of the commit; a later Reserve may use the rest.
- WalletTx.CommitAnswersWithThePair: does not promise that a key names one result, because the code ignores whether the key was recorded; WalletRace.SharedCommitKey says exactly when it does.
- WalletSpec.ReleaseAmounts: is about calls one after the other; a concurrent Release returns a reading of the available amount taken without the account lock, and nothing is promised about that number.
- The wallet's GetBalance and its gRPC adapter are reads without state of their own.
- Pipeline.NothingVanishes: an event counts as safe while it is in the dead letter queue and the reprocessing tool has not committed past it; how long a topic keeps its records is not modelled.
- Pipeline.LosslessIff: session and offset commits are those of one consumer at a time per partition, which is what the engine's fence is for; a commit by an expired group member is not modelled.
- Recovery.CanStillFinish: says that a continuation exists, one in which handlers succeed and dead letters are reprocessed; not that it happens.
- The backoff tables, jitter and the exact retry_at are parameters; only that retry_at is written and waited for matters.
- Engine.StopReturns: a callback that has loaded the engine before Run cleared it may still assign during stopAll; that race is not among the steps, only revocation is.
- Engine.PartitionEngine.Stop: the goroutines that run on while a method waits are represented by the worker's remaining steps; the free interleaving is in the transition system.
- Topics mapped to partition lists are flattened to sequences of partitions in engine callbacks.
- Catalog.Serializable: the author snapshot is written when the transaction commits instead of in its middle; its value depends only on the author, so the result is the same.
- Catalog.Indexer.HandlePhotoUploaded: the cache invalidation may fail silently and is represented by the fact that it was attempted.
- Forget of pkg/idempotency is an operator's tool and would undo a mark; it is not among the steps.
- TokenBucket.WindowBoundIff: arithmetic is over the reals; Lua's doubles and the 14 digits of tostring are not modelled.
- PlaceOrder.SameOrder: is about the Redis store; the two-level store with PostgreSQL behind it is not part of this model.
- The Temporal saga behind StartPlaceOrder is not part of this model; starting it succeeds or fails.
- SearchIndex.ConvergesIff: a deleted document keeps its version for ever; Elasticsearch forgets it after a while.
- The bulk indexer of the search service batches like the analytics writer and is not modelled again.
- Reindex.Reindexer.Run: the catalog is the pages it hands out during the run; what the live indexer writes to the old index meanwhile is not carried over by the code and not by the model.
- BatchWriter.Writer.Add: runs Add alone, with the timer's flush as the only other actor; concurrent Adds are in the transition system.
- Outbox.KeysInOrderIff: is about the order in which rows are marked; a publish stored with its acknowledgement lost is repeated, so a topic can hold an event again after a later one.
- Consumers.Reprocessor.Run: a commit that fails is only logged by the code and is represented by the attempt.
- The thumbnail worker, the Redis lock, caches, counters, circuit breaker, HTTP and gRPC servers, configuration, metrics and tracing are wrappers or plumbing without a promise of their own here.
