# Live platform: verified model

A Dafny model, with proofs, of the parts of a live-streaming backend where money, messages and counters cross process
boundaries: the gift payment with its idempotency key, the transactional outbox and its leased workers, the Kafka
consumers with deduplication and dead letters, the like counters with their aggregators and checkpoints, the Redis
indexes and windows, the like gate over its TTL caches, the sensitive-word trie and the danmaku traffic policy.

## How it is built

Concurrent parts are step systems. A `State` holds every table, log, lock and process; a `Step` is one statement of
one process, the failure of that statement, a crash, or the passing of time on one shared clock. `Run` gives the
state after a sequence of steps, and the main theorems speak of every reachable state or of every run, with any
number of processes.

- `Money`, `MoneySafety`: Create, Credit, Balance and Send, one statement at a time, with private writes, row and
  unique-key locks, lost commit replies and aborts anywhere. `MoneyHistory` ties every order to the
  steps of the call that wrote it; `MoneyRuns` holds complete runs from the empty database.
- `Outbox`, `OutboxSafety`: Claim, produce, MarkPublished and MarkFailed of any number of workers. `OutboxHistory` is
  about when a row may be claimed again, and that the outbox can always be drained.
- `Consumer`, `ConsumerSafety`: the gift consumers, their offsets, dedup rows, pushes and dead letters.
  `ConsumerRuns` holds the runs that get past a record.
- `EndToEnd`: the three composed. A committing payment inserts its outbox row in the same step; a delivered copy
  appends a Kafka record. `EndToEndRuns` holds a complete run from a credit to the viewers.
- `Likes`: AddLikes, any number of aggregators and snapshotters, and a Redis that may lose keys. `LikeTotals` is about
  what the viewers are shown, `LikeRecovery` about what checkpoints bring back.
- `LikeGate`, `LikeGateSafety`, `LikeGateRelease`: the TTL caches in front of the room tables; every cached value names
  the MySQL state it was read from and the call that stored it.

The modules whose names end in `Worker`, `StatsAggregator` and `LikeSnapshots` hold the code itself: classes whose
methods follow the source statement by statement. Each method takes its steps on a shared state object, other
processes may take any steps in between, and the method's contract says what its return value means. `Others`, `Wait` and their kind stand
for those steps: their contracts allow every run that leaves the calling process where it is. A parameter `works` tells
whether the calls to other systems succeed; a contract then says that what is asked for happens, or names the reason
why it does not.

`Presence`, `Limiter` and `ActiveRooms` model Redis objects as classes with their scripts as functions, and relate
what a script answers to the history of calls. In `Presence` a client's clock reading and the run of its script are
apart, so scripts may run in another order than their clocks. `SensitiveFilter` is the pointer trie on the heap.
`TrafficPolicy` is over real numbers. `DanmakuKeys`, `DeadLetters` and `DlqReplay` are the smaller pieces.

## Where the code does not do what one might expect

Each of these is proved, with the exact condition where there is one.

- A successful payment can be reported as an error. That happens exactly when the read after COMMIT fails or the reply
  of COMMIT is lost (`MoneySafety.ErrorHidesChargeIff`), and both occur (`MoneyRuns.HiddenChargesOccur`).
- Replaying a paid request fails once the gift is offline, repriced out of range, or the fresh order number is taken
  (`MoneySafety.CreateReplaysIff`); `MoneyRuns.ReplayCanBeRefused` is a run in which a paid request is refused.
- A rejected record whose letter cannot be written, such as one without a value, stops its partition for good
  (`ConsumerSafety.UndeliverableBlocksPartition`). Some run commits past a record exactly when it is publishable, its
  letter can be written or its event is finished already; for a rejected record that means without finishing its event
  on the way (`ConsumerRuns.PassableIff`).
- The like totals shown to viewers cover the deltas shown to them in all runs exactly when at most one aggregator runs,
  provided that Redis loses no total and no publish that was reported as failed is delivered
  (`LikeTotals.TotalsCoverIff`). If either may happen, exactly without any aggregator: the delta of a failed but
  delivered publish is given back and shown twice (`LikeTotals.FaultsUncover`, `LikeTotals.UnreportedUndercuts`).
- A recovery does not bring back likes that Redis had lost before the checkpoint was read
  (`LikeRecovery.RecoveryBound`, `LikeRecovery.LossBeforeReadStays`).
- The comment on EnforceLikeBan promises an immediate override. It holds exactly when bans are not cached or no lookup
  that read "not banned" is still on its way to the cache (`LikeGateSafety.EnforceHoldsIff`); `LikeGateSafety.BannedUserLikes` is a run in
  which a user likes with a call begun after the ban was stored and enforced.
- What EnforceLikeBan stored never expires. After Unban it refuses the user for good, until the key is cleared or lost,
  exactly when bans are not cached or no lookup under way can overwrite it (`LikeGateSafety.RefusedForGoodIff`);
  `LikeGateSafety.UnbannedUserRefused` is a run, for the case that the clearing failed.
- An active-room scan misses rooms exactly when the total exceeds the limit or a shard exceeds its quota
  (`ActiveRooms.CompleteIff`, `ActiveRooms.SkewLosesRooms`).
- The fixed-window limiter admits up to twice the limit minus one in an interval of one window, and that bound is
  reached (`Limiter.WindowBound`, `Limiter.WindowBoundIsReached`).
- The sample rate can rise with pressure. From a given reading it never does exactly when that reading has fan-out,
  does not adapt or is NORMAL, or the rate at the least reading with fan-out is no higher
  (`TrafficPolicy.NeverRisesIff`); `TrafficPolicy.EmptyRoomSamplesLess` is a family of rooms in which it rises.
- A replayed dead letter equals the rejected record exactly when that record had a key (`DlqReplay.ReplayRestoresIff`).
- The viewer count misses a user online exactly when a script with a later clock ran first
  (`Presence.ViewerCountIsExactIff`, `Presence.LateClockMissesViewer`). The rolling rate misses a recent message exactly
  for that reason or because the key expired in between (`Presence.RollingRateIsExactIff`).
- A viewer who returns after the session ended gets a new join time exactly when a touch was the first script to drop
  the viewer, or the viewer had left; otherwise the old one stays (`Presence.ReturningViewerJoinTime`).
- Negative user ids all share one danmaku limiter key (`DanmakuKeys.KeysCollideIff`).

## Model

| member | source | states |
|---|---|---|
| EndToEnd.NoGiftLost | internal/outbox/repository.go:33-128 | In every run, with crashes anywhere, the event of every committed order waits in an outbox row that becomes claimable, or lies in the log at or past the committed offset, or its own push is on the stream (unless a foreign record borrows its id); only a rejected event can be settled otherwise |
| EndToEnd.LoggedIsInFlight | internal/mq/kafka.go:290-352 | An event in the log is still to be read, has been pushed, or was rejected and settled |
| EndToEnd.PushedIsShown | internal/gift/consumer.go:79-100 | If any push carries the id of a committed event, that event's own push is on the stream, unless a foreign record borrows the id |
| EndToEnd.PushedWasPaid | internal/gift/consumer.go:79-100 | A push shows the data of a committed order, unless a record from outside the outbox explains it |
| EndToEnd.GiftAcceptedIff | internal/gift/consumer.go:32-44 | The consumer accepts the event of an order exactly when the listed fields are in range |
| EndToEnd.RunKeepsInv | internal/outbox/publisher.go:54-93 | Every step keeps payment, outbox and log linked: rows are committed events, delivered copies are logged, logged records have an origin |
| EndToEndRuns.GiftIsShown | internal/gift/consumer.go:79-107 | A run from the empty system in which a credit, a payment of 2 roses, one claim, one produce and one consumer lead to exactly one push, with event, room, sender, anchor, price and total of that sale |
| MoneySafety.MoneyConserved | internal/gift/repository.go:131-167 | No balance is negative, each is the sum of its ledger rows, and credits equal balance plus order totals |
| MoneySafety.LedgerChains | internal/wallet/repository.go:35-67 | Consecutive ledger rows of a user chain after to before, within int64 |
| MoneySafety.LedgerSplits | internal/wallet/repository.go:58-60 | The ledger sum is the credits plus the gift rows |
| MoneySafety.GiftRowsAreOrders | internal/gift/repository.go:162-165 | Gift rows that charge a list of orders sum to minus the order totals |
| MoneySafety.AtomicTriple | internal/gift/repository.go:101-208 | Committed orders, GIFT ledger rows and outbox events correspond one to one; every visible order is SUCCESS and priced without overflow |
| MoneySafety.OneOrderPerRequest | internal/gift/repository.go:107-130 | A request id has at most one committed order |
| MoneySafety.CommittedRequestIsInert | internal/gift/service.go:94-158 | A call whose request id is committed changes no table at any of its statements |
| MoneySafety.SuccessIsTheOrder | internal/gift/service.go:131-158 | A successful call returns the one committed order of its request, with the parameters it asked for |
| MoneySafety.RefusalStillReplays | internal/gift/service.go:94-129 | A closed room, failed lookup, ban or rate limit answers with the committed order of the request exactly when it has the same parameters, else with the conflict; with the refusal if there is no such order |
| MoneySafety.CreateReplaysIff | internal/gift/repository.go:90-130 | Past the gates a call with a committed request id gets to the lookup exactly when its SELECT found the gift online at a price that fits and its INSERT found the order number unused, and then answers with the committed order or, if its parameters differ, the conflict; each statement sees the tables of its own moment |
| MoneySafety.LookupReplies | internal/gift/service.go:142-154 | On tables with unique keys the lookup answers with the order of the request, the conflict or the refusal, as the tables determine |
| MoneyRuns.ReplayCanBeRefused | internal/gift/repository.go:98-100 | A run from the empty database in which a paid request is refused its replay, because the gift went offline |
| MoneySafety.ErrorMayHideCharge | internal/gift/repository.go:200-213 | After a lost COMMIT reply or a failed read after COMMIT the call ends in an error, the complete order stands, and a retry finds it |
| MoneySafety.ErrorHidesChargeIff | internal/gift/repository.go:200-213 | A call that ends in an error with its order written left that order committed exactly when the error came from the read after COMMIT or from a COMMIT whose reply was lost |
| MoneyRuns.HiddenChargesOccur | internal/gift/repository.go:200-213 | Runs from the empty database that reach both cases: the user has paid, the order stands, the call answered with an error |
| MoneyRuns.SendReachesCommit | internal/gift/repository.go:91-198 | From any reachable state without other open transactions, a Send that is valid, covered and uses fresh keys gets to its COMMIT with order, charge, ledger row and event written, each field as the request, the ids, the answered anchor and the price read say |
| MoneyRuns.SendSucceeds | internal/gift/repository.go:79-215 | From there it can succeed: exactly that order, ledger row and event are appended, the wallet pays price times count, and the call answers with the order |
| MoneyHistory.OrderTellsItsCall | internal/gift/repository.go:95-110 | In every run each committed order has, field by field, the request and ids its call began with, the anchor that the room lookup of that very call answered, and the price its SELECT found |
| MoneyHistory.WriteTellsItsCall | internal/gift/service.go:131-140 | The same for an order that is written and not yet committed |
| MoneyHistory.EventShowsOrder | internal/gift/repository.go:174-192 | The event of an order repeats its fields, its topic is the configured one and its partition key the decimal room id |
| MoneyHistory.KeyIsTheRooms | internal/gift/repository.go:188-192 | Two events share a partition key exactly when they are of the same room |
| MoneyHistory.OverflowsIff | internal/gift/repository.go:101-104 | The division refuses a price exactly when price times count leaves the range of int64, or one of them is out of range |
| MoneyHistory.ChargeIsRefusedIff | internal/gift/repository.go:138-156 | The charge answers insufficient balance exactly when the committed balance does not cover price times count, else it takes exactly that |
| MoneyHistory.WellFormedIff | internal/gift/service.go:160-170 | Request ids have 8 to 128 letters, digits, hyphens, underscores, colons or full stops, by their codes |
| Money.RunKeepsInv | internal/gift/repository.go:79-215 | Tables, locks and every process stay consistent under any interleaving of statements, aborts, commits and crashes |
| Money.StatementOk | internal/gift/repository.go:91-198 | Each statement of a transaction keeps the private writes consistent with the committed tables |
| Money.CommitTables | internal/gift/repository.go:200-209 | A commit keeps balances, ledger chain, order keys and the order-ledger-event correspondence |
| Money.CommitKeepsOther | internal/gift/repository.go:200-209 | A commit does not invalidate what other transactions have read or written under their locks |
| Money.FindRequest | internal/gift/repository.go:75-77 | The lookup by request id finds an order exactly when one exists, and it has that id |
| Money.SameKeySameOrder | internal/gift/repository.go:107-117 | Under the unique keys two orders with one order number or request id are the same |
| MoneyWorker.Database.Query | internal/gift/repository.go:107-198 | One statement applies its effect to the tables as they are when it runs, or fails; only an uncovered charge reports insufficient balance |
| MoneyWorker.Database.CommitTransaction | internal/gift/repository.go:200-209 | A reported commit leaves the new ledger row last and the balance in the table |
| MoneyWorker.GiftRepository.Create | internal/gift/repository.go:79-215 | A created order has the fields of the call and a price at which the gift was on sale during it; every error has its reason in the tables, and if all calls work only a lock or a number in use remains |
| MoneyWorker.GiftRepository.Lookup | internal/gift/service.go:142-154 | The replay answers with the committed order, the conflict or the original refusal; only a call that does not work fails |
| MoneyWorker.GiftService.Send | internal/gift/service.go:81-140 | Send validates, asks the gates in order and then creates; an order it created carries the anchor of its room answer and the other fields of the call, and every error has its reason |
| MoneyWorker.GiftService.AskGates | internal/gift/service.go:94-129 | The gates come in the code's order, and a refusal leads to the replay |
| MoneyWorker.WalletRepository.Credit | internal/wallet/repository.go:35-67 | A reported credit left its ledger row and the returned balance in the table; if all calls work it fails only for a lock, a number in use or the range of the column |
| MoneyWorker.WalletRepository.Balance | internal/wallet/repository.go:20-33 | The returned balance is the wallet's at the second statement, whatever other calls did since the first; if the calls work it fails only at a lock on a new wallet |
| MoneyWorker.ChargeFailsShort | internal/gift/repository.go:138-156 | The charge is refused only when the committed balance does not cover it |
| OutboxSafety.LeaseExclusion | internal/outbox/repository.go:43-79 | Two workers hold one row only after the older claim outlived its lease |
| OutboxSafety.HeadFacts | internal/outbox/repository.go:86-128 | The row still names a worker exactly when its claim is the last one, and then retry_count is the one read at Claim |
| OutboxSafety.MarkChangesOnlyCurrent | internal/outbox/repository.go:86-128 | A mark statement changes the row exactly when the worker's claim is the row's last one, and never another row |
| OutboxSafety.BackoffIsExact | internal/outbox/repository.go:112-116 | A failure stores clock plus delay and the next retry_count; the delay dispatch asks for is min(300 s, 2^(retry_count-1) s) of that new count |
| OutboxSafety.BackoffIsKept | internal/outbox/publisher.go:69-70 | In a run whose workers ask for the delay of dispatch, a pending row that has failed waits exactly the back-off of its retry_count from its last failure |
| OutboxSafety.RunKeepsDelays | internal/outbox/publisher.go:67-73 | In such a run the last delay stored for a pending row is the back-off of its present retry_count |
| OutboxSafety.BoundedDuplication | internal/outbox/repository.go:44-128 | claims = retry_count + takeovers + (1 if status is not 0); copies never exceed claims; a published row has a copy |
| OutboxSafety.StepIsLater | internal/outbox/repository.go:87-90 | Published is final, rows keep their event, retry_count never decreases, delivered copies stay |
| OutboxSafety.NoRowStranded | internal/outbox/repository.go:47-48 | From a computable instant on every unpublished row satisfies Claim's WHERE clause, if nothing touches it |
| OutboxHistory.NoClaimBeforeDue | internal/outbox/repository.go:47-48 | In every run no claim selects a row before an earlier failure of it plus the delay that failure asked for |
| OutboxHistory.NoClaimDuringBackoff | internal/outbox/publisher.go:67-73 | With the delays of dispatch: not before min(300 s, 2^(n-1) s) after the failure that raised retry_count to n |
| OutboxHistory.BackoffDoubles | internal/outbox/publisher.go:107-119 | The delay is one second at first, doubles with each failure and stops at 300 seconds |
| OutboxHistory.OutboxDrains | internal/outbox/publisher.go:54-93 | From every reachable state some run publishes every row, with one more copy of each that was not published |
| Outbox.RunKeepsInv | internal/outbox/repository.go:33-128 | Every step of every worker keeps rows, claims, open batches, row locks and copies consistent |
| Outbox.ProduceKeepsInv | internal/outbox/publisher.go:66 | A produce that fails but was delivered, now or later, never yields a second copy of one claim |
| Outbox.CommitKeepsInv | internal/outbox/repository.go:75-83 | A committed claim, reported or not, keeps the invariant |
| OutboxWorker.RetryDelay | internal/outbox/publisher.go:107-119 | The loop computes the capped power of two, between one second and five minutes |
| OutboxWorker.Repository.Claim | internal/outbox/repository.go:33-84 | Returns the smallest rows that are pending and due, or whose claim has outlived the lease by the call's own clock, and that nobody has locked: at most a batch, all if they are fewer, or nothing |
| OutboxWorker.Repository.MarkPublished | internal/outbox/repository.go:86-102 | No error means the row is published; a statement that ran fails only when overtaken or locked |
| OutboxWorker.Repository.MarkFailed | internal/outbox/repository.go:104-128 | No error means the row is pending with the next retry_count and waits exactly the delay asked for, whatever that is; a statement that ran fails only when overtaken or locked |
| OutboxWorker.Publisher.DispatchHead | internal/outbox/publisher.go:61-91 | An acknowledged event ends marked or with a lost mark, any other with a stored or lost retry; success means a copy and a published row; a stored retry waits the back-off of its new retry_count from an instant of this call; a mark that reached the table is lost only when another worker has or is taking the row |
| OutboxWorker.Publisher.Dispatch | internal/outbox/publisher.go:54-93 | Every claimed event is handled in order, past failures, with its outcome still visible at the end, and the worker ends idle |
| ConsumerSafety.CommittedPrefix | internal/mq/kafka.go:265-366 | Below the committed offset the event of every record is finished, and hence pushed, or the record was rejected and dead-lettered unchanged |
| ConsumerSafety.LetterValidIff | internal/mq/dlq.go:30-61 | A consumer's dead letter is valid exactly when its source is and the record has a value |
| ConsumerSafety.PublishableIff | internal/gift/consumer.go:32-44 | Lists the fields a record needs to be published, and what its push shows |
| ConsumerSafety.AdmittedIff | internal/mq/message.go:30-52 | Lists the fields an envelope needs to be deduplicated |
| ConsumerSafety.LetterTells | internal/mq/dlq.go:30-42 | A letter tells where its record was, what it held and which check it failed |
| ConsumerSafety.DeadLetteredIsRejected | internal/mq/kafka.go:308-327 | Only records the handler rejects are dead-lettered |
| ConsumerSafety.UndeliverableBlocksPartition | internal/mq/kafka.go:308-321 | The committed offset has not passed a record that is rejected, admitted or not, cannot be dead-lettered and whose event is unfinished |
| ConsumerRuns.PassableIff | internal/mq/kafka.go:298-352 | From any reachable state some run commits past the record at the head of its partition exactly when it is publishable, its letter is valid or its event is finished already; a rejected one without finishing its event on the way |
| ConsumerRuns.GoodRecordPasses | internal/gift/consumer.go:57-108 | A publishable record at the head can be handled: one run pushes it exactly once, ends with status 1 and commits past it |
| ConsumerSafety.DedupLease | internal/eventdedup/store.go:21-60 | Two grants of an event are separated by a release or a full lease, and nothing follows Done |
| ConsumerSafety.GrantsSeparated | internal/eventdedup/store.go:44-60 | The same for any history of one dedup row |
| ConsumerSafety.DoneIsFinal | internal/eventdedup/store.go:62-107 | Status 1 implies an earlier push, and no step takes it back |
| ConsumerSafety.PromptRunsAreExclusive | internal/gift/consumer.go:68-107 | If every handler ends within its lease, at most one is ever active on an event |
| ConsumerSafety.StepKeepsExclusive | internal/eventdedup/store.go:21-107 | Each step keeps that exclusion while handlers are prompt |
| Consumer.RunKeepsInv | internal/mq/kafka.go:265-366 | Offsets, positions, handler stages, dedup rows, pushes and letters stay consistent through retries, failures, rebalances and crashes |
| ConsumerWorker.Store.Begin | internal/eventdedup/store.go:20-60 | AlreadyDone means the event was pushed; Began means the row carries this call's fresh lock; Busy means that another lock's lease runs; a failure that works is contention |
| ConsumerWorker.Store.Done | internal/eventdedup/store.go:62-80 | No error means status 1; if the call works it fails only at a lock |
| ConsumerWorker.Store.Fail | internal/eventdedup/store.go:82-107 | No error means the lock is released |
| ConsumerWorker.ConsumerHandler.Handle | internal/gift/consumer.go:57-108 | A nil error means the event was pushed; a permanent error means the record is not publishable; a granted, publishable record whose publish and Done work ends without error unless its row is locked |
| ConsumerWorker.ConsumerHandler.PublishGift | internal/gift/consumer.go:87-107 | An acknowledged publish followed by a Done that works returns nil and leaves status 1, unless the row is locked; a failed publish releases the row |
| ConsumerWorker.GroupConsumer.WriteDeadLetter | internal/mq/kafka.go:258-263 | Succeeds exactly when the write works, the source is valid and there is a value; then the DLQ holds the record with its source, key and value |
| ConsumerWorker.GroupConsumer.Process | internal/mq/kafka.go:290-362 | One record: retried until settled, dead-lettered when permanent, committed only then; each way to end has its cause, and a reported commit moves the offset by one and leaves the record settled |
| ConsumerWorker.GroupConsumer.Run | internal/mq/kafka.go:265-366 | Every record the loop passed is settled; any failure ends the process |
| ConsumerWorker.DoneWasPushed | internal/gift/consumer.go:68-77 | Skipping a finished event is safe: it was pushed |
| DlqReplay.ReplayRestoresIff | internal/mq/dlq.go:88-121 | A rejected record comes back with its topic and value, and with its key exactly when it had one |
| DlqReplay.KeylessLettersDiffer | internal/mq/dlq.go:88-91 | Letters of keyless records share a Kafka key only if they are of the same partition and offset |
| DlqReplay.ExportStaysValid | internal/mq/dlq.go:44-61 | The JSON form changes neither the verdict of Validate nor the letter's key |
| DlqReplay.LetterKeeps | internal/mq/dlq.go:30-42 | A letter keeps what it is told, and the first 2048 characters of the error |
| DlqReplay.WriteDeadLetter | internal/mq/dlq.go:77-96 | Sends the letter to the topic's DLQ under its key, or under partition:offset if it has none, exactly when the write works and each required field is there; otherwise an incomplete letter sends nothing |
| DlqReplay.ReplayJSONLines | internal/mq/dlq.go:100-139 | Letters go out in file order until the first line that cannot be replayed; count, error and audit lines match what was sent, and if sending works only a bad line stops it |
| Likes.LikesConserved | internal/stats/aggregator.go:65-116 | Accepted likes = pending + in flight + acknowledged broadcasts + lost, for any number of aggregators and any interleaving |
| Likes.LostOnlyWhen | internal/store/redisstore/redis.go:251-267 | Likes are lost exactly by a crash while held, a restore that did not happen, a GETDEL whose reply was lost, or the loss of the pending delta by Redis |
| LikeTotals.OneAggregatorCovers | internal/stats/aggregator.go:71-108 | With one aggregator and no total lost by Redis, every total that reaches viewers, reported or not and however late, is at least the deltas acknowledged before its publish plus its own |
| LikeTotals.TotalsCoverIff | internal/stats/aggregator.go:71-108 | If Redis loses no total and every delivered publish is reported, each total shown is at least the sum of the deltas shown so far, in every run, exactly with at most one aggregator |
| LikeTotals.FaultsUncover | internal/stats/aggregator.go:98-108 | If failed publishes may be delivered, or if Redis may lose totals, that holds in every run exactly without any aggregator |
| LikeTotals.UnreportedUndercuts | internal/stats/aggregator.go:98-102 | A run with one aggregator that shows the same five likes twice against a total of five |
| LikeTotals.CountsWereAccepted | internal/store/redisstore/redis.go:307-319 | No total, checkpoint or statement under way counts a like that was not accepted, whatever Redis lost |
| LikeTotals.TotalIsAccepted | internal/store/redisstore/redis.go:119-139 | While Redis keeps it, the total of a room is exactly what was accepted |
| LikeRecovery.RecoveryBound | internal/like/snapshot.go:101-127 | Once a recovery begun after a save has raised the total, a room misses at most the likes accepted since that checkpoint was read and those missing at the read, none if Redis had lost nothing before |
| LikeRecovery.LossBeforeReadStays | internal/like/snapshot.go:129-148 | A run in which likes lost before the read stay missing after a clean recovery |
| LikeRecovery.SavedCovers | internal/like/snapshot.go:65-69 | From its save on, the checkpoint is at least the total that was read |
| LikeRecovery.LaterGrows | internal/like/snapshot.go:65-69 | Checkpoints never decrease, and statements keep the value they carry |
| StatsAggregator.Aggregator.TickRoom | internal/stats/aggregator.go:70-113 | One room: take all that Redis holds at that moment, read, compare, publish, restore; the result says exactly whether the delta was broadcast, and a delta that a working Redis got back is pending again |
| StatsAggregator.Aggregator.Tick | internal/stats/aggregator.go:65-116 | Every room of the list is handled, past failures, and no delta stays in hand |
| LikeSnapshots.Snapshotter.Save | internal/like/snapshot.go:65-69 | The checkpoint becomes the larger of itself and the value read |
| LikeSnapshots.Snapshotter.RestoreLikeSnapshot | internal/store/redisstore/redis.go:307-319 | A total is raised to its checkpoint and never lowered, and no other total changes |
| LikeSnapshots.Snapshotter.LoadAfter | internal/like/snapshot.go:43-63 | A page is the next checkpoints in ascending room order, as the table then is |
| LikeSnapshots.Snapshotter.RestorePage | internal/like/snapshot.go:115-121 | A page is restored past refused rooms, which are reported; others may work in between |
| LikeSnapshots.Snapshotter.Recover | internal/like/snapshot.go:101-127 | For any table and batch size and any concurrent work: terminates, visits each room at most once and every checkpoint of the start, reports exactly the refused rooms, and has raised the total of every other to its checkpoint |
| LikeSnapshots.RecoveredRoom | internal/like/snapshot.go:101-127 | With that, the bound on missing likes for every room restored by Recover |
| LikeSnapshots.Snapshotter.Tick | internal/like/snapshot.go:129-148 | The total of every readable, writable room has been read and that value saved; the rest are reported, and their saves may execute now, later or never |
| LikeSnapshots.PageCovers | internal/like/snapshot.go:109-125 | A page extends the visited rooms without a gap, and a short one leaves no checkpoint behind |
| Presence.IndexesRefineHistory | internal/store/redisstore/redis.go:93-117 | For any history in any order of clocks: a user is in the viewer set exactly when the last touch, not followed by a leave, meets no later purge at or past its expiry; likewise for the message ids of the rolling set |
| Presence.ViewerCountIsExactIff | internal/store/redisstore/redis.go:182-200 | After a script that purges, everybody in the set is online by its clock, and everybody online is in the set exactly when no script with a later clock dropped one of them |
| Presence.LateClockMissesViewer | internal/store/redisstore/redis.go:191-200 | A history in which a late clock misses a viewer online |
| Presence.ViewerCountIsExact | internal/store/redisstore/redis.go:182-200 | If the clocks of the purging scripts run in order, the set after a touch, snapshot or pressure sample is exactly the users online |
| Presence.LeaveCountCovers | internal/store/redisstore/redis.go:202-211 | RemoveViewer, which does not purge: at an instant no clock has passed, its set covers everybody online, and everybody in it has touched and not left |
| Presence.RollingRateIsExactIff | internal/store/redisstore/redis.go:93-117 | Every id in the rolling set is recent, and every recent id is in it exactly when neither a later clock nor the expiry of the key dropped one |
| Presence.RollingRateIsExact | internal/store/redisstore/redis.go:93-117 | Clocks that run in order and scripts that run within a window of theirs make the rolling set exact |
| Presence.ViewersHaveJoinTimes | internal/store/redisstore/redis.go:182-189 | Every viewer in the set has a join time |
| Presence.JoinTimesFollowSessions | internal/store/redisstore/redis.go:182-211 | A viewer who stays keeps the join time, a newcomer gets the time of the touch, whoever a touch or leave drops loses it |
| Presence.ReturningViewerJoinTime | internal/store/redisstore/redis.go:182-189 | Back after a session that ended, a viewer gets the time of the touch after a leave; else a first script past the expiry exists, and the join time starts anew exactly when it was a touch |
| Presence.JoinTimesRefineHistory | internal/store/redisstore/redis.go:182-211 | For any history: who has a join time, and since which touch |
| Presence.Store.TouchViewer | internal/store/redisstore/redis.go:191-200 | The returned count is the size of the set the history determines, counts only users online, and all of them exactly when no later clock interfered |
| Presence.Store.EngagementSnapshot | internal/store/redisstore/redis.go:283-294 | The same for the viewer count of a snapshot |
| Presence.Store.DanmakuPressure | internal/store/redisstore/redis.go:106-117 | The same for both returned numbers, viewers and rolling rate |
| Presence.Store.RemoveViewer | internal/store/redisstore/redis.go:202-211 | The user is gone, and the count is the size of the set the history determines |
| Limiter.PresentKeyIsBounded | internal/store/redisstore/redis.go:50-61 | A present key has an expiry and a value between one and the limit |
| Limiter.RefusedIff | internal/store/redisstore/redis.go:50-61 | A call is refused exactly when its units do not fit beside those of the running window, and a refusal consumes nothing |
| Limiter.WindowBound | internal/store/redisstore/redis.go:50-75 | Any interval of one window length admits at most 2*limit - 1 units |
| Limiter.WindowBoundIsReached | internal/store/redisstore/redis.go:50-61 | That bound is sharp |
| Limiter.HistoryKeepsInv | internal/store/redisstore/redis.go:50-61 | Lifetimes of a key are a full window apart, each opened by an admission and bounded by the limit |
| Limiter.FixedWindowLimiter.AllowN | internal/store/redisstore/redis.go:69-75 | The script's answer and effect on its key, and none on other keys |
| DanmakuKeys.ItoaLoop | internal/danmaku/service.go:143-156 | The digit loop stays inside its 20 bytes and yields the decimal digits, nothing for a negative id |
| DanmakuKeys.KeysCollideIff | internal/danmaku/service.go:103 | Two users share a limiter key exactly when they are the same or both ids are negative |
| ActiveRooms.CompleteIff | internal/store/redisstore/redis.go:321-349 | A scan returns every active room exactly when the total is within the limit and every shard within its quota |
| ActiveRooms.SkewLosesRooms | internal/store/redisstore/redis.go:326-330 | A total within the limit is not enough |
| ActiveRooms.SameShardIff | internal/store/redisstore/redis.go:86-87 | Rooms share a shard exactly when the number of shards divides the difference of their ids |
| ActiveRooms.RoomsInARowAreFound | internal/store/redisstore/redis.go:326-330 | A scan of the rooms 1 to n, n within the limit, returns all of them |
| ActiveRooms.TurnKeepsAnswer | internal/store/redisstore/redis.go:327-347 | One shard's turn keeps the answer distinct, within the limit, fresh, and newest-first per shard |
| ActiveRooms.StopKeepsAnswer | internal/store/redisstore/redis.go:327 | Stopping at the limit keeps those guarantees |
| ActiveRooms.RevRange | internal/store/redisstore/redis.go:330 | The newest members of a shard, ties in any order |
| ActiveRooms.AppendRooms | internal/store/redisstore/redis.go:338-346 | Only positive ids, no duplicates, never beyond the limit |
| ActiveRooms.Store.Touch | internal/store/redisstore/redis.go:125-131 | Every writer files a room in the shard of its id, even with a clock older than the stored one |
| ActiveRooms.Store.ActiveRooms | internal/store/redisstore/redis.go:321-349 | With writers and other scans between the shard turns: at most limit distinct positive rooms, each newer than the cut-off in its shard as that shard's turn saw it, the newest of each shard up to its quota |
| ActiveRooms.Store.Scan | internal/store/redisstore/redis.go:328-331 | One transaction lists the newest members of one shard past the cut-off and drops nothing newer, in any shard |
| ActiveRooms.Store.Turn | internal/store/redisstore/redis.go:327-347 | After other calls and one shard transaction the answer holds for one more shard, and earlier turns still count as they were |
| ActiveRooms.Store.LiveIsActive | internal/store/redisstore/redis.go:86-87 | The index holds exactly the rooms active after the cut-off that no earlier scan dropped |
| LikeGateSafety.LikesWereAllowed | internal/like/service.go:67-135 | Behind every accepted like MySQL showed a LIVING room and an unbanned user; a reading the call made itself is no older than the call, a cached one no older than call, cache lifetime and the run of the call that filled that very entry together |
| LikeGateSafety.LikesEndAfterStop | internal/room/repository.go:101-122 | A closed room collects likes for at most that bound, taken for the like in question |
| LikeGateSafety.LikesEndAfterBan | internal/room/repository.go:132-150 | A banned user likes for at most that bound, with or without EnforceLikeBan |
| LikeGateSafety.StatusLives | internal/like/service.go:101-117 | A fill caches the status read for exactly the configured lifetime |
| LikeGateSafety.BanLives | internal/like/service.go:119-135 | The same for bans |
| LikeGateSafety.SealedRuns | internal/store/redisstore/redis.go:173-180 | Once the ban is in MySQL and in the cache and no stale lookup is pending, only calls already past the check still like |
| LikeGateSafety.EnforceHoldsIff | internal/store/redisstore/redis.go:173-180 | EnforceLikeBan overrides the cache for good exactly when bans are not cached or no lookup that read "not banned" is pending |
| LikeGateSafety.RefusedForGoodIff | internal/store/redisstore/redis.go:173-180 | The entry EnforceLikeBan stored stays, until it is cleared or lost, exactly when bans are not cached or no lookup is under way that can overwrite it |
| LikeGateSafety.EnforcedRefuses | internal/like/service.go:119-135 | A lookup that finds that entry is refused and gets no further, whatever MySQL holds |
| LikeGateSafety.UnbannedUserRefused | internal/httpapi/server.go:846-856 | A run in which a user is refused arbitrarily long after Unban |
| LikeGateRelease.ClearedIsRead | internal/store/redisstore/redis.go:176-178 | EnforceLikeBan(false) removes the entry and nothing else, so that the next check of the user reads MySQL |
| LikeGateRelease.ReleasedRuns | internal/httpapi/server.go:846-856 | With the ban gone from MySQL and from the cache and no lookup that read it pending, no call begun from then on is refused as banned, until a new ban |
| LikeGateRelease.ClearHoldsIff | internal/store/redisstore/redis.go:173-178 | Clearing frees the user for good exactly when bans are not cached or no lookup that read the ban is pending |
| LikeGateRelease.AllowedUserLikes | internal/like/service.go:67-99 | From any reachable state with a LIVING room, no ban and nothing cached, a new like is accepted and counted |
| LikeGateRelease.UnbannedUserLikes | internal/httpapi/server.go:846-856 | A run in which the like of an unbanned user is accepted |
| LikeGateSafety.BannedUserLikes | internal/like/service.go:119-134 | The race is reachable |
| LikeGate.RunKeepsInv | internal/like/service.go:67-135 | Every cached value and every call rests on a reading of MySQL that is fresh enough for the entry it came through; rooms only move forward |
| LikeGate.MovedCallOk | internal/like/service.go:101-135 | Each statement of a call carries its readings over within the bound |
| LikeGate.StepMovesForward | internal/room/repository.go:101-122 | CLOSED is final and a room's anchor never changes |
| LikeGateWorker.LikeService.Add | internal/like/service.go:67-99 | Accepted only with the right like in the counters; a bad count takes no step; NotLiving and banned answers rest on a reading within the same bound as for likes, or on EnforceLikeBan; if all calls work, nothing else but a missing room or the limiter refuses |
| LikeGateWorker.LikeService.RoomStatus | internal/like/service.go:101-117 | The status returned is the one the call holds from here on, cached or loaded |
| LikeGateWorker.RoomService.Start | internal/room/service.go:102-114 | Success means the actor is the anchor and the room was PREPARING during the call and has left that state; every error has its reason |
| LikeGateWorker.RoomService.Stop | internal/room/service.go:116-128 | Success means the room is CLOSED, the actor is its anchor and it was LIVING during the call; every error has its reason |
| LikeGateWorker.RoomService.Ban | internal/room/service.go:185-197 | Only the anchor bans, never himself; success means the row is there; every error has its reason |
| LikeGateWorker.RoomService.Unban | internal/room/service.go:199-204 | Only the anchor unbans; success means the row is gone; every error has its reason |
| SensitiveFilters.SensitiveFilter.constructor | internal/danmaku/filter.go:12-29 | The terminal paths of the heap trie are exactly the non-empty normalised words |
| SensitiveFilters.SensitiveFilter.Contains | internal/danmaku/filter.go:31-49 | True exactly when some word occurs contiguously in the lower-cased text; a nil filter matches nothing |
| SensitiveFilters.SensitiveFilter.StartsAt | internal/danmaku/filter.go:36-47 | The inner walk finds exactly the words that begin at a position |
| SensitiveFilters.SensitiveFilter.Insert | internal/danmaku/filter.go:19-26 | Inserting a word adds it and keeps all others |
| SensitiveFilters.ChildKeepsLinks | internal/danmaku/filter.go:21-24 | Hanging a fresh node off a path keeps the trie linked and every node on one path |
| SensitiveFilters.PathEnds | internal/danmaku/filter.go:39-42 | Past a missing child there are no more paths |
| TrafficPolicy.CapacityBound | internal/traffic/policy.go:64-97 | In adaptive mode sample*fanout stays within the HOT threshold or the minimum sample rate |
| TrafficPolicy.TargetIsHit | internal/traffic/policy.go:89-91 | Under pressure the expected deliveries equal the target exactly when the minimum rate and one allow it |
| TrafficPolicy.ModeGrows | internal/traffic/policy.go:79-85 | More viewers or messages never lower the mode |
| TrafficPolicy.SampleShrinks | internal/traffic/policy.go:87-97 | More pressure never raises the sample rate once there is fan-out, or without adaptation |
| TrafficPolicy.NeverRisesIff | internal/traffic/policy.go:87-97 | From a reading on, more pressure never raises the sample rate exactly when the reading does not fall back on the fixed rate, or the rate at the least reading with fan-out is no higher |
| TrafficPolicy.EmptyRoomSamplesLess | internal/traffic/policy.go:87-97 | A family of rooms without fan-out where it rises |
| TrafficPolicy.KeptIff | internal/traffic/policy.go:113-124 | The kept buckets are an initial segment |
| TrafficPolicy.KeptCount | internal/traffic/policy.go:113-124 | Exactly ceil(10000*sample) of the 10000 buckets are kept |
| TrafficPolicy.KeptMessagesNest | internal/traffic/policy.go:99-124 | For any hash, a message broadcast under higher pressure is broadcast at a lower reading from which the rate never rises |
| TrafficPolicy.DecidesMode | internal/traffic/policy.go:64-85 | The fan-out of a decision is viewers times messages per second, its mode follows from the thresholds, and an unreadable room gets none |
| TrafficPolicy.DecidesSample | internal/traffic/policy.go:87-97 | The sample rate of a decision: one when NORMAL, fixed without adaptation or fan-out, else the target within its bounds |
| TrafficPolicy.DecidesBroadcast | internal/traffic/policy.go:99-124 | Whatever the hash, a message is broadcast exactly when its bucket lies below 10000 times the sample rate of the decision |
| TrafficPolicy.DecidesShare | internal/traffic/policy.go:99-124 | Of the 10000 buckets, 10000 times that rate, rounded up, are broadcast |
| TrafficPolicy.DecidesWithinCapacity | internal/traffic/policy.go:64-97 | In adaptive mode a decision keeps sample times fan-out within the HOT threshold or the minimum sample rate |
| TrafficPolicy.DecisionsGrow | internal/traffic/policy.go:79-97 | More pressure never lowers the mode or the fan-out of a decision, nor raises its rate where the rate never rises |

## Left out

- Send: request ids, event ids and order numbers are compared exactly, while the utf8mb4 columns of the migrations compare without regard to case by default.
- PassableIff: runs that finish the event through another record with the same id are a case of their own, since producers other than the outbox may append one; and topics have no record size limit, although after base64 the valid letter of a large record can be too large for its topic.
- ValidRequestId: accepts ASCII letters and digits only and counts characters, where the code accepts every Unicode letter and digit and counts bytes; no theorem depends on which ids are valid.
- NewDeadLetter: truncates the error text by characters where the code truncates by bytes.
- Recover: room ids below one are never visited, as in the code.
- Forget: a Redis that comes back with older values of a key, instead of without it, is not modelled; such a rollback can repeat likes.
- EnforceHoldsIff: a cache write that times out at the client and runs later is not modelled; the like counters and the outbox do model late effects.
- CapacityBound: over real numbers, as is all of the policy; floating-point rounding is not modelled.
- Publisher.Run, the outbox poll timer and metrics: a worker may dispatch at any time instead.
- Clock skew between MySQL, Redis and the processes: one monotone clock everywhere but in Presence and ActiveRooms, where any clock may come with any call, and without the rounding of DATETIME(3) columns or of RowsAffected for updates that change nothing.
- Per-room order through the outbox: dispatch goes on after a failure, so the code does not provide it.
- Owner-checked dedup locks: Done and Fail ignore the holder, so exclusion is proved for prompt handlers only.
- Retry rounds and context cancellation: a bounded number of rounds stands for a context that ends; unbounded retrying is a longer run of the step system.
- JSON and base64 encodings, trace rewriting and random ids: injective codecs, untouched payloads and fresh ids drawn by the caller.
- Kafka retention and compaction: logs only grow. The other consumer groups have the same loop and are not repeated.
- Wallet versions, timestamps, span attributes, metrics and log lines of every component.
- Amount limits of the development credit endpoint: the repository accepts any amount the column range allows.
- Gift catalogue edits may change a gift but not delete it.
- Numbers beyond 2^53 in the Redis scripts, and wrap-around of counters near the int64 limit.
- Sending a danmaku: a straight line of gates in front of the limiter, the filter and the policy, which are modelled; mutes and the persistence consumer are not.
- Permanent and IsPermanent: the error wrapper is the PermanentError value of the consumer's results.
- Top viewers, online lists, the gift-value ranking and the last published viewer: reads with no invariant of their own.
- Whether a deployment wires the like limiter: refusals by it may happen or not.
- HTTP servers, gateway, identity client, push server, authentication, configuration parsing, migrations, deployment files, load scripts and the web client.
