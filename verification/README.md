# Payment pipeline: a verified model

This project models the payment intake and settlement pipeline in Dafny and proves what its design
promises: an acknowledged payment is not lost on its way to the ledger, a retried submission is not
stored twice, the ledger stays in double entry, and settlement neither creates nor loses money.

The model has two layers.

* **Components.** Each source file that works by changing things is a class or a method with a loop
  (`Store.PgStore`, `Ledger.DoubleEntryPoster`, `Settlement.Engine`, `Outbox.PostgresRelay`,
  `Kafka.RetryHandler`, `Kafka.ConsumerGroup`, `Idempotency.Redis`, `Intake.Server`, the amount parser
  in `Amount`). Every method is proved equal to a function on values, and the properties are proved
  about those functions. What can go wrong - a statement that fails, a publish that is appended but not
  acknowledged, a process that dies - is a parameter.
* **The system.** `Pipeline` composes the same functions into one transition system over the Postgres
  tables, Redis, the Kafka log, the committed offsets and the dead-letter queue. Any number of
  submissions, relays, ledger consumers and settlement engines interleave, and each may stop between
  any two steps. `Post` is split where its two database transactions are split, and a settle is split
  into its aggregation and one step per group. The modules `PipelineRows`, `PipelineDelivery`,
  `PipelineLedger`, `PipelineOrder`, `PipelineSettlement`, `PipelineListing`, `PipelineBatches`,
  `PipelineWindows` and `PipelineClaims` prove invariants of every run (`Pipeline.Run`), `PipelineRuns` and
  `PipelineScenarios` build runs, and a few lemmas there show that the components' functions are sequences of
  steps of the system. The steps of the intake follow internal/intake/server.go:103-156, those of the
  relay internal/outbox/relay.go:68-109, those of a ledger consumer cmd/ledger-consumer/main.go:59-110
  and internal/kafka/retry.go:32-77, those of an engine internal/settlement/engine.go:118-165.

## Main results

* `PipelineDelivery.NoLoss`: no loss, end to end, in every run.
* `PipelineSettlement.MoneyIsConserved`: conservation for engines whose windows are equal or disjoint
  while they are at work (one engine at a time included). Without that assumption
  `PipelineListing.PersistStepConservesExactlyWhen` says which persist breaks it, and
  `PipelineScenarios.PaidTwice` is a run that does.
* `PipelineListing.SettledExactlyWhen`: in every run, whatever the windows, a payment is settled if and
  only if some batch lists it.
* `PipelineOrder.LogFollowsOutbox`: with one relay, the log without adjacent repeats is a prefix of the
  outbox, and ordered within each topic and key. For any number of relays `OrderKeptExactlyWhen` says
  which steps keep the order of the whole, `KeyOrderKeptExactlyWhen` which keep that of one topic and
  key, and `TwoRelaysReorder` is a run in which two relays lose both.
* `PipelineLedger.LedgerBalances`, `OnePairOrNone`, `CapturedPostedOrPending`: double entry in every run.
* `PipelineRows.RunRowsOk`, `PaymentsOnlyAdvance`: one row and one announcement per payment, an exact
  audit trail, and states that only move along the state machine.
* `PipelineClaims.AcceptedOnce`: no two accepted replies of a run answer to one key, however often claims
  expire, unless a client key spells out a derived one. `DeduplicatedIsStoredExactlyWhen`: when a
  Deduplicated reply names a stored payment, and `DeduplicatedMayBeLost`: a run in which it does not.
  `NamedUnderItsKey`: a stored payment that it names was submitted under the key that was claimed.
* `PipelineBatches.RunBatchesAnnounced`: the outbox announces every batch, in order, with one settled event
  and one payout request; `RunDifferent`: no record stands in the outbox twice.
* `PipelineListing.SettledEventSays`, `PayoutSays`, `PipelineRows.AnnouncementCarries`, `PipelineDelivery.LogCarries`:
  what each event says, field by field, about the stored payments, in every run.
* `PipelineWindows.NeverSettled`: a payment that no later window covers and no pending group lists is never
  settled.
* `Amount.RoundTrip` and `Amount.ParsesExactly`: the amount printer and parser, over 64-bit integers.
* `Intake.SubmittedExactly`, `GoodSubmission`, `RepeatedSubmission`, `FailedSubmission`: which transaction a request
  becomes, and what a submission comes to.
* `Settlement.LoopTiles`, `LoopShort`, `FirstWindow`, `SettleDecides`, `SettleIdempotent`: the windows of the engine and
  what one settle does.

## Where the code differs from its comments

* `Post` looks for the word CAPTURED in an error text that always names its target state
  (internal/ledger/ledger.go:112, internal/store/store.go:292), so every stale transition counts as
  success and a FAILED payment can be posted (`Ledger.FailedIsPosted`). The error of UpdateState is
  a shadowed variable, so the legs are committed even when Post returns that error
  (internal/ledger/ledger.go:52-58,110; `Ledger.PostsLegsExactlyWhen`).
* PersistBatch does not look at the number of rows its UPDATE touches
  (internal/settlement/pgstore.go:130-139) and writes no audit row (`Lifecycle.Leads` allows that one
  edge).
* The engine's comments speak of a captured_at column; the query filters on created_at
  (internal/settlement/pgstore.go:43-48). A payment captured after the window of its creation has been
  closed is never settled unless a later window, such as the first one after a restart
  (internal/settlement/engine.go:86-90), covers its creation (`PipelineWindows.NeverSettled`,
  `PipelineScenarios.LateCaptureMaySettle`).
* The event is documented to carry the state RECEIVED (internal/outbox/event.go:28); it carries
  VALIDATED (internal/intake/server.go:131-138; `PipelineRows.AnnouncementOf`).
* The claim in Redis is not released when a submission fails (internal/intake/server.go:106-148), and a
  derived key is not written to the row (`PipelineClaims.DeduplicatedMayBeLost`,
  `DeduplicatedIsStoredExactlyWhen`, `OneKeylessPayment`).
* The outbox rows of a batch carry the account as partition key so that the relay keeps their order per
  account (internal/settlement/pgstore.go:143-144); two relays at once do not keep it
  (`PipelineOrder.TwoRelaysReorder`; `KeyOrderKeptExactlyWhen` and `OtherKeysKeepOrder` say exactly which
  steps do).
* A UPI payment's external id is read from the metadata, not from the request
  (internal/normalize/normalize.go:149; `Intake.UPIKeys`).

## Assumptions

* In the transition system a COMMIT that is reached succeeds unless the process dies before it.
  `SaveWithOutbox` and `Post` drop the error of COMMIT; their methods have the failing COMMIT as a fault, and
  `Intake.AcceptedIsStoredExactlyWhen` and `Ledger.NilMeansPosted` say exactly what it costs.
* Payment ids are fresh where a lemma says `Fresh`, and batch ids distinct where it says
  `DistinctBatchIds`: the server generates the former, and the latter are a primary key.
* Outbox rows become visible in the order of their ids.
* The client delivers a partition's records in offset order from the committed offset on.
* The hash is free of collisions where a lemma says `CollisionFree`.
* Metadata may override any field; a lemma that needs it not to reuse the reserved keys says so.

## Model

| member | source | states |
|---|---|---|
| Lifecycle.TerminalStates | internal/domain/states.go:22-28 | FAILED and RECONCILED are exactly the states without a successor |
| Lifecycle.RankRises | internal/domain/states.go:22-28 | a rank strictly rises along every allowed edge, so no payment changes state for ever |
| Lifecycle.EdgesExactly | internal/domain/states.go:22-36 | the ten edges of the state graph, one by one, and no other |
| Lifecycle.TrailBounded | internal/store/store.go:296-302 | a payment has no more audit rows than its state has risen in rank |
| Lifecycle.UpdateAudited | internal/store/store.go:245-312 | after UpdateState with any arguments each payment's audit rows in order still walk allowed edges from VALIDATED to its current state |
| Lifecycle.PersistAudited | internal/settlement/pgstore.go:130-139 | PersistBatch over any ids keeps that, up to the one edge CAPTURED to SETTLED it leaves unaudited |
| Lifecycle.SavedAudited | internal/intake/server.go:130-148 | a new payment starts its audit walk in VALIDATED |
| Lifecycle.UpdateMoves | internal/store/store.go:257-268 | whatever UpdateState changes is a stored row's state along an allowed edge |
| Lifecycle.PersistMoves | internal/settlement/pgstore.go:130-139 | so is whatever PersistBatch changes in the transactions |
| Lifecycle.UpdateMeans | internal/store/store.go:245-312 | for a stored payment, which answer UpdateState gives, and that exactly its own row moves from the expected state to the new one, with one audit row naming both in this order, or nothing changes |
| Lifecycle.UpdateMissing | internal/store/store.go:285-287 | for a payment that is not stored nothing changes, and it is reported missing unless the edge itself is not allowed |
| Store.PgStore.SaveWithOutbox | internal/store/store.go:175-243 | payment row and outbox row are stored together or not at all; nil is returned exactly when no statement failed and neither payment id nor key was taken, and then they are stored unless the COMMIT failed |
| Store.PgStore.UpdateState | internal/store/store.go:245-312 | which of the outcomes it returns, and that the tables change by one state and one audit row, or not at all; the error of a COMMIT may follow either |
| Schema.AffectedRow | internal/store/store.go:262-294 | no row affected means: the payment is missing, or its state is not the expected one |
| Ledger.DoubleEntryPoster.Post | internal/ledger/ledger.go:37-122 | result and all tables after a call, for every statement that may fail, a failing COMMIT, and every place where the process may die |
| Ledger.PostReturnsNil | internal/ledger/ledger.go:37-122 | nil exactly for a positive amount, a stored payment in whatever state, and no failure but perhaps of the outer COMMIT or, for a payment past VALIDATED, of one that changes nothing |
| Ledger.NilMeansPosted | internal/ledger/ledger.go:52-58 | after a nil the payment has left VALIDATED, and both legs are stored if and only if they were before or the outer COMMIT did not fail |
| Ledger.FailedInsertMarks | internal/ledger/ledger.go:44-95 | a call that fails at BEGIN or at an INSERT says which, moves a payment found in VALIDATED to FAILED with that audit row, unless that fails too, and changes nothing else |
| Ledger.FirstDelivery | internal/ledger/ledger.go:63-121 | a first delivery without faults leaves the payment CAPTURED with its audit row, and exactly a debit of its account and a credit of clearing_account, both of its amount and currency |
| Ledger.DiesMidway | internal/ledger/ledger.go:52-118 | where a first delivery dies or loses the COMMIT of the legs: before the change of state nothing has happened, after it the payment is CAPTURED without a leg |
| Ledger.NotPositiveRefused | internal/ledger/ledger.go:38-40 | an amount is refused for not being positive if and only if it is not, and then nothing changes |
| Ledger.FailedIsPosted | internal/ledger/ledger.go:110-115 | a FAILED payment gets its legs on a retry and stays FAILED |
| Ledger.UnseenCaptureIsPosted | internal/ledger/ledger.go:110-118 | when the COMMIT of the state change takes effect unseen, Post returns an error for a payment that is CAPTURED and posted |
| Ledger.RedeliveryAbsorbed | internal/ledger/ledger.go:60-62 | once posted and past VALIDATED, no further call changes any table, with any amount and any faults |
| Ledger.PostsLegsExactlyWhen | internal/ledger/ledger.go:52-106 | both legs are present after a call exactly when they were before, or both INSERTs and the COMMIT are reached; a failing state change does not matter |
| Ledger.PostKeepsDoubleEntry | internal/ledger/ledger.go:63-88 | every call keeps the ledger a list of balanced positive pairs, one per payment |
| Ledger.PairAdded | internal/store/migrations/000002_ledger_idempotency.up.sql:5-6 | committing legs adds nothing for a posted payment and exactly one pair for another |
| Ledger.EntriesBalance | internal/ledger/ledger.go:80-88 | per currency the pairs sum to zero and their credits total the posted amounts |
| Ledger.ExactlyOnePair | internal/store/migrations/000002_ledger_idempotency.up.sql:5-6 | a posted payment has exactly one leg per direction, of its own account, amount and currency |
| Ledger.NoPair | internal/store/migrations/000002_ledger_idempotency.up.sql:5-6 | a payment that is not posted has no leg |
| Amount.ParseAmountImpl | internal/normalize/normalize.go:78-98 | the parser's head as reassignments of its locals meets the parser's specification |
| Amount.ParseUnsignedImpl | internal/normalize/normalize.go:89-126 | so does the rest with its padding loop, and an accepted amount is a 64-bit integer |
| Amount.Pad | internal/normalize/normalize.go:108-110 | the padding loop, over lengths in bytes |
| Amount.RoundTrip | internal/intake/server.go:159-170 | parsing what was printed gives the amount back, for every 64-bit amount |
| Amount.FormatInjective | internal/intake/server.go:159-170 | different amounts print differently |
| Amount.ParsesExactly | internal/normalize/normalize.go:78-126 | on every plain numeral with at most two decimals, blanks around it allowed, the parser returns the exact number of hundredths if and only if that is a 64-bit integer |
| Amount.RejectsBlank | internal/normalize/normalize.go:79-82 | text is rejected as empty if and only if it is blank |
| Amount.BlanksExactly | internal/normalize/normalize.go:79 | which characters are blank: those of unicode.IsSpace, by code point |
| Amount.RejectsTwoPoints | internal/normalize/normalize.go:90-93 | any other text is rejected for its format if and only if it has two points or more |
| Amount.RejectsPrecision | internal/normalize/normalize.go:105-107 | with one point it is rejected for its precision if and only if more than two bytes follow the point |
| Amount.RejectsUnits | internal/normalize/normalize.go:108-119 | otherwise it is rejected for its major part if and only if that is not a 64-bit integer, and for its padded minor part if and only if only that is not one |
| Amount.RejectsWhole | internal/normalize/normalize.go:95-115 | without a point the whole text is the major part |
| Amount.PrintsNumeral | internal/intake/server.go:159-170 | what is printed is a plain numeral with two decimals whose value is exactly the amount, for every amount but the smallest 64-bit one |
| Amount.SmallestPrinted | internal/intake/server.go:159-170 | the text of the smallest 64-bit amount, whose negation wraps: both parts carry a sign of their own |
| Idempotency.PreimageInjective | internal/idempotency/store.go:29-36 | the hashed text determines source, external id, account, amount and currency when external id and account have no bar |
| Idempotency.SameKeyExactlyWhen | internal/idempotency/store.go:25-37 | when exactly two submissions share a key |
| Idempotency.BarsCollide | internal/idempotency/store.go:29-35 | with a bar in a field different payments hash the same text |
| Idempotency.IdentifiedExactlyWhen | internal/idempotency/store.go:29-35 | among payments with bar-free currencies the hashed text identifies a payment if and only if its external id and account have no bar |
| Idempotency.PreimageExample | internal/idempotency/store.go:29-35 | the hashed text of a payment of 25 dollars, written out for each source |
| Idempotency.Redis.Claim | internal/idempotency/store.go:54-71 | who wins the key and which id the others are told, with a SETNX that fails or takes effect unseen, a GET that fails and a key that expires in between |
| Idempotency.OneClaimWins | internal/idempotency/store.go:54-71 | of two claims of a key without its expiry between them at most one wins, and a reader is told the id of the claim that set it |
| Idempotency.SetKeyIsRead | internal/idempotency/store.go:57-70 | a claim of a set key is answered with the id behind it if nothing fails, and with an error otherwise |
| Intake.Registry.Register | internal/normalize/normalize.go:33-36 | which entry of the handler map it sets |
| Intake.Registry.Get | internal/normalize/normalize.go:24-31 | the handler of the key, or none |
| Intake.RegisteredIsFound | internal/normalize/normalize.go:24-36 | a registration is found again and hides no other source or version |
| Intake.VersionsServed | internal/intake/server.go:89 | a normalizer registered under a 32-bit version serves exactly the requests of its source whose unsigned schema version has the same 32 bits |
| Intake.ConfiguredExactly | cmd/intake/main.go:35-37 | with the registrations of cmd/intake only cards and UPI, both in version 1 only, find a normalizer, and each its own |
| Intake.Override | internal/intake/server.go:68-70 | the loop over the metadata merges it over the request's fields |
| Intake.RequestSurvives | internal/normalize/normalize.go:48-76 | without reserved keys in the metadata every field of the request reaches the transaction unchanged, the amount included, except a UPI payment's external id |
| Intake.SubmittedExactly | internal/intake/server.go:57-99 | the transaction any request is normalized to by the normalizer of its source and version: each field is the metadata value of that name, or else the request's own, and there is none if the amount so found does not parse |
| Intake.SubmittedIs | internal/intake/server.go:89-99 | without reserved keys in the metadata it carries the source of the normalizer that was found and the fields of the request |
| Intake.UPIKeys | internal/normalize/normalize.go:130-158 | two keyless UPI submissions share a claim exactly when account, amount, currency and upi_trx_id agree, whatever their external ids |
| Intake.Server.SubmitPayment | internal/intake/server.go:41-157 | reply, Redis and tables after a submission, for every failure; the next rows say outright what they are |
| Intake.GoodSubmission | internal/intake/server.go:89-156 | without faults, with a free key and a new id and client key, the payment is accepted under its id, stored as submitted but VALIDATED and created now, announced by one row, and its key claimed |
| Intake.RepeatedSubmission | internal/intake/server.go:106-119 | with its key set, it is answered with the id behind the key and changes nothing |
| Intake.FailedSubmission | internal/intake/server.go:122-148 | when validation, the process or the save fails after the claim, the reply says which, nothing is stored and the key stays claimed |
| Intake.UnclaimedSubmission | internal/intake/server.go:106-110 | a claim that fails ends the submission with an error and nothing stored |
| Intake.NotNormalized | internal/intake/server.go:72-93 | an unknown source is told so, then a source and version without normalizer, with no claim made |
| Intake.MissingAmount | internal/intake/server.go:65-70 | a request without an amount is refused as empty unless its metadata brings one |
| Intake.Server.ClaimValidateSave | internal/intake/server.go:103-156 | the part from the claim on; a claim is never taken back |
| Intake.SubmitIsSteps | internal/intake/server.go:41-157 | every submission, whatever fails in it but a COMMIT, has the effect and the reply of at most two intake steps of the system, and of none if it cannot be normalized |
| Intake.AcceptedIsStoredExactlyWhen | internal/store/store.go:181-187 | an accepted payment is stored if and only if the COMMIT did not fail |
| Aggregation.Aggregate | internal/settlement/pgstore.go:30-70 | one pass that keeps the groups found so far yields for each key the sum, count and ids of its captured payments in the window |
| Aggregation.GroupsPartition | internal/settlement/pgstore.go:34-46 | a payment is listed by a group exactly when it is CAPTURED, created in [start, end) and of the group's account and currency |
| Aggregation.KeysOccur | internal/settlement/pgstore.go:45 | there is a group for exactly the accounts and currencies that occur |
| Aggregation.KeysDistinct | internal/settlement/pgstore.go:45 | no account and currency has two groups |
| Conservation.GroupBacked | internal/settlement/pgstore.go:34-46 | a group's payments exist, are captured, lie in its window and add up to its total and count |
| Conservation.GroupPositive | internal/settlement/pgstore.go:34-46 | amounts being positive, a group counts at least one payment and has a positive total |
| Conservation.PersistConserves | internal/settlement/pgstore.go:84-158 | a batch whose key is taken, or whose payments are still captured, keeps batches, payouts and settled payments equal per account and currency |
| Conservation.PersistConservesExactlyWhen | internal/settlement/pgstore.go:130-139 | a new batch keeps them equal if and only if every one of its payments is still CAPTURED |
| Conservation.PersistsUnlessStored | internal/settlement/pgstore.go:101-123 | PersistBatch stores its batch with two outbox rows unless one of the same account, currency, window start and window end is stored; then it changes nothing |
| Conservation.OverlappingEnginesPayTwice | internal/settlement/pgstore.go:101-139 | two engines that aggregate different windows around one captured payment pay it out twice |
| Settlement.PgSettlementStore.AggregateCaptured | internal/settlement/pgstore.go:30-70 | the groups of the window, or an error when the query fails or a sum does not fit 64 bits |
| Settlement.PgSettlementStore.PersistBatch | internal/settlement/pgstore.go:84-158 | three tables change together or none does, also when the COMMIT takes effect unseen, and alreadyExisted says that the key was taken |
| Settlement.Engine.ProcessGroup | internal/settlement/engine.go:173-248 | the tables after one group, and, when its key is free, the two outbox rows field by field: both of the new batch and keyed by the account, the settled event with the group's total and count, the payout request with its total |
| Settlement.Engine.SettleGroups | internal/settlement/engine.go:146-158 | the loop over the groups, each of which may fail |
| Settlement.Engine.Settle | internal/settlement/engine.go:118-165 | the tables after a settle in which any group may fail, and nil even then |
| Settlement.Engine.Tick | internal/settlement/engine.go:83-111 | on the first tick the window starts WindowSize before its end, later where the last one ended; a window long enough is settled, and becomes the last one exactly when its settle returned nil |
| Settlement.Engine.Run | internal/settlement/engine.go:67-114 | tables, last window end and closed windows after any ticks and faults |
| Settlement.LoopTiles | internal/settlement/engine.go:83-111 | the closed windows follow each other without gap or overlap, each at least WindowSize long and ending Buffer before a tick; the first starts Buffer and WindowSize before the first tick, or where the loop stood |
| Settlement.WindowsTile | internal/settlement/engine.go:86-111 | the same for any pattern of failing settles, and where the first window starts |
| Settlement.FirstWindow | internal/settlement/engine.go:84-111 | the first tick after a start settles the window of WindowSize that ends Buffer before it, and closes it if and only if its settle returns nil |
| Settlement.LoopShort | internal/settlement/engine.go:83-111 | a loop in which no settle fails, with ticks at most d apart, closes windows shorter than WindowSize + d only |
| Settlement.SettleDecides | internal/settlement/engine.go:118-165 | whichever groups fail, exactly the captured payments of the window are settled whose account and currency had no batch for it and whose own group did not fail |
| Settlement.SettleReturnsNil | internal/settlement/engine.go:118-165 | settle returns nil if and only if the aggregation succeeds, every sum fits 64 bits and the process lives, with no group or failing groups as well |
| Settlement.SettleIdempotent | internal/settlement/engine.go:229-238 | a second settle of the window changes nothing, even where a taken key left payments CAPTURED |
| Settlement.LateCaptureStranded | internal/settlement/pgstore.go:43-48 | a payment created before windows that tile is untouched by settles over them |
| PipelineWindows.NeverSettled | internal/settlement/pgstore.go:43-48 | over every run and any number of engines, a payment in no pending group and created outside every window opened from then on is never settled |
| PipelineScenarios.LateCaptureMaySettle | internal/settlement/engine.go:86-90 | for any payment there is a run in which the window of its creation closes before it is captured and the first window after a restart settles it |
| Outbox.PostgresRelay.FetchRows | internal/outbox/relay.go:69-92 | the oldest unpublished rows, at most batchSize, or an error of the query, a scan or the end of the rows |
| Outbox.PostgresRelay.PublishRows | internal/outbox/relay.go:94-106 | outbox and log after publishing and marking row by row up to the first failure |
| Outbox.PostgresRelay.RelayBatch | internal/outbox/relay.go:68-109 | outbox and log after a whole call, and nil exactly when neither the fetch nor any row failed |
| Outbox.BatchInOrder | internal/outbox/relay.go:68-109 | under any publish and mark failures the log stays a stuttering of an outbox prefix that covers every marked row |
| Outbox.StutterIsCollapse | internal/outbox/relay.go:94-106 | a stuttering is what collapses to the rows when adjacent repeats are removed |
| Outbox.StutterFilter | internal/outbox/relay.go:95 | a stuttering remains one within each topic and partition key |
| Outbox.InOrderExactlyWhen | internal/outbox/relay.go:94-106 | of pairwise different rows, one more record keeps the log a prefix if and only if it is the next row or repeats the last one |
| Outbox.BatchDrains | internal/outbox/relay.go:68-109 | without failures a call drains batchSize rows, or all there are |
| Outbox.DrainedExactly | internal/outbox/relay.go:94-106 | draining k rows logs each of the k oldest once, in order, and leaves the others |
| Outbox.Drain | internal/outbox/relay.go:42-58 | k failure-free calls drain k * batchSize rows, and leave none exactly when k * batchSize reaches their number |
| Outbox.RowsOnlyMark | internal/outbox/relay.go:94-106 | whatever fails, a mark is never taken back and a marked row has been logged |
| Outbox.RowOutcome | internal/outbox/relay.go:94-106 | one row, whatever fails: its topic, partition key and payload are logged unless nothing is appended, and it is marked exactly when the publish is acknowledged and the UPDATE takes effect |
| Kafka.RetryHandler.Attempt | internal/kafka/retry.go:35-45 | how many calls are made, on which outcomes, and the exact sleep |
| Kafka.RetryHandler.PublishToDLQ | internal/kafka/retry.go:50-77 | the letter names topic, key, payload, consumer group and maximum of attempts, each in its place, so that the record can be replayed to its topic; an error for a payload that is not JSON or a publish that fails |
| Kafka.RetryHandler.Handle | internal/kafka/retry.go:32-48 | nil exactly when the last attempt or the dead-letter publish succeeded; at most n calls and 100 ms * n(n+1)(2n+1)/6 of sleep; and the letter, field by field, or none |
| Kafka.SquaresClosed | internal/kafka/retry.go:43 | the closed form of the quadratic back-off |
| Kafka.SleptAtMost | internal/kafka/retry.go:43-44 | the sleep is that of the squares, and less only where the multiplication wraps |
| Kafka.ConsumerGroup.HandleRecords | internal/kafka/consumer.go:103-110 | offsets and handled records after a fetch that stops at the first failure |
| Kafka.ConsumerGroup.Consume | internal/kafka/consumer.go:79-118 | the same for a session, and when it goes on to the end of its polls |
| Kafka.RecordCommitted | internal/kafka/consumer.go:103-110 | a handled record moves its partition's offset to one past it unless the commit is lost, and no other offset; one that is not handled changes nothing |
| Kafka.SessionSafe | internal/kafka/consumer.go:79-118 | however a session ends, every record below a committed offset has been handled, so a restart skips none |
| PipelineRows.StepRowsOk | internal/store/store.go:189-237 | every step of every process keeps rows, announcements and audit trails in order and moves payments along allowed edges only |
| PipelineRows.RunRowsOk | internal/store/migrations/000001_init.up.sql:16 | in every run at most one row per idempotency key, and the announcements in the outbox are, in order, exactly those of the stored payments |
| PipelineRows.EventHasRow | internal/store/store.go:224-240 | every payments.received row belongs to a stored payment with its id, account and amount |
| PipelineRows.RowHasEvent | internal/store/store.go:224-240 | every stored payment has such a row |
| PipelineRows.PaymentsOnlyAdvance | internal/domain/states.go:22-36 | between any two states of a run a payment keeps its fields, its rank does not fall, and FAILED and RECONCILED are never left |
| PipelineRows.AnnouncementCarries | internal/outbox/event.go:34-50 | in every run a stored payment is announced by a payments.received row keyed by its account whose event has each of its fields as stored, in state VALIDATED |
| PipelineDelivery.StepChannelOk | internal/outbox/relay.go:94-106 | with any number of relays, a marked row is in the log and the log holds nothing but outbox rows |
| PipelineDelivery.FinishedIsTaken | internal/kafka/retry.go:32-77 | a record counts as finished only with both legs posted or in the dead-letter queue |
| PipelineDelivery.StepConsumersOk | internal/kafka/consumer.go:103-110 | no step of any process leaves an untaken record below a committed offset or a consumer's position |
| PipelineDelivery.RunDeliveryOk | internal/kafka/consumer.go:103-110 | all of this holds in every reachable state |
| PipelineDelivery.NoLoss | internal/intake/server.go:145-156 | an accepted payment is stored under its key, announced by a row that is unmarked or in its partition of the log, and every copy below the committed offset is posted or has a letter in the dead-letter queue that replays it |
| PipelineDelivery.LogCarries | internal/outbox/relay.go:94-98 | in every run a record of the log has topic, partition key and payload of an outbox row, and one of payments.received is keyed by the account of the stored payment it announces |
| PipelineDelivery.LetterAppended | internal/kafka/retry.go:50-77 | giving up appends at most one letter, from which the record can be replayed to its own topic, and finishes the record if and only if the letter is acknowledged |
| PipelineDelivery.GivenUpIsPassed | internal/kafka/retry.go:40-77 | a record that is given up, a malformed one at once, does not stop its partition: after an acknowledged letter and a successful commit the consumer is at the next record |
| PipelineDelivery.RetriedAgain | internal/kafka/retry.go:35-45 | a failure that is not given up leaves the consumer at its record, ready to handle it again, and commits nothing |
| PipelineDelivery.OffsetCommitted | internal/kafka/consumer.go:103-110 | committing moves the offset of the worker's partition to one past the record, unless the commit is lost, and no other |
| PipelineDelivery.JoinsAtOffset | internal/kafka/consumer.go:66-73 | a consumer starts at the committed offset of its partition, or at the first record if there is none |
| PipelineLedger.EventIsStored | cmd/ledger-consumer/main.go:92-102 | what a consumer posts carries the stored payment's id, account, amount and currency |
| PipelineLedger.LedgerBalances | internal/ledger/ledger.go:80-88 | in every reachable state each currency sums to zero and the credits total the amounts of the payments that have both legs |
| PipelineLedger.OnePairOrNone | internal/store/migrations/000002_ledger_idempotency.up.sql:5-6 | in every reachable state a stored payment has no leg, or exactly a debit of its account and a credit of clearing_account, positive and of its own amount and currency |
| PipelineLedger.CapturedPostedOrPending | internal/ledger/ledger.go:108-121 | a payment that reached CAPTURED has a positive amount and is posted, dead-lettered, or its event is at or above the committed offset |
| PipelineLedger.PostIsTwoSteps | internal/ledger/ledger.go:44-121 | an uninterrupted Post is the two steps of the system, and finishes the record exactly when it returns nil |
| PipelineLedger.FailedPostIsOneStep | internal/ledger/ledger.go:44-95 | a Post that fails early is the one failing step |
| PipelineLedger.PostFailsMarks | internal/ledger/ledger.go:44-95 | that step moves a payment found in VALIDATED to FAILED with its audit row and changes no other table |
| PipelineLedger.LegsAreNamed | cmd/ledger-consumer/main.go:83-90 | in every run a leg is of a stored payment's positive amount and currency, and the payment's id, account and currency are not empty |
| PipelineOrder.LogFollowsOutbox | internal/outbox/relay.go:68-109 | in every run with one relay at a time the log without adjacent repeats is exactly a prefix of the outbox, covering the marked rows and at most one more, and in order within each topic and key |
| PipelineOrder.OrderKeptExactlyWhen | internal/outbox/relay.go:94-106 | in every run with any number of relays a step keeps the log a prefix of the outbox if and only if it publishes nothing, the next row, or the last one again |
| PipelineOrder.KeyOrderKeptExactlyWhen | internal/settlement/pgstore.go:143-144 | the same within a topic and key: a step that publishes the i-th row of it keeps its n logged rows a prefix if and only if i is n or n - 1 |
| PipelineOrder.OtherKeysKeepOrder | internal/settlement/pgstore.go:143-144 | any other step leaves the order within that topic and key alone |
| PipelineOrder.TwoRelaysReorder | internal/settlement/pgstore.go:141-146 | for any two payments of one account there is a run with two relays after which the account's part of the log is no prefix of its part of the outbox |
| PipelineOrder.RowIsTwoSteps | internal/outbox/relay.go:94-106 | one row of relayBatch is a publish step and a mark step |
| PipelineOrder.BatchIsSteps | internal/outbox/relay.go:68-109 | a whole call of relayBatch that gets its rows is a query step, with the limit and order of the query, and the publish and mark steps of its rows |
| PipelineSettlement.MoneyIsConserved | internal/settlement/engine.go:118-248 | per account and currency batches, payout requests and settled payments add up to the same, each batch stands for its own settled payments and no payment is in two |
| PipelineListing.SettledExactlyWhen | internal/settlement/pgstore.go:130-139 | in every run, with any number of engines and any windows, a stored payment is SETTLED or RECONCILED if and only if some batch lists its id |
| PipelineListing.PersistStepConservesExactlyWhen | internal/settlement/pgstore.go:101-139 | in every such run a persist keeps conservation if and only if its key is taken or every payment it lists is still CAPTURED |
| PipelineScenarios.PaidTwice | internal/settlement/pgstore.go:101-139 | for any payment and any two different windows around its creation there is a run whose last step pays it out a second time |
| PipelineSettlement.BatchesAlwaysSound | internal/store/migrations/000003_settlement_idempotency.up.sql:3-4 | in every run at most one batch per account, currency and window, each with at least one payment and a positive total |
| PipelineBatches.RunBatchesAnnounced | internal/settlement/pgstore.go:141-152 | in every run the settlement rows of the outbox are, in order, one settled event and one payout request per batch, with its account, currency, window and total |
| PipelineListing.SettledEventSays | internal/settlement/engine.go:196-204 | in every run, whatever the windows, a settled event names a batch, is keyed by the account, and its total and count are the sum and the number of the settled payments that the batch lists, all of its account, currency and window |
| PipelineListing.PayoutSays | internal/settlement/engine.go:209-216 | so does a payout request with its total |
| PipelineBatches.RowHasBatch | internal/settlement/pgstore.go:141-152 | every settlement row belongs to a batch |
| PipelineBatches.RunDifferent | internal/settlement/pgstore.go:101-123 | in every run no two outbox rows are the same record |
| PipelineSettlement.BackedApart | internal/settlement/pgstore.go:42-46 | payments of different accounts, currencies, windows or states are different payments |
| PipelineSettlement.SettleIsSteps | internal/settlement/engine.go:118-165 | an uninterrupted settle is the aggregation step and its persist steps |
| PipelineClaims.AcceptedOnce | internal/intake/server.go:103-119 | two accepted replies name different stored payments with different client keys, and answer to different claim keys unless a client spells out a derived one |
| PipelineClaims.StoredKeysDiffer | internal/idempotency/store.go:25-37 | a corollary for the stored rows: two of them answer to one claim key exactly when one is keyless and the other spells out its derived key |
| PipelineClaims.DeduplicatedIsAccounted | internal/intake/server.go:106-119 | a Deduplicated reply names a payment that is stored or being submitted, unless a submission of it was dropped after its claim |
| PipelineClaims.RunOnceEach | internal/intake/server.go:57-58 | with fresh ids a payment has one submission, and is not both dropped and stored |
| PipelineClaims.DeduplicatedIsStoredExactlyWhen | internal/intake/server.go:106-148 | with fresh ids it names a stored payment if and only if the submission behind the claim is neither under way nor was dropped |
| PipelineClaims.NamedUnderItsKey | internal/idempotency/store.go:54-71 | with fresh ids a stored payment that Redis or a Deduplicated reply names was submitted under the key that was claimed |
| PipelineClaims.DeduplicatedMayBeLost | internal/intake/server.go:106-148 | the run in which it names a payment that is not stored |
| PipelineClaims.OneKeylessPayment | internal/store/migrations/000001_init.up.sql:16 | of all payments submitted without a client key at most one is ever stored |

## Left out

- Schema.Batch: the field paymentIds is a history variable; the table does not keep which payments a batch settled, and PersistBatch gets them from the group.
- Settlement.LoopTiles: the zero time is the integer 0, and every tick is assumed to lie more than a window and the buffer after it.
- Settlement.LoopShort: stated for loops in which no settle fails; after a failure a window grows until a settle succeeds.
- PipelineSettlement.MoneyIsConserved: assumes that engines with groups left to persist have equal or disjoint windows; without that it is false (PipelineScenarios.PaidTwice), and PipelineListing.PersistStepConservesExactlyWhen says when.
- PipelineOrder.LogFollowsOutbox: assumes one relay at a time; which steps of several relays keep the order is PipelineOrder.OrderKeptExactlyWhen and KeyOrderKeptExactlyWhen.
- Pipeline.ConsumerStep: in the transition system the number of attempts is not counted, a consumer may retry or give up at any failure; Kafka.RetryHandler.Handle has the exact count.
- Kafka.RetryHandler.Handle: with maxAttempts below 1 the source panics on a nil error, which is the result Panicked.
- Aggregation.Aggregate: groups come in order of first appearance, not sorted by account and currency; the sums are exact integers, and one that does not fit 64 bits is an error of the scan.
- Settlement.PgSettlementStore.AggregateCaptured: the groups are in that order too.
- Kafka.RetryHandler.PublishToDLQ: the letter's error text and time are not modelled.
- Kafka.ConsumerGroup.Consume: the checks of its arguments and the creation of the client come before what is modelled; a closed client is the end of the polls.
- Idempotency.SameKeyExactlyWhen: for payments without a bar in external id and account, and a hash free of collisions; Idempotency.IdentifiedExactlyWhen says what bars do to the hashed text.
- Intake.SubmitIsSteps: a failing COMMIT is not a step of the system; Intake.AcceptedIsStoredExactlyWhen has it.
- Intake.Normalize: metadata is not kept in the transaction, and the state text of the raw payload, which is overwritten before storing, is the constant RECEIVED.
- Column types: payment_id is any string and not a UUID, currency is not padded or cut to CHAR(3), amounts in the tables are integers.
- Event ids, event types, schema versions and time stamps other than created_at and the window bounds.
- A batch id or payout id that is not fresh: ids are parameters, and the primary key on the batch id never rejects one.
- Validators: a nondeterministic reject, as cmd/intake installs none.
- JSON, UUID generation and SHA-256: payloads are values, ids are parameters, the hash is a function.
- Redis time-outs: a key may expire at any time.
- Fraud scoring, the notification consumer, dlqctl, topic provisioning, interceptors and observability: no part in the guarantees.
- Store.Save and the Get queries: no writer of the pipeline uses them, and Save would store a payment without an outbox row.
- gRPC, pgx, go-redis and franz-go clients, configuration, signals and the wall clock.
- Progress: nothing is said about a process that is never scheduled or a store that never answers.
