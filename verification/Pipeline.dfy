/** The whole pipeline as one transition system over the shared stores. Every process may stop between
    any two steps, any number of each kind runs at the same time, and every statement, publish and
    commit may fail or fail to report success. */
module Pipeline {
  import opened Domain
  import opened Sequences
  import opened Schema
  import opened Ledger
  import opened Outbox
  import opened Kafka
  import opened Idempotency
  import opened Aggregation
  import opened Conservation

  /** SHA-256 and the broker's partitioner. */
  datatype Env = Env(hash: string -> string, partitionOf: string -> nat)

  /** A reply to a submission: `key` is the submission's own idempotency key, `claim` the key it claimed. */
  datatype Ack = Ack(paymentId: string, key: string, claim: string, deduplicated: bool)

  /** A relay between its query and the end of its batch; `sent`: the first row is acknowledged but
      not marked. */
  datatype RelayState = RelayState(ids: seq<nat>, sent: bool)

  /** Where a ledger consumer stands with the record at its position. LegsPending: Post has changed the
      payment's state, its own transaction is not committed yet; `nil` is what Post will return. */
  datatype Phase = Idle | LegsPending(nil: bool) | GivenUp | Finished

  datatype Worker = Worker(partition: nat, position: nat, phase: Phase)

  /** A settle between its aggregation and its last persist. */
  datatype EngineState = EngineState(start: int, end: int, groups: seq<CapturedGroup>)

  datatype System = System(
    db: Tables,
    redis: map<string, string>,
    submits: map<nat, Transaction>,
    acks: seq<Ack>,
    log: seq<Record>,
    relays: map<nat, RelayState>,
    committed: map<nat, nat>,
    workers: map<nat, Worker>,
    dlq: seq<DlqMessage>,
    engines: map<nat, EngineState>)

  const INIT := System(EMPTY, map[], map[], [], [], map[], map[], map[], [], map[])

  /* ---- intake ---- */

  datatype IntakeAction =
    | Claim(request: nat, txn: Transaction)
    | Store(request: nat, now: int, replied: bool)
    | Abandon(request: nat)
    | Expire(key: string)

  // What SubmitPayment stores: VALIDATED, created now.
  function ToStore(txn: Transaction, now: int): Transaction {
    txn.(state := VALIDATED, createdAt := now)
  }

  predicate IntakeEnabled(s: System, a: IntakeAction) {
    match a
    case Claim(request, _) => request !in s.submits
    case Store(request, now, _) => request in s.submits && Insertable(s.db, s.submits[request])
    case Abandon(request) => request in s.submits
    case Expire(_) => true
  }

  function IntakeStep(env: Env, s: System, a: IntakeAction): System
    requires IntakeEnabled(s, a)
  {
    match a
    case Claim(request, txn) =>
      var key := DeriveKey(txn, env.hash);
      if key in s.redis then s.(acks := s.acks + [Ack(s.redis[key], txn.idempotencyKey, key, true)])
      else s.(redis := s.redis[key := txn.paymentId], submits := s.submits[request := txn])
    case Store(request, now, replied) =>
      var txn := s.submits[request];
      s.(db := Saved(s.db, ToStore(txn, now)), submits := s.submits - {request},
         acks := s.acks + if replied then [Ack(txn.paymentId, txn.idempotencyKey, DeriveKey(txn, env.hash), false)]
                          else [])
    case Abandon(request) => s.(submits := s.submits - {request})
    case Expire(key) => s.(redis := s.redis - {key})
  }

  /* ---- relay ---- */

  datatype RelayAction =
    | Query(relay: nat, batchSize: nat)
    | Publish(relay: nat, publish: PublishOutcome)
    | Mark(relay: nat, mark: MarkOutcome)
    | StopRelay(relay: nat)

  predicate RelayEnabled(s: System, a: RelayAction) {
    match a
    case Query(relay, _) => relay !in s.relays
    case Publish(relay, _) => relay in s.relays && s.relays[relay].ids != [] && !s.relays[relay].sent
                              && s.relays[relay].ids[0] < |s.db.outbox|
    case Mark(relay, _) => relay in s.relays && s.relays[relay].ids != [] && s.relays[relay].sent
    case StopRelay(_) => true
  }

  function RelayStep(s: System, a: RelayAction): System
    requires RelayEnabled(s, a)
  {
    match a
    case Query(relay, batchSize) =>
      s.(relays := s.relays[relay := RelayState(Take(Unpublished(s.db.outbox), batchSize), false)])
    case Publish(relay, publish) =>
      var ids := s.relays[relay].ids;
      s.(log := s.log + if publish == NotAppended then [] else [RecordOf(s.db.outbox[ids[0]])],
         relays := if publish == Acked then s.relays[relay := RelayState(ids, true)] else s.relays - {relay})
    case Mark(relay, mark) =>
      var ids := s.relays[relay].ids;
      s.(db := if mark == MarkLost then s.db else s.db.(outbox := Marked(s.db.outbox, ids[0])),
         relays := if mark == MarkOk then s.relays[relay := RelayState(ids[1..], false)] else s.relays - {relay})
    case StopRelay(relay) => s.(relays := s.relays - {relay})
  }

  /* ---- ledger consumers ---- */

  // The partition's part of the payments.received topic; a record's offset is its place in it.
  function InPartition(env: Env, partition: nat): Record -> bool {
    (r: Record) => r.topic == PAYMENTS_RECEIVED && env.partitionOf(r.key) == partition
  }

  function PartitionLog(env: Env, log: seq<Record>, partition: nat): seq<Record> {
    Filter(log, InPartition(env, partition))
  }

  const LEDGER_CONSUMER := "ledger-consumer"
  const MAX_ATTEMPTS := 3

  function LetterOf(r: Record): DlqMessage {
    DlqMessage(PAYMENTS_RECEIVED, r.key, r.payload, LEDGER_CONSUMER, MAX_ATTEMPTS)
  }

  // The transaction handle builds from the event.
  function TransactionOf(e: PaymentReceivedEvent): Transaction {
    Transaction(e.paymentId, "", e.source, "", e.accountId, e.amountMinor, e.currency, e.state, e.createdAt)
  }

  predicate Malformed(r: Record) {
    !r.payload.Received? || r.payload.event.paymentId == "" || r.payload.event.accountId == ""
    || r.payload.event.currency == ""
  }

  datatype ConsumerAction =
    | Join(worker: nat, partition: nat)
    | RejectEvent(worker: nat)
    | PostFails(worker: nat, update: UpdateFault, giveUp: bool)
    | PostCaptures(worker: nat, update: UpdateFault)
    | PostCommits(worker: nat, giveUp: bool)
    | DeadLetter(worker: nat, publish: PublishOutcome)
    | CommitOffset(worker: nat, outcome: CommitOutcome)
    | StopWorker(worker: nat)

  predicate AtRecord(env: Env, s: System, worker: nat, phase: Phase) {
    worker in s.workers && s.workers[worker].phase == phase
    && s.workers[worker].position < |PartitionLog(env, s.log, s.workers[worker].partition)|
  }

  function RecordAt(env: Env, s: System, worker: nat): Record
    requires worker in s.workers
    requires s.workers[worker].position < |PartitionLog(env, s.log, s.workers[worker].partition)|
  {
    PartitionLog(env, s.log, s.workers[worker].partition)[s.workers[worker].position]
  }

  predicate ConsumerEnabled(env: Env, s: System, a: ConsumerAction) {
    match a
    case Join(worker, _) => worker !in s.workers
    case RejectEvent(worker) => AtRecord(env, s, worker, Idle) && Malformed(RecordAt(env, s, worker))
    case PostFails(worker, _, _) => AtRecord(env, s, worker, Idle) && !Malformed(RecordAt(env, s, worker))
    case PostCaptures(worker, _) =>
      AtRecord(env, s, worker, Idle) && !Malformed(RecordAt(env, s, worker))
      && RecordAt(env, s, worker).payload.event.amountMinor > 0
    case PostCommits(worker, _) =>
      worker in s.workers && s.workers[worker].phase.LegsPending?
      && AtRecord(env, s, worker, s.workers[worker].phase) && !Malformed(RecordAt(env, s, worker))
    case DeadLetter(worker, _) => AtRecord(env, s, worker, GivenUp)
    case CommitOffset(worker, _) => AtRecord(env, s, worker, Finished)
    case StopWorker(_) => true
  }

  // A consumer step in its four parts: the tables,
  function ConsumerTables(env: Env, s: System, a: ConsumerAction): Tables
    requires ConsumerEnabled(env, s, a)
  {
    match a
    case PostFails(worker, update, _) =>
      // the amount is not positive, or BEGIN or an INSERT failed and the payment may be marked FAILED
      var e := RecordAt(env, s, worker).payload.event;
      if e.amountMinor <= 0 then s.db else MarkFailed(s.db, e.paymentId, update)
    case PostCaptures(worker, update) =>
      Capture(s.db, RecordAt(env, s, worker).payload.event.paymentId, update)
    case PostCommits(worker, _) => LegsCommitted(s.db, TransactionOf(RecordAt(env, s, worker).payload.event))
    case _ => s.db
  }

  function InPhase(s: System, worker: nat, phase: Phase): map<nat, Worker>
    requires worker in s.workers
  {
    s.workers[worker := s.workers[worker].(phase := phase)]
  }

  // the consumers,
  function ConsumerWorkers(env: Env, s: System, a: ConsumerAction): map<nat, Worker>
    requires ConsumerEnabled(env, s, a)
  {
    match a
    case Join(worker, partition) => s.workers[worker := Worker(partition, At(s.committed, partition), Idle)]
    case RejectEvent(worker) => InPhase(s, worker, GivenUp)
    case PostFails(worker, _, giveUp) => InPhase(s, worker, if giveUp then GivenUp else Idle)
    case PostCaptures(worker, update) =>
      var result := CaptureResult(s.db, RecordAt(env, s, worker).payload.event.paymentId, update);
      InPhase(s, worker, LegsPending(result == Updated || ReadsAsCaptured(result)))
    case PostCommits(worker, giveUp) =>
      InPhase(s, worker, if s.workers[worker].phase.nil then Finished else if giveUp then GivenUp else Idle)
    case DeadLetter(worker, publish) =>
      if publish == Acked then InPhase(s, worker, Finished) else s.workers - {worker}
    case CommitOffset(worker, outcome) =>
      var w := s.workers[worker];
      if outcome == CommitOk then s.workers[worker := Worker(w.partition, w.position + 1, Idle)]
      else s.workers - {worker}
    case StopWorker(worker) => s.workers - {worker}
  }

  // the dead-letter queue,
  function ConsumerLetters(env: Env, s: System, a: ConsumerAction): seq<DlqMessage>
    requires ConsumerEnabled(env, s, a)
  {
    if a.DeadLetter? && a.publish != NotAppended then s.dlq + [LetterOf(RecordAt(env, s, a.worker))] else s.dlq
  }

  // and the committed offsets.
  function ConsumerOffsets(env: Env, s: System, a: ConsumerAction): map<nat, nat>
    requires ConsumerEnabled(env, s, a)
  {
    if a.CommitOffset? && a.outcome != CommitLost
    then s.committed[s.workers[a.worker].partition := s.workers[a.worker].position + 1]
    else s.committed
  }

  function ConsumerStep(env: Env, s: System, a: ConsumerAction): System
    requires ConsumerEnabled(env, s, a)
  {
    s.(db := ConsumerTables(env, s, a), workers := ConsumerWorkers(env, s, a),
       dlq := ConsumerLetters(env, s, a), committed := ConsumerOffsets(env, s, a))
  }

  /* ---- settlement engines ---- */

  datatype EngineAction =
    | AggregateWindow(engine: nat, start: int, end: int)
    | PersistGroup(engine: nat, batchId: string, payoutId: string, now: int, fails: bool)
    | StopEngine(engine: nat)

  predicate EngineEnabled(s: System, a: EngineAction) {
    match a
    case AggregateWindow(engine, start, end) =>
      engine !in s.engines && Scannable(Groups(s.db.transactions, start, end))
    case PersistGroup(engine, _, _, _, _) => engine in s.engines && s.engines[engine].groups != []
    case StopEngine(_) => true
  }

  function NextBatch(e: EngineState, batchId: string): Batch
    requires e.groups != []
  {
    BatchOf(e.groups[0], e.start, e.end, batchId)
  }

  function EngineStep(s: System, a: EngineAction): System
    requires EngineEnabled(s, a)
  {
    match a
    case AggregateWindow(engine, start, end) =>
      s.(engines := s.engines[engine := EngineState(start, end, Groups(s.db.transactions, start, end))])
    case PersistGroup(engine, batchId, payoutId, now, fails) =>
      var e := s.engines[engine];
      s.(db := if fails then s.db else Persisted(s.db, NextBatch(e, batchId), payoutId, now),
         engines := s.engines[engine := e.(groups := e.groups[1..])])
    case StopEngine(engine) => s.(engines := s.engines - {engine})
  }

  /* ---- runs ---- */

  datatype Action =
    | Intake(intake: IntakeAction)
    | Relaying(relaying: RelayAction)
    | Consuming(consuming: ConsumerAction)
    | Settling(settling: EngineAction)

  predicate Enabled(env: Env, s: System, a: Action) {
    match a
    case Intake(i) => IntakeEnabled(s, i)
    case Relaying(r) => RelayEnabled(s, r)
    case Consuming(c) => ConsumerEnabled(env, s, c)
    case Settling(e) => EngineEnabled(s, e)
  }

  function Step(env: Env, s: System, a: Action): System
    requires Enabled(env, s, a)
  {
    match a
    case Intake(i) => IntakeStep(env, s, i)
    case Relaying(r) => RelayStep(s, r)
    case Consuming(c) => ConsumerStep(env, s, c)
    case Settling(e) => EngineStep(s, e)
  }

  ghost predicate Next(env: Env, s: System, s': System) {
    exists a :: Enabled(env, s, a) && s' == Step(env, s, a)
  }

  /** A run from the empty system. */
  ghost predicate Run(env: Env, states: seq<System>) {
    && states != [] && states[0] == INIT
    && forall i, j :: 0 <= i < j < |states| && j == i + 1 ==> Next(env, states[i], states[j])
  }

  lemma RunPrefix(env: Env, states: seq<System>)
    requires Run(env, states) && |states| > 1
    ensures Run(env, states[..|states| - 1])
    ensures Next(env, states[|states| - 2], states[|states| - 1])
  {}
}
