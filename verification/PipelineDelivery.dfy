/** Delivery from the outbox to the ledger: what is marked is in the log, and what lies below a
    committed offset is posted or in the dead-letter queue. */
module PipelineDelivery {
  import opened Domain
  import opened Sequences
  import opened Schema
  import opened Lifecycle
  import opened Ledger
  import opened Outbox
  import opened Kafka
  import opened Idempotency
  import opened Pipeline
  import opened PipelineRows

  /* ---- the log holds copies of outbox rows, and every marked row ---- */

  ghost predicate Logged(outbox: seq<OutboxRow>, r: Record) {
    exists k :: 0 <= k < |outbox| && r == RecordOf(outbox[k])
  }

  ghost predicate LogOk(outbox: seq<OutboxRow>, log: seq<Record>) {
    && (forall r :: r in log ==> Logged(outbox, r))
    && (forall k :: 0 <= k < |outbox| && outbox[k].published ==> RecordOf(outbox[k]) in log)
  }

  ghost predicate RelayOk(outbox: seq<OutboxRow>, log: seq<Record>, r: RelayState) {
    && (forall k :: 0 <= k < |r.ids| ==> r.ids[k] < |outbox|)
    && (r.sent ==> r.ids != [] && RecordOf(outbox[r.ids[0]]) in log)
  }

  ghost predicate ChannelOk(s: System) {
    LogOk(s.db.outbox, s.log) && forall i :: i in s.relays ==> RelayOk(s.db.outbox, s.log, s.relays[i])
  }

  // Rows are added unpublished, or marked; their records stay.
  ghost predicate RecordsStay(outbox: seq<OutboxRow>, outbox': seq<OutboxRow>) {
    |outbox| <= |outbox'| && forall k :: 0 <= k < |outbox| ==> RecordOf(outbox'[k]) == RecordOf(outbox[k])
  }

  lemma LoggedStays(outbox: seq<OutboxRow>, outbox': seq<OutboxRow>, r: Record)
    requires RecordsStay(outbox, outbox') && Logged(outbox, r)
    ensures Logged(outbox', r)
  {
    var k :| 0 <= k < |outbox| && r == RecordOf(outbox[k]);
    assert r == RecordOf(outbox'[k]);
  }

  lemma OutboxGrows(s: System, outbox': seq<OutboxRow>)
    requires ChannelOk(s) && RecordsStay(s.db.outbox, outbox')
    requires forall k :: 0 <= k < |outbox'| && outbox'[k].published ==> RecordOf(outbox'[k]) in s.log
    ensures ChannelOk(s.(db := s.db.(outbox := outbox')))
  {
    forall r | r in s.log ensures Logged(outbox', r) {
      LoggedStays(s.db.outbox, outbox', r);
    }
  }

  lemma PublishChannelOk(s: System, a: RelayAction)
    requires ChannelOk(s) && RelayEnabled(s, a) && a.Publish?
    ensures ChannelOk(RelayStep(s, a))
  {
    var s' := RelayStep(s, a);
    var k := s.relays[a.relay].ids[0];
    assert forall r :: r in s'.log ==> r in s.log || r == RecordOf(s.db.outbox[k]);
    assert forall r :: r in s.log ==> r in s'.log;
    assert a.publish != NotAppended ==> s'.log[|s.log|] == RecordOf(s.db.outbox[k]);
    assert Logged(s.db.outbox, RecordOf(s.db.outbox[k]));
  }

  lemma RelayChannelOk(s: System, a: RelayAction)
    requires ChannelOk(s) && RelayEnabled(s, a)
    ensures ChannelOk(RelayStep(s, a))
  {
    match a
    case Publish(_, _) => PublishChannelOk(s, a);
    case Mark(relay, mark) =>
      assert RelayOk(s.db.outbox, s.log, s.relays[relay]);
      OutboxGrows(s, Marked(s.db.outbox, s.relays[relay].ids[0]));
    case _ =>
  }

  lemma IntakeChannelOk(env: Env, s: System, a: IntakeAction)
    requires ChannelOk(s) && IntakeEnabled(s, a)
    ensures ChannelOk(IntakeStep(env, s, a))
  {
    OutboxGrows(s, IntakeStep(env, s, a).db.outbox);
  }

  lemma EngineChannelOk(s: System, a: EngineAction)
    requires ChannelOk(s) && EngineEnabled(s, a)
    ensures ChannelOk(EngineStep(s, a))
  {
    OutboxGrows(s, EngineStep(s, a).db.outbox);
  }

  lemma ConsumerTablesOnly(env: Env, s: System, a: ConsumerAction)
    requires ConsumerEnabled(env, s, a)
    ensures var t := ConsumerTables(env, s, a); t.outbox == s.db.outbox && t.batches == s.db.batches
  {}

  // The channel, the acks and the engines are none of the consumers' business.
  lemma ConsumerChannelSame(env: Env, s: System, a: ConsumerAction)
    requires ConsumerEnabled(env, s, a)
    ensures var s' := ConsumerStep(env, s, a);
            && s'.db == ConsumerTables(env, s, a)
            && s'.log == s.log && s'.relays == s.relays && s'.acks == s.acks && s'.engines == s.engines
            && s'.db.outbox == s.db.outbox && s'.db.batches == s.db.batches
  {
    ConsumerTablesOnly(env, s, a);
  }

  /** Every step of every process keeps marked rows in the log and the log free of anything else. */
  lemma StepChannelOk(env: Env, s: System, a: Action)
    requires ChannelOk(s) && Enabled(env, s, a)
    ensures ChannelOk(Step(env, s, a))
  {
    match a
    case Intake(i) => IntakeChannelOk(env, s, i);
    case Relaying(r) => RelayChannelOk(s, r);
    case Consuming(c) => ConsumerChannelSame(env, s, c);
    case Settling(e) => EngineChannelOk(s, e);
  }

  /* ---- what a step may take away: nothing ---- */

  ghost predicate LegsKept(ledger: seq<Leg>, ledger': seq<Leg>) {
    forall l :: l in ledger ==> l in ledger'
  }

  /** Log, ledger and dead-letter queue only grow, the log by at most one record. */
  ghost predicate Grows(s: System, s': System) {
    && LegsKept(s.db.ledger, s'.db.ledger) && s.dlq <= s'.dlq
    && (s'.log == s.log || (s'.log != [] && s'.log[..|s'.log| - 1] == s.log))
  }

  lemma ConsumerGrows(env: Env, s: System, a: ConsumerAction)
    requires ConsumerEnabled(env, s, a)
    ensures Grows(s, ConsumerStep(env, s, a))
  {
    if a.PostCommits? {
      AddedLegs(s.db.ledger, TransactionOf(RecordAt(env, s, a.worker).payload.event));
    }
  }

  // What every process but a consumer leaves to the consumers.
  ghost predicate ConsumersSame(s: System, s': System) {
    Grows(s, s') && s'.db.ledger == s.db.ledger && s'.workers == s.workers && s'.committed == s.committed
  }

  lemma IntakeGrows(env: Env, s: System, a: IntakeAction)
    requires IntakeEnabled(s, a)
    ensures ConsumersSame(s, IntakeStep(env, s, a))
  {}

  lemma RelayGrows(s: System, a: RelayAction)
    requires RelayEnabled(s, a)
    ensures ConsumersSame(s, RelayStep(s, a)) && RelayStep(s, a).acks == s.acks
  {}

  lemma EngineGrows(s: System, a: EngineAction)
    requires EngineEnabled(s, a)
    ensures ConsumersSame(s, EngineStep(s, a)) && EngineStep(s, a).acks == s.acks
  {}

  /* ---- what lies below a position has been taken ---- */

  /** Some letter of the dead-letter queue replays the record to its topic, for the ledger's consumer group. */
  ghost predicate DeadLettered(dlq: seq<DlqMessage>, r: Record) {
    exists m :: m in dlq && IsLetter(m, r, "ledger-consumer", 3)
  }

  /** Both legs posted, or the record in the dead-letter queue. */
  ghost predicate Taken(ledger: seq<Leg>, dlq: seq<DlqMessage>, r: Record) {
    (r.payload.Received? && Posted(ledger, r.payload.event.paymentId)) || DeadLettered(dlq, r)
  }

  ghost predicate TakenBelow(env: Env, s: System, partition: nat, n: nat) {
    var records := PartitionLog(env, s.log, partition);
    n <= |records| && forall o :: 0 <= o < n ==> Taken(s.db.ledger, s.dlq, records[o])
  }

  function DoneBelow(w: Worker): nat {
    if w.phase == Finished then w.position + 1 else w.position
  }

  ghost predicate CommittedOk(env: Env, s: System) {
    forall p: nat :: TakenBelow(env, s, p, At(s.committed, p))
  }

  ghost predicate WorkersOk(env: Env, s: System) {
    forall i :: i in s.workers ==> TakenBelow(env, s, s.workers[i].partition, DoneBelow(s.workers[i]))
  }

  lemma PostedKept(ledger: seq<Leg>, ledger': seq<Leg>, paymentId: string)
    requires LegsKept(ledger, ledger') && Posted(ledger, paymentId)
    ensures Posted(ledger', paymentId)
  {
    var d :| d in ledger && d.paymentId == paymentId && d.direction == DEBIT;
    var c :| c in ledger && c.paymentId == paymentId && c.direction == CREDIT;
    assert d in ledger' && c in ledger';
  }

  lemma PartitionGrows(env: Env, log: seq<Record>, log': seq<Record>, partition: nat)
    requires log' == log || (log' != [] && log'[..|log'| - 1] == log)
    ensures PartitionLog(env, log, partition) <= PartitionLog(env, log', partition)
  {}

  lemma LetterKept(dlq: seq<DlqMessage>, dlq': seq<DlqMessage>, r: Record)
    requires dlq <= dlq' && DeadLettered(dlq, r)
    ensures DeadLettered(dlq', r)
  {
    var m :| m in dlq && IsLetter(m, r, "ledger-consumer", 3);
    assert m in dlq';
  }

  lemma TakenKept(env: Env, s: System, s': System, partition: nat, n: nat)
    requires Grows(s, s') && TakenBelow(env, s, partition, n)
    ensures TakenBelow(env, s', partition, n)
  {
    PartitionGrows(env, s.log, s'.log, partition);
    var records := PartitionLog(env, s.log, partition);
    forall o | 0 <= o < n ensures Taken(s'.db.ledger, s'.dlq, PartitionLog(env, s'.log, partition)[o]) {
      var r := records[o];
      assert PartitionLog(env, s'.log, partition)[o] == r;
      if r.payload.Received? && Posted(s.db.ledger, r.payload.event.paymentId) {
        PostedKept(s.db.ledger, s'.db.ledger, r.payload.event.paymentId);
      } else {
        LetterKept(s.dlq, s'.dlq, r);
      }
    }
  }

  /** The one record a step finishes is posted or dead-lettered by that step. */
  lemma FinishedIsTaken(env: Env, s: System, a: ConsumerAction)
    requires ConsumerEnabled(env, s, a) && (a.PostCommits? || a.DeadLetter?)
    requires var s' := ConsumerStep(env, s, a); a.worker in s'.workers && s'.workers[a.worker].phase == Finished
    ensures var s' := ConsumerStep(env, s, a); Taken(s'.db.ledger, s'.dlq, RecordAt(env, s, a.worker))
  {
    var r := RecordAt(env, s, a.worker);
    if a.PostCommits? {
      AddedLegs(s.db.ledger, TransactionOf(r.payload.event));
    } else {
      var s', p := ConsumerStep(env, s, a), s.workers[a.worker].partition;
      assert r in PartitionLog(env, s.log, p);
      FilterMember(s.log, InPartition(env, p), r);
      assert s'.dlq[|s.dlq|] == LetterOf(r) && IsLetter(LetterOf(r), r, "ledger-consumer", 3);
    }
  }

  /** How far a worker has got after a step: as far as before, to where it joins, or past the record
      it finishes. */
  lemma WorkerAfter(env: Env, s: System, a: ConsumerAction, i: nat)
    requires ConsumerEnabled(env, s, a) && i in ConsumerStep(env, s, a).workers
    ensures var w := ConsumerStep(env, s, a).workers[i];
            || (i in s.workers && s.workers[i].partition == w.partition
                && (DoneBelow(s.workers[i]) == DoneBelow(w) || (i == a.worker && (a.PostCommits? || a.DeadLetter?)
                    && w.phase == Finished && DoneBelow(s.workers[i]) + 1 == DoneBelow(w))))
            || DoneBelow(w) == At(s.committed, w.partition)
  {}

  lemma OneMoreTaken(env: Env, s: System, partition: nat, n: nat)
    requires TakenBelow(env, s, partition, n) && n < |PartitionLog(env, s.log, partition)|
    requires Taken(s.db.ledger, s.dlq, PartitionLog(env, s.log, partition)[n])
    ensures TakenBelow(env, s, partition, n + 1)
  {}

  lemma FinishingTakes(env: Env, s: System, a: ConsumerAction)
    requires ConsumerEnabled(env, s, a) && (a.PostCommits? || a.DeadLetter?)
    requires var s' := ConsumerStep(env, s, a); a.worker in s'.workers && s'.workers[a.worker].phase == Finished
    requires var w := s.workers[a.worker]; TakenBelow(env, ConsumerStep(env, s, a), w.partition, w.position)
    ensures var w := s.workers[a.worker]; TakenBelow(env, ConsumerStep(env, s, a), w.partition, w.position + 1)
  {
    var w := s.workers[a.worker];
    FinishedIsTaken(env, s, a);
    ConsumerChannelSame(env, s, a);
    OneMoreTaken(env, ConsumerStep(env, s, a), w.partition, w.position);
  }

  lemma WorkerTaken(env: Env, s: System, a: ConsumerAction, i: nat)
    requires CommittedOk(env, s) && WorkersOk(env, s) && ConsumerEnabled(env, s, a)
    requires i in ConsumerStep(env, s, a).workers && Grows(s, ConsumerStep(env, s, a))
    ensures var s' := ConsumerStep(env, s, a); TakenBelow(env, s', s'.workers[i].partition, DoneBelow(s'.workers[i]))
  {
    var s' := ConsumerStep(env, s, a);
    var w := s'.workers[i];
    WorkerAfter(env, s, a, i);
    if DoneBelow(w) == At(s.committed, w.partition) {
      TakenKept(env, s, s', w.partition, DoneBelow(w));
    } else {
      TakenKept(env, s, s', w.partition, DoneBelow(s.workers[i]));
      if DoneBelow(s.workers[i]) != DoneBelow(w) {
        FinishingTakes(env, s, a);
      }
    }
  }

  lemma OffsetAfter(env: Env, s: System, a: ConsumerAction, p: nat)
    requires ConsumerEnabled(env, s, a)
    ensures var o := At(ConsumerStep(env, s, a).committed, p);
            o == At(s.committed, p)
            || (a.CommitOffset? && s.workers[a.worker].partition == p && o == DoneBelow(s.workers[a.worker]))
  {}

  /** Whatever a consumer does, and wherever it is restarted, nothing below a committed offset is
      neither posted nor dead-lettered. */
  lemma ConsumerConsumersOk(env: Env, s: System, a: ConsumerAction)
    requires CommittedOk(env, s) && WorkersOk(env, s) && ConsumerEnabled(env, s, a)
    ensures CommittedOk(env, ConsumerStep(env, s, a)) && WorkersOk(env, ConsumerStep(env, s, a))
  {
    var s' := ConsumerStep(env, s, a);
    ConsumerGrows(env, s, a);
    forall p: nat ensures TakenBelow(env, s', p, At(s'.committed, p)) {
      OffsetAfter(env, s, a, p);
      TakenKept(env, s, s', p, At(s'.committed, p));
    }
    forall i | i in s'.workers ensures TakenBelow(env, s', s'.workers[i].partition, DoneBelow(s'.workers[i])) {
      WorkerTaken(env, s, a, i);
    }
  }

  lemma OthersConsumersOk(env: Env, s: System, s': System)
    requires CommittedOk(env, s) && WorkersOk(env, s) && ConsumersSame(s, s')
    ensures CommittedOk(env, s') && WorkersOk(env, s')
  {
    forall p: nat ensures TakenBelow(env, s', p, At(s.committed, p)) {
      TakenKept(env, s, s', p, At(s.committed, p));
    }
    forall i | i in s.workers ensures TakenBelow(env, s', s.workers[i].partition, DoneBelow(s.workers[i])) {
      TakenKept(env, s, s', s.workers[i].partition, DoneBelow(s.workers[i]));
    }
  }

  lemma StepConsumersOk(env: Env, s: System, a: Action)
    requires CommittedOk(env, s) && WorkersOk(env, s) && Enabled(env, s, a)
    ensures CommittedOk(env, Step(env, s, a)) && WorkersOk(env, Step(env, s, a))
  {
    match a
    case Intake(i) =>
      IntakeGrows(env, s, i);
      OthersConsumersOk(env, s, IntakeStep(env, s, i));
    case Relaying(r) =>
      RelayGrows(s, r);
      OthersConsumersOk(env, s, RelayStep(s, r));
    case Consuming(c) => ConsumerConsumersOk(env, s, c);
    case Settling(e) =>
      EngineGrows(s, e);
      OthersConsumersOk(env, s, EngineStep(s, e));
  }

  /* ---- acknowledged submissions ---- */

  ghost predicate HasStored(rows: seq<Transaction>, a: Ack) {
    exists i :: 0 <= i < |rows| && rows[i].paymentId == a.paymentId && rows[i].idempotencyKey == a.key
  }

  /** An ack that says "accepted" names a stored payment, and no two of them the same one. */
  ghost predicate AcksOk(s: System) {
    && (forall a :: a in s.acks && !a.deduplicated ==> HasStored(s.db.transactions, a))
    && (forall i, j :: 0 <= i < j < |s.acks| && !s.acks[i].deduplicated && !s.acks[j].deduplicated ==>
          s.acks[i].paymentId != s.acks[j].paymentId)
  }

  lemma StoredStays(rows: seq<Transaction>, rows': seq<Transaction>, a: Ack)
    requires HasStored(rows, a) && |rows| <= |rows'|
    requires forall i :: 0 <= i < |rows| ==> rows'[i] == rows[i].(state := rows'[i].state)
    ensures HasStored(rows', a)
  {
    var i :| 0 <= i < |rows| && rows[i].paymentId == a.paymentId && rows[i].idempotencyKey == a.key;
    assert rows'[i].paymentId == a.paymentId && rows'[i].idempotencyKey == a.key;
  }

  lemma NewAck(env: Env, s: System, a: IntakeAction)
    requires AcksOk(s) && IntakeEnabled(s, a) && a.Store?
    ensures AcksOk(IntakeStep(env, s, a))
  {
    var s' := IntakeStep(env, s, a);
    var txn, rows := s.submits[a.request], s.db.transactions;
    var ack := Ack(txn.paymentId, txn.idempotencyKey, DeriveKey(txn, env.hash), false);
    assert s'.db.transactions[|rows|] == ToStore(txn, a.now);
    assert HasStored(s'.db.transactions, ack);
    forall b | b in s.acks && !b.deduplicated
      ensures HasStored(s'.db.transactions, b) && b.paymentId != txn.paymentId
    {
      StoredStays(rows, s'.db.transactions, b);
      var i :| 0 <= i < |rows| && rows[i].paymentId == b.paymentId;
      assert rows[i] in rows;
    }
    assert forall b :: b in s'.acks ==> b in s.acks || b == ack;
    assert forall i :: 0 <= i < |s.acks| ==> s.acks[i] in s.acks;
  }

  // A step that accepts nothing.
  lemma AcksKept(s: System, s': System)
    requires AcksOk(s) && RowsMove(s.db.transactions, s'.db.transactions)
    requires || s'.acks == s.acks
             || (s'.acks != [] && s'.acks[..|s'.acks| - 1] == s.acks && s'.acks[|s.acks|].deduplicated)
    ensures AcksOk(s')
  {
    forall b | b in s'.acks && !b.deduplicated ensures HasStored(s'.db.transactions, b) {
      var i :| 0 <= i < |s'.acks| && s'.acks[i] == b;
      assert b == s.acks[i];
      StoredStays(s.db.transactions, s'.db.transactions, b);
    }
    assert forall i :: 0 <= i < |s.acks| ==> s'.acks[i] == s.acks[i];
  }

  lemma IntakeAcksOk(env: Env, s: System, a: IntakeAction)
    requires AcksOk(s) && IntakeEnabled(s, a)
    ensures AcksOk(IntakeStep(env, s, a))
  {
    if a.Store? {
      NewAck(env, s, a);
    } else {
      AcksKept(s, IntakeStep(env, s, a));
    }
  }

  lemma StepAcksOk(env: Env, s: System, a: Action)
    requires AcksOk(s) && Enabled(env, s, a)
    requires RowsMove(s.db.transactions, Step(env, s, a).db.transactions)
    ensures AcksOk(Step(env, s, a))
  {
    match a
    case Intake(i) => IntakeAcksOk(env, s, i);
    case Relaying(r) =>
      RelayGrows(s, r);
      AcksKept(s, RelayStep(s, r));
    case Consuming(c) =>
      ConsumerChannelSame(env, s, c);
      AcksKept(s, ConsumerStep(env, s, c));
    case Settling(e) =>
      EngineGrows(s, e);
      AcksKept(s, EngineStep(s, e));
  }

  /* ---- every run ---- */

  ghost predicate DeliveryOk(env: Env, s: System) {
    && RowsOk(s.db) && ChannelOk(s) && AcksOk(s)
    && CommittedOk(env, s) && WorkersOk(env, s)
  }

  lemma InitDeliveryOk(env: Env)
    ensures DeliveryOk(env, INIT)
  {}

  lemma {:induction false} RunDeliveryOk(env: Env, states: seq<System>)
    requires Run(env, states)
    ensures DeliveryOk(env, states[|states| - 1])
  {
    if |states| == 1 {
      InitDeliveryOk(env);
    } else {
      RunPrefix(env, states);
      RunDeliveryOk(env, states[..|states| - 1]);
      var s := states[|states| - 2];
      var a :| Enabled(env, s, a) && states[|states| - 1] == Step(env, s, a);
      StepRowsOk(env, s, a);
      StepChannelOk(env, s, a);
      StepAcksOk(env, s, a);
      StepConsumersOk(env, s, a);
    }
  }

  /** Below the committed offset of its partition every copy of the payment's event has been taken. */
  ghost predicate CopiesTaken(env: Env, s: System, paymentId: string) {
    forall p: nat, o: nat ::
      o < At(s.committed, p) && o < |PartitionLog(env, s.log, p)| ==>
        var r := PartitionLog(env, s.log, p)[o];
        r.payload.Received? && r.payload.event.paymentId == paymentId ==>
          Posted(s.db.ledger, paymentId) || DeadLettered(s.dlq, r)
  }

  /** Row i is announced by outbox row k, which is unmarked or in its partition of the log. */
  ghost predicate AnnouncedBy(env: Env, s: System, i: nat, k: nat) {
    && i < |s.db.transactions| && k < |s.db.outbox|
    && s.db.outbox[k].(published := false) == AnnouncementOf(s.db.transactions[i])
    && (s.db.outbox[k].published ==>
          RecordOf(s.db.outbox[k]) in PartitionLog(env, s.log, env.partitionOf(s.db.transactions[i].accountId)))
  }

  lemma AnnouncementStands(env: Env, s: System, i: nat) returns (k: nat)
    requires RowsOk(s.db) && ChannelOk(s) && i < |s.db.transactions|
    ensures AnnouncedBy(env, s, i, k)
  {
    k := RowHasEvent(s.db, i);
    var p := env.partitionOf(s.db.transactions[i].accountId);
    FilterMember(s.log, InPartition(env, p), RecordOf(s.db.outbox[k]));
  }

  /** No loss, end to end, over every run: a payment acknowledged as accepted is stored under the
      submission's key, announced by an outbox row that is still unmarked or in the log, and each copy
      below the ledger's committed offset has both legs posted or is in the dead-letter queue. */
  lemma NoLoss(env: Env, states: seq<System>, a: Ack) returns (i: nat, k: nat)
    requires Run(env, states)
    requires a in states[|states| - 1].acks && !a.deduplicated
    ensures var s := states[|states| - 1];
            && AnnouncedBy(env, s, i, k)
            && s.db.transactions[i].paymentId == a.paymentId && s.db.transactions[i].idempotencyKey == a.key
            && CopiesTaken(env, s, a.paymentId)
  {
    var s := states[|states| - 1];
    RunDeliveryOk(env, states);
    assert HasStored(s.db.transactions, a);
    var row :| 0 <= row < |s.db.transactions|
               && s.db.transactions[row].paymentId == a.paymentId && s.db.transactions[row].idempotencyKey == a.key;
    i := row;
    k := AnnouncementStands(env, s, i);
    assert forall p: nat :: TakenBelow(env, s, p, At(s.committed, p));
  }

  /* ---- the consumer's steps as those of its parts ---- */

  /** Giving a record up appends at most one letter, which replays it, and finishes the record exactly when the
      letter is acknowledged; otherwise the consumer ends. */
  lemma LetterAppended(env: Env, s: System, worker: nat, publish: PublishOutcome)
    requires ConsumerEnabled(env, s, DeadLetter(worker, publish))
    ensures var dlq' := ConsumerStep(env, s, DeadLetter(worker, publish)).dlq;
            if publish == NotAppended then dlq' == s.dlq
            else |dlq'| == |s.dlq| + 1 && dlq'[..|s.dlq|] == s.dlq
                 && IsLetter(dlq'[|s.dlq|], RecordAt(env, s, worker), "ledger-consumer", 3)
    ensures var workers' := ConsumerStep(env, s, DeadLetter(worker, publish)).workers;
            workers' == if publish == Acked then s.workers[worker := s.workers[worker].(phase := Finished)]
                        else s.workers - {worker}
  {
    var r, p := RecordAt(env, s, worker), s.workers[worker].partition;
    assert r in PartitionLog(env, s.log, p);
    FilterMember(s.log, InPartition(env, p), r);
  }

  /** Committing moves the partition's offset to one past the record, unless the commit is lost, and no other
      offset; the consumer goes on with the next record exactly when it is told of success. */
  lemma OffsetCommitted(env: Env, s: System, worker: nat, outcome: CommitOutcome, p: nat)
    requires ConsumerEnabled(env, s, CommitOffset(worker, outcome))
    ensures var w, s' := s.workers[worker], ConsumerStep(env, s, CommitOffset(worker, outcome));
            && At(s'.committed, p)
               == (if p == w.partition && outcome != CommitLost then w.position + 1 else At(s.committed, p))
            && (worker in s'.workers <==> outcome == CommitOk)
            && (outcome == CommitOk ==> s'.workers[worker] == Worker(w.partition, w.position + 1, Idle))
  {}

  /** A consumer starts at the committed offset of its partition, and nothing else changes. */
  lemma JoinsAtOffset(env: Env, s: System, worker: nat, partition: nat)
    requires worker !in s.workers
    ensures ConsumerEnabled(env, s, Join(worker, partition))
    ensures ConsumerStep(env, s, Join(worker, partition))
            == s.(workers := s.workers[worker := Worker(
                 partition, if partition in s.committed then s.committed[partition] else 0, Idle)])
  {}

  /** In every run a record of the log carries an outbox row's topic, partition key and payload, and a record of
      payments.received is keyed by the account of the stored payment that it announces. */
  lemma LogCarries(env: Env, states: seq<System>, r: Record) returns (k: nat, i: nat)
    requires Run(env, states) && r in states[|states| - 1].log
    ensures k < |states[|states| - 1].db.outbox|
    ensures var row := states[|states| - 1].db.outbox[k];
            r.topic == row.topic && r.key == row.partitionKey && r.payload == row.payload
    ensures r.topic == "payments.received" ==>
      && i < |states[|states| - 1].db.transactions| && r.payload.Received?
      && var x := states[|states| - 1].db.transactions[i];
         r.key == x.accountId && r.payload.event.paymentId == x.paymentId
  {
    RunDeliveryOk(env, states);
    var t := states[|states| - 1].db;
    assert Logged(t.outbox, r);
    var row: nat :| row < |t.outbox| && r == RecordOf(t.outbox[row]);
    k := row;
    if r.topic == PAYMENTS_RECEIVED {
      i := EventHasRow(t, k);
    } else {
      i := 0;
    }
  }

  // A step by which a consumer gives its record up.
  predicate GivesUp(s: System, a: ConsumerAction) {
    || a.RejectEvent?
    || (a.PostFails? && a.giveUp)
    || (a.PostCommits? && a.giveUp && a.worker in s.workers && s.workers[a.worker].phase == LegsPending(false))
  }

  /** A record that is given up does not stop its partition: a letter that is acknowledged and a commit that
      succeeds are the next two steps, and the consumer goes on with the next record. A malformed record is given
      up at once and leaves the tables as they are. */
  lemma GivenUpIsPassed(env: Env, s: System, a: ConsumerAction)
    requires ConsumerEnabled(env, s, a) && GivesUp(s, a)
    ensures var letter, commit := DeadLetter(a.worker, Acked), CommitOffset(a.worker, CommitOk);
            var s1 := ConsumerStep(env, s, a);
            && (a.RejectEvent? ==> s1.db == s.db)
            && ConsumerEnabled(env, s1, letter)
            && var s2 := ConsumerStep(env, s1, letter);
               && ConsumerEnabled(env, s2, commit)
               && var w, s3 := s.workers[a.worker], ConsumerStep(env, s2, commit);
                  && s3.db == s1.db && At(s3.committed, w.partition) == w.position + 1
                  && a.worker in s3.workers && s3.workers[a.worker] == Worker(w.partition, w.position + 1, Idle)
                  && |s3.dlq| == |s.dlq| + 1
                  && IsLetter(s3.dlq[|s.dlq|], RecordAt(env, s, a.worker), "ledger-consumer", 3)
  {
    var s1 := ConsumerStep(env, s, a);
    assert s1.log == s.log && s1.dlq == s.dlq;
    assert s1.workers[a.worker] == s.workers[a.worker].(phase := GivenUp);
    assert RecordAt(env, s1, a.worker) == RecordAt(env, s, a.worker);
    LetterAppended(env, s1, a.worker, Acked);
    LetterThenCommit(env, s1, a.worker);
  }

  lemma LetterThenCommit(env: Env, s: System, worker: nat)
    requires ConsumerEnabled(env, s, DeadLetter(worker, Acked))
    ensures var s2, commit := ConsumerStep(env, s, DeadLetter(worker, Acked)), CommitOffset(worker, CommitOk);
            && ConsumerEnabled(env, s2, commit)
            && var w, s3 := s.workers[worker], ConsumerStep(env, s2, commit);
               && s3.db == s.db && s3.dlq == s2.dlq && At(s3.committed, w.partition) == w.position + 1
               && worker in s3.workers && s3.workers[worker] == Worker(w.partition, w.position + 1, Idle)
  {}

  /** A failure that is not given up leaves the consumer at its record, ready to handle it again. */
  lemma RetriedAgain(env: Env, s: System, a: ConsumerAction)
    requires ConsumerEnabled(env, s, a) && (a.PostFails? || (a.PostCommits? && !s.workers[a.worker].phase.nil))
    requires !a.giveUp
    ensures var s' := ConsumerStep(env, s, a);
            && s'.workers == s.workers[a.worker := s.workers[a.worker].(phase := Idle)]
            && s'.dlq == s.dlq && s'.committed == s.committed
            && AtRecord(env, s', a.worker, Idle) && RecordAt(env, s', a.worker) == RecordAt(env, s, a.worker)
  {
    var s' := ConsumerStep(env, s, a);
    assert s'.log == s.log;
  }
}
