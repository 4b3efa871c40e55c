/** The settlement rows of the outbox: in every run they announce the batches, in order. */
module PipelineBatches {
  import opened Domain
  import opened Schema
  import opened Lifecycle
  import opened Outbox
  import opened Pipeline
  import opened PipelineRows
  import opened PipelineDelivery

  // The rows other than payment announcements, marks aside.
  function SettlementRows(outbox: seq<OutboxRow>): seq<OutboxRow> {
    if outbox == [] then []
    else
      var last := outbox[|outbox| - 1];
      SettlementRows(outbox[..|outbox| - 1]) + if last.payload.Received? then [] else [last.(published := false)]
  }

  predicate IsSettledOf(r: OutboxRow, b: Batch) {
    r == OutboxRow(b.id, "payments.settled", b.accountId,
                   Settled(SettledEvent(
                     batchId := b.id, accountId := b.accountId, currency := b.currency,
                     windowStart := b.windowStart, windowEnd := b.windowEnd,
                     totalMinor := b.totalMinor, txnCount := b.txnCount)), false)
  }

  predicate IsPayoutOf(r: OutboxRow, b: Batch) {
    && r.payload.Payout?
    && r == OutboxRow(b.id, "payouts.requested", b.accountId,
                      Payout(PayoutRequestedEvent(
                        payoutId := r.payload.payout.payoutId, batchId := b.id, accountId := b.accountId,
                        currency := b.currency, totalMinor := b.totalMinor,
                        requestedAt := r.payload.payout.requestedAt)), false)
  }

  /** For each batch in order its settled event and a payout request of its total. */
  ghost predicate PaidOut(rows: seq<OutboxRow>, batches: seq<Batch>) {
    if batches == [] then rows == []
    else
      var n, b := |rows| - 2, batches[|batches| - 1];
      n >= 0 && IsSettledOf(rows[n], b) && IsPayoutOf(rows[n + 1], b) && PaidOut(rows[..n], batches[..|batches| - 1])
  }

  ghost predicate BatchesAnnounced(t: Tables) {
    PaidOut(SettlementRows(t.outbox), t.batches)
  }

  lemma SettlementAppend(outbox: seq<OutboxRow>, row: OutboxRow)
    ensures SettlementRows(outbox + [row])
            == SettlementRows(outbox) + if row.payload.Received? then [] else [row.(published := false)]
  {
    assert (outbox + [row])[..|outbox|] == outbox;
  }

  lemma {:induction false} SettlementSame(a: seq<OutboxRow>, b: seq<OutboxRow>)
    requires |a| == |b| && forall k :: 0 <= k < |a| ==> b[k] == a[k].(published := b[k].published)
    ensures SettlementRows(a) == SettlementRows(b)
  {
    if a != [] {
      SettlementSame(a[..|a| - 1], b[..|b| - 1]);
    }
  }

  lemma PaidOutMore(rows: seq<OutboxRow>, batches: seq<Batch>, b: Batch, settled: OutboxRow, payout: OutboxRow)
    requires PaidOut(rows, batches) && IsSettledOf(settled, b) && IsPayoutOf(payout, b)
    ensures PaidOut(rows + [settled, payout], batches + [b])
  {
    assert (rows + [settled, payout])[..|rows|] == rows && (batches + [b])[..|batches|] == batches;
  }

  lemma SettlementPair(outbox: seq<OutboxRow>, settled: OutboxRow, payout: OutboxRow)
    requires !settled.payload.Received? && !payout.payload.Received? && !settled.published && !payout.published
    ensures SettlementRows(outbox + [settled, payout]) == SettlementRows(outbox) + [settled, payout]
  {
    SettlementAppend(outbox, settled);
    SettlementAppend(outbox + [settled], payout);
    assert outbox + [settled, payout] == outbox + [settled] + [payout];
  }

  lemma PersistAnnounced(t: Tables, b: Batch, payoutId: string, now: int)
    requires BatchesAnnounced(t)
    ensures BatchesAnnounced(Persisted(t, b, payoutId, now))
  {
    if !BatchExists(t, b) {
      var settled, payout := SettledRow(b), PayoutRow(b, payoutId, now);
      SettlementPair(t.outbox, settled, payout);
      PaidOutMore(SettlementRows(t.outbox), t.batches, b, settled, payout);
    }
  }

  // No step takes a batch away.
  ghost predicate BatchesGrow(t: Tables, t': Tables) {
    t.batches <= t'.batches
  }

  ghost predicate KeepsAnnouncing(t: Tables, t': Tables) {
    BatchesAnnounced(t') && BatchesGrow(t, t')
  }

  lemma IntakeAnnounced(env: Env, s: System, a: IntakeAction)
    requires BatchesAnnounced(s.db) && IntakeEnabled(s, a)
    ensures KeepsAnnouncing(s.db, IntakeStep(env, s, a).db)
  {
    if a.Store? {
      SettlementAppend(s.db.outbox, AnnouncementOf(ToStore(s.submits[a.request], a.now)));
      assert SettlementRows(IntakeStep(env, s, a).db.outbox) == SettlementRows(s.db.outbox);
    }
  }

  lemma RelayAnnounced(s: System, a: RelayAction)
    requires BatchesAnnounced(s.db) && RelayEnabled(s, a)
    ensures KeepsAnnouncing(s.db, RelayStep(s, a).db)
  {
    SettlementSame(s.db.outbox, RelayStep(s, a).db.outbox);
  }

  lemma EngineAnnounced(s: System, a: EngineAction)
    requires BatchesAnnounced(s.db) && EngineEnabled(s, a)
    ensures KeepsAnnouncing(s.db, EngineStep(s, a).db)
  {
    if a.PersistGroup? {
      PersistAnnounced(s.db, NextBatch(s.engines[a.engine], a.batchId), a.payoutId, a.now);
    }
  }

  lemma StepAnnounced(env: Env, s: System, a: Action)
    requires BatchesAnnounced(s.db) && Enabled(env, s, a)
    ensures KeepsAnnouncing(s.db, Step(env, s, a).db)
  {
    match a
    case Intake(i) => IntakeAnnounced(env, s, i);
    case Relaying(r) => RelayAnnounced(s, r);
    case Consuming(c) => ConsumerChannelSame(env, s, c);
    case Settling(e) => EngineAnnounced(s, e);
  }

  /** In every run the settlement rows of the outbox are, in order, one settled event and one payout
      request per batch, each with the batch's account, currency, window and total. */
  lemma {:induction false} RunBatchesAnnounced(env: Env, states: seq<System>)
    requires Run(env, states)
    ensures BatchesAnnounced(states[|states| - 1].db)
  {
    if |states| > 1 {
      RunPrefix(env, states);
      RunBatchesAnnounced(env, states[..|states| - 1]);
      var s := states[|states| - 2];
      var a :| Enabled(env, s, a) && states[|states| - 1] == Step(env, s, a);
      StepAnnounced(env, s, a);
    }
  }

  /* ---- no two rows of the outbox are the same record ---- */

  /** The primary key of settlement_batches. */
  ghost predicate DistinctBatchIds(batches: seq<Batch>) {
    forall i, j :: 0 <= i < j < |batches| ==> batches[i].id != batches[j].id
  }

  lemma {:induction false} SettlementAt(outbox: seq<OutboxRow>, k: nat)
    requires k < |outbox| && !outbox[k].payload.Received?
    ensures outbox[k].(published := false) in SettlementRows(outbox)
  {
    var n := |outbox| - 1;
    if k < n {
      SettlementAt(outbox[..n], k);
    }
  }

  lemma {:induction false} PaidOutOf(rows: seq<OutboxRow>, batches: seq<Batch>, r: OutboxRow) returns (b: Batch)
    requires PaidOut(rows, batches) && r in rows
    ensures b in batches && (IsSettledOf(r, b) || IsPayoutOf(r, b))
  {
    var n := |rows| - 2;
    if r in rows[..n] {
      b := PaidOutOf(rows[..n], batches[..|batches| - 1], r);
    } else {
      b := batches[|batches| - 1];
      assert r == rows[n] || r == rows[n + 1];
    }
  }

  /** Every settlement row belongs to a batch. */
  lemma RowHasBatch(t: Tables, k: nat) returns (b: Batch)
    requires BatchesAnnounced(t) && k < |t.outbox| && !t.outbox[k].payload.Received?
    ensures b in t.batches
    ensures var r := t.outbox[k].(published := false); IsSettledOf(r, b) || IsPayoutOf(r, b)
  {
    SettlementAt(t.outbox, k);
    b := PaidOutOf(SettlementRows(t.outbox), t.batches, t.outbox[k].(published := false));
  }

  lemma NewAnnouncementDiffers(t: Tables, txn: Transaction, k: nat)
    requires RowsOk(t) && Insertable(t, txn) && k < |t.outbox|
    ensures RecordOf(t.outbox[k]) != RecordOf(AnnouncementOf(txn))
  {
    if t.outbox[k].payload.Received? {
      var i := EventHasRow(t, k);
      assert t.transactions[i] in t.transactions;
    }
  }

  lemma NewBatchDiffers(t: Tables, b: Batch, payoutId: string, now: int, k: nat)
    requires BatchesAnnounced(t) && !BatchExists(t, b) && k < |t.outbox|
    requires forall c :: c in t.batches ==> c.id != b.id
    ensures RecordOf(t.outbox[k]) != RecordOf(SettledRow(b))
    ensures RecordOf(t.outbox[k]) != RecordOf(PayoutRow(b, payoutId, now))
  {
    if !t.outbox[k].payload.Received? {
      var c := RowHasBatch(t, k);
    }
  }

  lemma OneMoreDifferent<T>(rows: seq<T>, x: T)
    requires AllDifferent(rows) && forall k :: 0 <= k < |rows| ==> rows[k] != x
    ensures AllDifferent(rows + [x])
  {}

  lemma RecordsAppend(outbox: seq<OutboxRow>, row: OutboxRow)
    ensures Records(outbox + [row]) == Records(outbox) + [RecordOf(row)]
  {}

  lemma SavedDifferent(t: Tables, txn: Transaction)
    requires RowsOk(t) && Insertable(t, txn) && txn.state == VALIDATED && AllDifferent(Records(t.outbox))
    ensures AllDifferent(Records(Saved(t, txn).outbox))
  {
    forall k | 0 <= k < |t.outbox| ensures Records(t.outbox)[k] != RecordOf(AnnouncementOf(txn)) {
      NewAnnouncementDiffers(t, txn, k);
    }
    RecordsAppend(t.outbox, AnnouncementOf(txn));
    OneMoreDifferent(Records(t.outbox), RecordOf(AnnouncementOf(txn)));
  }

  lemma PersistDifferent(t: Tables, b: Batch, payoutId: string, now: int)
    requires BatchesAnnounced(t) && AllDifferent(Records(t.outbox))
    requires DistinctBatchIds(Persisted(t, b, payoutId, now).batches)
    ensures AllDifferent(Records(Persisted(t, b, payoutId, now).outbox))
  {
    if !BatchExists(t, b) {
      var settled, payout, records := SettledRow(b), PayoutRow(b, payoutId, now), Records(t.outbox);
      forall c | c in t.batches ensures c.id != b.id {
        var i :| 0 <= i < |t.batches| && t.batches[i] == c;
        assert (t.batches + [b])[i].id != (t.batches + [b])[|t.batches|].id;
      }
      forall k | 0 <= k < |t.outbox| ensures records[k] != RecordOf(settled) && records[k] != RecordOf(payout) {
        NewBatchDiffers(t, b, payoutId, now, k);
      }
      OneMoreDifferent(records, RecordOf(settled));
      OneMoreDifferent(records + [RecordOf(settled)], RecordOf(payout));
      assert t.outbox + [settled, payout] == t.outbox + [settled] + [payout];
      RecordsAppend(t.outbox, settled);
      RecordsAppend(t.outbox + [settled], payout);
    }
  }

  lemma IntakeDifferent(env: Env, s: System, a: IntakeAction)
    requires RowsOk(s.db) && AllDifferent(Records(s.db.outbox)) && IntakeEnabled(s, a)
    ensures AllDifferent(Records(IntakeStep(env, s, a).db.outbox))
  {
    if a.Store? {
      SavedDifferent(s.db, ToStore(s.submits[a.request], a.now));
    }
  }

  lemma RelayDifferent(s: System, a: RelayAction)
    requires AllDifferent(Records(s.db.outbox)) && RelayEnabled(s, a)
    ensures AllDifferent(Records(RelayStep(s, a).db.outbox))
  {
    assert Records(RelayStep(s, a).db.outbox) == Records(s.db.outbox);
  }

  lemma EngineDifferent(s: System, a: EngineAction)
    requires BatchesAnnounced(s.db) && AllDifferent(Records(s.db.outbox)) && EngineEnabled(s, a)
    requires DistinctBatchIds(EngineStep(s, a).db.batches)
    ensures AllDifferent(Records(EngineStep(s, a).db.outbox))
  {
    if a.PersistGroup? && !a.fails {
      PersistDifferent(s.db, NextBatch(s.engines[a.engine], a.batchId), a.payoutId, a.now);
    }
  }

  lemma StepDifferent(env: Env, s: System, a: Action)
    requires RowsOk(s.db) && BatchesAnnounced(s.db) && AllDifferent(Records(s.db.outbox)) && Enabled(env, s, a)
    requires DistinctBatchIds(Step(env, s, a).db.batches)
    ensures AllDifferent(Records(Step(env, s, a).db.outbox))
  {
    match a
    case Intake(i) => IntakeDifferent(env, s, i);
    case Relaying(r) => RelayDifferent(s, r);
    case Consuming(c) => ConsumerChannelSame(env, s, c);
    case Settling(e) => EngineDifferent(s, e);
  }

  lemma FewerBatches(t: Tables, t': Tables)
    requires BatchesGrow(t, t') && DistinctBatchIds(t'.batches)
    ensures DistinctBatchIds(t.batches)
  {
    assert forall i :: 0 <= i < |t.batches| ==> t.batches[i] == t'.batches[i];
  }

  /** In every run no two outbox rows are the same record. */
  lemma {:induction false} RunDifferent(env: Env, states: seq<System>)
    requires Run(env, states) && DistinctBatchIds(states[|states| - 1].db.batches)
    ensures AllDifferent(Records(states[|states| - 1].db.outbox))
  {
    if |states| > 1 {
      RunPrefix(env, states);
      var before := states[..|states| - 1];
      RunBatchesAnnounced(env, before);
      RunRowsOk(env, before);
      var s := states[|states| - 2];
      var a :| Enabled(env, s, a) && states[|states| - 1] == Step(env, s, a);
      StepAnnounced(env, s, a);
      FewerBatches(s.db, states[|states| - 1].db);
      RunDifferent(env, before);
      StepDifferent(env, s, a);
    }
  }
}
