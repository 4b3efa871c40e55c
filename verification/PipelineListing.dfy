/** What batches and pending groups list, over every run and without any assumption on the engines'
    windows. */
module PipelineListing {
  import opened Domain
  import opened Schema
  import opened Lifecycle
  import opened Aggregation
  import opened Conservation
  import opened Pipeline
  import opened PipelineRows
  import opened PipelineLedger
  import opened PipelineBatches
  import opened Sequences
  import opened PipelineSettlement

  const SEEN: set<State> := {CAPTURED, SETTLED, RECONCILED}

  /** The payments of every group still to be persisted are stored, captured or settled meanwhile, and add
      up to the group. */
  ghost predicate PendingBacked(t: Tables, engines: map<nat, EngineState>) {
    forall i, g :: i in engines && g in engines[i].groups ==>
      Backed(t.transactions, BatchOf(g, engines[i].start, engines[i].end, ""), SEEN)
  }

  ghost predicate Listed(batches: seq<Batch>, paymentId: string) {
    exists b :: b in batches && paymentId in b.paymentIds
  }

  /** A stored payment is settled exactly when a batch lists it, and batches list stored payments only. */
  ghost predicate ListingOk(t: Tables) {
    && (forall k :: 0 <= k < |t.transactions| ==>
          (Done(t.transactions[k].state) <==> Listed(t.batches, t.transactions[k].paymentId)))
    && (forall id :: Listed(t.batches, id) ==> HasRow(t.transactions, id))
  }

  lemma AsidePending(s: System, s': System)
    requires PendingBacked(s.db, s.engines) && Aside(s, s')
    ensures PendingBacked(s'.db, s'.engines)
  {
    forall i, g | i in s'.engines && g in s'.engines[i].groups
      ensures Backed(s'.db.transactions, BatchOf(g, s'.engines[i].start, s'.engines[i].end, ""), SEEN)
    {
      QuietBacked(s.db.transactions, s'.db.transactions, BatchOf(g, s.engines[i].start, s.engines[i].end, ""), SEEN);
    }
  }

  lemma NewRowIsNew(rows: seq<Transaction>, rows': seq<Transaction>, k: nat)
    requires Quiet(rows, rows') && DistinctIds(rows') && |rows| <= k < |rows'|
    ensures !HasRow(rows, rows'[k].paymentId)
  {
    assert forall i :: 0 <= i < |rows| ==> rows'[i].paymentId == rows[i].paymentId;
  }

  lemma AsideListing(s: System, s': System)
    requires ListingOk(s.db) && Aside(s, s')
    ensures ListingOk(s'.db)
  {
    var rows, rows' := s.db.transactions, s'.db.transactions;
    forall id | Listed(s.db.batches, id) ensures HasRow(rows', id) {
      var i :| 0 <= i < |rows| && rows[i].paymentId == id;
      assert rows'[i].paymentId == id;
    }
    forall k | 0 <= k < |rows'|
      ensures Done(rows'[k].state) <==> Listed(s.db.batches, rows'[k].paymentId)
    {
      if k >= |rows| {
        NewRowIsNew(rows, rows', k);
      }
    }
  }

  lemma PersistKeepsBacked(t: Tables, b: Batch, payoutId: string, now: int, c: Batch)
    requires DistinctIds(t.transactions) && Backed(t.transactions, c, SEEN)
    ensures Backed(Persisted(t, b, payoutId, now).transactions, c, SEEN)
  {
    var rows' := Persisted(t, b, payoutId, now).transactions;
    SameRows(t.transactions, rows', "");
    BackedKept(t.transactions, rows', c, SEEN, SEEN);
  }

  lemma PersistListing(t: Tables, b: Batch, payoutId: string, now: int)
    requires DistinctIds(t.transactions) && ListingOk(t) && Backed(t.transactions, b, SEEN)
    ensures ListingOk(Persisted(t, b, payoutId, now))
  {
    if !BatchExists(t, b) {
      var t' := Persisted(t, b, payoutId, now);
      forall id ensures Listed(t'.batches, id) <==> Listed(t.batches, id) || id in b.paymentIds {
        ListedMore(t.batches, b, id);
      }
      forall id | Listed(t'.batches, id) ensures HasRow(t'.transactions, id) {
        SameRows(t.transactions, t'.transactions, id);
      }
    }
  }

  lemma ListedMore(batches: seq<Batch>, b: Batch, id: string)
    ensures Listed(batches + [b], id) <==> Listed(batches, id) || id in b.paymentIds
  {
    assert b in batches + [b];
    if Listed(batches, id) {
      var c :| c in batches && id in c.paymentIds;
      assert c in batches + [b];
    }
  }

  lemma AggregatePending(s: System, a: EngineAction)
    requires DistinctIds(s.db.transactions) && PendingBacked(s.db, s.engines)
    requires EngineEnabled(s, a) && a.AggregateWindow?
    ensures PendingBacked(s.db, EngineStep(s, a).engines)
  {
    var rows, engines' := s.db.transactions, EngineStep(s, a).engines;
    forall i, g | i in engines' && g in engines'[i].groups
      ensures Backed(rows, BatchOf(g, engines'[i].start, engines'[i].end, ""), SEEN)
    {
      if i == a.engine {
        var k :| 0 <= k < |Groups(rows, a.start, a.end)| && Groups(rows, a.start, a.end)[k] == g;
        GroupBacked(rows, Keys(rows, a.start, a.end)[k], a.start, a.end, "");
      }
    }
  }

  lemma NextListed(s: System, engine: nat, batchId: string)
    requires PendingBacked(s.db, s.engines) && engine in s.engines && s.engines[engine].groups != []
    ensures Backed(s.db.transactions, NextBatch(s.engines[engine], batchId), SEEN)
  {
    var e := s.engines[engine];
    assert e.groups[0] in e.groups;
    assert Backed(s.db.transactions, BatchOf(e.groups[0], e.start, e.end, ""), SEEN);
  }

  lemma PersistPending(s: System, a: EngineAction)
    requires DistinctIds(s.db.transactions) && PendingBacked(s.db, s.engines) && EngineEnabled(s, a) && a.PersistGroup?
    ensures PendingBacked(EngineStep(s, a).db, EngineStep(s, a).engines)
  {
    var s' := EngineStep(s, a);
    var b := NextBatch(s.engines[a.engine], a.batchId);
    forall i, g | i in s'.engines && g in s'.engines[i].groups
      ensures Backed(s'.db.transactions, BatchOf(g, s'.engines[i].start, s'.engines[i].end, ""), SEEN)
    {
      assert g in s.engines[i].groups;
      PersistKeepsBacked(s.db, b, a.payoutId, a.now, BatchOf(g, s.engines[i].start, s.engines[i].end, ""));
    }
  }

  ghost predicate ListsOk(s: System) {
    PendingBacked(s.db, s.engines) && ListingOk(s.db)
  }

  lemma EngineLists(s: System, a: EngineAction)
    requires RowsOk(s.db) && ListsOk(s) && EngineEnabled(s, a)
    ensures ListsOk(EngineStep(s, a))
  {
    match a
    case AggregateWindow(_, _, _) => AggregatePending(s, a);
    case PersistGroup(engine, batchId, payoutId, now, _) =>
      PersistPending(s, a);
      NextListed(s, engine, batchId);
      PersistListing(s.db, NextBatch(s.engines[engine], batchId), payoutId, now);
    case StopEngine(_) =>
  }

  lemma AsideLists(s: System, s': System)
    requires ListsOk(s) && Aside(s, s')
    ensures ListsOk(s')
  {
    AsidePending(s, s');
    AsideListing(s, s');
  }

  lemma StepLists(env: Env, s: System, a: Action)
    requires RowsOk(s.db) && ListsOk(s) && Enabled(env, s, a)
    ensures ListsOk(Step(env, s, a))
  {
    match a
    case Intake(i) =>
      IntakeAside(env, s, i);
      AsideLists(s, IntakeStep(env, s, i));
    case Relaying(r) =>
      RelayAside(s, r);
      AsideLists(s, RelayStep(s, r));
    case Consuming(c) =>
      ConsumerAside(env, s, c);
      AsideLists(s, ConsumerStep(env, s, c));
    case Settling(e) => EngineLists(s, e);
  }

  lemma {:induction false} RunLists(env: Env, states: seq<System>)
    requires Run(env, states)
    ensures ListsOk(states[|states| - 1])
  {
    if |states| > 1 {
      RunPrefix(env, states);
      RunLists(env, states[..|states| - 1]);
      RunRowsOk(env, states[..|states| - 1]);
      var s := states[|states| - 2];
      var a :| Enabled(env, s, a) && states[|states| - 1] == Step(env, s, a);
      StepLists(env, s, a);
    }
  }

  /** When exactly a payment is settled, over every run, with any number of engines and any windows: if and
      only if some batch lists it. */
  lemma SettledExactlyWhen(env: Env, states: seq<System>, k: nat)
    requires Run(env, states) && k < |states[|states| - 1].db.transactions|
    ensures var t := states[|states| - 1].db;
            t.transactions[k].state in {SETTLED, RECONCILED} <==> Listed(t.batches, t.transactions[k].paymentId)
  {
    RunLists(env, states);
  }

  ghost predicate AllCaptured(rows: seq<Transaction>, ids: seq<string>) {
    forall i :: 0 <= i < |rows| && rows[i].paymentId in ids ==> rows[i].state == CAPTURED
  }

  lemma PersistExactly(s: System, a: EngineAction)
    requires RowsOk(s.db) && CapturedOk(s.db.transactions, s.log) && PendingBacked(s.db, s.engines)
    requires Conserved(s.db) && EngineEnabled(s, a) && a.PersistGroup? && !a.fails
    ensures var b := NextBatch(s.engines[a.engine], a.batchId);
            Conserved(EngineStep(s, a).db) <==> BatchExists(s.db, b) || AllCaptured(s.db.transactions, b.paymentIds)
  {
    var b := NextBatch(s.engines[a.engine], a.batchId);
    NextListed(s, a.engine, a.batchId);
    if !BatchExists(s.db, b) {
      forall i | 0 <= i < |s.db.transactions| && s.db.transactions[i].paymentId in b.paymentIds
        ensures s.db.transactions[i].minorUnits > 0
      {
        assert Captured(s.db.transactions[i].state);
      }
      PersistConservesExactlyWhen(s.db, b, a.payoutId, a.now, SEEN);
    }
  }

  /** When exactly a persist keeps conservation, over every run, with any number of engines and any windows:
      if and only if the batch's key is taken or every payment it lists is still CAPTURED. */
  lemma PersistStepConservesExactlyWhen(env: Env, states: seq<System>, a: EngineAction)
    requires Run(env, states) && Conserved(states[|states| - 1].db)
    requires EngineEnabled(states[|states| - 1], a) && a.PersistGroup? && !a.fails
    ensures var s := states[|states| - 1]; var b := NextBatch(s.engines[a.engine], a.batchId);
            Conserved(EngineStep(s, a).db) <==> BatchExists(s.db, b) || AllCaptured(s.db.transactions, b.paymentIds)
  {
    RunLists(env, states);
    RunPostingOk(env, states);
    PersistExactly(states[|states| - 1], a);
  }

  /* ---- what the settlement events say ---- */

  const DONE: set<State> := {SETTLED, RECONCILED}

  /** In every run a batch is backed by the settled payments it lists, whatever the windows. */
  ghost predicate BatchesSettled(t: Tables) {
    forall b :: b in t.batches ==> Backed(t.transactions, b, DONE)
  }

  lemma AsideSettled(s: System, s': System)
    requires BatchesSettled(s.db) && Aside(s, s')
    ensures BatchesSettled(s'.db)
  {
    forall b | b in s'.db.batches ensures Backed(s'.db.transactions, b, DONE) {
      QuietBacked(s.db.transactions, s'.db.transactions, b, DONE);
    }
  }

  lemma PersistKeepsDone(t: Tables, b: Batch, payoutId: string, now: int, c: Batch)
    requires DistinctIds(t.transactions) && Backed(t.transactions, c, DONE)
    ensures Backed(Persisted(t, b, payoutId, now).transactions, c, DONE)
  {
    var rows' := Persisted(t, b, payoutId, now).transactions;
    SameRows(t.transactions, rows', "");
    BackedKept(t.transactions, rows', c, DONE, DONE);
  }

  lemma PersistSettled(t: Tables, b: Batch, payoutId: string, now: int)
    requires DistinctIds(t.transactions) && BatchesSettled(t) && Backed(t.transactions, b, SEEN)
    ensures BatchesSettled(Persisted(t, b, payoutId, now))
  {
    if !BatchExists(t, b) {
      var rows' := Persisted(t, b, payoutId, now).transactions;
      SameRows(t.transactions, rows', "");
      BackedKept(t.transactions, rows', b, SEEN, DONE);
      forall c | c in t.batches ensures Backed(rows', c, DONE) {
        PersistKeepsDone(t, b, payoutId, now, c);
      }
    }
  }

  lemma EngineSettled(s: System, a: EngineAction)
    requires RowsOk(s.db) && PendingBacked(s.db, s.engines) && BatchesSettled(s.db) && EngineEnabled(s, a)
    ensures BatchesSettled(EngineStep(s, a).db)
  {
    if a.PersistGroup? {
      NextListed(s, a.engine, a.batchId);
      PersistSettled(s.db, NextBatch(s.engines[a.engine], a.batchId), a.payoutId, a.now);
    }
  }

  lemma StepSettled(env: Env, s: System, a: Action)
    requires RowsOk(s.db) && PendingBacked(s.db, s.engines) && BatchesSettled(s.db) && Enabled(env, s, a)
    ensures BatchesSettled(Step(env, s, a).db)
  {
    match a
    case Intake(i) =>
      IntakeAside(env, s, i);
      AsideSettled(s, IntakeStep(env, s, i));
    case Relaying(r) =>
      RelayAside(s, r);
      AsideSettled(s, RelayStep(s, r));
    case Consuming(c) =>
      ConsumerAside(env, s, c);
      AsideSettled(s, ConsumerStep(env, s, c));
    case Settling(e) => EngineSettled(s, e);
  }

  lemma {:induction false} RunBatchesSettled(env: Env, states: seq<System>)
    requires Run(env, states)
    ensures BatchesSettled(states[|states| - 1].db)
  {
    if |states| > 1 {
      RunPrefix(env, states);
      RunBatchesSettled(env, states[..|states| - 1]);
      RunLists(env, states[..|states| - 1]);
      RunRowsOk(env, states[..|states| - 1]);
      var s := states[|states| - 2];
      var a :| Enabled(env, s, a) && states[|states| - 1] == Step(env, s, a);
      StepSettled(env, s, a);
    }
  }

  // The payments, all of one account, currency and window, that add up to a total and a count.
  ghost predicate AddsUp(rows: seq<Transaction>, ids: seq<string>, accountId: string, currency: string,
                         start: int, end: int, total: int, count: int) {
    && (forall i :: 0 <= i < |rows| && rows[i].paymentId in ids ==>
          && rows[i].accountId == accountId && rows[i].currency == currency && start <= rows[i].createdAt < end
          && rows[i].state in {SETTLED, RECONCILED})
    && total == Sum(rows, AmountAmong(ids)) && count == Sum(rows, OneAmong(ids))
  }

  /** What a settled event says, in every run: it is keyed by the account and names a batch, and account, currency,
      window, total and count are those of the settled payments that the batch lists. */
  lemma SettledEventSays(env: Env, states: seq<System>, k: nat) returns (b: Batch)
    requires Run(env, states) && k < |states[|states| - 1].db.outbox|
    requires states[|states| - 1].db.outbox[k].payload.Settled?
    ensures var t, row := states[|states| - 1].db, states[|states| - 1].db.outbox[k];
            var e := row.payload.settled;
            && b in t.batches && e.batchId == b.id && row.aggregateId == b.id
            && row.topic == "payments.settled" && row.partitionKey == e.accountId
            && AddsUp(t.transactions, b.paymentIds, e.accountId, e.currency, e.windowStart, e.windowEnd,
                      e.totalMinor, e.txnCount)
  {
    RunBatchesAnnounced(env, states);
    RunBatchesSettled(env, states);
    b := RowHasBatch(states[|states| - 1].db, k);
  }

  /** What a payout request says, in every run: it is keyed by the account and names a batch, and asks for what the
      settled payments of the account and currency that the batch lists add up to. */
  lemma PayoutSays(env: Env, states: seq<System>, k: nat) returns (b: Batch)
    requires Run(env, states) && k < |states[|states| - 1].db.outbox|
    requires states[|states| - 1].db.outbox[k].payload.Payout?
    ensures var t, row := states[|states| - 1].db, states[|states| - 1].db.outbox[k];
            var e := row.payload.payout;
            && b in t.batches && e.batchId == b.id && row.aggregateId == b.id
            && row.topic == "payouts.requested" && row.partitionKey == e.accountId
            && AddsUp(t.transactions, b.paymentIds, e.accountId, e.currency, b.windowStart, b.windowEnd,
                      e.totalMinor, b.txnCount)
  {
    RunBatchesAnnounced(env, states);
    RunBatchesSettled(env, states);
    b := RowHasBatch(states[|states| - 1].db, k);
  }
}
