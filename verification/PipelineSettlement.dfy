/** Settlement over whole runs: what is batched, what is paid out and what is settled is the same
    money, as long as engines at work have equal or disjoint windows. */
module PipelineSettlement {
  import opened Domain
  import opened Sequences
  import opened Schema
  import opened Lifecycle
  import opened Outbox
  import opened Kafka
  import opened Aggregation
  import opened Conservation
  import Settlement
  import opened Pipeline
  import opened PipelineRows
  import opened PipelineDelivery
  import opened PipelineLedger

  /* ---- every run: no batch twice, none empty ---- */

  ghost predicate SameKey(b: Batch, c: Batch) {
    && b.accountId == c.accountId && b.currency == c.currency
    && b.windowStart == c.windowStart && b.windowEnd == c.windowEnd
  }

  /** One batch per account, currency and window, and none without payments or money. */
  ghost predicate BatchesSound(batches: seq<Batch>) {
    && (forall i, j :: 0 <= i < j < |batches| ==> !SameKey(batches[i], batches[j]))
    && (forall i :: 0 <= i < |batches| ==> batches[i].txnCount >= 1 && batches[i].totalMinor > 0)
  }

  ghost predicate GroupsSound(engines: map<nat, EngineState>) {
    forall i :: i in engines ==> forall g :: g in engines[i].groups ==> g.txnCount >= 1 && g.totalMinor > 0
  }

  lemma AggregatedSound(rows: seq<Transaction>, start: int, end: int, g: CapturedGroup)
    requires g in Groups(rows, start, end)
    requires forall i :: 0 <= i < |rows| && rows[i].state == CAPTURED ==> rows[i].minorUnits > 0
    ensures g.txnCount >= 1 && g.totalMinor > 0
  {
    var k :| 0 <= k < |Groups(rows, start, end)| && Groups(rows, start, end)[k] == g;
    GroupPositive(rows, Keys(rows, start, end)[k], start, end);
  }

  lemma PersistSound(t: Tables, b: Batch, payoutId: string, now: int)
    requires BatchesSound(t.batches) && b.txnCount >= 1 && b.totalMinor > 0
    ensures BatchesSound(Persisted(t, b, payoutId, now).batches)
  {
    assert forall i :: 0 <= i < |t.batches| ==> t.batches[i] in t.batches;
  }

  lemma EngineSound(env: Env, s: System, a: EngineAction)
    requires RowsOk(s.db) && CapturedOk(s.db.transactions, s.log)
    requires BatchesSound(s.db.batches) && GroupsSound(s.engines) && EngineEnabled(s, a)
    ensures BatchesSound(EngineStep(s, a).db.batches) && GroupsSound(EngineStep(s, a).engines)
  {
    match a
    case AggregateWindow(engine, start, end) =>
      forall g | g in Groups(s.db.transactions, start, end) ensures g.txnCount >= 1 && g.totalMinor > 0 {
        AggregatedSound(s.db.transactions, start, end, g);
      }
    case PersistGroup(engine, batchId, payoutId, now, _) =>
      assert s.engines[engine].groups[0] in s.engines[engine].groups;
      PersistSound(s.db, NextBatch(s.engines[engine], batchId), payoutId, now);
    case StopEngine(_) =>
  }

  /* ---- runs in which engines at work do not half overlap ---- */

  predicate EqualOrDisjoint(e: EngineState, f: EngineState) {
    (e.start == f.start && e.end == f.end) || e.end <= f.start || f.end <= e.start
  }

  /** The windows of engines with groups still to persist are pairwise equal or disjoint. One engine
      at a time is the special case without a pair. */
  ghost predicate Compatible(s: System) {
    forall i, j :: i in s.engines && j in s.engines && i != j
                   && s.engines[i].groups != [] && s.engines[j].groups != [] ==>
      EqualOrDisjoint(s.engines[i], s.engines[j])
  }

  /** Every batch stands for settled payments of its own, which add up to it. */
  ghost predicate BatchesBacked(t: Tables) {
    && (forall i :: 0 <= i < |t.batches| ==> Backed(t.transactions, t.batches[i], {SETTLED, RECONCILED}))
    && (forall i, j, id :: 0 <= i < j < |t.batches| && id in t.batches[i].paymentIds ==> id !in t.batches[j].paymentIds)
  }

  // A group still to be persisted finds its key taken, or all its payments captured.
  ghost predicate GroupOk(t: Tables, g: CapturedGroup, start: int, end: int) {
    || HasBatch(t.batches, g.accountId, g.currency, start, end)
    || Backed(t.transactions, BatchOf(g, start, end, ""), {CAPTURED})
  }

  ghost predicate EngineOk(t: Tables, e: EngineState) {
    && (forall k :: 0 <= k < |e.groups| ==> GroupOk(t, e.groups[k], e.start, e.end))
    && (forall k, m :: 0 <= k < m < |e.groups| ==>
          (e.groups[k].accountId, e.groups[k].currency) != (e.groups[m].accountId, e.groups[m].currency))
  }

  ghost predicate EnginesOk(t: Tables, engines: map<nat, EngineState>) {
    forall i :: i in engines ==> EngineOk(t, engines[i])
  }

  ghost predicate SettlementOk(s: System) {
    Conserved(s.db) && BatchesBacked(s.db) && EnginesOk(s.db, s.engines)
  }

  /* ---- steps outside settlement ---- */

  // Payments that settlement has seen are left alone, and none is settled.
  ghost predicate Quiet(rows: seq<Transaction>, rows': seq<Transaction>) {
    && |rows| <= |rows'|
    && (forall i :: 0 <= i < |rows| ==>
          && rows'[i] == rows[i].(state := rows'[i].state)
          && (rows[i].state in {CAPTURED, SETTLED, RECONCILED} ==> rows'[i].state == rows[i].state)
          && (Done(rows'[i].state) ==> Done(rows[i].state)))
    && (forall i :: |rows| <= i < |rows'| ==> !Done(rows'[i].state))
  }

  ghost predicate SamePayouts(outbox: seq<OutboxRow>, outbox': seq<OutboxRow>) {
    forall key: Key :: Sum(outbox', PayoutAmount(key)) == Sum(outbox, PayoutAmount(key))
  }

  // What a step outside settlement does.
  ghost predicate Aside(s: System, s': System) {
    && Quiet(s.db.transactions, s'.db.transactions) && DistinctIds(s'.db.transactions)
    && SamePayouts(s.db.outbox, s'.db.outbox)
    && s'.db.batches == s.db.batches && s'.engines == s.engines
  }

  lemma QuietBacked(rows: seq<Transaction>, rows': seq<Transaction>, b: Batch, states: set<State>)
    requires Quiet(rows, rows') && DistinctIds(rows') && Backed(rows, b, states)
    requires states <= {CAPTURED, SETTLED, RECONCILED}
    ensures Backed(rows', b, states)
  {
    BackedKept(rows, rows', b, states, states);
  }

  lemma QuietConserved(t: Tables, t': Tables)
    requires Conserved(t) && Quiet(t.transactions, t'.transactions)
    requires t'.batches == t.batches && SamePayouts(t.outbox, t'.outbox)
    ensures Conserved(t')
  {
    forall key: Key ensures Sum(t'.transactions, SettledAmount(key)) == Sum(t.transactions, SettledAmount(key)) {
      SumKept(t.transactions, t'.transactions, SettledAmount(key));
    }
  }

  lemma AsideEngine(t: Tables, t': Tables, e: EngineState)
    requires EngineOk(t, e) && Quiet(t.transactions, t'.transactions) && DistinctIds(t'.transactions)
    requires t'.batches == t.batches
    ensures EngineOk(t', e)
  {
    forall k | 0 <= k < |e.groups| ensures GroupOk(t', e.groups[k], e.start, e.end) {
      if Backed(t.transactions, BatchOf(e.groups[k], e.start, e.end, ""), {CAPTURED}) {
        QuietBacked(t.transactions, t'.transactions, BatchOf(e.groups[k], e.start, e.end, ""), {CAPTURED});
      }
    }
  }

  lemma AsideBatches(t: Tables, t': Tables)
    requires BatchesBacked(t) && Quiet(t.transactions, t'.transactions) && DistinctIds(t'.transactions)
    requires t'.batches == t.batches
    ensures BatchesBacked(t')
  {
    forall i | 0 <= i < |t.batches| ensures Backed(t'.transactions, t.batches[i], {SETTLED, RECONCILED}) {
      QuietBacked(t.transactions, t'.transactions, t.batches[i], {SETTLED, RECONCILED});
    }
  }

  lemma AsideSettlementOk(s: System, s': System)
    requires SettlementOk(s) && Aside(s, s')
    ensures SettlementOk(s')
  {
    QuietConserved(s.db, s'.db);
    AsideBatches(s.db, s'.db);
    forall i | i in s'.engines ensures EngineOk(s'.db, s'.engines[i]) {
      AsideEngine(s.db, s'.db, s.engines[i]);
    }
  }

  lemma AnnouncedPayouts(outbox: seq<OutboxRow>, x: Transaction)
    ensures SamePayouts(outbox, outbox + [AnnouncementOf(x)])
  {
    forall key: Key {
      SumAppend(outbox, AnnouncementOf(x), PayoutAmount(key));
    }
  }

  lemma IntakeAside(env: Env, s: System, a: IntakeAction)
    requires RowsOk(s.db) && IntakeEnabled(s, a)
    ensures Aside(s, IntakeStep(env, s, a))
  {
    IntakeRowsOk(env, s, a);
    if a.Store? {
      AnnouncedPayouts(s.db.outbox, ToStore(s.submits[a.request], a.now));
    }
  }

  lemma RelayAside(s: System, a: RelayAction)
    requires RowsOk(s.db) && RelayEnabled(s, a)
    ensures Aside(s, RelayStep(s, a))
  {
    var outbox' := RelayStep(s, a).db.outbox;
    forall key: Key ensures Sum(outbox', PayoutAmount(key)) == Sum(s.db.outbox, PayoutAmount(key)) {
      SumPointwise(s.db.outbox, PayoutAmount(key), outbox', PayoutAmount(key));
    }
  }

  lemma UpdateQuiet(t: Tables, paymentId: string, to: State)
    requires DistinctIds(t.transactions) && to in {CAPTURED, FAILED}
    ensures var t' := AfterUpdate(t, paymentId, VALIDATED, to);
            Quiet(t.transactions, t'.transactions) && DistinctIds(t'.transactions)
  {
    MovedDistinct(t.transactions, paymentId, VALIDATED, to);
  }

  lemma ConsumerQuiet(env: Env, s: System, a: ConsumerAction)
    requires DistinctIds(s.db.transactions) && ConsumerEnabled(env, s, a)
    ensures var rows' := ConsumerStep(env, s, a).db.transactions;
            Quiet(s.db.transactions, rows') && DistinctIds(rows')
  {
    if a.PostFails? || a.PostCaptures? {
      UpdateQuiet(s.db, RecordAt(env, s, a.worker).payload.event.paymentId, if a.PostFails? then FAILED else CAPTURED);
    }
  }

  lemma ConsumerAside(env: Env, s: System, a: ConsumerAction)
    requires RowsOk(s.db) && ConsumerEnabled(env, s, a)
    ensures Aside(s, ConsumerStep(env, s, a))
  {
    ConsumerQuiet(env, s, a);
    ConsumerChannelSame(env, s, a);
  }

  /* ---- steps of an engine ---- */

  lemma AggregatedOk(t: Tables, start: int, end: int)
    requires DistinctIds(t.transactions)
    ensures EngineOk(t, EngineState(start, end, Groups(t.transactions, start, end)))
  {
    var rows, groups := t.transactions, Groups(t.transactions, start, end);
    forall k | 0 <= k < |groups| ensures GroupOk(t, groups[k], start, end) {
      GroupBacked(rows, Keys(rows, start, end)[k], start, end, "");
    }
    forall k, m | 0 <= k < m < |groups|
      ensures (groups[k].accountId, groups[k].currency) != (groups[m].accountId, groups[m].currency)
    {
      KeysDistinct(rows, start, end, k, m);
    }
  }

  ghost predicate Apart(b: Batch, c: Batch) {
    forall id :: id in b.paymentIds ==> id !in c.paymentIds
  }

  // Two sets of payments that differ in account, currency, window or state have none in common.
  lemma BackedApart(rows: seq<Transaction>, b: Batch, c: Batch, states: set<State>, states': set<State>)
    requires Backed(rows, b, states) && Backed(rows, c, states')
    requires || states !! states'
             || (b.accountId, b.currency) != (c.accountId, c.currency)
             || b.windowEnd <= c.windowStart || c.windowEnd <= b.windowStart
    ensures Apart(b, c)
  {
    forall id | id in b.paymentIds ensures id !in c.paymentIds {
      var i :| 0 <= i < |rows| && rows[i].paymentId == id;
    }
  }

  // What a new batch leaves alone, and what it settles.
  lemma BackedBeside(t: Tables, b: Batch, payoutId: string, now: int, c: Batch, states: set<State>)
    requires DistinctIds(t.transactions) && !BatchExists(t, b) && Backed(t.transactions, c, states) && Apart(c, b)
    ensures Backed(Persisted(t, b, payoutId, now).transactions, c, states)
  {
    var rows' := Persisted(t, b, payoutId, now).transactions;
    SameRows(t.transactions, rows', "");
    BackedKept(t.transactions, rows', c, states, states);
  }

  lemma BackedSettles(t: Tables, b: Batch, payoutId: string, now: int)
    requires DistinctIds(t.transactions) && !BatchExists(t, b) && Backed(t.transactions, b, {CAPTURED})
    ensures Backed(Persisted(t, b, payoutId, now).transactions, b, {SETTLED, RECONCILED})
  {
    var rows' := Persisted(t, b, payoutId, now).transactions;
    SameRows(t.transactions, rows', "");
    BackedKept(t.transactions, rows', b, {CAPTURED}, {SETTLED, RECONCILED});
  }

  lemma OldBatchKept(t: Tables, b: Batch, payoutId: string, now: int, c: Batch)
    requires DistinctIds(t.transactions) && Backed(t.transactions, c, {SETTLED, RECONCILED})
    requires !BatchExists(t, b) && Backed(t.transactions, b, {CAPTURED})
    ensures Backed(Persisted(t, b, payoutId, now).transactions, c, {SETTLED, RECONCILED}) && Apart(c, b)
  {
    BackedApart(t.transactions, c, b, {SETTLED, RECONCILED}, {CAPTURED});
    BackedBeside(t, b, payoutId, now, c, {SETTLED, RECONCILED});
  }

  lemma OneMoreBatch(t: Tables, batches: seq<Batch>, b: Batch)
    requires t.batches == batches + [b] && BatchesBacked(t.(batches := batches))
    requires Backed(t.transactions, b, {SETTLED, RECONCILED})
    requires forall i :: 0 <= i < |batches| ==> Apart(batches[i], b)
    ensures BatchesBacked(t)
  {}

  lemma OldBatchesKept(t: Tables, b: Batch, payoutId: string, now: int)
    requires DistinctIds(t.transactions) && BatchesBacked(t)
    requires !BatchExists(t, b) && Backed(t.transactions, b, {CAPTURED})
    ensures BatchesBacked(Persisted(t, b, payoutId, now).(batches := t.batches))
    ensures forall i :: 0 <= i < |t.batches| ==> Apart(t.batches[i], b)
  {
    var rows' := Persisted(t, b, payoutId, now).transactions;
    forall i | 0 <= i < |t.batches|
      ensures Backed(rows', t.batches[i], {SETTLED, RECONCILED}) && Apart(t.batches[i], b)
    {
      OldBatchKept(t, b, payoutId, now, t.batches[i]);
    }
  }

  lemma PersistBacked(t: Tables, b: Batch, payoutId: string, now: int)
    requires DistinctIds(t.transactions) && BatchesBacked(t)
    requires !BatchExists(t, b) && Backed(t.transactions, b, {CAPTURED})
    ensures BatchesBacked(Persisted(t, b, payoutId, now))
  {
    OldBatchesKept(t, b, payoutId, now);
    BackedSettles(t, b, payoutId, now);
    OneMoreBatch(Persisted(t, b, payoutId, now), t.batches, b);
  }

  lemma GroupBeside(t: Tables, b: Batch, payoutId: string, now: int, g: CapturedGroup, start: int, end: int)
    requires DistinctIds(t.transactions) && !BatchExists(t, b) && Backed(t.transactions, b, {CAPTURED})
    requires GroupOk(t, g, start, end)
    requires (start == b.windowStart && end == b.windowEnd) || end <= b.windowStart || b.windowEnd <= start
    ensures GroupOk(Persisted(t, b, payoutId, now), g, start, end)
  {
    var t' := Persisted(t, b, payoutId, now);
    var c := BatchOf(g, start, end, "");
    if HasBatch(t.batches, g.accountId, g.currency, start, end) {
      var x :| x in t.batches && x.accountId == g.accountId && x.currency == g.currency
               && x.windowStart == start && x.windowEnd == end;
      assert x in t'.batches;
    } else if (g.accountId, g.currency) == (b.accountId, b.currency) && start == b.windowStart && end == b.windowEnd {
      assert b in t'.batches;
    } else {
      BackedApart(t.transactions, c, b, {CAPTURED}, {CAPTURED});
      BackedBeside(t, b, payoutId, now, c, {CAPTURED});
    }
  }

  lemma EngineBeside(t: Tables, b: Batch, payoutId: string, now: int, e: EngineState)
    requires DistinctIds(t.transactions) && !BatchExists(t, b) && Backed(t.transactions, b, {CAPTURED})
    requires EngineOk(t, e)
    requires e.groups != [] ==>
               (e.start == b.windowStart && e.end == b.windowEnd) || e.end <= b.windowStart || b.windowEnd <= e.start
    ensures EngineOk(Persisted(t, b, payoutId, now), e)
  {
    forall k | 0 <= k < |e.groups| ensures GroupOk(Persisted(t, b, payoutId, now), e.groups[k], e.start, e.end) {
      GroupBeside(t, b, payoutId, now, e.groups[k], e.start, e.end);
    }
  }

  lemma RestOk(t: Tables, e: EngineState)
    requires EngineOk(t, e) && e.groups != []
    ensures EngineOk(t, e.(groups := e.groups[1..]))
  {}

  lemma EnginesBeside(s: System, engine: nat, b: Batch, payoutId: string, now: int)
    requires DistinctIds(s.db.transactions) && EnginesOk(s.db, s.engines) && Compatible(s)
    requires engine in s.engines && s.engines[engine].groups != []
    requires b.windowStart == s.engines[engine].start && b.windowEnd == s.engines[engine].end
    requires BatchExists(s.db, b) || Backed(s.db.transactions, b, {CAPTURED})
    ensures EnginesOk(Persisted(s.db, b, payoutId, now), s.engines)
  {
    if !BatchExists(s.db, b) {
      forall i | i in s.engines ensures EngineOk(Persisted(s.db, b, payoutId, now), s.engines[i]) {
        assert i != engine && s.engines[i].groups != [] ==> EqualOrDisjoint(s.engines[i], s.engines[engine]);
        EngineBeside(s.db, b, payoutId, now, s.engines[i]);
      }
    }
  }

  // The batch of the next group finds its key taken, or its payments captured.
  lemma NextBatchOk(t: Tables, e: EngineState, batchId: string)
    requires EngineOk(t, e) && e.groups != []
    ensures BatchExists(t, NextBatch(e, batchId)) || Backed(t.transactions, NextBatch(e, batchId), {CAPTURED})
  {
    assert GroupOk(t, e.groups[0], e.start, e.end);
  }

  lemma PersistSettlementOk(s: System, a: EngineAction)
    requires RowsOk(s.db) && SettlementOk(s) && Compatible(s) && EngineEnabled(s, a)
    requires a.PersistGroup? && !a.fails
    ensures SettlementOk(EngineStep(s, a))
  {
    var e := s.engines[a.engine];
    var b := NextBatch(e, a.batchId);
    NextBatchOk(s.db, e, a.batchId);
    PersistConserves(s.db, b, a.payoutId, a.now);
    EnginesBeside(s, a.engine, b, a.payoutId, a.now);
    if !BatchExists(s.db, b) {
      PersistBacked(s.db, b, a.payoutId, a.now);
    }
    RestOk(Persisted(s.db, b, a.payoutId, a.now), e);
  }

  lemma EngineSettlementOk(s: System, a: EngineAction)
    requires RowsOk(s.db) && SettlementOk(s) && Compatible(s) && EngineEnabled(s, a)
    ensures SettlementOk(EngineStep(s, a))
  {
    match a
    case AggregateWindow(_, start, end) => AggregatedOk(s.db, start, end);
    case PersistGroup(engine, _, _, _, fails) =>
      if fails {
        RestOk(s.db, s.engines[engine]);
      } else {
        PersistSettlementOk(s, a);
      }
    case StopEngine(_) =>
  }

  lemma StepSettlementOk(env: Env, s: System, a: Action)
    requires RowsOk(s.db) && SettlementOk(s) && Compatible(s) && Enabled(env, s, a)
    ensures SettlementOk(Step(env, s, a))
  {
    match a
    case Intake(i) =>
      IntakeAside(env, s, i);
      AsideSettlementOk(s, IntakeStep(env, s, i));
    case Relaying(r) =>
      RelayAside(s, r);
      AsideSettlementOk(s, RelayStep(s, r));
    case Consuming(c) =>
      ConsumerAside(env, s, c);
      AsideSettlementOk(s, ConsumerStep(env, s, c));
    case Settling(e) => EngineSettlementOk(s, e);
  }

  lemma {:induction false} RunSettlementOk(env: Env, states: seq<System>)
    requires Run(env, states) && forall k :: 0 <= k < |states| ==> Compatible(states[k])
    ensures SettlementOk(states[|states| - 1])
  {
    if |states| > 1 {
      RunPrefix(env, states);
      var before := states[..|states| - 1];
      RunSettlementOk(env, before);
      RunRowsOk(env, before);
      var s := states[|states| - 2];
      var a :| Enabled(env, s, a) && states[|states| - 1] == Step(env, s, a);
      StepSettlementOk(env, s, a);
    }
  }

  /** Conservation over every run in which engines at work have equal or disjoint windows, through
      crashes, restarts onto overlapping windows, failed groups and payments captured meanwhile: per
      account and currency the batches, the payout requests and the settled payments add up to the
      same, every batch stands for its own settled payments, and no payment is in two batches. */
  lemma MoneyIsConserved(env: Env, states: seq<System>)
    requires Run(env, states) && forall k :: 0 <= k < |states| ==> Compatible(states[k])
    ensures Conserved(states[|states| - 1].db) && BatchesBacked(states[|states| - 1].db)
  {
    RunSettlementOk(env, states);
  }

  lemma OthersSound(env: Env, s: System, a: Action)
    requires RowsOk(s.db) && Enabled(env, s, a) && !a.Settling?
    ensures Step(env, s, a).db.batches == s.db.batches && Step(env, s, a).engines == s.engines
  {
    match a
    case Intake(i) => IntakeAside(env, s, i);
    case Relaying(r) => RelayAside(s, r);
    case Consuming(c) => ConsumerAside(env, s, c);
  }

  lemma StepSound(env: Env, s: System, a: Action)
    requires RowsOk(s.db) && CapturedOk(s.db.transactions, s.log) && Enabled(env, s, a)
    requires BatchesSound(s.db.batches) && GroupsSound(s.engines)
    ensures BatchesSound(Step(env, s, a).db.batches) && GroupsSound(Step(env, s, a).engines)
  {
    if a.Settling? {
      EngineSound(env, s, a.settling);
    } else {
      OthersSound(env, s, a);
    }
  }

  lemma BeforeLast(env: Env, states: seq<System>)
    requires Run(env, states) && |states| > 1
    ensures var s := states[|states| - 2]; RowsOk(s.db) && CapturedOk(s.db.transactions, s.log)
  {
    RunPrefix(env, states);
    RunPostingOk(env, states[..|states| - 1]);
  }

  lemma LastStepSound(env: Env, s: System, s': System)
    requires RowsOk(s.db) && CapturedOk(s.db.transactions, s.log) && Next(env, s, s')
    requires BatchesSound(s.db.batches) && GroupsSound(s.engines)
    ensures BatchesSound(s'.db.batches) && GroupsSound(s'.engines)
  {
    var a :| Enabled(env, s, a) && s' == Step(env, s, a);
    StepSound(env, s, a);
  }

  /** In every run whatsoever there is at most one batch per account, currency and window, and each
      counts at least one payment and a positive total. */
  lemma {:induction false} BatchesAlwaysSound(env: Env, states: seq<System>)
    requires Run(env, states)
    ensures var s := states[|states| - 1]; BatchesSound(s.db.batches) && GroupsSound(s.engines)
  {
    if |states| > 1 {
      RunPrefix(env, states);
      BatchesAlwaysSound(env, states[..|states| - 1]);
      BeforeLast(env, states);
      LastStepSound(env, states[|states| - 2], states[|states| - 1]);
    }
  }

  /* ---- settle as steps ---- */

  function Persisting(engine: nat, g: Settlement.GroupEnv): EngineAction {
    PersistGroup(engine, g.batchId, g.payoutId, g.now, g.fault == Settlement.Fails)
  }

  // The PersistGroup steps of one engine from group i on, until it dies or has no group left.
  function PersistSteps(s: System, engine: nat, env: nat -> Settlement.GroupEnv, i: nat): System
    decreases if engine in s.engines then |s.engines[engine].groups| else 0
  {
    if engine !in s.engines || s.engines[engine].groups == [] || env(i).fault == Settlement.Dies then s
    else PersistSteps(EngineStep(s, Persisting(engine, env(i))), engine, env, i + 1)
  }

  lemma {:induction false} StepsSettle(s: System, engine: nat, start: int, end: int, groups: seq<CapturedGroup>,
                                       env: nat -> Settlement.GroupEnv, i: nat)
    requires i <= |groups| && engine in s.engines && s.engines[engine] == EngineState(start, end, groups[i..])
    ensures PersistSteps(s, engine, env, i).db == Settlement.SettleFrom(s.db, groups, start, end, env, i)
    decreases |groups| - i
  {
    if i < |groups| && env(i).fault != Settlement.Dies {
      StepsSettle(EngineStep(s, Persisting(engine, env(i))), engine, start, end, groups, env, i + 1);
    }
  }

  /** A settle that nothing interrupts is an AggregateWindow step followed by its PersistGroup steps. */
  lemma SettleIsSteps(s: System, engine: nat, start: int, end: int, env: nat -> Settlement.GroupEnv)
    requires EngineEnabled(s, AggregateWindow(engine, start, end))
    ensures PersistSteps(EngineStep(s, AggregateWindow(engine, start, end)), engine, env, 0).db
            == Settlement.AfterSettle(s.db, start, end, false, env)
  {
    var groups := Groups(s.db.transactions, start, end);
    assert groups[0..] == groups;
    StepsSettle(EngineStep(s, AggregateWindow(engine, start, end)), engine, start, end, groups, env, 0);
  }
}
