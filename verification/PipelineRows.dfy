/** Stored payments: one row per idempotency key, one announcement in the outbox per row, an exact
    audit trail, and rows that only move along the state machine. */
module PipelineRows {
  import opened Domain
  import opened Sequences
  import opened Schema
  import opened Lifecycle
  import opened Ledger
  import opened Outbox
  import opened Pipeline

  ghost predicate DistinctKeys(rows: seq<Transaction>) {
    forall i, j :: 0 <= i < j < |rows| ==> rows[i].idempotencyKey != rows[j].idempotencyKey
  }

  // The outbox row a payment is announced by, marks aside.
  function AnnouncementOf(x: Transaction): OutboxRow {
    OutboxRow(x.paymentId, PAYMENTS_RECEIVED, x.accountId,
              Received(NewPaymentReceivedEvent(x.(state := VALIDATED))), false)
  }

  function AnnouncementsOf(rows: seq<Transaction>): (r: seq<OutboxRow>)
    ensures |r| == |rows| && forall i :: 0 <= i < |rows| ==> r[i] == AnnouncementOf(rows[i])
  {
    seq(|rows|, i requires 0 <= i < |rows| => AnnouncementOf(rows[i]))
  }

  // The payment announcements in the outbox, marks aside.
  function Announced(outbox: seq<OutboxRow>): seq<OutboxRow> {
    if outbox == [] then []
    else
      var last := outbox[|outbox| - 1];
      Announced(outbox[..|outbox| - 1]) + if last.payload.Received? then [last.(published := false)] else []
  }

  ghost predicate TopicsMatch(outbox: seq<OutboxRow>) {
    forall k :: 0 <= k < |outbox| ==> (outbox[k].topic == PAYMENTS_RECEIVED <==> outbox[k].payload.Received?)
  }

  /** The announcements are, in order, exactly those of the stored payments. */
  ghost predicate Announces(t: Tables) {
    && DistinctKeys(t.transactions)
    && Announced(t.outbox) == AnnouncementsOf(t.transactions)
    && TopicsMatch(t.outbox)
  }

  ghost predicate RowsOk(t: Tables) {
    Audited(t) && Announces(t)
  }

  /* ---- announcements and rows correspond one to one ---- */

  lemma {:induction false} AnnouncedAt(outbox: seq<OutboxRow>, k: nat) returns (m: nat)
    requires k < |outbox| && outbox[k].payload.Received?
    ensures m < |Announced(outbox)| && Announced(outbox)[m] == outbox[k].(published := false)
  {
    var n := |outbox| - 1;
    if k < n {
      m := AnnouncedAt(outbox[..n], k);
    } else {
      m := |Announced(outbox[..n])|;
    }
  }

  lemma {:induction false} AnnouncedFrom(outbox: seq<OutboxRow>, m: nat) returns (k: nat)
    requires m < |Announced(outbox)|
    ensures k < |outbox| && outbox[k].payload.Received? && Announced(outbox)[m] == outbox[k].(published := false)
  {
    var n := |outbox| - 1;
    if m < |Announced(outbox[..n])| {
      k := AnnouncedFrom(outbox[..n], m);
    } else {
      k := n;
    }
  }

  /** Every announced event is the announcement of a stored payment, */
  lemma EventHasRow(t: Tables, k: nat) returns (i: nat)
    requires RowsOk(t) && k < |t.outbox| && t.outbox[k].payload.Received?
    ensures i < |t.transactions| && t.outbox[k].(published := false) == AnnouncementOf(t.transactions[i])
  {
    i := AnnouncedAt(t.outbox, k);
  }

  /** and every stored payment is announced. */
  lemma RowHasEvent(t: Tables, i: nat) returns (k: nat)
    requires RowsOk(t) && i < |t.transactions|
    ensures k < |t.outbox| && t.outbox[k].(published := false) == AnnouncementOf(t.transactions[i])
  {
    k := AnnouncedFrom(t.outbox, i);
  }

  /* ---- each step keeps it ---- */

  lemma AnnouncedAppend(outbox: seq<OutboxRow>, row: OutboxRow)
    ensures Announced(outbox + [row])
            == Announced(outbox) + if row.payload.Received? then [row.(published := false)] else []
  {
    assert (outbox + [row])[..|outbox|] == outbox;
  }

  lemma {:induction false} AnnouncedSame(a: seq<OutboxRow>, b: seq<OutboxRow>)
    requires |a| == |b| && forall k :: 0 <= k < |a| ==> b[k] == a[k].(published := b[k].published)
    ensures Announced(a) == Announced(b)
  {
    if a != [] {
      AnnouncedSame(a[..|a| - 1], b[..|b| - 1]);
    }
  }

  lemma SavedRowsOk(t: Tables, txn: Transaction)
    requires RowsOk(t) && Insertable(t, txn) && txn.state == VALIDATED
    ensures RowsOk(Saved(t, txn))
  {
    SavedAudited(t, txn);
    AnnouncedAppend(t.outbox, AnnouncementOf(txn));
    assert forall i :: 0 <= i < |t.transactions| ==> t.transactions[i] in t.transactions;
    assert AnnouncementsOf(t.transactions + [txn]) == AnnouncementsOf(t.transactions) + [AnnouncementOf(txn)];
  }

  lemma SameAnnouncements(rows: seq<Transaction>, rows': seq<Transaction>)
    requires SameButState(rows, rows')
    ensures AnnouncementsOf(rows) == AnnouncementsOf(rows')
    ensures DistinctKeys(rows) ==> DistinctKeys(rows')
  {
    assert forall i :: 0 <= i < |rows| ==> rows'[i].idempotencyKey == rows[i].idempotencyKey;
    forall i | 0 <= i < |rows| ensures AnnouncementOf(rows[i]) == AnnouncementOf(rows'[i]) {
      assert rows'[i].(state := VALIDATED) == rows[i].(state := VALIDATED);
    }
  }

  lemma UpdateAnnounces(t: Tables, paymentId: string, from: State, to: State)
    requires Announces(t)
    ensures Announces(AfterUpdate(t, paymentId, from, to))
  {
    SameAnnouncements(t.transactions, AfterUpdate(t, paymentId, from, to).transactions);
  }

  lemma UpdateRowsOk(t: Tables, paymentId: string, from: State, to: State)
    requires RowsOk(t)
    ensures RowsOk(AfterUpdate(t, paymentId, from, to))
  {
    UpdateAudited(t, paymentId, from, to);
    UpdateAnnounces(t, paymentId, from, to);
  }

  lemma PersistAnnounces(t: Tables, b: Batch, payoutId: string, now: int)
    requires Announces(t)
    ensures Announces(Persisted(t, b, payoutId, now))
  {
    if !BatchExists(t, b) {
      var settled, payout := SettledRow(b), PayoutRow(b, payoutId, now);
      SameAnnouncements(t.transactions, SettledRows(t.transactions, b.paymentIds));
      AnnouncedAppend(t.outbox, settled);
      AnnouncedAppend(t.outbox + [settled], payout);
      assert t.outbox + [settled, payout] == t.outbox + [settled] + [payout];
    }
  }

  lemma PersistRowsOk(t: Tables, b: Batch, payoutId: string, now: int)
    requires RowsOk(t)
    ensures RowsOk(Persisted(t, b, payoutId, now))
  {
    PersistAudited(t, b, payoutId, now);
    PersistAnnounces(t, b, payoutId, now);
  }

  lemma MarkRowsOk(t: Tables, id: nat)
    requires RowsOk(t)
    ensures RowsOk(t.(outbox := Marked(t.outbox, id)))
  {
    AnnouncedSame(t.outbox, Marked(t.outbox, id));
  }

  lemma IntakeRowsOk(env: Env, s: System, a: IntakeAction)
    requires RowsOk(s.db) && IntakeEnabled(s, a)
    ensures RowsOk(IntakeStep(env, s, a).db) && RowsMove(s.db.transactions, IntakeStep(env, s, a).db.transactions)
  {
    if a.Store? {
      SavedRowsOk(s.db, ToStore(s.submits[a.request], a.now));
    }
  }

  lemma RelayRowsOk(s: System, a: RelayAction)
    requires RowsOk(s.db) && RelayEnabled(s, a)
    ensures RowsOk(RelayStep(s, a).db) && RowsMove(s.db.transactions, RelayStep(s, a).db.transactions)
  {
    if a.Mark? {
      MarkRowsOk(s.db, s.relays[a.relay].ids[0]);
    }
  }

  ghost predicate RowsStep(t: Tables, t': Tables) {
    RowsOk(t') && RowsMove(t.transactions, t'.transactions)
  }

  lemma EffectRowsOk(t: Tables, paymentId: string, from: State, to: State, fault: UpdateFault)
    requires RowsOk(t)
    ensures RowsStep(t, UpdateEffect(t, paymentId, from, to, fault))
  {
    UpdateRowsOk(t, paymentId, from, to);
    UpdateMoves(t, paymentId, from, to);
  }

  lemma ConsumerRowsOk(env: Env, s: System, a: ConsumerAction)
    requires RowsOk(s.db) && ConsumerEnabled(env, s, a)
    ensures RowsOk(ConsumerStep(env, s, a).db) && RowsMove(s.db.transactions, ConsumerStep(env, s, a).db.transactions)
  {
    assert ConsumerStep(env, s, a).db == ConsumerTables(env, s, a);
    TablesRowsOk(env, s, a);
  }

  lemma TablesRowsOk(env: Env, s: System, a: ConsumerAction)
    requires RowsOk(s.db) && ConsumerEnabled(env, s, a)
    ensures RowsStep(s.db, ConsumerTables(env, s, a))
  {
    match a
    case PostFails(worker, update, _) =>
      EffectRowsOk(s.db, RecordAt(env, s, worker).payload.event.paymentId, VALIDATED, FAILED, update);
    case PostCaptures(worker, update) =>
      EffectRowsOk(s.db, RecordAt(env, s, worker).payload.event.paymentId, VALIDATED, CAPTURED, update);
    case _ =>
  }

  lemma EngineRowsOk(s: System, a: EngineAction)
    requires RowsOk(s.db) && EngineEnabled(s, a)
    ensures RowsOk(EngineStep(s, a).db) && RowsMove(s.db.transactions, EngineStep(s, a).db.transactions)
  {
    if a.PersistGroup? {
      var b := NextBatch(s.engines[a.engine], a.batchId);
      PersistRowsOk(s.db, b, a.payoutId, a.now);
      PersistMoves(s.db, b, a.payoutId, a.now);
    }
  }

  /** Every step of every process keeps the rows, their announcements and their audit trail in
      order, and moves stored payments along allowed edges only. */
  lemma StepRowsOk(env: Env, s: System, a: Action)
    requires RowsOk(s.db) && Enabled(env, s, a)
    ensures RowsOk(Step(env, s, a).db)
    ensures RowsMove(s.db.transactions, Step(env, s, a).db.transactions)
  {
    match a
    case Intake(i) => IntakeRowsOk(env, s, i);
    case Relaying(r) => RelayRowsOk(s, r);
    case Consuming(c) => ConsumerRowsOk(env, s, c);
    case Settling(e) => EngineRowsOk(s, e);
  }

  lemma {:induction false} RunRowsOk(env: Env, states: seq<System>)
    requires Run(env, states)
    ensures RowsOk(states[|states| - 1].db)
  {
    if |states| > 1 {
      RunPrefix(env, states);
      RunRowsOk(env, states[..|states| - 1]);
      var s := states[|states| - 2];
      var a :| Enabled(env, s, a) && states[|states| - 1] == Step(env, s, a);
      StepRowsOk(env, s, a);
    }
  }

  lemma LastMove(env: Env, states: seq<System>)
    requires Run(env, states) && |states| > 1
    ensures RowsMove(states[|states| - 2].db.transactions, states[|states| - 1].db.transactions)
  {
    RunPrefix(env, states);
    RunRowsOk(env, states[..|states| - 1]);
    var s := states[|states| - 2];
    var a :| Enabled(env, s, a) && states[|states| - 1] == Step(env, s, a);
    StepRowsOk(env, s, a);
  }

  ghost predicate Moving(states: seq<System>) {
    forall k, m :: 0 <= k < m < |states| && m == k + 1 ==>
      RowsMove(states[k].db.transactions, states[m].db.transactions)
  }

  lemma {:induction false} RunMoves(env: Env, states: seq<System>)
    requires Run(env, states)
    ensures Moving(states)
  {
    if |states| > 1 {
      RunPrefix(env, states);
      var before := states[..|states| - 1];
      RunMoves(env, before);
      LastMove(env, states);
      MovingOn(states);
    }
  }

  lemma MovingOn(states: seq<System>)
    requires |states| > 1 && Moving(states[..|states| - 1])
    requires RowsMove(states[|states| - 2].db.transactions, states[|states| - 1].db.transactions)
    ensures Moving(states)
  {
    var before := states[..|states| - 1];
    assert forall k :: 0 <= k < |before| ==> before[k] == states[k];
  }

  lemma {:induction false} MovingAdvances(states: seq<System>, m: nat, i: nat)
    requires Moving(states) && m < |states| && i < |states[m].db.transactions|
    ensures i < |states[|states| - 1].db.transactions|
    ensures Advanced(states[m].db.transactions[i], states[|states| - 1].db.transactions[i])
  {
    if m < |states| - 1 {
      MovingAdvances(states[..|states| - 1], m, i);
      assert RowsMove(states[|states| - 2].db.transactions, states[|states| - 1].db.transactions);
      AdvanceOnce(states[m].db.transactions[i], states[|states| - 2].db.transactions[i],
                  states[|states| - 1].db.transactions[i]);
    }
  }

  /** Between any two states of a run a stored payment keeps its place and its fields, its rank does not
      fall, an equal rank means an equal state, and FAILED and RECONCILED are for ever. */
  lemma PaymentsOnlyAdvance(env: Env, states: seq<System>, m: nat, i: nat)
    requires Run(env, states) && m < |states| && i < |states[m].db.transactions|
    ensures i < |states[|states| - 1].db.transactions|
    ensures Advanced(states[m].db.transactions[i], states[|states| - 1].db.transactions[i])
  {
    RunMoves(env, states);
    MovingAdvances(states, m, i);
  }

  /** What every stored payment is announced with: a row of topic payments.received, keyed by its account, whose
      event carries its fields as stored, in state VALIDATED. */
  lemma AnnouncementCarries(env: Env, states: seq<System>, i: nat) returns (k: nat)
    requires Run(env, states) && i < |states[|states| - 1].db.transactions|
    ensures k < |states[|states| - 1].db.outbox|
    ensures var x, row := states[|states| - 1].db.transactions[i], states[|states| - 1].db.outbox[k];
            && row.aggregateId == x.paymentId && row.topic == "payments.received" && row.partitionKey == x.accountId
            && row.payload.Received?
            && var e := row.payload.event;
               && e.paymentId == x.paymentId && e.idempotencyKey == x.idempotencyKey && e.source == x.source
               && e.externalTxnId == x.externalTxnId && e.accountId == x.accountId
               && e.amountMinor == x.minorUnits && e.currency == x.currency
               && e.state == VALIDATED && e.createdAt == x.createdAt
  {
    RunRowsOk(env, states);
    k := RowHasEvent(states[|states| - 1].db, i);
  }
}
