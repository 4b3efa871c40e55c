/** The Postgres tables as values, and what each committed database transaction does to them.
    A table is the sequence of its rows in commit order. */
module Schema {
  import opened Domain
  import opened Sequences

  datatype PaymentReceivedEvent = PaymentReceivedEvent(
    paymentId: string,
    idempotencyKey: string,
    source: Source,
    externalTxnId: string,
    accountId: string,
    amountMinor: int,
    currency: string,
    state: State,
    createdAt: int)

  datatype SettledEvent = SettledEvent(
    batchId: string, accountId: string, currency: string,
    windowStart: int, windowEnd: int, totalMinor: int, txnCount: int)

  datatype PayoutRequestedEvent = PayoutRequestedEvent(
    payoutId: string, batchId: string, accountId: string, currency: string, totalMinor: int,
    requestedAt: int)

  datatype Payload =
    | Received(event: PaymentReceivedEvent)
    | Settled(settled: SettledEvent)
    | Payout(payout: PayoutRequestedEvent)

  datatype OutboxRow = OutboxRow(
    aggregateId: string, topic: string, partitionKey: string, payload: Payload, published: bool)

  datatype Direction = DEBIT | CREDIT

  datatype Leg = Leg(
    paymentId: string, account: string, direction: Direction, amountMinor: int, currency: string)

  datatype Audit = Audit(paymentId: string, from: State, to: State)

  /** One row of settlement_batches. `paymentIds` is a history variable: the ids handed to the
      batch's UPDATE, which the table itself does not keep. */
  datatype Batch = Batch(
    id: string, accountId: string, currency: string, windowStart: int, windowEnd: int,
    totalMinor: int, txnCount: int, paymentIds: seq<string>)

  datatype Tables = Tables(
    transactions: seq<Transaction>,
    outbox: seq<OutboxRow>,
    ledger: seq<Leg>,
    transitions: seq<Audit>,
    batches: seq<Batch>)

  const EMPTY: Tables := Tables([], [], [], [], [])

  const PAYMENTS_RECEIVED := "payments.received"
  const PAYMENTS_SETTLED := "payments.settled"
  const PAYOUTS_REQUESTED := "payouts.requested"
  const CLEARING_ACCOUNT := "clearing_account"

  function NewPaymentReceivedEvent(t: Transaction): PaymentReceivedEvent {
    PaymentReceivedEvent(t.paymentId, t.idempotencyKey, t.source, t.externalTxnId, t.accountId,
                         t.minorUnits, t.currency, t.state, t.createdAt)
  }

  /* ---- lookups ---- */

  function Lookup(rows: seq<Transaction>, paymentId: string): Option<Transaction> {
    if rows == [] then None
    else if rows[|rows| - 1].paymentId == paymentId then Some(rows[|rows| - 1])
    else Lookup(rows[..|rows| - 1], paymentId)
  }

  predicate HasLeg(ledger: seq<Leg>, paymentId: string, direction: Direction) {
    exists l :: l in ledger && l.paymentId == paymentId && l.direction == direction
  }

  predicate Posted(ledger: seq<Leg>, paymentId: string) {
    HasLeg(ledger, paymentId, DEBIT) && HasLeg(ledger, paymentId, CREDIT)
  }

  predicate HasBatch(batches: seq<Batch>, accountId: string, currency: string, start: int, end: int) {
    exists b :: b in batches && b.accountId == accountId && b.currency == currency
                && b.windowStart == start && b.windowEnd == end
  }

  /* ---- SaveWithOutbox ---- */

  // The primary key and the unique index on idempotency_key.
  predicate Insertable(t: Tables, txn: Transaction) {
    forall x :: x in t.transactions ==>
      x.paymentId != txn.paymentId && x.idempotencyKey != txn.idempotencyKey
  }

  function Saved(t: Tables, txn: Transaction): Tables {
    t.(transactions := t.transactions + [txn],
       outbox := t.outbox + [OutboxRow(txn.paymentId, PAYMENTS_RECEIVED, txn.accountId,
                                       Received(NewPaymentReceivedEvent(txn)), false)])
  }

  /* ---- UpdateState ---- */

  datatype UpdateResult =
    | Updated
    | IllegalTransition
    | NotFound
    | Stale(from: State, to: State, current: State)
    | DbError

  function UpdateOutcome(t: Tables, paymentId: string, from: State, to: State): UpdateResult {
    if !Transition(from, to) then IllegalTransition
    else
      match Lookup(t.transactions, paymentId)
      case None => NotFound
      case Some(x) => if x.state == from then Updated else Stale(from, to, x.state)
  }

  function Moved(rows: seq<Transaction>, paymentId: string, from: State, to: State): (r: seq<Transaction>)
    ensures |r| == |rows|
    ensures forall i :: 0 <= i < |rows| ==>
      r[i] == if rows[i].paymentId == paymentId && rows[i].state == from
              then rows[i].(state := to) else rows[i]
  {
    seq(|rows|, i requires 0 <= i < |rows| =>
      if rows[i].paymentId == paymentId && rows[i].state == from
      then rows[i].(state := to) else rows[i])
  }

  function AfterUpdate(t: Tables, paymentId: string, from: State, to: State): Tables {
    if UpdateOutcome(t, paymentId, from, to) == Updated then
      t.(transactions := Moved(t.transactions, paymentId, from, to),
         transitions := t.transitions + [Audit(paymentId, from, to)])
    else t
  }

  /** UpdateUnseen: the COMMIT takes effect and an error is returned all the same. */
  datatype UpdateFault = UpdateWorks | UpdateFails | UpdateUnseen

  // What UpdateState returns,
  function UpdateReply(t: Tables, paymentId: string, from: State, to: State, fault: UpdateFault): UpdateResult {
    var outcome := UpdateOutcome(t, paymentId, from, to);
    if outcome == IllegalTransition then outcome
    else if fault == UpdateFails || (fault == UpdateUnseen && outcome == Updated) then DbError
    else outcome
  }

  // and what it does.
  function UpdateEffect(t: Tables, paymentId: string, from: State, to: State, fault: UpdateFault): Tables {
    if fault == UpdateFails then t else AfterUpdate(t, paymentId, from, to)
  }

  /* ---- ledger legs ---- */

  function DebitLeg(trx: Transaction): Leg {
    Leg(trx.paymentId, trx.accountId, DEBIT, trx.minorUnits, trx.currency)
  }

  function CreditLeg(trx: Transaction): Leg {
    Leg(trx.paymentId, CLEARING_ACCOUNT, CREDIT, trx.minorUnits, trx.currency)
  }

  // INSERT ... ON CONFLICT (payment_id, direction) DO NOTHING
  function InsertLeg(ledger: seq<Leg>, leg: Leg): seq<Leg> {
    if HasLeg(ledger, leg.paymentId, leg.direction) then ledger else ledger + [leg]
  }

  function WithLegs(ledger: seq<Leg>, trx: Transaction): seq<Leg> {
    InsertLeg(InsertLeg(ledger, DebitLeg(trx)), CreditLeg(trx))
  }

  function LegsCommitted(t: Tables, trx: Transaction): Tables {
    t.(ledger := WithLegs(t.ledger, trx))
  }

  /* ---- PersistBatch ---- */

  function SettledRows(rows: seq<Transaction>, ids: seq<string>): (r: seq<Transaction>)
    ensures |r| == |rows|
    ensures forall i :: 0 <= i < |rows| ==>
      r[i] == if rows[i].paymentId in ids && rows[i].state == CAPTURED
              then rows[i].(state := SETTLED) else rows[i]
  {
    seq(|rows|, i requires 0 <= i < |rows| =>
      if rows[i].paymentId in ids && rows[i].state == CAPTURED
      then rows[i].(state := SETTLED) else rows[i])
  }

  function SettledRow(b: Batch): OutboxRow {
    OutboxRow(b.id, PAYMENTS_SETTLED, b.accountId,
              Settled(SettledEvent(b.id, b.accountId, b.currency, b.windowStart, b.windowEnd,
                                   b.totalMinor, b.txnCount)), false)
  }

  function PayoutRow(b: Batch, payoutId: string, now: int): OutboxRow {
    OutboxRow(b.id, PAYOUTS_REQUESTED, b.accountId,
              Payout(PayoutRequestedEvent(payoutId, b.id, b.accountId, b.currency, b.totalMinor, now)),
              false)
  }

  predicate BatchExists(t: Tables, b: Batch) {
    HasBatch(t.batches, b.accountId, b.currency, b.windowStart, b.windowEnd)
  }

  function Persisted(t: Tables, b: Batch, payoutId: string, now: int): Tables {
    if BatchExists(t, b) then t
    else t.(batches := t.batches + [b],
            transactions := SettledRows(t.transactions, b.paymentIds),
            outbox := t.outbox + [SettledRow(b), PayoutRow(b, payoutId, now)])
  }

  /* ---- the relay's mark ---- */

  function Marked(outbox: seq<OutboxRow>, id: nat): (r: seq<OutboxRow>)
    ensures |r| == |outbox|
    ensures forall i :: 0 <= i < |outbox| ==>
      r[i] == if i == id then outbox[i].(published := true) else outbox[i]
  {
    seq(|outbox|, i requires 0 <= i < |outbox| =>
      if i == id then outbox[i].(published := true) else outbox[i])
  }

  /* ---- facts shared by the proofs ---- */

  ghost predicate DistinctIds(rows: seq<Transaction>) {
    forall i, j :: 0 <= i < j < |rows| ==> rows[i].paymentId != rows[j].paymentId
  }

  lemma {:induction false} LookupSound(rows: seq<Transaction>, paymentId: string)
    ensures match Lookup(rows, paymentId)
            case None => forall x :: x in rows ==> x.paymentId != paymentId
            case Some(x) => x in rows && x.paymentId == paymentId
  {
    if rows != [] {
      LookupSound(rows[..|rows| - 1], paymentId);
      assert rows == rows[..|rows| - 1] + [rows[|rows| - 1]];
    }
  }

  lemma LookupRow(rows: seq<Transaction>, i: nat)
    requires i < |rows| && DistinctIds(rows)
    ensures Lookup(rows, rows[i].paymentId) == Some(rows[i])
  {
    LookupSound(rows, rows[i].paymentId);
  }

  lemma AffectedRow(rows: seq<Transaction>, paymentId: string, from: State)
    requires DistinctIds(rows)
    ensures (exists x :: x in rows && x.paymentId == paymentId && x.state == from)
            <==> Lookup(rows, paymentId).Some? && Lookup(rows, paymentId).value.state == from
  {
    LookupSound(rows, paymentId);
    if x :| x in rows && x.paymentId == paymentId && x.state == from {
      var i :| 0 <= i < |rows| && rows[i] == x;
      LookupRow(rows, i);
    }
  }

  lemma UpdatedExactly(t: Tables, paymentId: string, from: State, to: State)
    requires DistinctIds(t.transactions) && Transition(from, to)
    ensures (exists x :: x in t.transactions && x.paymentId == paymentId && x.state == from)
            <==> UpdateOutcome(t, paymentId, from, to) == Updated
  {
    AffectedRow(t.transactions, paymentId, from);
  }

  lemma MovedDistinct(rows: seq<Transaction>, paymentId: string, from: State, to: State)
    requires DistinctIds(rows)
    ensures DistinctIds(Moved(rows, paymentId, from, to))
  {
    var moved := Moved(rows, paymentId, from, to);
    assert forall i :: 0 <= i < |rows| ==> moved[i].paymentId == rows[i].paymentId;
  }

  /** Rows that differ at most in their state. */
  ghost predicate SameButState(rows: seq<Transaction>, rows': seq<Transaction>) {
    |rows| == |rows'| &&
    forall i :: 0 <= i < |rows| ==> rows'[i] == rows[i].(state := rows'[i].state)
  }
}
