/** The database shared by every component, and the store the intake and the ledger write through.
    Faults are parameters: which statement fails, or that the process dies before COMMIT.
    COMMIT itself may fail too. */
module Store {
  import opened Domain
  import opened Schema

  class Database {
    var transactions: seq<Transaction>
    var outbox: seq<OutboxRow>
    var ledger: seq<Leg>
    var transitions: seq<Audit>
    var batches: seq<Batch>

    constructor ()
      ensures Snapshot() == EMPTY
    {
      transactions, outbox, ledger, transitions, batches := [], [], [], [], [];
    }

    function Snapshot(): Tables
      reads this
    {
      Tables(transactions, outbox, ledger, transitions, batches)
    }
  }

  datatype SaveFault =
    | NoFault | BeginFails | InsertTransactionFails | InsertOutboxFails | CrashBeforeCommit | CommitFails

  datatype SaveResult = NoError | NotBegun | TransactionRejected | OutboxRejected | LostAtCommit

  class PgStore {
    const db: Database

    constructor (db: Database)
      ensures this.db == db
    {
      this.db := db;
    }

    /** The transaction row and its outbox row are stored together or not at all. The error of COMMIT is
        dropped: a COMMIT that fails stores nothing and is reported as success. */
    method SaveWithOutbox(txn: Transaction, fault: SaveFault) returns (result: SaveResult)
      modifies db
      ensures result == NoError <==> fault in {NoFault, CommitFails} && Insertable(old(db.Snapshot()), txn)
      ensures db.Snapshot() == if result == NoError && fault != CommitFails then Saved(old(db.Snapshot()), txn)
                               else old(db.Snapshot())
    {
      if fault == BeginFails {
        return NotBegun;
      }
      if fault == InsertTransactionFails || !Insertable(db.Snapshot(), txn) {
        return TransactionRejected;
      }
      var rows := db.transactions + [txn];
      if fault == InsertOutboxFails {
        return OutboxRejected;
      }
      var event := OutboxRow(txn.paymentId, PAYMENTS_RECEIVED, txn.accountId,
                             Received(NewPaymentReceivedEvent(txn)), false);
      if fault == CrashBeforeCommit {
        return LostAtCommit;
      }
      if fault != CommitFails {
        db.transactions, db.outbox := rows, db.outbox + [event];
      }
      return NoError;
    }

    /** A compare-and-set on the state with its audit row, or the reason nothing changed; an error of the
        database leaves open which. */
    method UpdateState(paymentId: string, from: State, to: State, fault: UpdateFault) returns (result: UpdateResult)
      requires DistinctIds(db.transactions)
      modifies db
      ensures result == UpdateReply(old(db.Snapshot()), paymentId, from, to, fault)
      ensures db.Snapshot() == UpdateEffect(old(db.Snapshot()), paymentId, from, to, fault)
      ensures DistinctIds(db.transactions)
    {
      if !Transition(from, to) {
        return IllegalTransition;
      }
      if fault == UpdateFails {
        return DbError;
      }
      var rows := db.transactions;
      ghost var t := db.Snapshot();
      UpdatedExactly(t, paymentId, from, to);
      if !(exists x :: x in rows && x.paymentId == paymentId && x.state == from) {
        var current := Lookup(rows, paymentId);
        if current.None? {
          return NotFound;
        }
        return Stale(from, to, current.value.state);
      }
      MovedDistinct(rows, paymentId, from, to);
      db.transactions := Moved(rows, paymentId, from, to);
      db.transitions := db.transitions + [Audit(paymentId, from, to)];
      assert db.Snapshot() == AfterUpdate(t, paymentId, from, to);
      return if fault == UpdateUnseen then DbError else Updated;
    }
  }
}
