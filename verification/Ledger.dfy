/** Double-entry posting. Post changes the payment's state in a transaction of its own and commits
    the two legs afterwards, in the deferred function. */
module Ledger {
  import opened Domain
  import opened Sequences
  import opened Schema
  import opened Store
  import opened Lifecycle

  /** Where the process dies, or the outer COMMIT fails, whose error is dropped. */
  datatype Crash = NoCrash | BeforeUpdate | BeforeCommit | CommitFails

  /** Which statement of a call to Post fails; `update` is a failure inside UpdateState. */
  datatype PostFaults = PostFaults(begin: bool, debit: bool, credit: bool, update: UpdateFault, crash: Crash)

  datatype PostResult = Nil | NotPositive | BeginError | DebitError | CreditError | UpdateError | Crashed

  /** The text of a stale error names its from, to and current state; Post searches it for CAPTURED. */
  predicate ReadsAsCaptured(e: UpdateResult) {
    e.Stale? && CAPTURED in {e.from, e.to, e.current}
  }

  function MarkFailed(t: Tables, paymentId: string, fault: UpdateFault): Tables {
    UpdateEffect(t, paymentId, VALIDATED, FAILED, fault)
  }

  function CaptureResult(t: Tables, paymentId: string, fault: UpdateFault): UpdateResult {
    UpdateReply(t, paymentId, VALIDATED, CAPTURED, fault)
  }

  function Capture(t: Tables, paymentId: string, fault: UpdateFault): Tables {
    UpdateEffect(t, paymentId, VALIDATED, CAPTURED, fault)
  }

  function AfterPost(t: Tables, trx: Transaction, f: PostFaults): Tables {
    if trx.minorUnits <= 0 then t
    else if f.begin || f.debit || f.credit then MarkFailed(t, trx.paymentId, f.update)
    else if f.crash == BeforeUpdate then t
    else
      var captured := Capture(t, trx.paymentId, f.update);
      if f.crash in {BeforeCommit, Crash.CommitFails} then captured else LegsCommitted(captured, trx)
  }

  function PostOutcome(t: Tables, trx: Transaction, f: PostFaults): PostResult {
    if trx.minorUnits <= 0 then NotPositive
    else if f.begin then BeginError
    else if f.debit then DebitError
    else if f.credit then CreditError
    else if f.crash in {BeforeUpdate, BeforeCommit} then Crashed
    else
      var e := CaptureResult(t, trx.paymentId, f.update);
      if e == Updated || ReadsAsCaptured(e) then Nil else UpdateError
  }

  class DoubleEntryPoster {
    const db: Database
    const store: PgStore

    constructor (db: Database, store: PgStore)
      requires store.db == db
      ensures this.db == db && this.store == store
    {
      this.db, this.store := db, store;
    }

    method Post(trx: Transaction, f: PostFaults) returns (result: PostResult)
      requires store.db == db && DistinctIds(db.transactions)
      modifies db
      ensures result == PostOutcome(old(db.Snapshot()), trx, f)
      ensures db.Snapshot() == AfterPost(old(db.Snapshot()), trx, f)
    {
      if trx.minorUnits <= 0 {
        return NotPositive;
      }
      if f.begin {
        var _ := store.UpdateState(trx.paymentId, VALIDATED, FAILED, f.update);
        return BeginError;
      }
      // The outer transaction's own writes; they reach the table at its COMMIT.
      var legs := db.ledger;
      if f.debit {
        var _ := store.UpdateState(trx.paymentId, VALIDATED, FAILED, f.update);
        return DebitError;
      }
      var debitRows := 0;
      if !HasLeg(legs, trx.paymentId, DEBIT) {
        legs, debitRows := legs + [DebitLeg(trx)], 1;
      }
      if f.credit {
        var _ := store.UpdateState(trx.paymentId, VALIDATED, FAILED, f.update);
        return CreditError;
      }
      var creditRows := 0;
      if !HasLeg(legs, trx.paymentId, CREDIT) {
        legs, creditRows := legs + [CreditLeg(trx)], 1;
      }
      if debitRows == 0 && creditRows == 0 {
        legs := db.ledger;
      }
      if f.crash == BeforeUpdate {
        return Crashed;
      }
      var e := store.UpdateState(trx.paymentId, VALIDATED, CAPTURED, f.update);
      if f.crash == BeforeCommit {
        return Crashed;
      }
      result := if e == Updated || ReadsAsCaptured(e) then Nil else UpdateError;
      // The deferred function sees no error of the inserts, so it commits even an UpdateError.
      if f.crash != Crash.CommitFails {
        db.ledger := legs;
      }
    }
  }

  /* ---- what the return value means ---- */

  lemma AddedLegs(ledger: seq<Leg>, trx: Transaction)
    ensures forall l :: l in ledger ==> l in WithLegs(ledger, trx)
    ensures Posted(WithLegs(ledger, trx), trx.paymentId)
    ensures forall p, d :: p != trx.paymentId ==>
      (HasLeg(WithLegs(ledger, trx), p, d) <==> HasLeg(ledger, p, d))
    ensures Posted(ledger, trx.paymentId) ==> WithLegs(ledger, trx) == ledger
  {
    var one := InsertLeg(ledger, DebitLeg(trx));
    var two := WithLegs(ledger, trx);
    assert one == ledger || one == ledger + [DebitLeg(trx)];
    assert DebitLeg(trx) in ledger + [DebitLeg(trx)] && CreditLeg(trx) in one + [CreditLeg(trx)];
    forall p, d | p != trx.paymentId && HasLeg(two, p, d) ensures HasLeg(ledger, p, d) {
      var l :| l in two && l.paymentId == p && l.direction == d;
      assert l in ledger;
    }
    forall p, d | HasLeg(ledger, p, d) ensures HasLeg(two, p, d) {
      var l :| l in ledger && l.paymentId == p && l.direction == d;
      assert l in two;
    }
    assert HasLeg(one, trx.paymentId, DEBIT);
    if HasLeg(one, trx.paymentId, DEBIT) {
      var l :| l in one && l.paymentId == trx.paymentId && l.direction == DEBIT;
      assert l in two;
    }
  }

  /** Post returns nil exactly when the amount is positive, no statement fails and the payment is
      stored, whatever its state and even if COMMIT fails: every stale error reads as success. */
  lemma PostReturnsNil(t: Tables, trx: Transaction, f: PostFaults)
    ensures PostOutcome(t, trx, f) == Nil <==>
            && trx.minorUnits > 0 && !f.begin && !f.debit && !f.credit && f.update != UpdateFails
            && f.crash in {NoCrash, Crash.CommitFails}
            && Lookup(t.transactions, trx.paymentId).Some?
            && (f.update == UpdateUnseen ==> Lookup(t.transactions, trx.paymentId).value.state != VALIDATED)
  {
    assert f.crash.NoCrash? || f.crash.BeforeUpdate? || f.crash.BeforeCommit? || f.crash.CommitFails?;
  }

  /** Capture leaves no stored payment in VALIDATED. */
  lemma CaptureLeaves(t: Tables, paymentId: string, fault: UpdateFault)
    requires fault != UpdateFails && DistinctIds(t.transactions) && Lookup(t.transactions, paymentId).Some?
    ensures var x := Lookup(Capture(t, paymentId, fault).transactions, paymentId); x.Some? && x.value.state != VALIDATED
  {
    var rows, rows' := t.transactions, Capture(t, paymentId, fault).transactions;
    LookupSound(rows, paymentId);
    var k :| 0 <= k < |rows| && rows[k] == Lookup(rows, paymentId).value;
    MovedDistinct(rows, paymentId, VALIDATED, CAPTURED);
    LookupRow(rows', k);
  }

  /** After a nil the payment has left VALIDATED, and both legs are stored if and only if they were before
      or the outer COMMIT did not fail. */
  lemma NilMeansPosted(t: Tables, trx: Transaction, f: PostFaults)
    requires DistinctIds(t.transactions) && PostOutcome(t, trx, f) == Nil
    ensures var t' := AfterPost(t, trx, f);
            && (Posted(t'.ledger, trx.paymentId) <==> Posted(t.ledger, trx.paymentId) || f.crash != Crash.CommitFails)
            && Lookup(t'.transactions, trx.paymentId).Some?
            && Lookup(t'.transactions, trx.paymentId).value.state != VALIDATED
  {
    PostReturnsNil(t, trx, f);
    AddedLegs(t.ledger, trx);
    CaptureLeaves(t, trx.paymentId, f.update);
  }

  /** A call that fails at BEGIN or at an INSERT says which, marks a payment found VALIDATED as FAILED with its
      audit row, unless that fails too, and changes nothing else. */
  lemma FailedInsertMarks(t: Tables, trx: Transaction, f: PostFaults, i: nat)
    requires DistinctIds(t.transactions) && i < |t.transactions| && t.transactions[i].paymentId == trx.paymentId
    requires trx.minorUnits > 0 && (f.begin || f.debit || f.credit)
    ensures PostOutcome(t, trx, f) == if f.begin then BeginError else if f.debit then DebitError else CreditError
    ensures AfterPost(t, trx, f) ==
            if t.transactions[i].state == VALIDATED && f.update != UpdateFails
            then t.(transactions := t.transactions[i := t.transactions[i].(state := FAILED)],
                    transitions := t.transitions + [Audit(trx.paymentId, VALIDATED, FAILED)])
            else t
  {
    UpdateMeans(t, i, VALIDATED, FAILED);
  }

  /** The first delivery of a stored payment, without a fault: CAPTURED with its audit row, and one debit of the
      account and one credit of the clearing account. */
  lemma FirstDelivery(t: Tables, trx: Transaction, i: nat)
    requires DistinctIds(t.transactions) && i < |t.transactions| && t.transactions[i].paymentId == trx.paymentId
    requires t.transactions[i].state == VALIDATED && trx.minorUnits > 0
    requires forall l :: l in t.ledger ==> l.paymentId != trx.paymentId
    ensures var f := PostFaults(false, false, false, UpdateWorks, NoCrash);
            && PostOutcome(t, trx, f) == Nil
            && AfterPost(t, trx, f) == t.(
                 transactions := t.transactions[i := t.transactions[i].(state := CAPTURED)],
                 transitions := t.transitions + [Audit(trx.paymentId, VALIDATED, CAPTURED)],
                 ledger := t.ledger + [
                   Leg(trx.paymentId, trx.accountId, DEBIT, trx.minorUnits, trx.currency),
                   Leg(trx.paymentId, "clearing_account", CREDIT, trx.minorUnits, trx.currency)])
  {
    UpdateMeans(t, i, VALIDATED, CAPTURED);
    FreshLegs(t.ledger, trx);
  }

  /** An amount that is not positive is refused before anything is touched. */
  lemma NotPositiveRefused(t: Tables, trx: Transaction, f: PostFaults)
    ensures PostOutcome(t, trx, f) == NotPositive <==> trx.minorUnits <= 0
    ensures trx.minorUnits <= 0 ==> AfterPost(t, trx, f) == t
  {}

  /** When the COMMIT of the state change takes effect unseen, Post returns an error for a payment that is
      now CAPTURED, and commits its legs. */
  lemma UnseenCaptureIsPosted(t: Tables, trx: Transaction)
    requires DistinctIds(t.transactions) && trx.minorUnits > 0
    requires Lookup(t.transactions, trx.paymentId).Some?
    requires Lookup(t.transactions, trx.paymentId).value.state == VALIDATED
    ensures var f := PostFaults(false, false, false, UpdateUnseen, NoCrash); var t' := AfterPost(t, trx, f);
            && PostOutcome(t, trx, f) == UpdateError && Posted(t'.ledger, trx.paymentId)
            && Lookup(t'.transactions, trx.paymentId).Some?
            && Lookup(t'.transactions, trx.paymentId).value.state == CAPTURED
  {
    var rows, rows' := t.transactions, Capture(t, trx.paymentId, UpdateUnseen).transactions;
    AddedLegs(t.ledger, trx);
    LookupSound(rows, trx.paymentId);
    var k :| 0 <= k < |rows| && rows[k] == Lookup(rows, trx.paymentId).value;
    MovedDistinct(rows, trx.paymentId, VALIDATED, CAPTURED);
    LookupRow(rows', k);
  }

  /** A payment that an earlier attempt marked FAILED is posted by the retry and stays FAILED. */
  lemma FailedIsPosted(t: Tables, trx: Transaction)
    requires trx.minorUnits > 0
    requires Lookup(t.transactions, trx.paymentId).Some? && Lookup(t.transactions, trx.paymentId).value.state == FAILED
    ensures var f := PostFaults(false, false, false, UpdateWorks, NoCrash); var t' := AfterPost(t, trx, f);
            && PostOutcome(t, trx, f) == Nil && Posted(t'.ledger, trx.paymentId)
            && Lookup(t'.transactions, trx.paymentId) == Lookup(t.transactions, trx.paymentId)
  {
    AddedLegs(t.ledger, trx);
  }

  /** Once a payment has both legs and has left VALIDATED, no Post for it, with any amount and any
      faults, changes any table: redelivery is absorbed. */
  lemma RedeliveryAbsorbed(t: Tables, trx: Transaction, f: PostFaults)
    requires Posted(t.ledger, trx.paymentId)
    requires Lookup(t.transactions, trx.paymentId).Some?
    requires Lookup(t.transactions, trx.paymentId).value.state != VALIDATED
    ensures AfterPost(t, trx, f) == t
  {
    AddedLegs(t.ledger, trx);
  }

  /** A call leaves both legs exactly when they were there before or both INSERTs and the COMMIT are
      reached; a failing state change does not keep the legs out. */
  lemma PostsLegsExactlyWhen(t: Tables, trx: Transaction, f: PostFaults)
    ensures Posted(AfterPost(t, trx, f).ledger, trx.paymentId) <==>
            || Posted(t.ledger, trx.paymentId)
            || (trx.minorUnits > 0 && !f.begin && !f.debit && !f.credit && f.crash == NoCrash)
  {
    AddedLegs(t.ledger, trx);
  }

  /* ---- double entry ---- */

  /** The legs of a sequence of postings. */
  function Entries(posts: seq<Transaction>): seq<Leg> {
    if posts == [] then []
    else Entries(posts[..|posts| - 1]) + [DebitLeg(posts[|posts| - 1]), CreditLeg(posts[|posts| - 1])]
  }

  /** The ledger consists of balanced pairs, one positive pair for each posted payment. */
  ghost predicate PairedBy(ledger: seq<Leg>, posts: seq<Transaction>) {
    && ledger == Entries(posts)
    && DistinctIds(posts)
    && (forall i :: 0 <= i < |posts| ==> posts[i].minorUnits > 0)
  }

  ghost predicate DoubleEntry(ledger: seq<Leg>) {
    exists posts :: PairedBy(ledger, posts)
  }

  lemma {:induction false} HasEntry(posts: seq<Transaction>, paymentId: string, d: Direction)
    ensures HasLeg(Entries(posts), paymentId, d)
            <==> exists i :: 0 <= i < |posts| && posts[i].paymentId == paymentId
  {
    if posts != [] {
      var init, last := posts[..|posts| - 1], posts[|posts| - 1];
      HasEntry(init, paymentId, d);
      var pair := [DebitLeg(last), CreditLeg(last)];
      assert pair[0] in pair && pair[1] in pair;
      assert Entries(posts) == Entries(init) + pair;
      if HasLeg(Entries(init), paymentId, d) {
        var i :| 0 <= i < |init| && init[i].paymentId == paymentId;
        assert posts[i].paymentId == paymentId;
        var l :| l in Entries(init) && l.paymentId == paymentId && l.direction == d;
        assert l in Entries(posts);
      }
      if last.paymentId == paymentId {
        var l := if d == DEBIT then pair[0] else pair[1];
        assert l in Entries(posts) && l.paymentId == paymentId && l.direction == d;
      }
      if HasLeg(Entries(posts), paymentId, d) {
        var l :| l in Entries(posts) && l.paymentId == paymentId && l.direction == d;
        assert l in Entries(init) || l in pair;
      }
    }
  }

  lemma EntriesAppend(posts: seq<Transaction>, trx: Transaction)
    ensures Entries(posts + [trx]) == Entries(posts) + [DebitLeg(trx), CreditLeg(trx)]
  {
    assert (posts + [trx])[..|posts|] == posts;
  }

  lemma FreshLegs(ledger: seq<Leg>, trx: Transaction)
    requires !HasLeg(ledger, trx.paymentId, DEBIT) && !HasLeg(ledger, trx.paymentId, CREDIT)
    ensures WithLegs(ledger, trx) == ledger + [DebitLeg(trx), CreditLeg(trx)]
  {
    var one := ledger + [DebitLeg(trx)];
    assert InsertLeg(ledger, DebitLeg(trx)) == one;
    assert !HasLeg(one, trx.paymentId, CREDIT);
    assert one + [CreditLeg(trx)] == ledger + [DebitLeg(trx), CreditLeg(trx)];
  }

  /** What committing the legs of one more call does: nothing for a payment already posted,
      one more pair for a new one. */
  lemma PairAdded(ledger: seq<Leg>, posts: seq<Transaction>, trx: Transaction)
    requires PairedBy(ledger, posts) && trx.minorUnits > 0
    ensures Posted(ledger, trx.paymentId) ==> WithLegs(ledger, trx) == ledger
    ensures !Posted(ledger, trx.paymentId) ==> PairedBy(WithLegs(ledger, trx), posts + [trx])
    ensures DoubleEntry(WithLegs(ledger, trx))
  {
    if !Posted(ledger, trx.paymentId) {
      HasEntry(posts, trx.paymentId, DEBIT);
      HasEntry(posts, trx.paymentId, CREDIT);
      FreshLegs(ledger, trx);
      EntriesAppend(posts, trx);
      assert PairedBy(WithLegs(ledger, trx), posts + [trx]);
    } else {
      assert PairedBy(WithLegs(ledger, trx), posts);
    }
  }

  lemma PostTouches(t: Tables, trx: Transaction, f: PostFaults)
    ensures AfterPost(t, trx, f).ledger == t.ledger
            || (trx.minorUnits > 0 && AfterPost(t, trx, f).ledger == WithLegs(t.ledger, trx))
  {}

  /** Every call to Post, whatever its arguments and faults, keeps the ledger in double entry. */
  lemma PostKeepsDoubleEntry(t: Tables, trx: Transaction, f: PostFaults)
    requires DoubleEntry(t.ledger)
    ensures DoubleEntry(AfterPost(t, trx, f).ledger)
  {
    var posts :| PairedBy(t.ledger, posts);
    PostTouches(t, trx, f);
    if trx.minorUnits > 0 {
      PairAdded(t.ledger, posts, trx);
    }
  }

  function Signed(currency: string): Leg -> int {
    (l: Leg) => if l.currency != currency then 0 else if l.direction == CREDIT then l.amountMinor else -l.amountMinor
  }

  function Credited(currency: string): Leg -> int {
    (l: Leg) => if l.currency == currency && l.direction == CREDIT then l.amountMinor else 0
  }

  function AmountIn(currency: string): Transaction -> int {
    (t: Transaction) => if t.currency == currency then t.minorUnits else 0
  }

  function IsLeg(paymentId: string, d: Direction): Leg -> bool {
    (l: Leg) => l.paymentId == paymentId && l.direction == d
  }

  lemma SumPair<T>(s: seq<T>, x: T, y: T, f: T -> int)
    ensures Sum(s + [x, y], f) == Sum(s, f) + f(x) + f(y)
  {
    assert s + [x, y] == s + [x] + [y];
    SumAppend(s + [x], y, f);
    SumAppend(s, x, f);
  }

  /** In each currency the ledger sums to zero and its credits total the posted amounts. */
  lemma {:induction false} EntriesBalance(posts: seq<Transaction>, currency: string)
    ensures Sum(Entries(posts), Signed(currency)) == 0
    ensures Sum(Entries(posts), Credited(currency)) == Sum(posts, AmountIn(currency))
  {
    if posts != [] {
      var init, last := posts[..|posts| - 1], posts[|posts| - 1];
      EntriesBalance(init, currency);
      SumPair(Entries(init), DebitLeg(last), CreditLeg(last), Signed(currency));
      SumPair(Entries(init), DebitLeg(last), CreditLeg(last), Credited(currency));
    }
  }

  lemma FilterPair<T>(s: seq<T>, x: T, y: T, p: T -> bool)
    ensures Filter(s + [x, y], p) == Filter(s, p) + (if p(x) then [x] else []) + (if p(y) then [y] else [])
  {
    assert s + [x, y] == s + [x] + [y];
    FilterAppend(s + [x], y, p);
    FilterAppend(s, x, p);
  }

  function LegOf(trx: Transaction, d: Direction): Leg {
    if d == DEBIT then DebitLeg(trx) else CreditLeg(trx)
  }

  /** A payment that is not posted has no leg. */
  lemma {:induction false} NoPair(posts: seq<Transaction>, paymentId: string, d: Direction)
    requires forall i :: 0 <= i < |posts| ==> posts[i].paymentId != paymentId
    ensures Filter(Entries(posts), IsLeg(paymentId, d)) == []
  {
    if posts != [] {
      var init, last := posts[..|posts| - 1], posts[|posts| - 1];
      NoPair(init, paymentId, d);
      FilterPair(Entries(init), DebitLeg(last), CreditLeg(last), IsLeg(paymentId, d));
    }
  }

  /** A posted payment has exactly one debit and one credit, of one amount and currency. */
  lemma {:induction false} ExactlyOnePair(posts: seq<Transaction>, i: nat, d: Direction)
    requires DistinctIds(posts) && i < |posts|
    ensures Filter(Entries(posts), IsLeg(posts[i].paymentId, d)) == [LegOf(posts[i], d)]
  {
    var init, last := posts[..|posts| - 1], posts[|posts| - 1];
    FilterPair(Entries(init), DebitLeg(last), CreditLeg(last), IsLeg(posts[i].paymentId, d));
    if i < |init| {
      ExactlyOnePair(init, i, d);
    } else {
      NoPair(init, last.paymentId, d);
    }
  }

  /** A first delivery whose process dies: before the change of state nothing has happened; after it, or when the
      COMMIT of the legs is lost, the payment is CAPTURED and has no leg. */
  lemma DiesMidway(t: Tables, trx: Transaction, crash: Crash, i: nat)
    requires DistinctIds(t.transactions) && i < |t.transactions| && t.transactions[i].paymentId == trx.paymentId
    requires t.transactions[i].state == VALIDATED && trx.minorUnits > 0 && crash != NoCrash
    ensures var f := PostFaults(false, false, false, UpdateWorks, crash);
            && PostOutcome(t, trx, f) == (if crash == Crash.CommitFails then Nil else Crashed)
            && AfterPost(t, trx, f)
               == if crash == BeforeUpdate then t
                  else t.(transactions := t.transactions[i := t.transactions[i].(state := CAPTURED)],
                          transitions := t.transitions + [Audit(trx.paymentId, VALIDATED, CAPTURED)])
  {
    UpdateMeans(t, i, VALIDATED, CAPTURED);
  }
}
