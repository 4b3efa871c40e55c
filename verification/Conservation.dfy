/** What settlement owes: per account and currency, the batches, the payout requests and the settled
    payments carry the same money. */
module Conservation {
  import opened Domain
  import opened Sequences
  import opened Schema
  import opened Aggregation

  function BatchOf(g: CapturedGroup, start: int, end: int, id: string): Batch {
    Batch(id, g.accountId, g.currency, start, end, g.totalMinor, g.txnCount, g.paymentIds)
  }

  predicate Done(state: State) {
    state in {SETTLED, RECONCILED}
  }

  function BatchTotal(key: Key): Batch -> int {
    (b: Batch) => if (b.accountId, b.currency) == key then b.totalMinor else 0
  }

  function PayoutAmount(key: Key): OutboxRow -> int {
    (r: OutboxRow) =>
      if r.payload.Payout? && (r.payload.payout.accountId, r.payload.payout.currency) == key
      then r.payload.payout.totalMinor else 0
  }

  function SettledAmount(key: Key): Transaction -> int {
    (x: Transaction) => if Done(x.state) && KeyOf(x) == key then x.minorUnits else 0
  }

  /** Conservation, per account and currency. */
  ghost predicate Conserved(t: Tables) {
    forall key: Key ::
      && Sum(t.batches, BatchTotal(key)) == Sum(t.transactions, SettledAmount(key))
      && Sum(t.outbox, PayoutAmount(key)) == Sum(t.transactions, SettledAmount(key))
  }

  function AmountAmong(ids: seq<string>): Transaction -> int {
    (x: Transaction) => if x.paymentId in ids then x.minorUnits else 0
  }

  function OneAmong(ids: seq<string>): Transaction -> int {
    (x: Transaction) => if x.paymentId in ids then 1 else 0
  }

  /** The payments of a batch exist, are all in the given states, lie in its account, currency and
      window, and add up to its total and its count. */
  ghost predicate Backed(rows: seq<Transaction>, b: Batch, states: set<State>) {
    && (forall i :: 0 <= i < |rows| && rows[i].paymentId in b.paymentIds ==>
          && rows[i].state in states
          && KeyOf(rows[i]) == (b.accountId, b.currency)
          && b.windowStart <= rows[i].createdAt < b.windowEnd)
    && (forall id :: id in b.paymentIds ==> exists i :: 0 <= i < |rows| && rows[i].paymentId == id)
    && b.totalMinor == Sum(rows, AmountAmong(b.paymentIds))
    && b.txnCount == Sum(rows, OneAmong(b.paymentIds))
  }

  /* ---- an aggregated group backs its batch ---- */

  lemma {:induction false} SumOverFilter(rows: seq<Transaction>, p: Transaction -> bool, ids: seq<string>)
    requires forall i :: 0 <= i < |rows| ==> (p(rows[i]) <==> rows[i].paymentId in ids)
    ensures Sum(Filter(rows, p), MinorUnits()) == Sum(rows, AmountAmong(ids))
    ensures |Filter(rows, p)| == Sum(rows, OneAmong(ids))
  {
    if rows != [] {
      var init, x := rows[..|rows| - 1], rows[|rows| - 1];
      SumOverFilter(init, p, ids);
      if p(x) {
        assert Filter(rows, p) == Filter(init, p) + [x];
        SumAppend(Filter(init, p), x, MinorUnits());
      } else {
        assert Filter(rows, p) == Filter(init, p);
      }
    }
  }

  lemma GroupBacked(rows: seq<Transaction>, key: Key, start: int, end: int, id: string)
    requires DistinctIds(rows)
    ensures Backed(rows, BatchOf(GroupOf(rows, key, start, end), start, end, id), {CAPTURED})
  {
    var b := BatchOf(GroupOf(rows, key, start, end), start, end, id);
    var members := Filter(rows, Member(key, start, end));
    forall i | 0 <= i < |rows|
      ensures Member(key, start, end)(rows[i]) <==> rows[i].paymentId in b.paymentIds
    {
      ListedExactly(rows, Member(key, start, end), i);
    }
    SumOverFilter(rows, Member(key, start, end), b.paymentIds);
    forall p | p in b.paymentIds ensures exists i :: 0 <= i < |rows| && rows[i].paymentId == p {
      var k :| 0 <= k < |members| && b.paymentIds[k] == p;
      FilterMember(rows, Member(key, start, end), members[k]);
      assert members[k] in members;
      var i :| 0 <= i < |rows| && rows[i] == members[k];
      assert rows[i].paymentId == p;
    }
  }

  lemma {:induction false} SumPositive<T>(s: seq<T>, f: T -> int, i: nat)
    requires i < |s| && f(s[i]) > 0 && forall k :: 0 <= k < |s| ==> f(s[k]) >= 0
    ensures Sum(s, f) > 0
  {
    var init := s[..|s| - 1];
    SumNonNegative(init, f);
    if i < |init| {
      SumPositive(init, f, i);
    }
  }

  lemma {:induction false} SumNonNegative<T>(s: seq<T>, f: T -> int)
    requires forall k :: 0 <= k < |s| ==> f(s[k]) >= 0
    ensures Sum(s, f) >= 0
  {
    if s != [] {
      SumNonNegative(s[..|s| - 1], f);
    }
  }

  /** A group that the aggregation returns counts at least one payment and, amounts being positive,
      has a positive total. */
  lemma GroupPositive(rows: seq<Transaction>, key: Key, start: int, end: int)
    requires key in Keys(rows, start, end)
    requires forall i :: 0 <= i < |rows| && rows[i].state == CAPTURED ==> rows[i].minorUnits > 0
    ensures var g := GroupOf(rows, key, start, end); g.txnCount >= 1 && g.totalMinor > 0
  {
    var members := Filter(rows, Member(key, start, end));
    KeysOccur(rows, start, end, key);
    var i :| 0 <= i < |rows| && InWindow(rows[i], start, end) && KeyOf(rows[i]) == key;
    FilterMember(rows, Member(key, start, end), rows[i]);
    forall k | 0 <= k < |members| ensures members[k].minorUnits > 0 {
      FilterMember(rows, Member(key, start, end), members[k]);
      assert members[k] in members;
    }
    SumPositive(members, MinorUnits(), 0);
  }

  /* ---- the backing is kept ---- */

  /** `rows'` extends `rows`, changing states only, and leaves the payments of `b` in `states`. */
  lemma BackedKept(rows: seq<Transaction>, rows': seq<Transaction>, b: Batch, states: set<State>, states': set<State>)
    requires Backed(rows, b, states) && DistinctIds(rows')
    requires |rows| <= |rows'|
    requires forall i :: 0 <= i < |rows| ==> rows'[i] == rows[i].(state := rows'[i].state)
    requires forall i :: 0 <= i < |rows| && rows[i].paymentId in b.paymentIds ==> rows'[i].state in states'
    ensures Backed(rows', b, states')
  {
    assert forall k :: 0 <= k < |rows| ==> rows'[k].paymentId == rows[k].paymentId;
    assert forall i :: |rows| <= i < |rows'| ==> rows'[i].paymentId !in b.paymentIds;
    SumKept(rows, rows', AmountAmong(b.paymentIds));
    SumKept(rows, rows', OneAmong(b.paymentIds));
    forall id | id in b.paymentIds ensures exists i :: 0 <= i < |rows'| && rows'[i].paymentId == id {
      var i :| 0 <= i < |rows| && rows[i].paymentId == id;
      assert rows'[i].paymentId == id;
    }
  }

  lemma {:induction false} SumKept(rows: seq<Transaction>, rows': seq<Transaction>, f: Transaction -> int)
    requires |rows| <= |rows'|
    requires forall i :: 0 <= i < |rows| ==> f(rows'[i]) == f(rows[i])
    requires forall i :: |rows| <= i < |rows'| ==> f(rows'[i]) == 0
    ensures Sum(rows', f) == Sum(rows, f)
  {
    if |rows'| == |rows| {
      SumPointwise(rows, f, rows', f);
    } else {
      SumKept(rows, rows'[..|rows'| - 1], f);
    }
  }

  /* ---- PersistBatch ---- */

  // What the UPDATE moves into SETTLED for one key.
  function MovedAmount(key: Key, ids: seq<string>): Transaction -> int {
    (x: Transaction) =>
      if x.paymentId in ids && x.state == CAPTURED && KeyOf(x) == key then x.minorUnits else 0
  }

  lemma PayoutsGrow(outbox: seq<OutboxRow>, b: Batch, payoutId: string, now: int, key: Key)
    ensures Sum(outbox + [SettledRow(b), PayoutRow(b, payoutId, now)], PayoutAmount(key))
            == Sum(outbox, PayoutAmount(key)) + BatchTotal(key)(b)
  {
    SumAppend(outbox, SettledRow(b), PayoutAmount(key));
    SumAppend(outbox + [SettledRow(b)], PayoutRow(b, payoutId, now), PayoutAmount(key));
    var settled, payout := SettledRow(b), PayoutRow(b, payoutId, now);
    assert outbox + [settled, payout] == outbox + [settled] + [payout];
  }

  lemma SettledGrows(rows: seq<Transaction>, ids: seq<string>, key: Key)
    ensures Sum(SettledRows(rows, ids), SettledAmount(key))
            == Sum(rows, SettledAmount(key)) + Sum(rows, MovedAmount(key, ids))
  {
    SumSplit(rows, SettledAmount(key), MovedAmount(key, ids), SettledRows(rows, ids), SettledAmount(key));
  }

  lemma PersistSums(t: Tables, b: Batch, payoutId: string, now: int, key: Key)
    requires !BatchExists(t, b)
    ensures var t' := Persisted(t, b, payoutId, now);
            && Sum(t'.batches, BatchTotal(key)) == Sum(t.batches, BatchTotal(key)) + BatchTotal(key)(b)
            && Sum(t'.outbox, PayoutAmount(key)) == Sum(t.outbox, PayoutAmount(key)) + BatchTotal(key)(b)
            && Sum(t'.transactions, SettledAmount(key)) ==
               Sum(t.transactions, SettledAmount(key)) + Sum(t.transactions, MovedAmount(key, b.paymentIds))
  {
    SumAppend(t.batches, b, BatchTotal(key));
    PayoutsGrow(t.outbox, b, payoutId, now, key);
    SettledGrows(t.transactions, b.paymentIds, key);
  }

  lemma {:induction false} SumZero<T>(s: seq<T>, f: T -> int)
    requires forall i :: 0 <= i < |s| ==> f(s[i]) == 0
    ensures Sum(s, f) == 0
  {
    if s != [] {
      SumZero(s[..|s| - 1], f);
    }
  }

  /** A batch whose payments are all still captured, or whose key is taken, keeps conservation. */
  lemma PersistConserves(t: Tables, b: Batch, payoutId: string, now: int)
    requires Conserved(t) && (BatchExists(t, b) || Backed(t.transactions, b, {CAPTURED}))
    ensures Conserved(Persisted(t, b, payoutId, now))
  {
    if !BatchExists(t, b) {
      forall key: Key
        ensures Sum(t.transactions, MovedAmount(key, b.paymentIds)) == BatchTotal(key)(b)
      {
        if key == (b.accountId, b.currency) {
          SumPointwise(t.transactions, MovedAmount(key, b.paymentIds),
                       t.transactions, AmountAmong(b.paymentIds));
        } else {
          SumZero(t.transactions, MovedAmount(key, b.paymentIds));
        }
      }
      forall key: Key {
        PersistSums(t, b, payoutId, now, key);
      }
    }
  }

  lemma {:induction false} SumLess<T>(s: seq<T>, f: T -> int, g: T -> int, i: nat)
    requires i < |s| && f(s[i]) < g(s[i]) && forall k :: 0 <= k < |s| ==> f(s[k]) <= g(s[k])
    ensures Sum(s, f) < Sum(s, g)
  {
    var init := s[..|s| - 1];
    SumAtMost(init, f, g);
    if i < |init| {
      SumLess(init, f, g, i);
    }
  }

  lemma {:induction false} SumAtMost<T>(s: seq<T>, f: T -> int, g: T -> int)
    requires forall k :: 0 <= k < |s| ==> f(s[k]) <= g(s[k])
    ensures Sum(s, f) <= Sum(s, g)
  {
    if s != [] {
      SumAtMost(s[..|s| - 1], f, g);
    }
  }

  /** PersistBatch does not look at how many rows its UPDATE touched. A new batch over aggregated
      payments keeps conservation exactly when every one of them is still CAPTURED. */
  lemma PersistConservesExactlyWhen(t: Tables, b: Batch, payoutId: string, now: int, states: set<State>)
    requires Conserved(t) && !BatchExists(t, b) && Backed(t.transactions, b, states)
    requires forall i :: 0 <= i < |t.transactions| && t.transactions[i].paymentId in b.paymentIds ==>
               t.transactions[i].minorUnits > 0
    ensures Conserved(Persisted(t, b, payoutId, now)) <==>
            forall i :: 0 <= i < |t.transactions| && t.transactions[i].paymentId in b.paymentIds ==>
              t.transactions[i].state == CAPTURED
  {
    var key := (b.accountId, b.currency);
    if i :| 0 <= i < |t.transactions| && t.transactions[i].paymentId in b.paymentIds
            && t.transactions[i].state != CAPTURED {
      PersistSums(t, b, payoutId, now, key);
      SumLess(t.transactions, MovedAmount(key, b.paymentIds), AmountAmong(b.paymentIds), i);
      var t' := Persisted(t, b, payoutId, now);
      assert Sum(t'.batches, BatchTotal(key)) != Sum(t'.transactions, SettledAmount(key));
    } else {
      assert Backed(t.transactions, b, {CAPTURED});
      PersistConserves(t, b, payoutId, now);
    }
  }

  lemma AfterFirstPersist(t: Tables, b1: Batch, b2: Batch, payoutId: string, now: int)
    requires DistinctIds(t.transactions) && !BatchExists(t, b1) && !BatchExists(t, b2)
    requires (b1.windowStart, b1.windowEnd) != (b2.windowStart, b2.windowEnd)
    requires Backed(t.transactions, b2, {CAPTURED})
    ensures var t1 := Persisted(t, b1, payoutId, now);
            !BatchExists(t1, b2) && Backed(t1.transactions, b2, {CAPTURED, SETTLED})
  {
    var t1 := Persisted(t, b1, payoutId, now);
    assert forall i :: 0 <= i < |t.transactions| ==>
        t1.transactions[i].paymentId == t.transactions[i].paymentId;
    BackedKept(t.transactions, t1.transactions, b2, {CAPTURED}, {CAPTURED, SETTLED});
  }

  /** Two engines that aggregate different windows around one captured payment, before either
      persists, pay its money twice: the first batch keeps conservation and the second breaks it. */
  lemma OverlappingEnginesPayTwice(t: Tables, i: nat, start1: int, end1: int, start2: int, end2: int,
                                   id1: string, id2: string, payout1: string, payout2: string, now: int)
    requires Conserved(t) && DistinctIds(t.transactions) && i < |t.transactions|
    requires InWindow(t.transactions[i], start1, end1) && InWindow(t.transactions[i], start2, end2)
    requires (start1, end1) != (start2, end2)
    requires forall k :: 0 <= k < |t.transactions| ==> t.transactions[k].minorUnits > 0
    requires var key := KeyOf(t.transactions[i]);
             && !HasBatch(t.batches, key.0, key.1, start1, end1)
             && !HasBatch(t.batches, key.0, key.1, start2, end2)
    ensures var rows, key := t.transactions, KeyOf(t.transactions[i]);
            var b1 := BatchOf(GroupOf(rows, key, start1, end1), start1, end1, id1);
            var b2 := BatchOf(GroupOf(rows, key, start2, end2), start2, end2, id2);
            var once := Persisted(t, b1, payout1, now);
            Conserved(once) && !Conserved(Persisted(once, b2, payout2, now))
  {
    var rows, key := t.transactions, KeyOf(t.transactions[i]);
    var b1 := BatchOf(GroupOf(rows, key, start1, end1), start1, end1, id1);
    var b2 := BatchOf(GroupOf(rows, key, start2, end2), start2, end2, id2);
    GroupBacked(rows, key, start1, end1, id1);
    GroupBacked(rows, key, start2, end2, id2);
    ListedExactly(rows, Member(key, start1, end1), i);
    ListedExactly(rows, Member(key, start2, end2), i);
    var once := Persisted(t, b1, payout1, now);
    PersistConserves(t, b1, payout1, now);
    AfterFirstPersist(t, b1, b2, payout1, now);
    assert once.transactions[i].paymentId in b2.paymentIds && once.transactions[i].state == SETTLED;
    PersistConservesExactlyWhen(once, b2, payout2, now, {CAPTURED, SETTLED});
  }

  /** PersistBatch adds its batch unless one of the same account, currency, window start and window end is stored;
      then it changes nothing. */
  lemma PersistsUnlessStored(t: Tables, b: Batch, payoutId: string, now: int)
    ensures var t' := Persisted(t, b, payoutId, now);
            if exists c :: c in t.batches && (c.accountId, c.currency) == (b.accountId, b.currency)
                           && (c.windowStart, c.windowEnd) == (b.windowStart, b.windowEnd)
            then t' == t
            else t'.batches == t.batches + [b] && |t'.outbox| == |t.outbox| + 2
  {}
}
