/** The ledger over whole runs: one balanced pair per posted payment, for the stored account, amount
    and currency, and captured payments that are posted or still on their way. */
module PipelineLedger {
  import opened Domain
  import opened Sequences
  import opened Schema
  import opened Lifecycle
  import opened Ledger
  import opened Outbox
  import opened Kafka
  import opened Pipeline
  import opened PipelineRows
  import opened PipelineDelivery

  /** A posting for a stored payment, under that payment's account, amount and currency. */
  ghost predicate Matches(x: Transaction, post: Transaction) {
    x.paymentId == post.paymentId && x.accountId == post.accountId && x.minorUnits == post.minorUnits
    && x.currency == post.currency
  }

  ghost predicate ForStored(rows: seq<Transaction>, post: Transaction) {
    exists i :: 0 <= i < |rows| && Matches(rows[i], post)
  }

  ghost predicate WellFormed(post: Transaction) {
    post.paymentId != "" && post.accountId != "" && post.currency != ""
  }

  ghost predicate LedgerOk(t: Tables, posts: seq<Transaction>) {
    && PairedBy(t.ledger, posts)
    && (forall k :: 0 <= k < |posts| ==> ForStored(t.transactions, posts[k]))
    && (forall k :: 0 <= k < |posts| ==> WellFormed(posts[k]))
  }

  ghost predicate LedgerSound(t: Tables) {
    exists posts :: LedgerOk(t, posts)
  }

  /* ---- what a consumer posts is what was stored ---- */

  lemma EventIsStored(env: Env, s: System, worker: nat) returns (i: nat)
    requires RowsOk(s.db) && ChannelOk(s)
    requires worker in s.workers && AtRecord(env, s, worker, s.workers[worker].phase)
    requires RecordAt(env, s, worker).payload.Received?
    ensures i < |s.db.transactions|
    ensures Matches(s.db.transactions[i], TransactionOf(RecordAt(env, s, worker).payload.event))
    ensures RecordAt(env, s, worker) in s.log
  {
    var r, p := RecordAt(env, s, worker), s.workers[worker].partition;
    assert r in PartitionLog(env, s.log, p);
    FilterMember(s.log, InPartition(env, p), r);
    assert Logged(s.db.outbox, r);
    var k :| 0 <= k < |s.db.outbox| && r == RecordOf(s.db.outbox[k]);
    i := EventHasRow(s.db, k);
  }

  lemma MatchStays(rows: seq<Transaction>, rows': seq<Transaction>, post: Transaction)
    requires RowsMove(rows, rows') && ForStored(rows, post)
    ensures ForStored(rows', post)
  {
    var i :| 0 <= i < |rows| && Matches(rows[i], post);
    assert Matches(rows'[i], post);
  }

  lemma LedgerStays(t: Tables, t': Tables)
    requires LedgerSound(t) && t'.ledger == t.ledger && RowsMove(t.transactions, t'.transactions)
    ensures LedgerSound(t')
  {
    var posts: seq<Transaction> :| LedgerOk(t, posts);
    forall k | 0 <= k < |posts| ensures ForStored(t'.transactions, posts[k]) {
      MatchStays(t.transactions, t'.transactions, posts[k]);
    }
    assert LedgerOk(t', posts);
  }

  lemma OneMorePost(t: Tables, posts: seq<Transaction>, trx: Transaction) returns (posts': seq<Transaction>)
    requires LedgerOk(t, posts) && trx.minorUnits > 0 && ForStored(t.transactions, trx) && WellFormed(trx)
    ensures LedgerOk(LegsCommitted(t, trx), posts')
  {
    PairAdded(t.ledger, posts, trx);
    if Posted(t.ledger, trx.paymentId) {
      posts' := posts;
    } else {
      posts' := posts + [trx];
      AllForStored(t.transactions, posts, trx);
    }
  }

  lemma AllForStored(rows: seq<Transaction>, posts: seq<Transaction>, trx: Transaction)
    requires ForStored(rows, trx) && forall k :: 0 <= k < |posts| ==> ForStored(rows, posts[k])
    requires WellFormed(trx) && forall k :: 0 <= k < |posts| ==> WellFormed(posts[k])
    ensures forall k :: 0 <= k < |posts + [trx]| ==>
              ForStored(rows, (posts + [trx])[k]) && WellFormed((posts + [trx])[k])
  {}

  lemma LegsForStored(t: Tables, trx: Transaction)
    requires LedgerSound(t) && trx.minorUnits > 0 && ForStored(t.transactions, trx) && WellFormed(trx)
    ensures LedgerSound(LegsCommitted(t, trx))
  {
    var posts: seq<Transaction> :| LedgerOk(t, posts);
    var posts' := OneMorePost(t, posts, trx);
  }

  /* ---- amounts are positive before anything is posted or captured ---- */

  ghost predicate Payable(env: Env, log: seq<Record>, w: Worker) {
    var records := PartitionLog(env, log, w.partition);
    && w.position < |records| && records[w.position].payload.Received?
    && records[w.position].payload.event.amountMinor > 0
  }

  ghost predicate PendingOk(env: Env, s: System) {
    forall i :: i in s.workers && s.workers[i].phase.LegsPending? ==> Payable(env, s.log, s.workers[i])
  }

  lemma OthersPendingOk(env: Env, s: System, s': System)
    requires PendingOk(env, s) && ConsumersSame(s, s')
    ensures PendingOk(env, s')
  {
    forall i | i in s.workers && s.workers[i].phase.LegsPending? ensures Payable(env, s'.log, s.workers[i]) {
      PartitionGrows(env, s.log, s'.log, s.workers[i].partition);
    }
  }

  lemma ConsumerPendingOk(env: Env, s: System, a: ConsumerAction)
    requires PendingOk(env, s) && ConsumerEnabled(env, s, a)
    ensures PendingOk(env, ConsumerStep(env, s, a))
  {
    ConsumerChannelSame(env, s, a);
  }

  /* ---- captured payments ---- */

  ghost predicate EventLogged(log: seq<Record>, paymentId: string) {
    exists r :: r in log && r.topic == PAYMENTS_RECEIVED && r.payload.Received?
                && r.payload.event.paymentId == paymentId
  }

  ghost predicate Captured(state: State) {
    state in {CAPTURED, SETTLED, RECONCILED}
  }

  ghost predicate CapturedOk(rows: seq<Transaction>, log: seq<Record>) {
    forall i :: 0 <= i < |rows| && Captured(rows[i].state) ==>
      rows[i].minorUnits > 0 && EventLogged(log, rows[i].paymentId)
  }

  lemma EventStaysLogged(log: seq<Record>, log': seq<Record>, paymentId: string)
    requires log' == log || (log' != [] && log'[..|log'| - 1] == log)
    requires EventLogged(log, paymentId)
    ensures EventLogged(log', paymentId)
  {
    var r :| r in log && r.topic == PAYMENTS_RECEIVED && r.payload.Received? && r.payload.event.paymentId == paymentId;
    assert r in log';
  }

  // No payment is captured that was not before.
  ghost predicate CapturesNone(s: System, s': System) {
    var rows, rows' := s.db.transactions, s'.db.transactions;
    forall i :: 0 <= i < |rows'| && Captured(rows'[i].state) ==> i < |rows| && Captured(rows[i].state)
  }

  lemma CapturedStays(s: System, s': System)
    requires CapturedOk(s.db.transactions, s.log)
    requires Grows(s, s') && RowsMove(s.db.transactions, s'.db.transactions)
    requires CapturesNone(s, s')
    ensures CapturedOk(s'.db.transactions, s'.log)
  {
    var rows, rows' := s.db.transactions, s'.db.transactions;
    forall i | 0 <= i < |rows'| && Captured(rows'[i].state)
      ensures rows'[i].minorUnits > 0 && EventLogged(s'.log, rows'[i].paymentId)
    {
      EventStaysLogged(s.log, s'.log, rows[i].paymentId);
    }
  }

  lemma MovedCapturedOk(t: Tables, log: seq<Record>, paymentId: string, fault: UpdateFault, j: nat)
    requires DistinctIds(t.transactions) && CapturedOk(t.transactions, log) && EventLogged(log, paymentId)
    requires j < |t.transactions| && t.transactions[j].paymentId == paymentId && t.transactions[j].minorUnits > 0
    ensures CapturedOk(Capture(t, paymentId, fault).transactions, log)
  {
    var rows := t.transactions;
    assert forall i :: 0 <= i < |rows| && rows[i].paymentId == paymentId ==> i == j;
  }

  lemma CaptureCapturedOk(env: Env, s: System, a: ConsumerAction)
    requires RowsOk(s.db) && ChannelOk(s) && CapturedOk(s.db.transactions, s.log)
    requires ConsumerEnabled(env, s, a) && a.PostCaptures?
    ensures CapturedOk(ConsumerStep(env, s, a).db.transactions, s.log)
  {
    var r := RecordAt(env, s, a.worker);
    var j := EventIsStored(env, s, a.worker);
    FilterMember(s.log, InPartition(env, s.workers[a.worker].partition), r);
    assert EventLogged(s.log, r.payload.event.paymentId);
    MovedCapturedOk(s.db, s.log, r.payload.event.paymentId, a.update, j);
  }

  ghost predicate PostingOk(env: Env, s: System) {
    LedgerSound(s.db) && PendingOk(env, s) && CapturedOk(s.db.transactions, s.log)
  }

  lemma ConsumerLedgerSound(env: Env, s: System, a: ConsumerAction)
    requires RowsOk(s.db) && ChannelOk(s) && LedgerSound(s.db) && PendingOk(env, s) && ConsumerEnabled(env, s, a)
    ensures LedgerSound(ConsumerTables(env, s, a))
  {
    TablesRowsOk(env, s, a);
    if a.PostCommits? {
      var i := EventIsStored(env, s, a.worker);
      assert Payable(env, s.log, s.workers[a.worker]);
      LegsForStored(s.db, TransactionOf(RecordAt(env, s, a.worker).payload.event));
    } else {
      LedgerStays(s.db, ConsumerTables(env, s, a));
    }
  }

  lemma ConsumerCapturesNone(env: Env, s: System, a: ConsumerAction)
    requires ConsumerEnabled(env, s, a) && !a.PostCaptures?
    ensures CapturesNone(s, ConsumerStep(env, s, a))
  {}

  lemma ConsumerCapturedOk(env: Env, s: System, a: ConsumerAction)
    requires RowsOk(s.db) && ChannelOk(s) && CapturedOk(s.db.transactions, s.log) && ConsumerEnabled(env, s, a)
    ensures CapturedOk(ConsumerStep(env, s, a).db.transactions, s.log)
  {
    if a.PostCaptures? {
      CaptureCapturedOk(env, s, a);
    } else {
      ConsumerRowsOk(env, s, a);
      ConsumerGrows(env, s, a);
      ConsumerCapturesNone(env, s, a);
      CapturedStays(s, ConsumerStep(env, s, a));
    }
  }

  lemma ConsumerPostingOk(env: Env, s: System, a: ConsumerAction)
    requires RowsOk(s.db) && ChannelOk(s) && PostingOk(env, s) && ConsumerEnabled(env, s, a)
    ensures PostingOk(env, ConsumerStep(env, s, a))
  {
    ConsumerPendingOk(env, s, a);
    ConsumerLedgerSound(env, s, a);
    ConsumerCapturedOk(env, s, a);
  }

  lemma OthersPostingOk(env: Env, s: System, s': System)
    requires PostingOk(env, s) && ConsumersSame(s, s')
    requires RowsMove(s.db.transactions, s'.db.transactions) && CapturesNone(s, s')
    ensures PostingOk(env, s')
  {
    OthersPendingOk(env, s, s');
    LedgerStays(s.db, s'.db);
    CapturedStays(s, s');
  }

  lemma IntakePostingOk(env: Env, s: System, a: IntakeAction)
    requires RowsOk(s.db) && PostingOk(env, s) && IntakeEnabled(s, a)
    ensures PostingOk(env, IntakeStep(env, s, a))
  {
    IntakeGrows(env, s, a);
    IntakeRowsOk(env, s, a);
    OthersPostingOk(env, s, IntakeStep(env, s, a));
  }

  lemma RelayPostingOk(env: Env, s: System, a: RelayAction)
    requires RowsOk(s.db) && PostingOk(env, s) && RelayEnabled(s, a)
    ensures PostingOk(env, RelayStep(s, a))
  {
    RelayGrows(s, a);
    OthersPostingOk(env, s, RelayStep(s, a));
  }

  lemma EnginePostingOk(env: Env, s: System, a: EngineAction)
    requires RowsOk(s.db) && PostingOk(env, s) && EngineEnabled(s, a)
    ensures PostingOk(env, EngineStep(s, a))
  {
    EngineGrows(s, a);
    EngineRowsOk(s, a);
    OthersPostingOk(env, s, EngineStep(s, a));
  }

  lemma StepPostingOk(env: Env, s: System, a: Action)
    requires RowsOk(s.db) && ChannelOk(s) && PostingOk(env, s) && Enabled(env, s, a)
    ensures PostingOk(env, Step(env, s, a))
  {
    match a
    case Intake(i) => IntakePostingOk(env, s, i);
    case Relaying(r) => RelayPostingOk(env, s, r);
    case Consuming(c) => ConsumerPostingOk(env, s, c);
    case Settling(e) => EnginePostingOk(env, s, e);
  }

  lemma {:induction false} RunPostingOk(env: Env, states: seq<System>)
    requires Run(env, states)
    ensures PostingOk(env, states[|states| - 1]) && DeliveryOk(env, states[|states| - 1])
  {
    RunDeliveryOk(env, states);
    if |states| == 1 {
      assert Entries([]) == [];
      assert LedgerOk(EMPTY, []);
    } else {
      RunPrefix(env, states);
      RunPostingOk(env, states[..|states| - 1]);
      var s := states[|states| - 2];
      var a :| Enabled(env, s, a) && states[|states| - 1] == Step(env, s, a);
      StepPostingOk(env, s, a);
    }
  }

  /* ---- double entry over every run ---- */

  // The amount of a payment that has both legs.
  function PostedAmount(ledger: seq<Leg>, currency: string): Transaction -> int {
    (x: Transaction) => if Posted(ledger, x.paymentId) && x.currency == currency then x.minorUnits else 0
  }

  ghost function AmountIfListed(posts: seq<Transaction>, currency: string): Transaction -> int {
    (x: Transaction) => if HasRow(posts, x.paymentId) && x.currency == currency then x.minorUnits else 0
  }

  lemma {:induction false} SumOneMore(rows: seq<Transaction>, f: Transaction -> int, g: Transaction -> int, j: nat,
                                      d: int)
    requires j < |rows| && g(rows[j]) == f(rows[j]) + d
    requires forall i :: 0 <= i < |rows| && i != j ==> g(rows[i]) == f(rows[i])
    ensures Sum(rows, g) == Sum(rows, f) + d
  {
    var init := rows[..|rows| - 1];
    if j < |init| {
      SumOneMore(init, f, g, j, d);
    } else {
      SumPointwise(init, f, init, g);
    }
  }

  lemma {:induction false} SumNothing(rows: seq<Transaction>, currency: string)
    ensures Sum(rows, AmountIfListed([], currency)) == 0
  {
    if rows != [] {
      SumNothing(rows[..|rows| - 1], currency);
    }
  }

  lemma ListedExtends(posts: seq<Transaction>, x: string)
    requires posts != []
    ensures HasRow(posts, x) <==> HasRow(posts[..|posts| - 1], x) || posts[|posts| - 1].paymentId == x
  {
    var init := posts[..|posts| - 1];
    if HasRow(init, x) {
      var i :| 0 <= i < |init| && init[i].paymentId == x;
      assert posts[i].paymentId == x;
    }
    if HasRow(posts, x) {
      var i :| 0 <= i < |posts| && posts[i].paymentId == x;
      assert i < |init| ==> init[i].paymentId == x;
    }
  }

  /** Postings of distinct stored payments total the amounts of those payments. */
  lemma {:induction false} PostsTotal(rows: seq<Transaction>, posts: seq<Transaction>, currency: string)
    requires DistinctIds(rows) && DistinctIds(posts)
    requires forall k :: 0 <= k < |posts| ==> ForStored(rows, posts[k])
    ensures Sum(posts, AmountIn(currency)) == Sum(rows, AmountIfListed(posts, currency))
  {
    if posts == [] {
      SumNothing(rows, currency);
    } else {
      var init, last := posts[..|posts| - 1], posts[|posts| - 1];
      PostsTotal(rows, init, currency);
      assert ForStored(rows, last);
      var j :| 0 <= j < |rows| && Matches(rows[j], last);
      forall i | 0 <= i < |rows|
        ensures HasRow(posts, rows[i].paymentId) <==> HasRow(init, rows[i].paymentId) || i == j
      {
        ListedExtends(posts, rows[i].paymentId);
      }
      assert !HasRow(init, last.paymentId);
      SumOneMore(rows, AmountIfListed(init, currency), AmountIfListed(posts, currency), j, AmountIn(currency)(last));
    }
  }

  lemma PostedIsListed(posts: seq<Transaction>, paymentId: string)
    ensures Posted(Entries(posts), paymentId) <==> HasRow(posts, paymentId)
  {
    HasEntry(posts, paymentId, DEBIT);
    HasEntry(posts, paymentId, CREDIT);
  }

  lemma RunLedgerOk(env: Env, states: seq<System>) returns (posts: seq<Transaction>)
    requires Run(env, states)
    ensures var t := states[|states| - 1].db; LedgerOk(t, posts) && DistinctIds(t.transactions)
  {
    RunPostingOk(env, states);
    var p: seq<Transaction> :| LedgerOk(states[|states| - 1].db, p);
    posts := p;
  }

  lemma {:induction false} LegOfPost(posts: seq<Transaction>, l: Leg) returns (k: nat)
    requires l in Entries(posts)
    ensures k < |posts| && (l == DebitLeg(posts[k]) || l == CreditLeg(posts[k]))
  {
    var n := |posts| - 1;
    if l in Entries(posts[..n]) {
      k := LegOfPost(posts[..n], l);
    } else {
      k := n;
      assert l in [DebitLeg(posts[n]), CreditLeg(posts[n])];
    }
  }

  /** In every reachable state each leg is one of a stored payment, of its positive amount and its currency, and no
      malformed event has left a leg: payment, account and currency are named. */
  lemma LegsAreNamed(env: Env, states: seq<System>, l: Leg) returns (i: nat)
    requires Run(env, states) && l in states[|states| - 1].db.ledger
    ensures i < |states[|states| - 1].db.transactions|
    ensures var x := states[|states| - 1].db.transactions[i];
            && l.paymentId == x.paymentId && l.amountMinor == x.minorUnits && l.currency == x.currency
            && l.amountMinor > 0 && l.paymentId != "" && x.accountId != "" && l.currency != ""
  {
    var posts := RunLedgerOk(env, states);
    var t := states[|states| - 1].db;
    var k := LegOfPost(posts, l);
    assert ForStored(t.transactions, posts[k]);
    var j :| 0 <= j < |t.transactions| && Matches(t.transactions[j], posts[k]);
    i := j;
  }

  /** In every reachable state and for each currency the ledger sums to zero, and its credits total
      the amounts of the stored payments that have both legs. */
  lemma LedgerBalances(env: Env, states: seq<System>, currency: string)
    requires Run(env, states)
    ensures var t := states[|states| - 1].db;
            && Sum(t.ledger, Signed(currency)) == 0
            && Sum(t.ledger, Credited(currency)) == Sum(t.transactions, PostedAmount(t.ledger, currency))
  {
    var posts := RunLedgerOk(env, states);
    var t := states[|states| - 1].db;
    EntriesBalance(posts, currency);
    PostsTotal(t.transactions, posts, currency);
    forall i | 0 <= i < |t.transactions|
      ensures AmountIfListed(posts, currency)(t.transactions[i]) == PostedAmount(t.ledger, currency)(t.transactions[i])
    {
      PostedIsListed(posts, t.transactions[i].paymentId);
    }
    SumPointwise(t.transactions, AmountIfListed(posts, currency), t.transactions, PostedAmount(t.ledger, currency));
  }

  /** In every reachable state a stored payment has no leg at all, or one debit of its account and one
      credit of the clearing account, both of its positive amount and in its currency. */
  lemma OnePairOrNone(env: Env, states: seq<System>, i: nat, d: Direction)
    requires Run(env, states) && i < |states[|states| - 1].db.transactions|
    ensures var t := states[|states| - 1].db; var x := t.transactions[i];
            if Posted(t.ledger, x.paymentId) then
              && x.minorUnits > 0
              && Filter(t.ledger, IsLeg(x.paymentId, d))
                 == [Leg(x.paymentId, if d == DEBIT then x.accountId else "clearing_account", d,
                         x.minorUnits, x.currency)]
            else Filter(t.ledger, IsLeg(x.paymentId, d)) == []
  {
    var posts := RunLedgerOk(env, states);
    var t := states[|states| - 1].db;
    var x := t.transactions[i];
    PostedIsListed(posts, x.paymentId);
    if k :| 0 <= k < |posts| && posts[k].paymentId == x.paymentId {
      ExactlyOnePair(posts, k, d);
      assert ForStored(t.transactions, posts[k]);
      var j :| 0 <= j < |t.transactions| && Matches(t.transactions[j], posts[k]);
      assert i == j;
    } else {
      NoPair(posts, x.paymentId, d);
    }
  }

  /** In every reachable state a payment that was captured has a positive amount and its event at some
      offset of its partition; below the committed offset, both legs are posted or the event is in
      the dead-letter queue. A crash inside Post can delay the legs, not lose them. */
  lemma CapturedPostedOrPending(env: Env, states: seq<System>, i: nat) returns (p: nat, o: nat)
    requires Run(env, states) && i < |states[|states| - 1].db.transactions|
    requires Captured(states[|states| - 1].db.transactions[i].state)
    ensures var s := states[|states| - 1]; var x := s.db.transactions[i];
            && x.minorUnits > 0
            && o < |PartitionLog(env, s.log, p)|
            && var r := PartitionLog(env, s.log, p)[o];
               && r.payload.Received? && r.payload.event.paymentId == x.paymentId
               && (o >= At(s.committed, p) || Posted(s.db.ledger, x.paymentId) || DeadLettered(s.dlq, r))
  {
    RunPostingOk(env, states);
    var s := states[|states| - 1];
    var x := s.db.transactions[i];
    assert EventLogged(s.log, x.paymentId);
    var r :| r in s.log && r.topic == PAYMENTS_RECEIVED && r.payload.Received?
             && r.payload.event.paymentId == x.paymentId;
    p := env.partitionOf(r.key);
    FilterMember(s.log, InPartition(env, p), r);
    var k :| 0 <= k < |PartitionLog(env, s.log, p)| && PartitionLog(env, s.log, p)[k] == r;
    o := k;
    assert TakenBelow(env, s, p, At(s.committed, p));
  }

  /* ---- Post as steps ---- */

  /** A call to Post that nothing interrupts is a PostCaptures step followed by a PostCommits step, and
      the record is finished exactly when Post returns nil. */
  lemma PostIsTwoSteps(env: Env, s: System, worker: nat, update: UpdateFault, giveUp: bool)
    requires ConsumerEnabled(env, s, PostCaptures(worker, update))
    ensures var trx := TransactionOf(RecordAt(env, s, worker).payload.event);
            var f := PostFaults(false, false, false, update, NoCrash);
            var s1 := ConsumerStep(env, s, PostCaptures(worker, update));
            && ConsumerEnabled(env, s1, PostCommits(worker, giveUp))
            && var s2 := ConsumerStep(env, s1, PostCommits(worker, giveUp));
               && s2.db == AfterPost(s.db, trx, f)
               && (s2.workers[worker].phase == Finished <==> PostOutcome(s.db, trx, f) == PostResult.Nil)
  {
    var s1 := ConsumerStep(env, s, PostCaptures(worker, update));
    assert s1.log == s.log && s1.workers[worker].position == s.workers[worker].position
           && s1.workers[worker].partition == s.workers[worker].partition;
    assert RecordAt(env, s1, worker) == RecordAt(env, s, worker);
  }

  /** A call that fails before its inserts are done is one PostFails step. */
  lemma FailedPostIsOneStep(env: Env, s: System, worker: nat, f: PostFaults, giveUp: bool)
    requires ConsumerEnabled(env, s, PostFails(worker, f.update, giveUp))
    requires RecordAt(env, s, worker).payload.event.amountMinor <= 0 || f.begin || f.debit || f.credit
    ensures var trx := TransactionOf(RecordAt(env, s, worker).payload.event);
            && ConsumerStep(env, s, PostFails(worker, f.update, giveUp)).db == AfterPost(s.db, trx, f)
            && PostOutcome(s.db, trx, f) != PostResult.Nil
  {}

  /** The failing step of the system marks a payment found VALIDATED as FAILED, with its audit row, and changes
      nothing else in the tables. */
  lemma PostFailsMarks(env: Env, s: System, worker: nat, update: UpdateFault, giveUp: bool, i: nat)
    requires RowsOk(s.db) && ConsumerEnabled(env, s, PostFails(worker, update, giveUp)) && i < |s.db.transactions|
    requires s.db.transactions[i].paymentId == RecordAt(env, s, worker).payload.event.paymentId
    ensures var rows, e := s.db.transactions, RecordAt(env, s, worker).payload.event;
            ConsumerStep(env, s, PostFails(worker, update, giveUp)).db ==
            if e.amountMinor > 0 && rows[i].state == VALIDATED && update != UpdateFails
            then s.db.(transactions := rows[i := rows[i].(state := FAILED)],
                       transitions := s.db.transitions + [Audit(e.paymentId, VALIDATED, FAILED)])
            else s.db
  {
    UpdateMeans(s.db, i, VALIDATED, FAILED);
  }
}
