/** What a Deduplicated reply is worth. The claim in Redis is not released when the submission that
    made it fails, so the payment it names may not exist. */
module PipelineClaims {
  import opened Domain
  import opened Schema
  import opened Lifecycle
  import opened Idempotency
  import opened Pipeline
  import opened PipelineRows
  import opened PipelineDelivery

  ghost predicate InFlight(s: System, paymentId: string) {
    exists r :: r in s.submits && s.submits[r].paymentId == paymentId
  }

  ghost predicate DroppedAt(states: seq<System>, k: nat, m: nat, r: nat, paymentId: string) {
    && k < m < |states| && m == k + 1
    && r in states[k].submits && states[k].submits[r].paymentId == paymentId
    && r !in states[m].submits && !HasRow(states[m].db.transactions, paymentId)
  }

  /** At some step a submission of this payment ended without a stored row. */
  ghost predicate Dropped(states: seq<System>, paymentId: string) {
    exists k, m, r :: DroppedAt(states, k, m, r, paymentId)
  }

  ghost predicate Accounted(states: seq<System>, paymentId: string)
    requires states != []
  {
    var s := states[|states| - 1];
    HasRow(s.db.transactions, paymentId) || InFlight(s, paymentId) || Dropped(states, paymentId)
  }

  // What only the intake changes.
  ghost predicate ClaimsSame(s: System, s': System) {
    s'.submits == s.submits && s'.redis == s.redis && s'.acks == s.acks
  }

  lemma ConsumerClaims(env: Env, s: System, a: ConsumerAction)
    requires ConsumerEnabled(env, s, a)
    ensures ClaimsSame(s, ConsumerStep(env, s, a))
  {}

  lemma RelayClaims(s: System, a: RelayAction)
    requires RelayEnabled(s, a)
    ensures ClaimsSame(s, RelayStep(s, a))
  {}

  lemma EngineClaims(s: System, a: EngineAction)
    requires EngineEnabled(s, a)
    ensures ClaimsSame(s, EngineStep(s, a))
  {}

  lemma OthersClaims(env: Env, s: System, a: Action)
    requires Enabled(env, s, a) && !a.Intake?
    ensures ClaimsSame(s, Step(env, s, a))
  {
    match a
    case Relaying(r) => RelayClaims(s, r);
    case Consuming(c) => ConsumerClaims(env, s, c);
    case Settling(e) => EngineClaims(s, e);
  }

  lemma IntakeSubmits(env: Env, s: System, a: IntakeAction, r: nat)
    requires IntakeEnabled(s, a) && r in s.submits && r in IntakeStep(env, s, a).submits
    ensures IntakeStep(env, s, a).submits[r] == s.submits[r]
  {}

  lemma SubmitsStay(env: Env, s: System, a: Action, r: nat)
    requires Enabled(env, s, a) && r in s.submits && r in Step(env, s, a).submits
    ensures Step(env, s, a).submits[r] == s.submits[r]
  {
    if a.Intake? {
      IntakeSubmits(env, s, a.intake, r);
    } else {
      OthersClaims(env, s, a);
    }
  }

  lemma DroppedStays(states: seq<System>, paymentId: string)
    requires |states| > 1 && Dropped(states[..|states| - 1], paymentId)
    ensures Dropped(states, paymentId)
  {
    var k: nat, m: nat, r: nat :| DroppedAt(states[..|states| - 1], k, m, r, paymentId);
    assert DroppedAt(states, k, m, r, paymentId);
  }

  lemma RowStays(rows: seq<Transaction>, rows': seq<Transaction>, paymentId: string)
    requires RowsMove(rows, rows') && HasRow(rows, paymentId)
    ensures HasRow(rows', paymentId)
  {
    var i :| 0 <= i < |rows| && rows[i].paymentId == paymentId;
    assert rows'[i].paymentId == paymentId;
  }

  lemma AccountedStays(env: Env, states: seq<System>, a: Action, paymentId: string)
    requires |states| > 1 && RowsOk(states[|states| - 2].db)
    requires Enabled(env, states[|states| - 2], a) && states[|states| - 1] == Step(env, states[|states| - 2], a)
    requires Accounted(states[..|states| - 1], paymentId)
    ensures Accounted(states, paymentId)
  {
    var s, s' := states[|states| - 2], states[|states| - 1];
    StepRowsOk(env, s, a);
    if HasRow(s.db.transactions, paymentId) {
      RowStays(s.db.transactions, s'.db.transactions, paymentId);
    } else if Dropped(states[..|states| - 1], paymentId) {
      DroppedStays(states, paymentId);
    } else {
      var r :| r in s.submits && s.submits[r].paymentId == paymentId;
      if r in s'.submits {
        SubmitsStay(env, s, a, r);
      } else if !HasRow(s'.db.transactions, paymentId) {
        assert DroppedAt(states, |states| - 2, |states| - 1, r, paymentId);
      }
    }
  }

  // An id that Redis or a Deduplicated reply names.
  ghost predicate Named(s: System, paymentId: string) {
    || (exists key :: key in s.redis && s.redis[key] == paymentId)
    || (exists b :: b in s.acks && b.deduplicated && b.paymentId == paymentId)
  }

  /** A claimed key and a Deduplicated reply: each names an id that was known before the step, or the
      payment being submitted. */
  lemma NamesKnown(env: Env, s: System, a: Action, paymentId: string)
    requires Enabled(env, s, a)
    requires Named(Step(env, s, a), paymentId)
    ensures Named(s, paymentId) || InFlight(Step(env, s, a), paymentId)
  {
    if a.Intake? {
      IntakeNamesKnown(env, s, a.intake, paymentId);
    } else {
      OthersClaims(env, s, a);
    }
  }

  lemma ClaimedKnown(env: Env, s: System, a: IntakeAction, key: string)
    requires IntakeEnabled(s, a) && key in IntakeStep(env, s, a).redis
    ensures var id := IntakeStep(env, s, a).redis[key];
            (key in s.redis && s.redis[key] == id) || InFlight(IntakeStep(env, s, a), id)
  {
    var s' := IntakeStep(env, s, a);
    if a.Claim? && a.request in s'.submits {
      assert s'.submits[a.request] == a.txn;
    }
  }

  lemma RepliedKnown(env: Env, s: System, a: IntakeAction, b: Ack)
    requires IntakeEnabled(s, a) && b in IntakeStep(env, s, a).acks && b.deduplicated
    ensures Named(s, b.paymentId)
  {
    if b !in s.acks {
      var key := DeriveKey(a.txn, env.hash);
      assert key in s.redis && s.redis[key] == b.paymentId;
    }
  }

  lemma IntakeNamesKnown(env: Env, s: System, a: IntakeAction, paymentId: string)
    requires IntakeEnabled(s, a)
    requires Named(IntakeStep(env, s, a), paymentId)
    ensures Named(s, paymentId) || InFlight(IntakeStep(env, s, a), paymentId)
  {
    var s' := IntakeStep(env, s, a);
    if key :| key in s'.redis && s'.redis[key] == paymentId {
      ClaimedKnown(env, s, a, key);
    } else {
      var b :| b in s'.acks && b.deduplicated && b.paymentId == paymentId;
      RepliedKnown(env, s, a, b);
    }
  }

  ghost predicate ClaimsOk(states: seq<System>)
    requires states != []
  {
    forall id :: Named(states[|states| - 1], id) ==> Accounted(states, id)
  }

  lemma StepClaimsOk(env: Env, states: seq<System>, a: Action, id: string)
    requires |states| > 1 && ClaimsOk(states[..|states| - 1]) && RowsOk(states[|states| - 2].db)
    requires Enabled(env, states[|states| - 2], a) && states[|states| - 1] == Step(env, states[|states| - 2], a)
    requires Named(states[|states| - 1], id)
    ensures Accounted(states, id)
  {
    NamesKnown(env, states[|states| - 2], a, id);
    if !InFlight(states[|states| - 1], id) {
      AccountedStays(env, states, a, id);
    }
  }

  lemma {:induction false} RunClaimsOk(env: Env, states: seq<System>)
    requires Run(env, states)
    ensures ClaimsOk(states)
  {
    if |states| > 1 {
      RunPrefix(env, states);
      RunClaimsOk(env, states[..|states| - 1]);
      RunRowsOk(env, states[..|states| - 1]);
      var s := states[|states| - 2];
      var a :| Enabled(env, s, a) && states[|states| - 1] == Step(env, s, a);
      forall id | Named(states[|states| - 1], id) ensures Accounted(states, id) {
        StepClaimsOk(env, states, a, id);
      }
    }
  }

  /** In every run, a Deduplicated reply names a payment that is stored or still being submitted,
      unless a submission of that payment was dropped after its claim. */
  lemma DeduplicatedIsAccounted(env: Env, states: seq<System>, a: Ack)
    requires Run(env, states) && a in states[|states| - 1].acks && a.deduplicated
    ensures Accounted(states, a.paymentId)
  {
    RunClaimsOk(env, states);
    assert Named(states[|states| - 1], a.paymentId);
  }

  /* ---- with fresh payment ids ---- */

  ghost predicate Used(states: seq<System>, n: nat, paymentId: string)
    requires n <= |states|
  {
    exists k :: 0 <= k < n && (HasRow(states[k].db.transactions, paymentId) || InFlight(states[k], paymentId))
  }

  /** Every claim that starts a submission brings a payment id that was never used before, as the ids the
      server generates are. */
  ghost predicate Fresh(states: seq<System>) {
    forall k, m, r :: 0 <= k < m < |states| && m == k + 1 && r in states[m].submits && r !in states[k].submits ==>
      !Used(states, m, states[m].submits[r].paymentId)
  }

  /** One submission per payment; none of a stored payment, none of a dropped one; and no dropped
      payment is stored. */
  ghost predicate OnceEach(states: seq<System>)
    requires states != []
  {
    var s := states[|states| - 1];
    && (forall r, q :: r in s.submits && q in s.submits && s.submits[r].paymentId == s.submits[q].paymentId ==> r == q)
    && (forall r :: r in s.submits ==>
          !HasRow(s.db.transactions, s.submits[r].paymentId) && !Dropped(states, s.submits[r].paymentId))
    && (forall id :: Dropped(states, id) ==> !HasRow(s.db.transactions, id))
  }

  lemma FreshPrefix(states: seq<System>)
    requires |states| > 1 && Fresh(states)
    ensures Fresh(states[..|states| - 1])
  {
    var before := states[..|states| - 1];
    forall k, m, r | 0 <= k < m < |before| && m == k + 1 && r in before[m].submits && r !in before[k].submits
      ensures !Used(before, m, before[m].submits[r].paymentId)
    {
      UsedPrefix(states, m, before[m].submits[r].paymentId);
    }
  }

  lemma UsedPrefix(states: seq<System>, m: nat, paymentId: string)
    requires m < |states|
    ensures Used(states[..|states| - 1], m, paymentId) <==> Used(states, m, paymentId)
  {
    var before := states[..|states| - 1];
    if Used(states, m, paymentId) {
      var k :| 0 <= k < m && (HasRow(states[k].db.transactions, paymentId) || InFlight(states[k], paymentId));
      assert before[k] == states[k];
    }
    if Used(before, m, paymentId) {
      var k :| 0 <= k < m && (HasRow(before[k].db.transactions, paymentId) || InFlight(before[k], paymentId));
      assert before[k] == states[k];
    }
  }

  // What was dropped was being submitted before.
  lemma DroppedWasUsed(states: seq<System>, paymentId: string)
    requires Dropped(states, paymentId)
    ensures Used(states, |states| - 1, paymentId)
  {
    var k: nat, m: nat, r: nat :| DroppedAt(states, k, m, r, paymentId);
    assert InFlight(states[k], paymentId);
  }

  lemma DroppedBefore(states: seq<System>, k: nat, m: nat, r: nat, paymentId: string)
    requires DroppedAt(states, k, m, r, paymentId) && m < |states| - 1
    ensures Dropped(states[..|states| - 1], paymentId)
  {
    assert DroppedAt(states[..|states| - 1], k, m, r, paymentId);
  }

  // A payment dropped by the last step, and not before it.
  lemma DroppedWhen(states: seq<System>, paymentId: string) returns (r: nat)
    requires |states| > 1 && Dropped(states, paymentId) && !Dropped(states[..|states| - 1], paymentId)
    ensures DroppedAt(states, |states| - 2, |states| - 1, r, paymentId)
  {
    var k: nat, m: nat, q: nat :| DroppedAt(states, k, m, q, paymentId);
    if m < |states| - 1 {
      DroppedBefore(states, k, m, q, paymentId);
    }
    r := q;
  }

  lemma IntakeNewRow(env: Env, s: System, a: IntakeAction, paymentId: string) returns (r: nat)
    requires IntakeEnabled(s, a)
    requires HasRow(IntakeStep(env, s, a).db.transactions, paymentId) && !HasRow(s.db.transactions, paymentId)
    ensures r in s.submits && s.submits[r].paymentId == paymentId && r !in IntakeStep(env, s, a).submits
  {
    var rows' := IntakeStep(env, s, a).db.transactions;
    var i :| 0 <= i < |rows'| && rows'[i].paymentId == paymentId;
    assert a.Store? && i == |s.db.transactions|;
    r := a.request;
  }

  lemma NoNewRow(rows: seq<Transaction>, rows': seq<Transaction>, paymentId: string)
    requires RowsMove(rows, rows') && |rows'| == |rows|
    ensures HasRow(rows', paymentId) <==> HasRow(rows, paymentId)
  {
    if HasRow(rows', paymentId) {
      var i :| 0 <= i < |rows'| && rows'[i].paymentId == paymentId;
      assert rows[i].paymentId == paymentId;
    } else if HasRow(rows, paymentId) {
      RowStays(rows, rows', paymentId);
    }
  }

  lemma RowCount(env: Env, s: System, a: Action)
    requires Enabled(env, s, a) && !a.Intake?
    ensures |Step(env, s, a).db.transactions| == |s.db.transactions|
  {
    match a
    case Relaying(r) => assert RelayStep(s, r).db.transactions == s.db.transactions;
    case Consuming(c) =>
      ConsumerChannelSame(env, s, c);
      assert |ConsumerTables(env, s, c).transactions| == |s.db.transactions|;
    case Settling(e) => assert |EngineStep(s, e).db.transactions| == |s.db.transactions|;
  }

  /** A row that a step adds is the payment of a submission that the step ends. */
  lemma NewRow(env: Env, s: System, a: Action, paymentId: string) returns (r: nat)
    requires RowsOk(s.db) && Enabled(env, s, a)
    requires HasRow(Step(env, s, a).db.transactions, paymentId) && !HasRow(s.db.transactions, paymentId)
    ensures r in s.submits && s.submits[r].paymentId == paymentId && r !in Step(env, s, a).submits
  {
    if a.Intake? {
      r := IntakeNewRow(env, s, a.intake, paymentId);
    } else {
      StepRowsOk(env, s, a);
      RowCount(env, s, a);
      NoNewRow(s.db.transactions, Step(env, s, a).db.transactions, paymentId);
      assert false;
    }
  }

  // The last step of a run, as far as submissions are concerned.
  ghost predicate LastStep(states: seq<System>) {
    |states| > 1 &&
    var s, s' := states[|states| - 2], states[|states| - 1];
    && (forall r :: r in s.submits && r in s'.submits ==> s'.submits[r] == s.submits[r])
    && (forall r, q :: r in s'.submits && q in s'.submits && r !in s.submits && q !in s.submits ==> r == q)
    && (forall id :: HasRow(s.db.transactions, id) ==> HasRow(s'.db.transactions, id))
    && (forall id :: HasRow(s'.db.transactions, id) && !HasRow(s.db.transactions, id) ==>
          exists r :: r in s.submits && s.submits[r].paymentId == id && r !in s'.submits)
  }

  lemma IntakeOneNew(env: Env, s: System, a: IntakeAction, r: nat, q: nat)
    requires IntakeEnabled(s, a) && r in IntakeStep(env, s, a).submits && q in IntakeStep(env, s, a).submits
    requires r !in s.submits && q !in s.submits
    ensures r == q
  {}

  lemma StepIsLast(env: Env, states: seq<System>, a: Action)
    requires |states| > 1 && RowsOk(states[|states| - 2].db)
    requires Enabled(env, states[|states| - 2], a) && states[|states| - 1] == Step(env, states[|states| - 2], a)
    ensures LastStep(states)
  {
    var s, s' := states[|states| - 2], states[|states| - 1];
    StepRowsOk(env, s, a);
    forall r | r in s.submits && r in s'.submits ensures s'.submits[r] == s.submits[r] {
      SubmitsStay(env, s, a, r);
    }
    forall r, q | r in s'.submits && q in s'.submits && r !in s.submits && q !in s.submits ensures r == q {
      if a.Intake? {
        IntakeOneNew(env, s, a.intake, r, q);
      } else {
        OthersClaims(env, s, a);
      }
    }
    forall id | HasRow(s.db.transactions, id) ensures HasRow(s'.db.transactions, id) {
      RowStays(s.db.transactions, s'.db.transactions, id);
    }
    forall id | HasRow(s'.db.transactions, id) && !HasRow(s.db.transactions, id)
      ensures exists r :: r in s.submits && s.submits[r].paymentId == id && r !in s'.submits
    {
      var r := NewRow(env, s, a, id);
    }
  }

  // A submission that the last step started.
  lemma NewClaim(states: seq<System>, r: nat)
    requires LastStep(states) && Fresh(states)
    requires r in states[|states| - 1].submits && r !in states[|states| - 2].submits
    ensures var s, s', id := states[|states| - 2], states[|states| - 1], states[|states| - 1].submits[r].paymentId;
            !HasRow(s'.db.transactions, id) && !InFlight(s, id) && !Dropped(states, id)
  {
    var n := |states| - 1;
    var id := states[n].submits[r].paymentId;
    assert !Used(states, n, id);
    assert !InFlight(states[n - 1], id) && !HasRow(states[n - 1].db.transactions, id);
    if Dropped(states, id) {
      DroppedWasUsed(states, id);
    }
  }

  // A submission that goes on.
  lemma OldClaim(states: seq<System>, r: nat)
    requires LastStep(states) && OnceEach(states[..|states| - 1])
    requires r in states[|states| - 1].submits && r in states[|states| - 2].submits
    ensures var s', id := states[|states| - 1], states[|states| - 1].submits[r].paymentId;
            !HasRow(s'.db.transactions, id) && !Dropped(states, id)
  {
    var before := states[..|states| - 1];
    var s, s' := states[|states| - 2], states[|states| - 1];
    assert before[|before| - 1] == s;
    var id := s'.submits[r].paymentId;
    if Dropped(states, id) {
      var q := DroppedWhen(states, id);
    }
  }

  lemma DroppedNotStored(states: seq<System>, id: string)
    requires LastStep(states) && OnceEach(states[..|states| - 1]) && Dropped(states, id)
    ensures !HasRow(states[|states| - 1].db.transactions, id)
  {
    var before := states[..|states| - 1];
    var s, s' := states[|states| - 2], states[|states| - 1];
    assert before[|before| - 1] == s;
    if !Dropped(before, id) {
      var q := DroppedWhen(states, id);
    }
  }

  lemma StaysOnce(states: seq<System>)
    requires LastStep(states) && Fresh(states) && OnceEach(states[..|states| - 1])
    ensures OnceEach(states)
  {
    var before := states[..|states| - 1];
    var s, s' := states[|states| - 2], states[|states| - 1];
    assert before[|before| - 1] == s;
    forall r | r in s'.submits
      ensures !HasRow(s'.db.transactions, s'.submits[r].paymentId) && !Dropped(states, s'.submits[r].paymentId)
    {
      if r in s.submits { OldClaim(states, r); } else { NewClaim(states, r); }
    }
    forall r, q | r in s'.submits && q in s'.submits && s'.submits[r].paymentId == s'.submits[q].paymentId
      ensures r == q
    {
      if r !in s.submits { NewClaim(states, r); }
      if q !in s.submits { NewClaim(states, q); }
    }
    forall id | Dropped(states, id) ensures !HasRow(s'.db.transactions, id) {
      DroppedNotStored(states, id);
    }
  }

  lemma {:induction false} RunOnceEach(env: Env, states: seq<System>)
    requires Run(env, states) && Fresh(states)
    ensures OnceEach(states)
  {
    if |states| > 1 {
      RunPrefix(env, states);
      FreshPrefix(states);
      RunOnceEach(env, states[..|states| - 1]);
      RunRowsOk(env, states[..|states| - 1]);
      var s := states[|states| - 2];
      var a :| Enabled(env, s, a) && states[|states| - 1] == Step(env, s, a);
      StepIsLast(env, states, a);
      StaysOnce(states);
    }
  }

  /** When exactly a Deduplicated reply names a stored payment: if and only if the submission that made
      the claim is neither still under way nor was dropped. */
  lemma DeduplicatedIsStoredExactlyWhen(env: Env, states: seq<System>, a: Ack)
    requires Run(env, states) && Fresh(states) && a in states[|states| - 1].acks && a.deduplicated
    ensures var s := states[|states| - 1];
            HasRow(s.db.transactions, a.paymentId) <==> !InFlight(s, a.paymentId) && !Dropped(states, a.paymentId)
  {
    DeduplicatedIsAccounted(env, states, a);
    RunOnceEach(env, states);
  }

  /* ---- the named payment was submitted under the same key ---- */

  // Redis, or a Deduplicated reply, names the payment for the key.
  ghost predicate NamedFor(s: System, key: string, paymentId: string) {
    || (key in s.redis && s.redis[key] == paymentId)
    || (exists b :: b in s.acks && b.deduplicated && b.claim == key && b.paymentId == paymentId)
  }

  ghost predicate SubmittedUnder(env: Env, s: System, key: string, paymentId: string) {
    forall r :: r in s.submits && s.submits[r].paymentId == paymentId ==> DeriveKey(s.submits[r], env.hash) == key
  }

  ghost predicate StoredUnder(env: Env, rows: seq<Transaction>, key: string, paymentId: string) {
    forall i :: 0 <= i < |rows| && rows[i].paymentId == paymentId ==> DeriveKey(rows[i], env.hash) == key
  }

  ghost predicate KeysAgree(env: Env, s: System) {
    forall key, id :: NamedFor(s, key, id) ==>
      SubmittedUnder(env, s, key, id) && StoredUnder(env, s.db.transactions, key, id)
  }

  lemma RepliedFor(env: Env, s: System, a: IntakeAction, b: Ack)
    requires IntakeEnabled(s, a) && b in IntakeStep(env, s, a).acks && b.deduplicated
    ensures NamedFor(s, b.claim, b.paymentId)
  {}

  lemma ClaimUnder(env: Env, s: System, a: IntakeAction, key: string, id: string)
    requires IntakeEnabled(s, a) && NamedFor(IntakeStep(env, s, a), key, id) && !NamedFor(s, key, id)
    ensures a.Claim? && a.txn.paymentId == id && DeriveKey(a.txn, env.hash) == key
    ensures a.request in IntakeStep(env, s, a).submits && IntakeStep(env, s, a).submits[a.request] == a.txn
  {
    var s' := IntakeStep(env, s, a);
    if b :| b in s'.acks && b.deduplicated && b.claim == key && b.paymentId == id {
      RepliedFor(env, s, a, b);
    }
  }

  lemma KeyOfRow(env: Env, x: Transaction, y: Transaction)
    requires y == x.(state := y.state, createdAt := y.createdAt)
    ensures DeriveKey(y, env.hash) == DeriveKey(x, env.hash)
  {}

  lemma AccountedWasUsed(states: seq<System>, paymentId: string)
    requires |states| > 1 && Accounted(states[..|states| - 1], paymentId)
    ensures Used(states, |states| - 1, paymentId)
  {
    var before := states[..|states| - 1];
    assert before[|before| - 1] == states[|states| - 2];
    if Dropped(before, paymentId) {
      var k: nat, m: nat, r: nat :| DroppedAt(before, k, m, r, paymentId);
      assert InFlight(states[k], paymentId);
    }
  }

  // What was named before keeps its key: no new submission can bring its id.
  lemma OldNameAgrees(env: Env, states: seq<System>, key: string, id: string)
    requires LastStep(states) && Fresh(states) && ClaimsOk(states[..|states| - 1])
    requires NamedFor(states[|states| - 2], key, id) && SubmittedUnder(env, states[|states| - 2], key, id)
    ensures SubmittedUnder(env, states[|states| - 1], key, id)
  {
    var before, s, s' := states[..|states| - 1], states[|states| - 2], states[|states| - 1];
    assert before[|before| - 1] == s && Named(s, id);
    AccountedWasUsed(states, id);
  }

  lemma IntakeStoredUnder(env: Env, s: System, a: IntakeAction, key: string, id: string)
    requires IntakeEnabled(s, a) && SubmittedUnder(env, s, key, id) && StoredUnder(env, s.db.transactions, key, id)
    ensures StoredUnder(env, IntakeStep(env, s, a).db.transactions, key, id)
  {
    if a.Store? {
      KeyOfRow(env, s.submits[a.request], ToStore(s.submits[a.request], a.now));
    }
  }

  lemma StillStoredUnder(env: Env, rows: seq<Transaction>, rows': seq<Transaction>, key: string, id: string)
    requires RowsMove(rows, rows') && |rows'| == |rows| && StoredUnder(env, rows, key, id)
    ensures StoredUnder(env, rows', key, id)
  {
    forall i | 0 <= i < |rows'| && rows'[i].paymentId == id ensures DeriveKey(rows'[i], env.hash) == key {
      KeyOfRow(env, rows[i], rows'[i]);
    }
  }

  lemma StepStoredUnder(env: Env, s: System, a: Action, key: string, id: string)
    requires RowsOk(s.db) && Enabled(env, s, a)
    requires SubmittedUnder(env, s, key, id) && StoredUnder(env, s.db.transactions, key, id)
    ensures StoredUnder(env, Step(env, s, a).db.transactions, key, id)
  {
    if a.Intake? {
      IntakeStoredUnder(env, s, a.intake, key, id);
    } else {
      StepRowsOk(env, s, a);
      RowCount(env, s, a);
      StillStoredUnder(env, s.db.transactions, Step(env, s, a).db.transactions, key, id);
    }
  }

  // A payment named for the first time is the one being submitted.
  lemma NewNameAgrees(env: Env, states: seq<System>, r: nat)
    requires states != [] && OnceEach(states) && r in states[|states| - 1].submits
    ensures var s := states[|states| - 1]; var txn := s.submits[r];
            && SubmittedUnder(env, s, DeriveKey(txn, env.hash), txn.paymentId)
            && StoredUnder(env, s.db.transactions, DeriveKey(txn, env.hash), txn.paymentId)
  {
    var s := states[|states| - 1];
    assert !HasRow(s.db.transactions, s.submits[r].paymentId);
  }

  lemma StepAgrees(env: Env, states: seq<System>, a: Action, key: string, id: string)
    requires LastStep(states) && Fresh(states) && OnceEach(states) && ClaimsOk(states[..|states| - 1])
    requires RowsOk(states[|states| - 2].db) && KeysAgree(env, states[|states| - 2])
    requires Enabled(env, states[|states| - 2], a) && states[|states| - 1] == Step(env, states[|states| - 2], a)
    requires NamedFor(states[|states| - 1], key, id)
    ensures var s' := states[|states| - 1];
            SubmittedUnder(env, s', key, id) && StoredUnder(env, s'.db.transactions, key, id)
  {
    var s := states[|states| - 2];
    if NamedFor(s, key, id) {
      OldNameAgrees(env, states, key, id);
      StepStoredUnder(env, s, a, key, id);
    } else if a.Intake? {
      ClaimUnder(env, s, a.intake, key, id);
      NewNameAgrees(env, states, a.intake.request);
    } else {
      OthersClaims(env, s, a);
    }
  }

  lemma LastAgrees(env: Env, states: seq<System>, a: Action)
    requires LastStep(states) && Fresh(states) && OnceEach(states) && ClaimsOk(states[..|states| - 1])
    requires RowsOk(states[|states| - 2].db) && KeysAgree(env, states[|states| - 2])
    requires Enabled(env, states[|states| - 2], a) && states[|states| - 1] == Step(env, states[|states| - 2], a)
    ensures KeysAgree(env, states[|states| - 1])
  {
    var s' := states[|states| - 1];
    forall key, id | NamedFor(s', key, id)
      ensures SubmittedUnder(env, s', key, id) && StoredUnder(env, s'.db.transactions, key, id)
    {
      StepAgrees(env, states, a, key, id);
    }
  }

  lemma LastAction(env: Env, states: seq<System>) returns (a: Action)
    requires Run(env, states) && |states| > 1
    ensures LastStep(states) && ClaimsOk(states[..|states| - 1]) && RowsOk(states[|states| - 2].db)
    ensures Enabled(env, states[|states| - 2], a) && states[|states| - 1] == Step(env, states[|states| - 2], a)
  {
    RunPrefix(env, states);
    RunRowsOk(env, states[..|states| - 1]);
    RunClaimsOk(env, states[..|states| - 1]);
    var b :| Enabled(env, states[|states| - 2], b) && states[|states| - 1] == Step(env, states[|states| - 2], b);
    a := b;
    StepIsLast(env, states, a);
  }

  lemma NextKeysAgree(env: Env, states: seq<System>)
    requires Run(env, states) && |states| > 1 && Fresh(states) && KeysAgree(env, states[|states| - 2])
    ensures KeysAgree(env, states[|states| - 1])
  {
    var a := LastAction(env, states);
    RunOnceEach(env, states);
    LastAgrees(env, states, a);
  }

  lemma {:induction false} RunKeysAgree(env: Env, states: seq<System>)
    requires Run(env, states) && Fresh(states)
    ensures KeysAgree(env, states[|states| - 1])
  {
    if |states| > 1 {
      RunPrefix(env, states);
      FreshPrefix(states);
      RunKeysAgree(env, states[..|states| - 1]);
      NextKeysAgree(env, states);
    }
  }

  /** A stored payment that a Deduplicated reply names, or that Redis holds for a key, was submitted under the
      key that was claimed: a caller is never told of someone else's payment. */
  lemma NamedUnderItsKey(env: Env, states: seq<System>, i: nat)
    requires Run(env, states) && Fresh(states) && i < |states[|states| - 1].db.transactions|
    ensures var s := states[|states| - 1]; var x := s.db.transactions[i];
            && (forall a :: a in s.acks && a.deduplicated && a.paymentId == x.paymentId ==>
                  a.claim == DeriveKey(x, env.hash))
            && (forall key :: key in s.redis && s.redis[key] == x.paymentId ==> key == DeriveKey(x, env.hash))
  {
    RunKeysAgree(env, states);
    var s := states[|states| - 1];
    forall a | a in s.acks && a.deduplicated && a.paymentId == s.db.transactions[i].paymentId
      ensures a.claim == DeriveKey(s.db.transactions[i], env.hash)
    {
      assert NamedFor(s, a.claim, a.paymentId);
    }
    forall key | key in s.redis && s.redis[key] == s.db.transactions[i].paymentId
      ensures key == DeriveKey(s.db.transactions[i], env.hash)
    {
      assert NamedFor(s, key, s.redis[key]);
    }
  }

  /** The exception happens: a submission claims its key and is dropped; the retry, which has the same
      key, is told that it is a duplicate of a payment that is not stored. */
  lemma DeduplicatedMayBeLost(env: Env, first: Transaction, retry: Transaction) returns (states: seq<System>)
    requires DeriveKey(first, env.hash) == DeriveKey(retry, env.hash)
    ensures Run(env, states)
    ensures var s := states[|states| - 1];
            && s.acks == [Ack(first.paymentId, retry.idempotencyKey, DeriveKey(retry, env.hash), true)]
            && s.db == EMPTY && s.submits == map[]
    ensures Dropped(states, first.paymentId)
  {
    var a0, a1, a2 := Action.Intake(Claim(0, first)), Action.Intake(Abandon(0)), Action.Intake(Claim(1, retry));
    var s1 := Step(env, INIT, a0);
    var s2 := Step(env, s1, a1);
    var s3 := Step(env, s2, a2);
    states := [INIT, s1, s2, s3];
    assert Next(env, INIT, s1) && Next(env, s1, s2) && Next(env, s2, s3);
    assert s2.submits == map[];
    assert DroppedAt(states, 1, 2, 0, first.paymentId);
  }

  /** The derived key is claimed but not written to the row, and the unique index covers the empty
      key: of all payments submitted without a client key at most one is ever stored. */
  lemma OneKeylessPayment(env: Env, states: seq<System>, i: nat, j: nat)
    requires Run(env, states)
    requires var rows := states[|states| - 1].db.transactions;
             i < |rows| && j < |rows| && rows[i].idempotencyKey == "" && rows[j].idempotencyKey == ""
    ensures i == j
  {
    RunRowsOk(env, states);
  }

  predicate SpellsDerived(key: string) {
    |key| >= 8 && key[..8] == "derived:"
  }

  lemma RowsAnswerOnce(env: Env, x: Transaction, y: Transaction)
    requires x.idempotencyKey != y.idempotencyKey
    requires !SpellsDerived(x.idempotencyKey) && !SpellsDerived(y.idempotencyKey)
    ensures DeriveKey(x, env.hash) != DeriveKey(y, env.hash)
  {
    var dx, dy := "derived:" + env.hash(Preimage(x)), "derived:" + env.hash(Preimage(y));
    assert dx[..8] == "derived:" && dy[..8] == "derived:";
  }

  lemma AcceptedRows(s: System, i: nat, j: nat) returns (x: nat, y: nat)
    requires RowsOk(s.db) && AcksOk(s) && i < j < |s.acks| && !s.acks[i].deduplicated && !s.acks[j].deduplicated
    ensures var rows, a, b := s.db.transactions, s.acks[i], s.acks[j];
            && x < |rows| && y < |rows| && x != y && a.key != b.key
            && rows[x].paymentId == a.paymentId && rows[x].idempotencyKey == a.key
            && rows[y].paymentId == b.paymentId && rows[y].idempotencyKey == b.key
  {
    var rows, a, b := s.db.transactions, s.acks[i], s.acks[j];
    assert HasStored(rows, a) && HasStored(rows, b);
    var k :| 0 <= k < |rows| && rows[k].paymentId == a.paymentId && rows[k].idempotencyKey == a.key;
    var m :| 0 <= m < |rows| && rows[m].paymentId == b.paymentId && rows[m].idempotencyKey == b.key;
    x, y := k, m;
  }

  /** No submission is processed twice, over every run and however often claims expire: two accepted
      replies name different stored payments, carry different client keys, and, unless a client spells out
      a derived key, answer to different claim keys. */
  lemma AcceptedOnce(env: Env, states: seq<System>, i: nat, j: nat) returns (x: nat, y: nat)
    requires Run(env, states) && i < j < |states[|states| - 1].acks|
    requires !states[|states| - 1].acks[i].deduplicated && !states[|states| - 1].acks[j].deduplicated
    ensures var s := states[|states| - 1]; var rows, a, b := s.db.transactions, s.acks[i], s.acks[j];
            && x < |rows| && y < |rows| && x != y && a.key != b.key
            && rows[x].paymentId == a.paymentId && rows[x].idempotencyKey == a.key
            && rows[y].paymentId == b.paymentId && rows[y].idempotencyKey == b.key
            && (!SpellsDerived(a.key) && !SpellsDerived(b.key) ==>
                  DeriveKey(rows[x], env.hash) != DeriveKey(rows[y], env.hash))
  {
    RunDeliveryOk(env, states);
    x, y := AcceptedRows(states[|states| - 1], i, j);
    if !SpellsDerived(states[|states| - 1].acks[i].key) && !SpellsDerived(states[|states| - 1].acks[j].key) {
      RowsAnswerOnce(env, states[|states| - 1].db.transactions[x], states[|states| - 1].db.transactions[y]);
    }
  }

  /** For the stored rows the exception is exact: two of them answer to one claim key only if one has no
      client key and the other's client key spells out the key derived for it. */
  lemma StoredKeysDiffer(env: Env, states: seq<System>, i: nat, j: nat)
    requires Run(env, states) && i != j
    requires var rows := states[|states| - 1].db.transactions; i < |rows| && j < |rows|
    ensures var x, y := states[|states| - 1].db.transactions[i], states[|states| - 1].db.transactions[j];
            DeriveKey(x, env.hash) == DeriveKey(y, env.hash) <==>
            || (x.idempotencyKey == "" && y.idempotencyKey == "derived:" + env.hash(Preimage(x)))
            || (y.idempotencyKey == "" && x.idempotencyKey == "derived:" + env.hash(Preimage(y)))
  {
    RunRowsOk(env, states);
  }
}
