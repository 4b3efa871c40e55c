/** Two runs from the empty system that the design does not mean to allow. */
module PipelineScenarios {
  import opened Domain
  import opened Sequences
  import opened Schema
  import opened Idempotency
  import opened Aggregation
  import opened Conservation
  import opened Pipeline
  import opened PipelineRows
  import opened PipelineListing
  import opened PipelineRuns
  import opened Amount

  // A payment that a consumer accepts and an engine can total.
  predicate Payable(txn: Transaction) {
    && txn.paymentId != "" && txn.accountId != "" && txn.currency != ""
    && txn.minorUnits > 0 && IsInt64(txn.minorUnits)
  }

  // The one group of a single captured payment.
  function Alone(x: Transaction): CapturedGroup {
    CapturedGroup(x.accountId, x.currency, x.minorUnits, 1, [x.paymentId])
  }

  lemma GroupsOfOne(x: Transaction, start: int, end: int)
    ensures Groups([x], start, end) == if InWindow(x, start, end) then [Alone(x)] else []
  {
    assert [x][..0] == [] && [] + [x] == [x];
    if InWindow(x, start, end) {
      GroupsAppend([], x, start, end);
      assert Groups([], start, end) == [];
    } else {
      GroupsSkip([], x, start, end);
    }
  }

  // The first payment of the system, stored and not yet announced to anyone.
  lemma FirstStored(env: Env, txn: Transaction) returns (states: seq<System>)
    requires Payable(txn)
    ensures Run(env, states)
    ensures var s := states[|states| - 1];
            Waiting(s, ToStore(txn, 0)) && s.engines == map[] && s.db.batches == []
  {
    states := Accept(env, [INIT], txn);
  }

  lemma Aggregated(env: Env, states: seq<System>, engine: nat, start: int, end: int) returns (states': seq<System>)
    requires Run(env, states)
    requires var s := states[|states| - 1];
             engine !in s.engines && Scannable(Groups(s.db.transactions, start, end))
    ensures Run(env, states') && states <= states'
    ensures var s := states[|states| - 1];
            states'[|states'| - 1]
            == s.(engines := s.engines[engine := EngineState(start, end, Groups(s.db.transactions, start, end))])
  {
    var a := Settling(AggregateWindow(engine, start, end));
    Extend(env, states, a);
    states' := states + [Step(env, states[|states| - 1], a)];
  }

  // The same when x is the only payment.
  lemma AggregatedAlone(env: Env, states: seq<System>, x: Transaction, engine: nat, start: int, end: int)
    returns (states': seq<System>)
    requires Run(env, states) && IsInt64(x.minorUnits)
    requires states[|states| - 1].db.transactions == [x] && engine !in states[|states| - 1].engines
    ensures Run(env, states') && states <= states'
    ensures var s, groups := states[|states| - 1], if InWindow(x, start, end) then [Alone(x)] else [];
            states'[|states'| - 1] == s.(engines := s.engines[engine := EngineState(start, end, groups)])
  {
    GroupsOfOne(x, start, end);
    states' := Aggregated(env, states, engine, start, end);
  }

  lemma PersistedNext(env: Env, states: seq<System>, engine: nat, batchId: string, payoutId: string)
    returns (states': seq<System>)
    requires Run(env, states)
    requires var s := states[|states| - 1]; engine in s.engines && s.engines[engine].groups != []
    ensures Run(env, states')
    ensures states' == states + [EngineStep(states[|states| - 1], PersistGroup(engine, batchId, payoutId, 0, false))]
  {
    var a := Settling(PersistGroup(engine, batchId, payoutId, 0, false));
    Extend(env, states, a);
    states' := states + [Step(env, states[|states| - 1], a)];
  }

  /** A captured payment with an engine about to persist it in each of the given windows. */
  lemma TwoPending(env: Env, txn: Transaction, start1: int, end1: int, start2: int, end2: int)
    returns (states: seq<System>)
    requires Payable(txn) && start1 <= 0 < end1 && start2 <= 0 < end2
    ensures Run(env, states)
    ensures var s, x := states[|states| - 1], ToStore(txn, 0).(state := CAPTURED);
            && s.db.transactions == [x] && s.db.batches == [] && s.db.outbox == [AnnouncementOf(ToStore(txn, 0))]
            && s.engines == map[0 := EngineState(start1, end1, [Alone(x)]), 1 := EngineState(start2, end2, [Alone(x)])]
  {
    var x := ToStore(txn, 0).(state := CAPTURED);
    states := FirstStored(env, txn);
    states := CaptureIt(env, states, ToStore(txn, 0));
    states := AggregatedAlone(env, states, x, 0, start1, end1);
    states := AggregatedAlone(env, states, x, 1, start2, end2);
  }

  lemma OneIsConserved(t: Tables)
    requires t.batches == [] && |t.outbox| == 1 && !t.outbox[0].payload.Payout?
    requires |t.transactions| == 1 && !Done(t.transactions[0].state)
    ensures Conserved(t)
  {
    forall key: Key
      ensures Sum(t.transactions, SettledAmount(key)) == 0 && Sum(t.outbox, PayoutAmount(key)) == 0
    {
      assert t.transactions[..0] == [] && t.outbox[..0] == [];
    }
  }

  // The only payment x, persisted from engine 0's window, with engine 1 about to persist it again.
  ghost predicate HalfWay(s: System, x: Transaction, start1: int, end1: int, start2: int, end2: int) {
    && s.db.transactions == [x.(state := SETTLED)] && Conserved(s.db)
    && 1 in s.engines && s.engines[1] == EngineState(start2, end2, [Alone(x)])
    && forall b :: b in s.db.batches ==> (b.windowStart, b.windowEnd) == (start1, end1)
  }

  lemma FirstPersist(env: Env, txn: Transaction, start1: int, end1: int, start2: int, end2: int, batchId: string,
                     payoutId: string)
    returns (states: seq<System>)
    requires Payable(txn) && start1 <= 0 < end1 && start2 <= 0 < end2
    ensures Run(env, states)
    ensures HalfWay(states[|states| - 1], ToStore(txn, 0).(state := CAPTURED), start1, end1, start2, end2)
  {
    states := TwoPending(env, txn, start1, end1, start2, end2);
    OneIsConserved(states[|states| - 1].db);
    PersistStepConservesExactlyWhen(env, states, PersistGroup(0, batchId, payoutId, 0, false));
    states := PersistedNext(env, states, 0, batchId, payoutId);
  }

  lemma SecondPersist(env: Env, states: seq<System>, x: Transaction, start1: int, end1: int, start2: int, end2: int,
                      batchId: string, payoutId: string)
    requires Run(env, states) && HalfWay(states[|states| - 1], x, start1, end1, start2, end2)
    requires (start1, end1) != (start2, end2)
    ensures !Conserved(EngineStep(states[|states| - 1], PersistGroup(1, batchId, payoutId, 0, false)).db)
  {
    var s := states[|states| - 1];
    PersistStepConservesExactlyWhen(env, states, PersistGroup(1, batchId, payoutId, 0, false));
    assert s.db.transactions[0].paymentId in NextBatch(s.engines[1], batchId).paymentIds;
  }

  /** Two engines at work on different windows pay one payment out twice: for any payment and any two
      different windows around its creation there is a run from the empty system whose last two steps
      persist it, the first keeping conservation and the second breaking it. */
  lemma PaidTwice(env: Env, txn: Transaction, start1: int, end1: int, start2: int, end2: int,
                  batch1: string, batch2: string, payout1: string, payout2: string) returns (states: seq<System>)
    requires Payable(txn) && start1 <= 0 < end1 && start2 <= 0 < end2 && (start1, end1) != (start2, end2)
    ensures Run(env, states) && |states| >= 2
    ensures Conserved(states[|states| - 2].db) && !Conserved(states[|states| - 1].db)
  {
    var once := FirstPersist(env, txn, start1, end1, start2, end2, batch1, payout1);
    SecondPersist(env, once, ToStore(txn, 0).(state := CAPTURED), start1, end1, start2, end2, batch2, payout2);
    states := PersistedNext(env, once, 1, batch2, payout2);
  }

  // The window of the creation of x has been opened and closed with nothing to settle.
  ghost predicate ClosedEarly(s: System, x: Transaction, size: int) {
    Waiting(s, x) && s.engines == map[0 := EngineState(1 - size, 1, [])] && s.db.batches == []
  }

  lemma CloseEarly(env: Env, txn: Transaction, size: int) returns (states: seq<System>)
    requires Payable(txn) && size >= 2
    ensures Run(env, states) && ClosedEarly(states[|states| - 1], ToStore(txn, 0), size)
  {
    states := FirstStored(env, txn);
    states := AggregatedAlone(env, states, ToStore(txn, 0), 0, 1 - size, 1);
  }

  // The payment is captured, and the next window opened covers its creation again.
  ghost predicate LatePending(s: System, x: Transaction, size: int) {
    && s.db.transactions == [x.(state := CAPTURED)] && s.db.batches == []
    && 1 in s.engines && s.engines[1] == EngineState(2 - size, 2, [Alone(x.(state := CAPTURED))])
  }

  lemma AggregateLate(env: Env, closed: seq<System>, x: Transaction, size: int) returns (states: seq<System>)
    requires Run(env, closed) && ClosedEarly(closed[|closed| - 1], x, size) && size >= 2
    requires x.createdAt == 0 && IsInt64(x.minorUnits)
    ensures Run(env, states) && closed <= states && LatePending(states[|states| - 1], x, size)
  {
    states := CaptureIt(env, closed, x);
    states := AggregatedAlone(env, states, x.(state := CAPTURED), 1, 2 - size, 2);
  }

  lemma PersistLate(s: System, x: Transaction, size: int, batchId: string, payoutId: string)
    requires LatePending(s, x, size)
    ensures EngineStep(s, PersistGroup(1, batchId, payoutId, 0, false)).db.transactions == [x.(state := SETTLED)]
  {
    assert x.paymentId in [x.paymentId];
  }

  lemma SettleLate(env: Env, closed: seq<System>, x: Transaction, size: int, batchId: string, payoutId: string)
    returns (states: seq<System>)
    requires Run(env, closed) && ClosedEarly(closed[|closed| - 1], x, size) && size >= 2
    requires x.createdAt == 0 && IsInt64(x.minorUnits)
    ensures Run(env, states) && closed <= states
    ensures states[|states| - 1].db.transactions == [x.(state := SETTLED)]
  {
    var pending := AggregateLate(env, closed, x, size);
    PersistLate(pending[|pending| - 1], x, size, batchId, payoutId);
    states := PersistedNext(env, pending, 1, batchId, payoutId);
  }

  /** A payment captured after the window of its creation has been closed may be settled all the same: a
      restarted engine opens a window that covers its creation again. */
  lemma LateCaptureMaySettle(env: Env, txn: Transaction, size: int, batchId: string, payoutId: string)
    returns (states: seq<System>, m: nat)
    requires Payable(txn) && size >= 2
    ensures Run(env, states) && m < |states| && ClosedEarly(states[m], ToStore(txn, 0), size)
    ensures states[|states| - 1].db.transactions == [ToStore(txn, 0).(state := SETTLED)]
  {
    var closed := CloseEarly(env, txn, size);
    m := |closed| - 1;
    states := SettleLate(env, closed, ToStore(txn, 0), size, batchId, payoutId);
  }
}
