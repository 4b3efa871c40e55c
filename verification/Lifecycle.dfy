/** The state machine as the tables see it: every committed change is an allowed edge, and the
    audit rows of a payment replay its life, except that PersistBatch settles without an audit row. */
module Lifecycle {
  import opened Domain
  import opened Sequences
  import opened Schema

  const EDGES: set<(State, State)> := {
    (RECEIVED, VALIDATED), (RECEIVED, FAILED), (VALIDATED, AUTHORIZED), (VALIDATED, CAPTURED), (VALIDATED, FAILED),
    (AUTHORIZED, CAPTURED), (AUTHORIZED, FAILED), (CAPTURED, SETTLED), (CAPTURED, FAILED), (SETTLED, RECONCILED)
  }

  /** The whole state graph. */
  lemma EdgesExactly(from: State, to: State)
    ensures Transition(from, to) <==> (from, to) in EDGES
  {}

  lemma RankRises(from: State, to: State)
    requires Transition(from, to)
    ensures Rank(from) < Rank(to)
  {}

  /** FAILED and RECONCILED are exactly the states without a successor. */
  lemma TerminalStates(state: State)
    ensures (forall to :: !Transition(state, to)) <==> state in {FAILED, RECONCILED}
  {
    if state == RECEIVED { assert Transition(state, FAILED); }
    if state == VALIDATED { assert Transition(state, FAILED); }
    if state == AUTHORIZED { assert Transition(state, FAILED); }
    if state == CAPTURED { assert Transition(state, FAILED); }
    if state == SETTLED { assert Transition(state, RECONCILED); }
  }

  /* ---- the audit rows of one payment ---- */

  function Of(paymentId: string): Audit -> bool {
    (a: Audit) => a.paymentId == paymentId
  }

  function Trail(transitions: seq<Audit>, paymentId: string): seq<Audit> {
    Filter(transitions, Of(paymentId))
  }

  /** The audit rows walk allowed edges from VALIDATED to `state`, the last row entering `state`. */
  ghost predicate Walks(trail: seq<Audit>, state: State)
    decreases |trail|, 0
  {
    if trail == [] then state == VALIDATED
    else
      var last := trail[|trail| - 1];
      last.to == state && Transition(last.from, last.to) && Leads(trail[..|trail| - 1], last.from)
  }

  /** As Walks, allowing the one edge that leaves no audit row, CAPTURED to SETTLED. */
  ghost predicate Leads(trail: seq<Audit>, state: State)
    decreases |trail|, 1
  {
    Walks(trail, state) || (state == SETTLED && Walks(trail, CAPTURED))
  }

  /** No payment has more audit rows than its state has risen in rank. */
  lemma {:induction false} TrailBounded(trail: seq<Audit>, state: State)
    requires Leads(trail, state)
    ensures |trail| <= Rank(state) - Rank(VALIDATED)
    decreases |trail|
  {
    if trail != [] {
      var last := trail[|trail| - 1];
      assert Walks(trail, state) || Walks(trail, CAPTURED);
      TrailBounded(trail[..|trail| - 1], last.from);
      RankRises(last.from, last.to);
    }
  }

  ghost predicate Audited(t: Tables) {
    && DistinctIds(t.transactions)
    && (forall i :: 0 <= i < |t.transactions| ==>
          var x := t.transactions[i]; Leads(Trail(t.transitions, x.paymentId), x.state))
    && (forall a :: a in t.transitions ==> HasRow(t.transactions, a.paymentId))
  }

  ghost predicate HasRow(rows: seq<Transaction>, paymentId: string) {
    exists i :: 0 <= i < |rows| && rows[i].paymentId == paymentId
  }

  lemma {:induction false} NoTrail(transitions: seq<Audit>, paymentId: string)
    requires forall a :: a in transitions ==> a.paymentId != paymentId
    ensures Trail(transitions, paymentId) == []
  {
    if transitions != [] {
      NoTrail(transitions[..|transitions| - 1], paymentId);
    }
  }

  lemma SavedAudited(t: Tables, txn: Transaction)
    requires Audited(t) && Insertable(t, txn) && txn.state == VALIDATED
    ensures Audited(Saved(t, txn))
  {
    var rows' := Saved(t, txn).transactions;
    assert forall i :: 0 <= i < |t.transactions| ==> t.transactions[i] in t.transactions;
    NoTrail(t.transitions, txn.paymentId);
    forall a | a in t.transitions ensures HasRow(rows', a.paymentId) {
      var i :| 0 <= i < |t.transactions| && t.transactions[i].paymentId == a.paymentId;
      assert rows'[i].paymentId == a.paymentId;
    }
  }

  lemma SameRows(rows: seq<Transaction>, rows': seq<Transaction>, paymentId: string)
    requires SameButState(rows, rows')
    ensures HasRow(rows, paymentId) <==> HasRow(rows', paymentId)
    ensures DistinctIds(rows) <==> DistinctIds(rows')
  {
    if HasRow(rows, paymentId) {
      var i :| 0 <= i < |rows| && rows[i].paymentId == paymentId;
      assert rows'[i].paymentId == paymentId;
    }
    if HasRow(rows', paymentId) {
      var i :| 0 <= i < |rows| && rows'[i].paymentId == paymentId;
      assert rows[i].paymentId == paymentId;
    }
    assert forall i :: 0 <= i < |rows| ==> rows'[i].paymentId == rows[i].paymentId;
  }

  lemma TrailExtended(transitions: seq<Audit>, row: Audit, paymentId: string)
    ensures paymentId != row.paymentId ==>
              Trail(transitions + [row], paymentId) == Trail(transitions, paymentId)
    ensures paymentId == row.paymentId && Transition(row.from, row.to)
            && Leads(Trail(transitions, paymentId), row.from) ==>
              Leads(Trail(transitions + [row], paymentId), row.to)
  {
    FilterAppend(transitions, row, Of(paymentId));
    var trail := Trail(transitions, paymentId);
    assert (trail + [row])[..|trail|] == trail;
  }

  lemma UpdatedRow(t: Tables, paymentId: string, from: State, to: State, i: nat)
    requires Audited(t) && i < |t.transactions|
    requires UpdateOutcome(t, paymentId, from, to) == Updated
    ensures var t' := AfterUpdate(t, paymentId, from, to);
            Leads(Trail(t'.transitions, t'.transactions[i].paymentId), t'.transactions[i].state)
  {
    var x := t.transactions[i];
    assert Leads(Trail(t.transitions, x.paymentId), x.state);
    LookupRow(t.transactions, i);
    TrailExtended(t.transitions, Audit(paymentId, from, to), x.paymentId);
  }

  lemma UpdatedHasRow(t: Tables, paymentId: string, from: State, to: State, a: Audit)
    requires Audited(t) && UpdateOutcome(t, paymentId, from, to) == Updated
    requires a in AfterUpdate(t, paymentId, from, to).transitions
    ensures HasRow(AfterUpdate(t, paymentId, from, to).transactions, a.paymentId)
  {
    LookupSound(t.transactions, paymentId);
    assert a in t.transitions || a == Audit(paymentId, from, to);
    SameRows(t.transactions, Moved(t.transactions, paymentId, from, to), a.paymentId);
  }

  /** UpdateState with any arguments keeps the audit trail exact. */
  lemma UpdateAudited(t: Tables, paymentId: string, from: State, to: State)
    requires Audited(t)
    ensures Audited(AfterUpdate(t, paymentId, from, to))
  {
    var t' := AfterUpdate(t, paymentId, from, to);
    if UpdateOutcome(t, paymentId, from, to) == Updated {
      forall i | 0 <= i < |t'.transactions|
        ensures Leads(Trail(t'.transitions, t'.transactions[i].paymentId), t'.transactions[i].state)
      {
        UpdatedRow(t, paymentId, from, to, i);
      }
      forall a | a in t'.transitions ensures HasRow(t'.transactions, a.paymentId) {
        UpdatedHasRow(t, paymentId, from, to, a);
      }
      MovedDistinct(t.transactions, paymentId, from, to);
    }
  }

  /** PersistBatch over any ids keeps the trail exact up to the edge it does not audit. */
  lemma PersistAudited(t: Tables, b: Batch, payoutId: string, now: int)
    requires Audited(t)
    ensures Audited(Persisted(t, b, payoutId, now))
  {
    var t' := Persisted(t, b, payoutId, now);
    assert SameButState(t.transactions, t'.transactions);
    forall a | a in t'.transitions ensures HasRow(t'.transactions, a.paymentId) {
      SameRows(t.transactions, t'.transactions, a.paymentId);
    }
    SameRows(t.transactions, t'.transactions, "");
  }

  /* ---- what any step may do to a stored payment ---- */

  /** Rows are only added, and each stored row keeps its place and its fields; its state stays or
      takes one allowed edge. */
  ghost predicate RowsMove(rows: seq<Transaction>, rows': seq<Transaction>) {
    |rows| <= |rows'| &&
    forall i :: 0 <= i < |rows| ==>
      && rows'[i] == rows[i].(state := rows'[i].state)
      && (rows'[i].state == rows[i].state || Transition(rows[i].state, rows'[i].state))
  }

  lemma UpdateMoves(t: Tables, paymentId: string, from: State, to: State)
    ensures RowsMove(t.transactions, AfterUpdate(t, paymentId, from, to).transactions)
  {}

  lemma PersistMoves(t: Tables, b: Batch, payoutId: string, now: int)
    ensures RowsMove(t.transactions, Persisted(t, b, payoutId, now).transactions)
  {}

  /** `y` is the same payment, later: its rank has not fallen, an equal rank means an equal state, and
      FAILED and RECONCILED are never left. */
  ghost predicate Advanced(x: Transaction, y: Transaction) {
    && y == x.(state := y.state)
    && Rank(x.state) <= Rank(y.state) && (Rank(x.state) == Rank(y.state) ==> x.state == y.state)
    && (x.state in {FAILED, RECONCILED} ==> y.state == x.state)
  }

  lemma AdvanceOnce(x: Transaction, y: Transaction, z: Transaction)
    requires Advanced(x, y) && z == y.(state := z.state)
    requires z.state == y.state || Transition(y.state, z.state)
    ensures Advanced(x, z)
  {
    if z.state != y.state {
      RankRises(y.state, z.state);
    }
  }

  /* ---- UpdateState on a stored payment and on a missing one ---- */

  /** On the payment in row i: which answer is given, and that exactly that row's state and one audit row
      change, or nothing. */
  lemma UpdateMeans(t: Tables, i: nat, from: State, to: State)
    requires DistinctIds(t.transactions) && i < |t.transactions|
    ensures var x := t.transactions[i];
            var outcome, t' := UpdateOutcome(t, x.paymentId, from, to), AfterUpdate(t, x.paymentId, from, to);
            && (outcome == IllegalTransition <==> !Transition(from, to))
            && (outcome == Stale(from, to, x.state) <==> Transition(from, to) && x.state != from)
            && (outcome == Updated <==> Transition(from, to) && x.state == from)
            && t' == if Transition(from, to) && x.state == from
                     then t.(transactions := t.transactions[i := x.(state := to)],
                             transitions := t.transitions + [Audit(x.paymentId, from, to)])
                     else t
  {
    var x := t.transactions[i];
    LookupRow(t.transactions, i);
    if Transition(from, to) && x.state == from {
      assert Moved(t.transactions, x.paymentId, from, to) == t.transactions[i := x.(state := to)];
    }
  }

  lemma UpdateMissing(t: Tables, paymentId: string, from: State, to: State)
    requires !HasRow(t.transactions, paymentId)
    ensures UpdateOutcome(t, paymentId, from, to) == if Transition(from, to) then NotFound else IllegalTransition
    ensures AfterUpdate(t, paymentId, from, to) == t
  {
    LookupSound(t.transactions, paymentId);
  }
}
