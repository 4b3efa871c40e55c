/** Payments captured too late: what no later window covers is never settled. */
module PipelineWindows {
  import opened Domain
  import opened Schema
  import opened Lifecycle
  import opened Aggregation
  import opened Conservation
  import opened Pipeline
  import opened PipelineRows
  import opened PipelineSettlement

  /** No group still to be persisted lists the payment. */
  ghost predicate Unlisted(engines: map<nat, EngineState>, paymentId: string) {
    forall e, g :: e in engines && g in engines[e].groups ==> paymentId !in g.paymentIds
  }

  /** From state m on every window that is opened leaves out the given creation time. */
  ghost predicate OpensElsewhere(states: seq<System>, m: nat, createdAt: int) {
    forall i, j, e :: m <= i < j < |states| && j == i + 1 && e in states[j].engines && e !in states[i].engines ==>
      !(states[j].engines[e].start <= createdAt < states[j].engines[e].end)
  }

  ghost predicate Stranded(s: System, k: nat) {
    k < |s.db.transactions| && !Done(s.db.transactions[k].state) && Unlisted(s.engines, s.db.transactions[k].paymentId)
  }

  lemma AggregateStrands(s: System, a: EngineAction, k: nat)
    requires DistinctIds(s.db.transactions) && Stranded(s, k) && EngineEnabled(s, a) && a.AggregateWindow?
    requires !(a.start <= s.db.transactions[k].createdAt < a.end)
    ensures Stranded(EngineStep(s, a), k)
  {
    var rows := s.db.transactions;
    forall g | g in Groups(rows, a.start, a.end) ensures rows[k].paymentId !in g.paymentIds {
      var i :| 0 <= i < |Groups(rows, a.start, a.end)| && Groups(rows, a.start, a.end)[i] == g;
      GroupsPartition(rows, a.start, a.end, k, i);
    }
  }

  lemma EngineStrands(s: System, a: EngineAction, k: nat)
    requires DistinctIds(s.db.transactions) && Stranded(s, k) && EngineEnabled(s, a)
    requires a.AggregateWindow? ==> !(a.start <= s.db.transactions[k].createdAt < a.end)
    ensures Stranded(EngineStep(s, a), k)
  {
    match a
    case AggregateWindow(_, _, _) => AggregateStrands(s, a, k);
    case PersistGroup(engine, _, _, _, _) => assert s.engines[engine].groups[0] in s.engines[engine].groups;
    case StopEngine(_) =>
  }

  lemma AsideStrands(s: System, s': System, k: nat)
    requires Stranded(s, k) && Aside(s, s')
    ensures Stranded(s', k)
  {}

  lemma StepStrands(env: Env, s: System, a: Action, k: nat)
    requires RowsOk(s.db) && Stranded(s, k) && Enabled(env, s, a)
    requires a.Settling? && a.settling.AggregateWindow? ==>
               !(a.settling.start <= s.db.transactions[k].createdAt < a.settling.end)
    ensures Stranded(Step(env, s, a), k)
  {
    match a
    case Intake(i) =>
      IntakeAside(env, s, i);
      AsideStrands(s, IntakeStep(env, s, i), k);
    case Relaying(r) =>
      RelayAside(s, r);
      AsideStrands(s, RelayStep(s, r), k);
    case Consuming(c) =>
      ConsumerAside(env, s, c);
      AsideStrands(s, ConsumerStep(env, s, c), k);
    case Settling(e) => EngineStrands(s, e, k);
  }

  lemma OpensPrefix(states: seq<System>, m: nat, createdAt: int)
    requires |states| > 1 && OpensElsewhere(states, m, createdAt)
    ensures OpensElsewhere(states[..|states| - 1], m, createdAt)
  {}

  lemma LastOpens(env: Env, states: seq<System>, m: nat, createdAt: int, a: Action)
    requires |states| > 1 && m < |states| - 1 && OpensElsewhere(states, m, createdAt)
    requires Enabled(env, states[|states| - 2], a) && states[|states| - 1] == Step(env, states[|states| - 2], a)
    requires a.Settling? && a.settling.AggregateWindow?
    ensures !(a.settling.start <= createdAt < a.settling.end)
  {
    var s, s', e := states[|states| - 2], states[|states| - 1], a.settling.engine;
    assert e in s'.engines && e !in s.engines;
  }

  // The payment of row k, created at createdAt, is stranded.
  ghost predicate StrandedRow(s: System, k: nat, createdAt: int) {
    Stranded(s, k) && s.db.transactions[k].createdAt == createdAt
  }

  lemma LastStrands(env: Env, states: seq<System>, m: nat, k: nat, createdAt: int)
    requires Run(env, states) && m < |states| - 1 && OpensElsewhere(states, m, createdAt)
    requires StrandedRow(states[|states| - 2], k, createdAt)
    ensures StrandedRow(states[|states| - 1], k, createdAt)
  {
    RunPrefix(env, states);
    RunRowsOk(env, states[..|states| - 1]);
    var s := states[|states| - 2];
    var a :| Enabled(env, s, a) && states[|states| - 1] == Step(env, s, a);
    if a.Settling? && a.settling.AggregateWindow? {
      LastOpens(env, states, m, createdAt, a);
    }
    StepStrands(env, s, a, k);
    LastMove(env, states);
  }

  ghost predicate Strands(states: seq<System>, m: nat, k: nat, createdAt: int) {
    forall i, j :: m <= i < j < |states| && j == i + 1 && StrandedRow(states[i], k, createdAt) ==>
      StrandedRow(states[j], k, createdAt)
  }

  lemma {:induction false} RunStrands(env: Env, states: seq<System>, m: nat, k: nat, createdAt: int)
    requires Run(env, states) && OpensElsewhere(states, m, createdAt)
    ensures Strands(states, m, k, createdAt)
  {
    if |states| > 1 {
      var before := states[..|states| - 1];
      RunPrefix(env, states);
      OpensPrefix(states, m, createdAt);
      RunStrands(env, before, m, k, createdAt);
      if m < |states| - 1 && StrandedRow(states[|states| - 2], k, createdAt) {
        LastStrands(env, states, m, k, createdAt);
      }
      StrandsOn(states, m, k, createdAt);
    }
  }

  lemma StrandsOn(states: seq<System>, m: nat, k: nat, createdAt: int)
    requires |states| > 1 && Strands(states[..|states| - 1], m, k, createdAt)
    requires m < |states| - 1 && StrandedRow(states[|states| - 2], k, createdAt) ==>
               StrandedRow(states[|states| - 1], k, createdAt)
    ensures Strands(states, m, k, createdAt)
  {
    var before := states[..|states| - 1];
    assert forall i :: 0 <= i < |before| ==> before[i] == states[i];
  }

  lemma {:induction false} StrandedToTheEnd(states: seq<System>, m: nat, k: nat, createdAt: int)
    requires Strands(states, m, k, createdAt) && m < |states| && StrandedRow(states[m], k, createdAt)
    ensures StrandedRow(states[|states| - 1], k, createdAt)
  {
    if m < |states| - 1 {
      StrandedToTheEnd(states[..|states| - 1], m, k, createdAt);
      assert StrandedRow(states[|states| - 2], k, createdAt);
    }
  }

  /** Over every run, with any number of engines and any steps between: a payment that is not settled at
      state m, is in no group still to be persisted, and was created outside of every window opened
      from then on, is not settled at the end - captured or not. */
  lemma NeverSettled(env: Env, states: seq<System>, m: nat, k: nat)
    requires Run(env, states) && m < |states| && Stranded(states[m], k)
    requires OpensElsewhere(states, m, states[m].db.transactions[k].createdAt)
    ensures k < |states[|states| - 1].db.transactions|
    ensures !Done(states[|states| - 1].db.transactions[k].state)
    ensures Advanced(states[m].db.transactions[k], states[|states| - 1].db.transactions[k])
  {
    var createdAt := states[m].db.transactions[k].createdAt;
    RunStrands(env, states, m, k, createdAt);
    StrandedToTheEnd(states, m, k, createdAt);
    PaymentsOnlyAdvance(env, states, m, k);
  }
}
