/** Building runs: one more step, one more accepted payment, one payment captured. */
module PipelineRuns {
  import opened Domain
  import opened Sequences
  import opened Schema
  import opened Ledger
  import opened Outbox
  import opened Kafka
  import opened Idempotency
  import opened Pipeline
  import opened PipelineRows

  lemma Extend(env: Env, states: seq<System>, a: Action)
    requires Run(env, states) && Enabled(env, states[|states| - 1], a)
    ensures Run(env, states + [Step(env, states[|states| - 1], a)])
  {
    assert Next(env, states[|states| - 1], Step(env, states[|states| - 1], a));
  }

  // A submission that is accepted.
  lemma Accept(env: Env, states: seq<System>, txn: Transaction) returns (states': seq<System>)
    requires Run(env, states)
    requires var s := states[|states| - 1];
             s.submits == map[] && DeriveKey(txn, env.hash) !in s.redis && Insertable(s.db, txn)
    ensures Run(env, states') && states <= states'
    ensures var s := states[|states| - 1];
            states'[|states'| - 1] == s.(db := Saved(s.db, ToStore(txn, 0)),
                                         redis := s.redis[DeriveKey(txn, env.hash) := txn.paymentId])
  {
    var s := states[|states| - 1];
    var claim, store := Action.Intake(Claim(0, txn)), Action.Intake(IntakeAction.Store(0, 0, false));
    Extend(env, states, claim);
    var s1 := Step(env, s, claim);
    Extend(env, states + [s1], store);
    var s2 := Step(env, s1, store);
    states' := states + [s1] + [s2];
    assert s2.submits == s.submits && s2.acks == s.acks;
  }

  // An announced, unpublished payment between the systems of relays and consumers at rest.
  ghost predicate Waiting(s: System, txn: Transaction) {
    && s.db.transactions == [txn] && txn.state == VALIDATED && txn.minorUnits > 0
    && txn.paymentId != "" && txn.accountId != "" && txn.currency != ""
    && s.db.outbox == [AnnouncementOf(txn)]
    && s.log == [] && s.relays == map[] && s.workers == map[] && s.committed == map[]
  }

  lemma Published(env: Env, states: seq<System>, txn: Transaction) returns (states': seq<System>)
    requires Run(env, states) && Waiting(states[|states| - 1], txn)
    ensures Run(env, states') && states <= states'
    ensures var s := states[|states| - 1];
            states'[|states'| - 1]
            == s.(log := [RecordOf(AnnouncementOf(txn))], relays := map[0 := RelayState([0], true)])
  {
    var s := states[|states| - 1];
    assert UnpublishedBelow(s.db.outbox, 0) == [];
    assert Unpublished(s.db.outbox) == [0];
    var query, publish := Relaying(Query(0, 1)), Relaying(RelayAction.Publish(0, Acked));
    Extend(env, states, query);
    var s1 := Step(env, s, query);
    assert s1.relays[0] == RelayState([0], false);
    Extend(env, states + [s1], publish);
    var s2 := Step(env, s1, publish);
    states' := states + [s1] + [s2];
    assert s2.log == [RecordOf(AnnouncementOf(txn))] && s2.relays == map[0 := RelayState([0], true)];
  }

  lemma OneRecord(env: Env, txn: Transaction)
    ensures var log := [RecordOf(AnnouncementOf(txn))]; PartitionLog(env, log, env.partitionOf(txn.accountId)) == log
  {
    var r, p := RecordOf(AnnouncementOf(txn)), env.partitionOf(txn.accountId);
    FilterAppend([], r, InPartition(env, p));
    assert [] + [r] == [r];
  }

  /** From a waiting payment to a captured one, by a relay and a consumer. */
  lemma CaptureIt(env: Env, states: seq<System>, txn: Transaction) returns (states': seq<System>)
    requires Run(env, states) && Waiting(states[|states| - 1], txn)
    ensures Run(env, states') && states <= states'
    ensures var s, s' := states[|states| - 1], states'[|states'| - 1];
            && s'.db.transactions == [txn.(state := CAPTURED)] && s'.db.outbox == s.db.outbox
            && s'.db.batches == s.db.batches && s'.engines == s.engines
  {
    var p := env.partitionOf(txn.accountId);
    states' := Published(env, states, txn);
    var s := states'[|states'| - 1];
    OneRecord(env, txn);
    var join, capture := Consuming(Join(0, p)), Consuming(PostCaptures(0, UpdateWorks));
    Extend(env, states', join);
    var s1 := Step(env, s, join);
    assert s1.workers[0] == Worker(p, 0, Idle) && RecordAt(env, s1, 0) == RecordOf(AnnouncementOf(txn));
    Extend(env, states' + [s1], capture);
    var s2 := Step(env, s1, capture);
    LookupOne(txn);
    states' := states' + [s1] + [s2];
  }

  lemma LookupOne(txn: Transaction)
    ensures Lookup([txn], txn.paymentId) == Some(txn)
    ensures Moved([txn], txn.paymentId, txn.state, CAPTURED) == [txn.(state := CAPTURED)]
  {}
}
