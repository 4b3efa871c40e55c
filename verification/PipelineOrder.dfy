/** Order on the log: with one relay at a time, removing adjacent repeats leaves the outbox up to the
    last row published, in order. */
module PipelineOrder {
  import opened Domain
  import opened Sequences
  import opened Schema
  import opened Outbox
  import opened Kafka
  import opened Pipeline
  import opened PipelineRows
  import opened PipelineDelivery
  import opened PipelineBatches
  import opened PipelineRuns
  import opened Idempotency

  /** No two relays are between their query and the end of their batch. */
  ghost predicate OneRelay(s: System) {
    forall i, j :: i in s.relays && j in s.relays ==> i == j
  }

  function ChannelOf(s: System): Channel {
    Channel(s.db.outbox, s.log)
  }

  // The relay works on the oldest unmarked rows, and knows whether the first of them is logged.
  ghost predicate Aligned(r: RelayState, rows: nat, m: nat, n: nat) {
    && m + |r.ids| <= rows
    && (forall k :: 0 <= k < |r.ids| ==> r.ids[k] == m + k)
    && (r.sent ==> n == m + 1)
  }

  ghost predicate OrderOk(s: System, m: nat, n: nat) {
    InOrder(ChannelOf(s), m, n) && forall i :: i in s.relays ==> Aligned(s.relays[i], |s.db.outbox|, m, n)
  }

  ghost predicate Appends(outbox: seq<OutboxRow>, outbox': seq<OutboxRow>) {
    |outbox| <= |outbox'| && outbox'[..|outbox|] == outbox
    && forall k :: |outbox| <= k < |outbox'| ==> !outbox'[k].published
  }

  lemma AppendKeepsOrder(s: System, s': System, m: nat, n: nat)
    requires OrderOk(s, m, n) && Appends(s.db.outbox, s'.db.outbox)
    requires s'.log == s.log && s'.relays == s.relays
    ensures OrderOk(s', m, n)
  {
    assert s'.db.outbox[..n] == s.db.outbox[..n];
    forall k | 0 <= k < |s'.db.outbox| ensures s'.db.outbox[k].published <==> k < m {
      assert k < |s.db.outbox| ==> s'.db.outbox[k] == s.db.outbox[k];
    }
  }

  lemma QueryKeepsOrder(s: System, a: RelayAction, m: nat, n: nat)
    requires OrderOk(s, m, n) && RelayEnabled(s, a) && a.Query? && OneRelay(RelayStep(s, a))
    ensures OrderOk(RelayStep(s, a), m, n)
  {
    PrefixUnpublished(s.db.outbox, m, |s.db.outbox|);
    var s' := RelayStep(s, a);
    assert a.relay in s'.relays;
    forall i | i in s'.relays ensures Aligned(s'.relays[i], |s'.db.outbox|, m, n) {
      assert i == a.relay;
    }
  }

  lemma PublishKeepsOrder(s: System, a: RelayAction, m: nat, n: nat) returns (n': nat)
    requires OrderOk(s, m, n) && OneRelay(s) && RelayEnabled(s, a) && a.Publish?
    ensures OrderOk(RelayStep(s, a), m, n')
  {
    assert Aligned(s.relays[a.relay], |s.db.outbox|, m, n);
    assert s.relays[a.relay].ids[0] == m;
    NextLogged(ChannelOf(s), m, n);
    n' := if a.publish == NotAppended then n else m + 1;
    var s' := RelayStep(s, a);
    assert s'.log == if a.publish == NotAppended then s.log else s.log + [RecordOf(s.db.outbox[m])];
    assert InOrder(ChannelOf(s'), m, n');
  }

  lemma MarkKeepsOrder(s: System, a: RelayAction, m: nat, n: nat) returns (m': nat)
    requires OrderOk(s, m, n) && OneRelay(s) && RelayEnabled(s, a) && a.Mark?
    ensures OrderOk(RelayStep(s, a), m', n)
  {
    assert Aligned(s.relays[a.relay], |s.db.outbox|, m, n);
    assert s.relays[a.relay].ids[0] == m;
    MarkKeepsRecords(s.db.outbox, m, n);
    m' := if a.mark == MarkLost then m else m + 1;
    assert MarkedPrefix(RelayStep(s, a).db.outbox, m');
  }

  lemma RelayKeepsOrder(s: System, a: RelayAction, m: nat, n: nat) returns (m': nat, n': nat)
    requires OrderOk(s, m, n) && OneRelay(s) && RelayEnabled(s, a) && OneRelay(RelayStep(s, a))
    ensures OrderOk(RelayStep(s, a), m', n')
  {
    m', n' := m, n;
    match a
    case Query(_, _) => QueryKeepsOrder(s, a, m, n);
    case Publish(_, _) => n' := PublishKeepsOrder(s, a, m, n);
    case Mark(_, _) => m' := MarkKeepsOrder(s, a, m, n);
    case StopRelay(_) =>
  }

  /* ---- adjacent outbox rows are different records ---- */

  // A batch's settled event never stands last: its payout request is appended with it.
  ghost predicate RowsDiffer(outbox: seq<OutboxRow>) {
    && (forall i, j :: 0 <= i < j < |outbox| && j == i + 1 ==> RecordOf(outbox[i]) != RecordOf(outbox[j]))
    && (outbox != [] ==> !outbox[|outbox| - 1].payload.Settled?)
  }

  lemma DifferentNext(outbox: seq<OutboxRow>, row: OutboxRow)
    requires RowsDiffer(outbox) && !row.payload.Settled?
    requires outbox != [] ==> RecordOf(outbox[|outbox| - 1]) != RecordOf(row)
    ensures RowsDiffer(outbox + [row])
  {}

  lemma NewAnnouncement(t: Tables, txn: Transaction)
    requires RowsOk(t) && RowsDiffer(t.outbox) && Insertable(t, txn) && txn.state == VALIDATED
    ensures RowsDiffer(Saved(t, txn).outbox)
  {
    if t.outbox != [] {
      var k := |t.outbox| - 1;
      if t.outbox[k].payload.Received? {
        var i := EventHasRow(t, k);
        assert t.transactions[i] in t.transactions;
      }
    }
    DifferentNext(t.outbox, AnnouncementOf(txn));
  }

  lemma NewBatch(t: Tables, b: Batch, payoutId: string, now: int)
    requires RowsDiffer(t.outbox)
    ensures RowsDiffer(Persisted(t, b, payoutId, now).outbox)
  {}

  ghost predicate OnlyAppends(s: System, s': System) {
    Appends(s.db.outbox, s'.db.outbox) && s'.log == s.log && s'.relays == s.relays
  }

  lemma IntakeAppends(env: Env, s: System, a: IntakeAction)
    requires IntakeEnabled(s, a)
    ensures OnlyAppends(s, IntakeStep(env, s, a))
  {}

  lemma EngineAppends(s: System, a: EngineAction)
    requires EngineEnabled(s, a)
    ensures OnlyAppends(s, EngineStep(s, a))
  {}

  lemma IntakeOutbox(env: Env, s: System, a: IntakeAction)
    requires RowsOk(s.db) && RowsDiffer(s.db.outbox) && IntakeEnabled(s, a)
    ensures RowsDiffer(IntakeStep(env, s, a).db.outbox)
  {
    if a.Store? {
      NewAnnouncement(s.db, ToStore(s.submits[a.request], a.now));
    }
  }

  lemma EngineOutbox(s: System, a: EngineAction)
    requires RowsDiffer(s.db.outbox) && EngineEnabled(s, a)
    ensures RowsDiffer(EngineStep(s, a).db.outbox)
  {
    if a.PersistGroup? {
      NewBatch(s.db, NextBatch(s.engines[a.engine], a.batchId), a.payoutId, a.now);
    }
  }

  lemma RelayOutbox(s: System, a: RelayAction)
    requires RowsDiffer(s.db.outbox) && RelayEnabled(s, a)
    ensures RowsDiffer(RelayStep(s, a).db.outbox)
  {}

  lemma StepInOrder(env: Env, s: System, a: Action, m: nat, n: nat) returns (m': nat, n': nat)
    requires RowsOk(s.db) && RowsDiffer(s.db.outbox) && OrderOk(s, m, n) && Enabled(env, s, a)
    requires OneRelay(s) && OneRelay(Step(env, s, a))
    ensures RowsDiffer(Step(env, s, a).db.outbox) && OrderOk(Step(env, s, a), m', n')
  {
    m', n' := m, n;
    match a
    case Intake(i) =>
      IntakeOutbox(env, s, i);
      IntakeAppends(env, s, i);
      AppendKeepsOrder(s, IntakeStep(env, s, i), m, n);
    case Relaying(r) =>
      RelayOutbox(s, r);
      m', n' := RelayKeepsOrder(s, r, m, n);
    case Consuming(c) =>
      ConsumerChannelSame(env, s, c);
      AppendKeepsOrder(s, ConsumerStep(env, s, c), m, n);
    case Settling(e) =>
      EngineOutbox(s, e);
      EngineAppends(s, e);
      AppendKeepsOrder(s, EngineStep(s, e), m, n);
  }

  lemma {:induction false} RunInOrder(env: Env, states: seq<System>) returns (m: nat, n: nat)
    requires Run(env, states) && forall k :: 0 <= k < |states| ==> OneRelay(states[k])
    ensures var s := states[|states| - 1]; RowsDiffer(s.db.outbox) && OrderOk(s, m, n)
  {
    if |states| == 1 {
      m, n := 0, 0;
    } else {
      RunPrefix(env, states);
      var before := states[..|states| - 1];
      m, n := RunInOrder(env, before);
      RunRowsOk(env, before);
      var s := states[|states| - 2];
      var a :| Enabled(env, s, a) && states[|states| - 1] == Step(env, s, a);
      m, n := StepInOrder(env, s, a, m, n);
    }
  }

  function On(topic: string, key: string): Record -> bool {
    (r: Record) => r.topic == topic && r.key == key
  }

  /** Over every run with one relay at a time, through publish failures, mark failures and crashes:
      the marked rows are the oldest m, the log without its adjacent repeats is exactly the oldest n
      rows, which are the marked ones and at most one more, and the order also holds within each topic
      and partition key. */
  lemma LogFollowsOutbox(env: Env, states: seq<System>) returns (m: nat, n: nat)
    requires Run(env, states) && forall k :: 0 <= k < |states| ==> OneRelay(states[k])
    ensures var s := states[|states| - 1];
            && MarkedPrefix(s.db.outbox, m) && m <= n <= m + 1 && n <= |s.db.outbox|
            && Collapse(s.log) == Records(s.db.outbox[..n])
            && forall topic, key ::
                 Stutters(Filter(s.log, On(topic, key)), Filter(Records(s.db.outbox[..n]), On(topic, key)))
  {
    m, n := RunInOrder(env, states);
    var s := states[|states| - 1];
    StutterIsCollapse(s.log, Records(s.db.outbox[..n]));
    forall topic, key {
      StutterFilter(s.log, Records(s.db.outbox[..n]), On(topic, key));
    }
  }

  /* ---- when exactly a step keeps the order ---- */

  // The outbox row whose record a step appends to the log.
  function Published(s: System, a: Action): Option<nat> {
    if a.Relaying? && a.relaying.Publish? && a.relaying.publish != NotAppended
       && a.relaying.relay in s.relays && s.relays[a.relaying.relay].ids != []
    then Some(s.relays[a.relaying.relay].ids[0]) else None
  }

  lemma PublishedAppends(env: Env, s: System, a: Action)
    requires Enabled(env, s, a) && Published(s, a).Some?
    ensures var k, s' := Published(s, a).value, Step(env, s, a);
            && k < |s.db.outbox| && s'.db.outbox == s.db.outbox
            && s'.log == s.log + [Records(s.db.outbox)[k]]
  {}

  lemma RecordsKept(rows: seq<OutboxRow>, rows': seq<OutboxRow>)
    requires RecordsStay(rows, rows')
    ensures Records(rows) <= Records(rows')
  {}

  lemma RelaySilent(s: System, a: RelayAction)
    requires RelayEnabled(s, a) && Published(s, Relaying(a)).None?
    ensures var s' := RelayStep(s, a); s'.log == s.log && RecordsStay(s.db.outbox, s'.db.outbox)
  {}

  lemma IntakeSilent(env: Env, s: System, a: IntakeAction)
    requires IntakeEnabled(s, a)
    ensures var s' := IntakeStep(env, s, a); s'.log == s.log && RecordsStay(s.db.outbox, s'.db.outbox)
  {}

  lemma EngineSilent(s: System, a: EngineAction)
    requires EngineEnabled(s, a)
    ensures var s' := EngineStep(s, a); s'.log == s.log && RecordsStay(s.db.outbox, s'.db.outbox)
  {}

  lemma SilentStep(env: Env, s: System, a: Action)
    requires Enabled(env, s, a) && Published(s, a).None?
    ensures var s' := Step(env, s, a); s'.log == s.log && RecordsStay(s.db.outbox, s'.db.outbox)
  {
    match a
    case Intake(i) => IntakeSilent(env, s, i);
    case Relaying(r) => RelaySilent(s, r);
    case Consuming(c) => ConsumerChannelSame(env, s, c);
    case Settling(e) => EngineSilent(s, e);
  }

  lemma StaysPrefix<T>(log: seq<T>, rows: seq<T>, rows': seq<T>, n: nat)
    requires CollapsesTo(log, rows, n) && rows <= rows'
    ensures CollapsesTo(log, rows', n)
  {}

  /** In every run with any number of relays, and for every step of every process: if the log without
      adjacent repeats is the oldest n outbox rows, then after the step it is a prefix of the outbox if
      and only if the step publishes nothing, the next row n, or the last one, n - 1, again. */
  lemma OrderKeptExactlyWhen(env: Env, states: seq<System>, a: Action, n: nat)
    requires Run(env, states) && DistinctBatchIds(states[|states| - 1].db.batches)
    requires Enabled(env, states[|states| - 1], a)
    requires CollapsesTo(states[|states| - 1].log, Records(states[|states| - 1].db.outbox), n)
    ensures var s := states[|states| - 1]; var s' := Step(env, s, a);
            IsPrefix(s'.log, Records(s'.db.outbox)) <==>
            (Published(s, a).Some? ==> Published(s, a).value == n || Published(s, a).value + 1 == n)
  {
    var s := states[|states| - 1];
    if Published(s, a).Some? {
      PublishedAppends(env, s, a);
      RunDifferent(env, states);
      InOrderExactlyWhen(s.log, Records(s.db.outbox), n, Published(s, a).value);
    } else {
      SilentStep(env, s, a);
      RecordsKept(s.db.outbox, Step(env, s, a).db.outbox);
      StaysPrefix(s.log, Records(s.db.outbox), Records(Step(env, s, a).db.outbox), n);
    }
  }

  lemma {:induction false} FilterDifferent<T>(rows: seq<T>, p: T -> bool)
    requires AllDifferent(rows)
    ensures AllDifferent(Filter(rows, p))
  {
    if rows != [] {
      var init, last := rows[..|rows| - 1], rows[|rows| - 1];
      FilterDifferent(init, p);
      forall k | 0 <= k < |Filter(init, p)| ensures Filter(init, p)[k] != last {
        FilterMember(init, p, Filter(init, p)[k]);
        assert Filter(init, p)[k] in Filter(init, p);
      }
    }
  }

  lemma SelectedInOrder(log: seq<Record>, rows: seq<Record>, p: Record -> bool, n: nat, i: nat)
    requires AllDifferent(rows) && CollapsesTo(Filter(log, p), Filter(rows, p), n) && i < |Filter(rows, p)|
    requires p(Filter(rows, p)[i])
    ensures IsPrefix(Filter(log + [Filter(rows, p)[i]], p), Filter(rows, p)) <==> i == n || i + 1 == n
  {
    FilterDifferent(rows, p);
    FilterAppend(log, Filter(rows, p)[i], p);
    InOrderExactlyWhen(Filter(log, p), Filter(rows, p), n, i);
  }

  lemma FilterPrefix(rows: seq<Record>, rows': seq<Record>, p: Record -> bool)
    requires rows <= rows'
    ensures Filter(rows, p) <= Filter(rows', p)
    decreases |rows'|
  {
    if |rows'| > |rows| {
      FilterPrefix(rows, rows'[..|rows'| - 1], p);
    }
  }

  lemma PublishedSelected(env: Env, states: seq<System>, a: Action, p: Record -> bool, n: nat, i: nat)
    requires Run(env, states) && DistinctBatchIds(states[|states| - 1].db.batches)
    requires Enabled(env, states[|states| - 1], a) && Published(states[|states| - 1], a).Some?
    requires var s := states[|states| - 1];
             && CollapsesTo(Filter(s.log, p), Filter(Records(s.db.outbox), p), n)
             && i < |Filter(Records(s.db.outbox), p)|
             && Published(s, a).value < |s.db.outbox|
             && Filter(Records(s.db.outbox), p)[i] == Records(s.db.outbox)[Published(s, a).value]
             && p(Records(s.db.outbox)[Published(s, a).value])
    ensures var s' := Step(env, states[|states| - 1], a);
            IsPrefix(Filter(s'.log, p), Filter(Records(s'.db.outbox), p)) <==> i == n || i + 1 == n
  {
    var s := states[|states| - 1];
    PublishedAppends(env, s, a);
    RunDifferent(env, states);
    SelectedInOrder(s.log, Records(s.db.outbox), p, n, i);
  }

  lemma PlaceOf<T>(rows: seq<T>, p: T -> bool, k: nat) returns (i: nat)
    requires k < |rows| && p(rows[k])
    ensures i < |Filter(rows, p)| && Filter(rows, p)[i] == rows[k]
  {
    FilterMember(rows, p, rows[k]);
    var j :| 0 <= j < |Filter(rows, p)| && Filter(rows, p)[j] == rows[k];
    i := j;
  }

  /** Order within a topic and key, over every run with any number of relays: if that part of the log, without
      adjacent repeats, is the first n rows of that part of the outbox, and a step publishes the i-th row
      of it, then it is still a prefix if and only if that is the next row, i == n, or the last one again. */
  lemma KeyOrderKeptExactlyWhen(env: Env, states: seq<System>, a: Action, topic: string, key: string, n: nat)
    returns (i: nat)
    requires Run(env, states) && DistinctBatchIds(states[|states| - 1].db.batches)
    requires Enabled(env, states[|states| - 1], a) && Published(states[|states| - 1], a).Some?
    requires var s, p := states[|states| - 1], On(topic, key);
             && CollapsesTo(Filter(s.log, p), Filter(Records(s.db.outbox), p), n)
             && Published(s, a).value < |s.db.outbox| && p(Records(s.db.outbox)[Published(s, a).value])
    ensures var s, s', p := states[|states| - 1], Step(env, states[|states| - 1], a), On(topic, key);
            && i < |Filter(Records(s.db.outbox), p)|
            && Filter(Records(s.db.outbox), p)[i] == Records(s.db.outbox)[Published(s, a).value]
            && (IsPrefix(Filter(s'.log, p), Filter(Records(s'.db.outbox), p)) <==> i == n || i + 1 == n)
  {
    var s := states[|states| - 1];
    i := PlaceOf(Records(s.db.outbox), On(topic, key), Published(s, a).value);
    PublishedSelected(env, states, a, On(topic, key), n, i);
  }

  /** A step that publishes nothing, or a row of another topic or key, leaves the order of this one alone. */
  lemma OtherKeysKeepOrder(env: Env, states: seq<System>, a: Action, topic: string, key: string, n: nat)
    requires Run(env, states) && Enabled(env, states[|states| - 1], a)
    requires var s, p := states[|states| - 1], On(topic, key);
             && CollapsesTo(Filter(s.log, p), Filter(Records(s.db.outbox), p), n)
             && (Published(s, a).Some? && Published(s, a).value < |s.db.outbox| ==>
                   !p(Records(s.db.outbox)[Published(s, a).value]))
    ensures var s', p := Step(env, states[|states| - 1], a), On(topic, key);
            CollapsesTo(Filter(s'.log, p), Filter(Records(s'.db.outbox), p), n)
  {
    var s, p := states[|states| - 1], On(topic, key);
    if Published(s, a).Some? {
      PublishedAppends(env, s, a);
      FilterAppend(s.log, Records(s.db.outbox)[Published(s, a).value], p);
      assert Filter(Step(env, s, a).log, p) == Filter(s.log, p);
    } else {
      SilentStep(env, s, a);
      RecordsKept(s.db.outbox, Step(env, s, a).db.outbox);
      FilterPrefix(Records(s.db.outbox), Records(Step(env, s, a).db.outbox), p);
      StaysPrefix(Filter(s.log, p), Filter(Records(s.db.outbox), p), Filter(Records(Step(env, s, a).db.outbox), p), n);
    }
  }

  /* ---- two relays ---- */

  /** The relay steps, each enabled when its turn comes, lead from s to s'. */
  ghost predicate Lead(actions: seq<RelayAction>, s: System, s': System) {
    if actions == [] then s' == s
    else RelayEnabled(s, actions[0]) && Lead(actions[1..], RelayStep(s, actions[0]), s')
  }

  lemma LeadFirst(a: RelayAction, rest: seq<RelayAction>, s: System, s': System)
    requires RelayEnabled(s, a) && Lead(rest, RelayStep(s, a), s')
    ensures Lead([a] + rest, s, s')
  {
    assert ([a] + rest)[1..] == rest;
  }

  lemma PublishLead(s: System, relay: nat, ids: seq<nat>, rest: seq<RelayAction>, s': System)
    requires relay in s.relays && s.relays[relay] == RelayState(ids, false) && ids != [] && ids[0] < |s.db.outbox|
    requires Lead(rest, s.(log := s.log + [RecordOf(s.db.outbox[ids[0]])],
                           relays := s.relays[relay := RelayState(ids, true)]), s')
    ensures Lead([RelayAction.Publish(relay, Acked)] + rest, s, s')
  {
    LeadFirst(RelayAction.Publish(relay, Acked), rest, s, s');
  }

  // The first relay goes on to the second row, then the other publishes the first row.
  lemma PublishAgain(s: System) returns (actions: seq<RelayAction>, s': System)
    requires 0 in s.relays && s.relays[0] == RelayState([0, 1], true)
    requires 1 in s.relays && s.relays[1] == RelayState([0, 1], false) && |s.db.outbox| >= 2
    ensures Lead(actions, s, s')
    ensures s'.log == s.log + [RecordOf(s.db.outbox[1]), RecordOf(s.db.outbox[0])]
    ensures Records(s'.db.outbox) == Records(s.db.outbox)
  {
    var a := RelayStep(s, Mark(0, MarkOk));
    assert a.relays[0] == RelayState([1], false) && a.relays[1] == RelayState([0, 1], false);
    var b := a.(log := a.log + [RecordOf(a.db.outbox[1])], relays := a.relays[0 := RelayState([1], true)]);
    s' := b.(log := b.log + [RecordOf(b.db.outbox[0])], relays := b.relays[1 := RelayState([0, 1], true)]);
    assert Lead([], s', s');
    PublishLead(b, 1, [0, 1], [], s');
    actions := [RelayAction.Publish(1, Acked)] + [];
    PublishLead(a, 0, [1], actions, s');
    actions := [RelayAction.Publish(0, Acked)] + actions;
    LeadFirst(Mark(0, MarkOk), actions, s, s');
    actions := [Mark(0, MarkOk)] + actions;
  }

  // Both relays fetch the two rows and the first one publishes row 0; PublishAgain does the rest.
  lemma TwoRelays(s: System) returns (actions: seq<RelayAction>, s': System)
    requires s.relays == map[] && |s.db.outbox| >= 2 && Unpublished(s.db.outbox) == [0, 1]
    ensures Lead(actions, s, s')
    ensures s'.log == s.log + [RecordOf(s.db.outbox[0]), RecordOf(s.db.outbox[1]), RecordOf(s.db.outbox[0])]
    ensures Records(s'.db.outbox) == Records(s.db.outbox)
  {
    var q0 := RelayStep(s, Query(0, 2));
    var q1 := RelayStep(q0, Query(1, 2));
    assert q1.relays[0] == q1.relays[1] == RelayState([0, 1], false);
    var a := q1.(log := q1.log + [RecordOf(s.db.outbox[0])], relays := q1.relays[0 := RelayState([0, 1], true)]);
    actions, s' := PublishAgain(a);
    PublishLead(q1, 0, [0, 1], actions, s');
    actions := [RelayAction.Publish(0, Acked)] + actions;
    LeadFirst(Query(1, 2), actions, q0, s');
    actions := [Query(1, 2)] + actions;
    LeadFirst(Query(0, 2), actions, s, s');
    actions := [Query(0, 2)] + actions;
  }

  lemma {:induction false} LeadRuns(env: Env, states: seq<System>, actions: seq<RelayAction>, s': System)
    returns (states': seq<System>)
    requires Run(env, states) && Lead(actions, states[|states| - 1], s')
    ensures Run(env, states') && states'[|states'| - 1] == s'
    decreases |actions|
  {
    states' := states;
    if actions != [] {
      var s1 := RelayStep(states[|states| - 1], actions[0]);
      Extend(env, states, Relaying(actions[0]));
      states' := LeadRuns(env, states + [s1], actions[1..], s');
    }
  }

  lemma TwoAccepted(env: Env, first: Transaction, second: Transaction) returns (states: seq<System>)
    requires first.paymentId != second.paymentId && first.idempotencyKey != second.idempotencyKey
    requires DeriveKey(first, env.hash) != DeriveKey(second, env.hash)
    ensures Run(env, states)
    ensures var s := states[|states| - 1];
            && s.relays == map[] && s.log == []
            && s.db.outbox == [AnnouncementOf(ToStore(first, 0)), AnnouncementOf(ToStore(second, 0))]
  {
    states := [INIT];
    states := Accept(env, states, first);
    states := Accept(env, states, second);
  }

  lemma CollapseThree(x: Record, y: Record)
    requires x != y
    ensures !IsPrefix([x, y, x], [x, y])
  {
    var rows := [x, y];
    assert [x, y][..1] == [x];
    assert CollapsesTo([x, y], rows, 2);
    InOrderExactlyWhen([x, y], rows, 2, 0);
    assert [x, y] + [rows[0]] == [x, y, x];
  }

  lemma {:induction false} FilterAll<T>(s: seq<T>, p: T -> bool)
    requires forall i :: 0 <= i < |s| ==> p(s[i])
    ensures Filter(s, p) == s
  {
    if s != [] {
      FilterAll(s[..|s| - 1], p);
    }
  }

  /** Two relays at once lose the order even within an account: for any two payments of one account
      there is a run from the empty system in which both are stored, both relays fetch both announcements,
      one publishes both, and then the other publishes the first again. The account's part of the log
      collapses to no prefix of the account's part of the outbox. */
  lemma TwoRelaysReorder(env: Env, first: Transaction, second: Transaction) returns (states: seq<System>)
    requires first.accountId == second.accountId
    requires first.paymentId != second.paymentId && first.idempotencyKey != second.idempotencyKey
    requires DeriveKey(first, env.hash) != DeriveKey(second, env.hash)
    ensures Run(env, states)
    ensures var s, account := states[|states| - 1], On(PAYMENTS_RECEIVED, first.accountId);
            !IsPrefix(Filter(s.log, account), Filter(Records(s.db.outbox), account))
  {
    states := TwoAccepted(env, first, second);
    var s := states[|states| - 1];
    var x, y := RecordOf(s.db.outbox[0]), RecordOf(s.db.outbox[1]);
    assert UnpublishedBelow(s.db.outbox, 1) == [0];
    var actions, s' := TwoRelays(s);
    states := LeadRuns(env, states, actions, s');
    var account := On(PAYMENTS_RECEIVED, first.accountId);
    assert s'.log == [x, y, x] && Records(s'.db.outbox) == [x, y];
    FilterAll(s'.log, account);
    FilterAll(Records(s'.db.outbox), account);
    CollapseThree(x, y);
  }

  /* ---- relayBatch as steps ---- */

  /** One row of relayBatch is a Publish step and, once acknowledged, a Mark step; the relay goes on
      with the next row exactly when both succeed. */
  lemma RowIsTwoSteps(s: System, relay: nat, e: RowEnv)
    requires RelayEnabled(s, RelayAction.Publish(relay, e.publish))
    ensures var ids := s.relays[relay].ids;
            var s1 := RelayStep(s, RelayAction.Publish(relay, e.publish));
            && (e.publish == Acked ==> RelayEnabled(s1, Mark(relay, e.mark)))
            && var s2 := if e.publish == Acked then RelayStep(s1, Mark(relay, e.mark)) else s1;
               && ChannelOf(s2) == AfterRow(ChannelOf(s), ids[0], e)
               && (relay in s2.relays <==> RowDone(e))
               && (RowDone(e) ==> s2.relays[relay] == RelayState(ids[1..], false))
  {}

  function RowSteps(s: System, relay: nat, e: RowEnv): System
    requires RelayEnabled(s, RelayAction.Publish(relay, e.publish))
  {
    var s1 := RelayStep(s, RelayAction.Publish(relay, e.publish));
    if e.publish == Acked then RelayStep(s1, Mark(relay, e.mark)) else s1
  }

  // The steps of one relay from row i of its batch on, until one fails or none is left.
  function BatchSteps(s: System, relay: nat, env: nat -> RowEnv, i: nat): System
    decreases if relay in s.relays then |s.relays[relay].ids| else 0
  {
    if !RelayEnabled(s, RelayAction.Publish(relay, env(i).publish)) then s
    else BatchSteps(RowSteps(s, relay, env(i)), relay, env, i + 1)
  }

  lemma {:induction false} RowsAreSteps(s: System, relay: nat, ids: seq<nat>, env: nat -> RowEnv, i: nat)
    requires i <= |ids| && forall k :: 0 <= k < |ids| ==> ids[k] < |s.db.outbox|
    requires relay in s.relays && s.relays[relay] == RelayState(ids[i..], false)
    ensures ChannelOf(BatchSteps(s, relay, env, i)) == AfterRows(ChannelOf(s), ids, env, i)
    decreases |ids| - i
  {
    if i < |ids| {
      var next := RowSteps(s, relay, env(i));
      RowIsTwoSteps(s, relay, env(i));
      if RowDone(env(i)) {
        RowsAreSteps(next, relay, ids, env, i + 1);
      } else {
        assert BatchSteps(next, relay, env, i + 1) == next;
      }
    }
  }

  /** A call of relayBatch that meets no error in its query is a Query step followed by the Publish and Mark steps
      of its rows. */
  lemma BatchIsSteps(s: System, relay: nat, batchSize: nat, env: nat -> RowEnv)
    requires RelayEnabled(s, Query(relay, batchSize))
    ensures ChannelOf(BatchSteps(RelayStep(s, Query(relay, batchSize)), relay, env, 0))
            == AfterBatch(ChannelOf(s), batchSize, env)
  {
    var ids := Take(Unpublished(s.db.outbox), batchSize);
    assert ids[0..] == ids;
    RowsAreSteps(RelayStep(s, Query(relay, batchSize)), relay, ids, env, 0);
  }
}
