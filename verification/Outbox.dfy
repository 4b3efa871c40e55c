/** The relay: it publishes the oldest unpublished outbox rows and marks each one after the broker
    has acknowledged it. */
module Outbox {
  import opened Sequences
  import opened Schema
  import opened Store

  datatype Record = Record(topic: string, key: string, payload: Payload)

  function RecordOf(row: OutboxRow): Record {
    Record(row.topic, row.partitionKey, row.payload)
  }

  function Records(rows: seq<OutboxRow>): (r: seq<Record>)
    ensures |r| == |rows| && forall i :: 0 <= i < |rows| ==> r[i] == RecordOf(rows[i])
  {
    seq(|rows|, i requires 0 <= i < |rows| => RecordOf(rows[i]))
  }

  /** The broker's log in the order of arrival, over all topics and partitions. */
  class Broker {
    var log: seq<Record>

    constructor ()
      ensures log == []
    {
      log := [];
    }

    /** A publish may fail after the broker has appended the record. */
    method Publish(topic: string, key: string, payload: Payload, outcome: PublishOutcome) returns (ok: bool)
      modifies this
      ensures ok <==> outcome == Acked
      ensures log == old(log) + if outcome == NotAppended then [] else [Record(topic, key, payload)]
    {
      if outcome != NotAppended {
        log := log + [Record(topic, key, payload)];
      }
      return outcome == Acked;
    }
  }

  datatype PublishOutcome = Acked | NotAppended | AppendedUnacked

  /** MarkLost: the UPDATE had no effect, or the relay died before it. MarkUnseen: it took effect but
      an error was returned. */
  datatype MarkOutcome = MarkOk | MarkLost | MarkUnseen

  datatype RowEnv = RowEnv(publish: PublishOutcome, mark: MarkOutcome)

  datatype Channel = Channel(outbox: seq<OutboxRow>, log: seq<Record>)

  // The unpublished rows among the first n, oldest first.
  function UnpublishedBelow(outbox: seq<OutboxRow>, n: nat): (ids: seq<nat>)
    requires n <= |outbox|
    ensures forall i :: 0 <= i < |ids| ==> ids[i] < n
  {
    if n == 0 then []
    else UnpublishedBelow(outbox, n - 1) + if outbox[n - 1].published then [] else [n - 1]
  }

  function Unpublished(outbox: seq<OutboxRow>): (ids: seq<nat>) {
    UnpublishedBelow(outbox, |outbox|)
  }

  function Take<T>(s: seq<T>, n: nat): seq<T> {
    if n < |s| then s[..n] else s
  }

  function AfterRow(c: Channel, id: nat, e: RowEnv): Channel
    requires id < |c.outbox|
  {
    var appended := c.(log := c.log + [RecordOf(c.outbox[id])]);
    if e.publish == NotAppended then c
    else if e.publish == AppendedUnacked || e.mark == MarkLost then appended
    else appended.(outbox := Marked(c.outbox, id))
  }

  predicate RowDone(e: RowEnv) {
    e.publish == Acked && e.mark == MarkOk
  }

  function AfterRows(c: Channel, ids: seq<nat>, env: nat -> RowEnv, i: nat): Channel
    requires forall k :: 0 <= k < |ids| ==> ids[k] < |c.outbox|
    decreases |ids| - i
  {
    if i >= |ids| then c
    else if RowDone(env(i)) then AfterRows(AfterRow(c, ids[i], env(i)), ids, env, i + 1)
    else AfterRow(c, ids[i], env(i))
  }

  /** One call of relayBatch: stop at the first failure. */
  function AfterBatch(c: Channel, batchSize: nat, env: nat -> RowEnv): Channel {
    AfterRows(c, Take(Unpublished(c.outbox), batchSize), env, 0)
  }

  datatype FetchFault = NoFetchFault | QueryFails | ScanFails(row: nat) | RowsErr

  predicate FetchFails(fault: FetchFault, rowsList: seq<nat>) {
    fault == QueryFails || fault == RowsErr || (fault.ScanFails? && fault.row < |rowsList|)
  }

  class PostgresRelay {
    const db: Database
    const broker: Broker
    const batchSize: nat

    constructor (db: Database, broker: Broker, batchSize: nat)
      ensures this.db == db && this.broker == broker && this.batchSize == batchSize
    {
      this.db, this.broker, this.batchSize := db, broker, batchSize;
    }

    function State(): Channel
      reads db, broker
    {
      Channel(db.outbox, broker.log)
    }

    /** SELECT ... WHERE published_at IS NULL ORDER BY id LIMIT batchSize; the query fails, or the scan of
        the row after the first n, or reading on at their end. */
    method FetchRows(fault: FetchFault) returns (ok: bool, rowsList: seq<nat>)
      ensures ok <==> !FetchFails(fault, Take(Unpublished(db.outbox), batchSize))
      ensures ok ==> rowsList == Take(Unpublished(db.outbox), batchSize)
    {
      if fault == QueryFails {
        return false, [];
      }
      ok, rowsList := true, [];
      var id := 0;
      while id < |db.outbox| && |rowsList| < batchSize
        invariant id <= |db.outbox|
        invariant rowsList == UnpublishedBelow(db.outbox, id) && |rowsList| <= batchSize
        invariant ok && fault != QueryFails && (fault.ScanFails? ==> fault.row >= |rowsList|)
      {
        if !db.outbox[id].published {
          if fault == ScanFails(|rowsList|) {
            StillToScan(db.outbox, id, batchSize);
            return false, rowsList;
          }
          rowsList := rowsList + [id];
        }
        id := id + 1;
      }
      AllScanned(db.outbox, id, batchSize);
      ok := fault != RowsErr;
    }

    method PublishRows(rowsList: seq<nat>, env: nat -> RowEnv) returns (ok: bool)
      requires forall k :: 0 <= k < |rowsList| ==> rowsList[k] < |db.outbox|
      modifies db`outbox, broker
      ensures State() == AfterRows(old(State()), rowsList, env, 0)
      ensures ok <==> forall k :: 0 <= k < |rowsList| ==> RowDone(env(k))
    {
      var i := 0;
      while i < |rowsList|
        invariant 0 <= i <= |rowsList|
        invariant |db.outbox| == |old(db.outbox)|
        invariant AfterRows(State(), rowsList, env, i) == AfterRows(old(State()), rowsList, env, 0)
        invariant forall k :: 0 <= k < i ==> RowDone(env(k))
      {
        var row := db.outbox[rowsList[i]];
        var published := broker.Publish(row.topic, row.partitionKey, row.payload, env(i).publish);
        if !published {
          return false;
        }
        if env(i).mark != MarkLost {
          db.outbox := Marked(db.outbox, rowsList[i]);
        }
        if env(i).mark != MarkOk {
          return false;
        }
        i := i + 1;
      }
      return true;
    }

    method RelayBatch(fault: FetchFault, env: nat -> RowEnv) returns (ok: bool)
      modifies db`outbox, broker
      ensures var rowsList := Take(Unpublished(old(db.outbox)), batchSize);
              && State() == (if FetchFails(fault, rowsList) then old(State())
                             else AfterBatch(old(State()), batchSize, env))
              && (ok <==> !FetchFails(fault, rowsList) && forall k :: 0 <= k < |rowsList| ==> RowDone(env(k)))
    {
      var fetched, rowsList := FetchRows(fault);
      if !fetched {
        return false;
      }
      ok := PublishRows(rowsList, env);
    }
  }

  lemma {:induction false} UnpublishedPrefix(outbox: seq<OutboxRow>, n: nat, m: nat)
    requires n <= m <= |outbox|
    ensures UnpublishedBelow(outbox, n) <= UnpublishedBelow(outbox, m)
  {
    if n < m {
      UnpublishedPrefix(outbox, n, m - 1);
    }
  }

  lemma StillToScan(outbox: seq<OutboxRow>, id: nat, batchSize: nat)
    requires id < |outbox| && !outbox[id].published && |UnpublishedBelow(outbox, id)| < batchSize
    ensures |UnpublishedBelow(outbox, id)| < |Take(Unpublished(outbox), batchSize)|
  {
    UnpublishedPrefix(outbox, id + 1, |outbox|);
  }

  lemma AllScanned(outbox: seq<OutboxRow>, id: nat, batchSize: nat)
    requires id <= |outbox| && |UnpublishedBelow(outbox, id)| <= batchSize
    requires id == |outbox| || |UnpublishedBelow(outbox, id)| == batchSize
    ensures UnpublishedBelow(outbox, id) == Take(Unpublished(outbox), batchSize)
  {
    UnpublishedPrefix(outbox, id, |outbox|);
  }

  /* ---- stuttering ---- */

  /** `log` lists `rows` in order, each one once or several times in a row. */
  ghost predicate Stutters<T>(log: seq<T>, rows: seq<T>) {
    if log == [] || rows == [] then log == [] && rows == []
    else
      var init := log[..|log| - 1];
      log[|log| - 1] == rows[|rows| - 1] &&
      (Stutters(init, rows) || Stutters(init, rows[..|rows| - 1]))
  }

  lemma StutterNext<T>(log: seq<T>, rows: seq<T>, x: T)
    ensures Stutters(log, rows) ==> Stutters(log + [x], rows + [x])
    ensures Stutters(log, rows + [x]) ==> Stutters(log + [x], rows + [x])
  {
    assert (log + [x])[..|log|] == log && (rows + [x])[..|rows|] == rows;
  }

  /** The stuttering holds in every selection of the records, such as one topic and partition key. */
  lemma {:induction false} StutterFilter<T>(log: seq<T>, rows: seq<T>, p: T -> bool)
    requires Stutters(log, rows)
    ensures Stutters(Filter(log, p), Filter(rows, p))
  {
    if log != [] {
      var x, init, fore := log[|log| - 1], log[..|log| - 1], rows[..|rows| - 1];
      assert rows == fore + [x];
      FilterAppend(fore, x, p);
      if Stutters(init, rows) {
        StutterFilter(init, rows, p);
      } else {
        StutterFilter(init, fore, p);
      }
      if p(x) {
        StutterNext(Filter(init, p), Filter(fore, p), x);
      } else {
        assert Filter(log, p) == Filter(init, p) && Filter(rows, p) == Filter(fore, p);
      }
    }
  }

  function Collapse<T(==)>(log: seq<T>): seq<T> {
    if |log| <= 1 then log
    else
      var rest := Collapse(log[..|log| - 1]);
      if log[|log| - 1] == log[|log| - 2] then rest else rest + [log[|log| - 1]]
  }

  ghost predicate NoRepeats<T>(rows: seq<T>) {
    forall i, j :: 0 <= i < j < |rows| && j == i + 1 ==> rows[i] != rows[j]
  }

  /** Stuttering is collapsing: for rows without adjacent repeats, a log lists them exactly when they
      are what is left after removing its adjacent repeats. */
  lemma {:induction false} StutterIsCollapse<T>(log: seq<T>, rows: seq<T>)
    requires NoRepeats(rows)
    ensures Stutters(log, rows) <==> Collapse(log) == rows
  {
    if Stutters(log, rows) {
      StutterCollapses(log, rows);
    }
    CollapseStutters(log);
  }

  lemma {:induction false} StutterCollapses<T>(log: seq<T>, rows: seq<T>)
    requires NoRepeats(rows) && Stutters(log, rows)
    ensures Collapse(log) == rows
  {
    if log != [] {
      var init, fore := log[..|log| - 1], rows[..|rows| - 1];
      assert rows == fore + [rows[|rows| - 1]];
      if Stutters(init, rows) {
        StutterCollapses(init, rows);
      } else {
        StutterCollapses(init, fore);
      }
      if init != [] {
        CollapseLast(init);
      }
    }
  }

  lemma {:induction false} CollapseStutters<T>(log: seq<T>)
    ensures Stutters(log, Collapse(log))
  {
    if |log| == 1 {
      assert log[..0] == [];
    } else if log != [] {
      var init := log[..|log| - 1];
      CollapseStutters(init);
      CollapseLast(init);
      StutterNext(init, Collapse(init), log[|log| - 1]);
      if log[|log| - 1] != log[|log| - 2] {
        assert Collapse(log)[..|Collapse(init)|] == Collapse(init);
      }
    }
  }

  lemma {:induction false} CollapseLast<T>(log: seq<T>)
    requires log != []
    ensures Collapse(log) != [] && Collapse(log)[|Collapse(log)| - 1] == log[|log| - 1]
  {
    if |log| > 1 {
      CollapseLast(log[..|log| - 1]);
    }
  }

  /** Removing adjacent repeats from the log leaves the first m rows, */
  ghost predicate CollapsesTo<T>(log: seq<T>, rows: seq<T>, m: nat) {
    m <= |rows| && Collapse(log) == rows[..m]
  }

  /** or some prefix of them. */
  ghost predicate IsPrefix<T>(log: seq<T>, rows: seq<T>) {
    exists m :: CollapsesTo(log, rows, m)
  }

  ghost predicate AllDifferent<T>(rows: seq<T>) {
    forall i, j :: 0 <= i < j < |rows| ==> rows[i] != rows[j]
  }

  lemma CollapseNext<T>(log: seq<T>, x: T)
    ensures Collapse(log + [x]) ==
            if log != [] && Collapse(log) != [] && Collapse(log)[|Collapse(log)| - 1] == x then Collapse(log)
            else Collapse(log) + [x]
  {
    assert (log + [x])[..|log|] == log;
    if log != [] {
      CollapseLast(log);
    }
  }

  /** When exactly one more record keeps the order: a log that collapses to the first n of pairwise
      different rows still collapses to a prefix if and only if the record is the next row or
      repeats the last one. */
  lemma InOrderExactlyWhen<T>(log: seq<T>, rows: seq<T>, n: nat, k: nat)
    requires AllDifferent(rows) && CollapsesTo(log, rows, n) && k < |rows|
    ensures IsPrefix(log + [rows[k]], rows) <==> k == n || k + 1 == n
  {
    var x := rows[k];
    CollapseNext(log, x);
    if n > 0 && k == n - 1 {
      assert Collapse(log)[n - 1] == x;
      assert CollapsesTo(log + [x], rows, n);
    } else {
      assert n > 0 ==> Collapse(log)[n - 1] == rows[n - 1];
      assert Collapse(log + [x]) == rows[..n] + [x];
      assert k == n ==> CollapsesTo(log + [x], rows, n + 1);
      if m: nat :| CollapsesTo(log + [x], rows, m) {
        assert m == |rows[..n] + [x]|;
        assert rows[..m][n] == rows[n] && (rows[..n] + [x])[n] == x;
      }
    }
  }

  /* ---- one relay at a time ---- */

  ghost predicate MarkedPrefix(outbox: seq<OutboxRow>, m: nat) {
    m <= |outbox| && forall i :: 0 <= i < |outbox| ==> (outbox[i].published <==> i < m)
  }

  /** The marked rows are the oldest m; the log is a stuttering of the oldest n, which are the marked
      ones and at most one more. */
  ghost predicate InOrder(c: Channel, m: nat, n: nat) {
    && MarkedPrefix(c.outbox, m)
    && m <= n <= m + 1 && n <= |c.outbox|
    && Stutters(c.log, Records(c.outbox[..n]))
  }

  lemma NextLogged(c: Channel, m: nat, n: nat)
    requires InOrder(c, m, n) && m < |c.outbox|
    ensures Stutters(c.log + [RecordOf(c.outbox[m])], Records(c.outbox[..m + 1]))
  {
    var head, row := Records(c.outbox[..m]), RecordOf(c.outbox[m]);
    assert Records(c.outbox[..m + 1]) == head + [row];
    StutterNext(c.log, head, row);
  }

  lemma MarkKeepsRecords(outbox: seq<OutboxRow>, id: nat, n: nat)
    requires n <= |outbox|
    ensures Records(Marked(outbox, id)[..n]) == Records(outbox[..n])
  {}

  lemma RowInOrder(c: Channel, m: nat, n: nat, e: RowEnv) returns (m': nat, n': nat)
    requires InOrder(c, m, n) && m < |c.outbox|
    ensures m <= m' && InOrder(AfterRow(c, m, e), m', n')
    ensures RowDone(e) ==> m' == n' == m + 1
  {
    NextLogged(c, m, n);
    MarkKeepsRecords(c.outbox, m, m + 1);
    n' := if e.publish == NotAppended then n else m + 1;
    m' := if e.publish == Acked && e.mark != MarkLost then m + 1 else m;
  }

  lemma {:induction false} PrefixUnpublished(outbox: seq<OutboxRow>, m: nat, n: nat)
    requires MarkedPrefix(outbox, m) && n <= |outbox|
    ensures |UnpublishedBelow(outbox, n)| == if n < m then 0 else n - m
    ensures forall i :: 0 <= i < n - m ==> UnpublishedBelow(outbox, n)[i] == m + i
  {
    if n > 0 {
      PrefixUnpublished(outbox, m, n - 1);
    }
  }

  lemma {:induction false} RowsInOrder(c: Channel, ids: seq<nat>, env: nat -> RowEnv, i: nat, m: nat, n: nat)
    returns (m': nat, n': nat)
    requires InOrder(c, m, n) && i <= |ids|
    requires forall k :: 0 <= k < |ids| ==> ids[k] < |c.outbox|
    requires forall k :: i <= k < |ids| ==> ids[k] == m + (k - i)
    ensures m <= m' && InOrder(AfterRows(c, ids, env, i), m', n')
    decreases |ids| - i
  {
    m', n' := m, n;
    if i < |ids| {
      assert ids[i] == m;
      m', n' := RowInOrder(c, m, n, env(i));
      if RowDone(env(i)) {
        m', n' := RowsInOrder(AfterRow(c, m, env(i)), ids, env, i + 1, m', n');
      }
    }
  }

  /** Under any publish and mark failures, a call of relayBatch keeps the log a stuttering of a prefix
      of the outbox that covers every marked row. */
  lemma BatchInOrder(c: Channel, batchSize: nat, env: nat -> RowEnv, m: nat, n: nat)
    returns (m': nat, n': nat)
    requires InOrder(c, m, n)
    ensures m <= m' && InOrder(AfterBatch(c, batchSize, env), m', n')
  {
    PrefixUnpublished(c.outbox, m, |c.outbox|);
    var ids := Take(Unpublished(c.outbox), batchSize);
    assert forall k :: 0 <= k < |ids| ==> ids[k] == m + k;
    m', n' := RowsInOrder(c, ids, env, 0, m, n);
  }

  /* ---- draining ---- */

  lemma {:induction false} MarkedBelow(outbox: seq<OutboxRow>, id: nat, n: nat)
    requires n <= |outbox|
    requires UnpublishedBelow(outbox, n) != [] ==> id == UnpublishedBelow(outbox, n)[0]
    requires UnpublishedBelow(outbox, n) == [] ==> id >= n
    ensures UnpublishedBelow(Marked(outbox, id), n) ==
            if UnpublishedBelow(outbox, n) == [] then [] else UnpublishedBelow(outbox, n)[1..]
  {
    if n > 0 {
      MarkedBelow(outbox, id, n - 1);
    }
  }

  lemma FirstMarked(outbox: seq<OutboxRow>)
    requires Unpublished(outbox) != []
    ensures Unpublished(Marked(outbox, Unpublished(outbox)[0])) == Unpublished(outbox)[1..]
  {
    MarkedBelow(outbox, Unpublished(outbox)[0], |outbox|);
  }

  // The oldest unpublished row, if there is one, published and marked.
  function Relayed(c: Channel): Channel {
    if Unpublished(c.outbox) == [] then c
    else AfterRow(c, Unpublished(c.outbox)[0], RowEnv(Acked, MarkOk))
  }

  function Relay(): Channel -> Channel {
    (c: Channel) => Relayed(c)
  }

  /** k times the oldest unpublished row published and marked. */
  function Drained(c: Channel, k: nat): Channel {
    Iterate(Relay(), c, k)
  }

  function RecordsAt(outbox: seq<OutboxRow>, ids: seq<nat>): (r: seq<Record>)
    requires forall k :: 0 <= k < |ids| ==> ids[k] < |outbox|
    ensures |r| == |ids| && forall k :: 0 <= k < |ids| ==> r[k] == RecordOf(outbox[ids[k]])
  {
    seq(|ids|, k requires 0 <= k < |ids| => RecordOf(outbox[ids[k]]))
  }

  lemma RelayedExactly(c: Channel)
    requires Unpublished(c.outbox) != []
    ensures var ids := Unpublished(c.outbox);
            && Unpublished(Relayed(c).outbox) == ids[1..]
            && Relayed(c).log == c.log + [RecordOf(c.outbox[ids[0]])]
            && RecordsAt(c.outbox, ids)[1..] == RecordsAt(Relayed(c).outbox, ids[1..])
  {
    FirstMarked(c.outbox);
  }

  /** Draining at most all rows leaves the others unpublished and logs each of the k once, in order. */
  lemma {:induction false} DrainedExactly(c: Channel, k: nat)
    requires k <= |Unpublished(c.outbox)|
    ensures Unpublished(Drained(c, k).outbox) == Unpublished(c.outbox)[k..]
    ensures Drained(c, k).log == c.log + RecordsAt(c.outbox, Unpublished(c.outbox))[..k]
    decreases k
  {
    if k > 0 {
      var next := Relayed(c);
      RelayedExactly(c);
      DrainedExactly(next, k - 1);
      Regroup(c.log, RecordsAt(c.outbox, Unpublished(c.outbox)), k);
    }
  }

  lemma Regroup<T>(a: seq<T>, b: seq<T>, k: nat)
    requires 0 < k <= |b|
    ensures a + [b[0]] + b[1..][..k - 1] == a + b[..k]
  {}

  lemma RowIsRelayed(c: Channel, id: nat, e: RowEnv)
    requires RowDone(e) && Unpublished(c.outbox) != [] && id == Unpublished(c.outbox)[0]
    ensures id < |c.outbox| && AfterRow(c, id, e) == Relayed(c)
    ensures Unpublished(Relayed(c).outbox) == Unpublished(c.outbox)[1..]
    ensures |Relayed(c).outbox| == |c.outbox|
  {
    RelayedExactly(c);
  }

  lemma {:induction false} RowsDrain(c: Channel, ids: seq<nat>, env: nat -> RowEnv, i: nat)
    requires i <= |ids| && forall k :: 0 <= k < |ids| ==> ids[k] < |c.outbox|
    requires |ids| - i <= |Unpublished(c.outbox)|
    requires forall k :: i <= k < |ids| ==> ids[k] == Unpublished(c.outbox)[k - i]
    requires forall k :: RowDone(env(k))
    ensures AfterRows(c, ids, env, i) == Drained(c, |ids| - i)
    decreases |ids| - i
  {
    if i < |ids| {
      var next := AfterRow(c, ids[i], env(i));
      RowIsRelayed(c, ids[i], env(i));
      RowsDrain(next, ids, env, i + 1);
    }
  }

  lemma AllDrained(c: Channel, k: nat)
    requires |Unpublished(c.outbox)| <= k
    ensures Drained(c, k) == Drained(c, |Unpublished(c.outbox)|)
  {
    var u := |Unpublished(c.outbox)|;
    DrainedExactly(c, u);
    IterateTwice(Relay(), c, u, k - u);
    IterateFixed(Relay(), Drained(c, u), k - u);
  }

  /** Without failures a call drains batchSize rows, or all there are. */
  lemma BatchDrains(c: Channel, batchSize: nat, env: nat -> RowEnv)
    requires forall k :: RowDone(env(k))
    ensures AfterBatch(c, batchSize, env) == Drained(c, batchSize)
  {
    var ids := Take(Unpublished(c.outbox), batchSize);
    RowsDrain(c, ids, env, 0);
    if |Unpublished(c.outbox)| < batchSize {
      AllDrained(c, batchSize);
    }
  }

  function RelayBatch(batchSize: nat, env: nat -> RowEnv): Channel -> Channel {
    (c: Channel) => AfterBatch(c, batchSize, env)
  }

  /** Failure-free calls with no new rows drain rounds * batchSize rows: u rows are drained by
      ceil(u / batchSize) calls and not by fewer, and a call more finds nothing to do. */
  lemma Drain(c: Channel, batchSize: nat, env: nat -> RowEnv, rounds: nat)
    requires forall k :: RowDone(env(k))
    ensures rounds * batchSize >= 0
    ensures Iterate(RelayBatch(batchSize, env), c, rounds) == Drained(c, rounds * batchSize)
    ensures Unpublished(Iterate(RelayBatch(batchSize, env), c, rounds).outbox) == []
            <==> rounds * batchSize >= |Unpublished(c.outbox)|
  {
    forall x: Channel ensures RelayBatch(batchSize, env)(x) == Iterate(Relay(), x, batchSize) {
      BatchDrains(x, batchSize, env);
    }
    IterateProduct(Relay(), RelayBatch(batchSize, env), batchSize, c, rounds);
    if rounds * batchSize >= |Unpublished(c.outbox)| {
      AllDrained(c, rounds * batchSize);
      DrainedExactly(c, |Unpublished(c.outbox)|);
    } else {
      DrainedExactly(c, rounds * batchSize);
    }
  }

  /** Whatever fails, a call never makes a published row unpublished again, and a row it marks has
      been logged. */
  lemma {:induction false} RowsOnlyMark(c: Channel, ids: seq<nat>, env: nat -> RowEnv, i: nat)
    requires forall k :: 0 <= k < |ids| ==> ids[k] < |c.outbox|
    ensures var c' := AfterRows(c, ids, env, i);
            && |c'.outbox| == |c.outbox| && c.log <= c'.log
            && forall k :: 0 <= k < |c.outbox| ==>
                 && c'.outbox[k] == c.outbox[k].(published := c'.outbox[k].published)
                 && (c.outbox[k].published ==> c'.outbox[k].published)
                 && (c'.outbox[k].published ==> c.outbox[k].published || RecordOf(c.outbox[k]) in c'.log)
    decreases |ids| - i
  {
    if i < |ids| {
      var next := AfterRow(c, ids[i], env(i));
      assert env(i).publish != NotAppended ==> RecordOf(c.outbox[ids[i]]) in next.log;
      if RowDone(env(i)) {
        RowsOnlyMark(next, ids, env, i + 1);
        var c' := AfterRows(next, ids, env, i + 1);
        forall x | x in next.log ensures x in c'.log {
          assert next.log <= c'.log;
          assert c'.log == next.log + c'.log[|next.log|..];
        }
      }
    }
  }

  /** One row, whatever fails: its topic, partition key and payload are logged unless the publish appends nothing,
      and it is marked exactly when it was, or the publish is acknowledged and the UPDATE takes effect. */
  lemma RowOutcome(c: Channel, id: nat, e: RowEnv, k: nat)
    requires id < |c.outbox| && k < |c.outbox|
    ensures var row, c' := c.outbox[id], AfterRow(c, id, e);
            && c'.log == c.log + (if e.publish == NotAppended then []
                                  else [Record(row.topic, row.partitionKey, row.payload)])
            && |c'.outbox| == |c.outbox|
            && c'.outbox[k] == c.outbox[k].(published :=
                 c.outbox[k].published || (k == id && e.publish == Acked && e.mark in {MarkOk, MarkUnseen}))
  {
    assert c.log + [] == c.log;
  }
}
