/** The settlement engine: its store, one settle over a window, and the ticking loop. */
module Settlement {
  import opened Domain
  import opened Sequences
  import opened Schema
  import opened Store
  import opened Aggregation
  import opened Conservation

  /** CommitsUnseen: the COMMIT takes effect and an error is returned all the same. */
  datatype PersistFault = Commits | CommitsUnseen | Fails | Dies

  /** What the environment decides for one group: fresh ids, the clock, and the database's answer. */
  datatype GroupEnv = GroupEnv(batchId: string, payoutId: string, now: int, fault: PersistFault)

  datatype SettleResult = Settled | AggregateError | Died

  function SettleFrom(t: Tables, groups: seq<CapturedGroup>, start: int, end: int, env: nat -> GroupEnv, i: nat): Tables
    decreases |groups| - i
  {
    if i >= |groups| || env(i).fault == Dies then t
    else if env(i).fault == Fails then SettleFrom(t, groups, start, end, env, i + 1)
    else
      var b := BatchOf(groups[i], start, end, env(i).batchId);
      SettleFrom(Persisted(t, b, env(i).payoutId, env(i).now), groups, start, end, env, i + 1)
  }

  /** One settle: aggregate, then one guarded persist per group; a failed group is skipped. */
  function AfterSettle(t: Tables, start: int, end: int, aggregateFails: bool, env: nat -> GroupEnv): Tables {
    var groups := Groups(t.transactions, start, end);
    if aggregateFails || !Scannable(groups) then t else SettleFrom(t, groups, start, end, env, 0)
  }

  predicate DiesWithin(n: nat, env: nat -> GroupEnv) {
    exists i :: 0 <= i < n && env(i).fault == Dies
  }

  function SettleOutcome(t: Tables, start: int, end: int, aggregateFails: bool, env: nat -> GroupEnv): SettleResult {
    var groups := Groups(t.transactions, start, end);
    if aggregateFails || !Scannable(groups) then AggregateError
    else if DiesWithin(|groups|, env) then Died
    else SettleResult.Settled
  }

  // insertOutboxRow
  function EventRow(batch: Batch, topic: string, payload: Payload): OutboxRow {
    OutboxRow(batch.id, topic, batch.accountId, payload, false)
  }

  class PgSettlementStore {
    const db: Database

    constructor (db: Database)
      ensures this.db == db
    {
      this.db := db;
    }

    method AggregateCaptured(start: int, end: int, fails: bool) returns (groups: Option<seq<CapturedGroup>>)
      ensures groups == if fails || !Scannable(Groups(db.transactions, start, end)) then None
                        else Some(Groups(db.transactions, start, end))
    {
      if fails {
        return None;
      }
      var found := Aggregate(db.transactions, start, end);
      groups := if Scannable(found) then Some(found) else None;
    }

    /** Three tables change together, or none does. */
    method PersistBatch(batch: Batch, settled: SettledEvent, payout: PayoutRequestedEvent, fault: PersistFault)
      returns (alreadyExisted: bool, ok: bool)
      modifies db
      ensures ok <==> fault == Commits || (fault == CommitsUnseen && BatchExists(old(db.Snapshot()), batch))
      ensures alreadyExisted <==> ok && BatchExists(old(db.Snapshot()), batch)
      ensures db.Snapshot() ==
              if fault in {Fails, Dies} || BatchExists(old(db.Snapshot()), batch) then old(db.Snapshot())
              else old(db.Snapshot()).(
                batches := old(db.batches) + [batch],
                transactions := SettledRows(old(db.transactions), batch.paymentIds),
                outbox := old(db.outbox) + [EventRow(batch, PAYMENTS_SETTLED, Payload.Settled(settled)),
                                            EventRow(batch, PAYOUTS_REQUESTED, Payout(payout))])
    {
      if fault in {Fails, Dies} {
        return false, false;
      }
      if BatchExists(db.Snapshot(), batch) {
        return true, true;
      }
      var rows := SettledRows(db.transactions, batch.paymentIds);
      var events := db.outbox + [EventRow(batch, PAYMENTS_SETTLED, Payload.Settled(settled))];
      events := events + [EventRow(batch, PAYOUTS_REQUESTED, Payout(payout))];
      db.batches, db.transactions, db.outbox := db.batches + [batch], rows, events;
      return false, fault == Commits;
    }
  }

  datatype Window = Window(start: int, end: int)

  datatype TickEnv = TickEnv(aggregateFails: bool, groups: nat -> GroupEnv)

  datatype TickResult = Waiting | Closed(window: Window) | Failed | Stopped

  // time.Time's zero value, which marks "no window processed yet".
  const ZERO_TIME := 0

  /** Windows that follow each other without gap or overlap, each at least `size` long. */
  ghost predicate Tile(windows: seq<Window>, size: int) {
    && (forall k :: 0 <= k < |windows| ==> windows[k].end - windows[k].start >= size)
    && (forall k, m :: 0 <= k < m < |windows| && m == k + 1 ==> windows[m].start == windows[k].end)
  }

  ghost predicate GapsAtMost(ticks: seq<int>, d: int) {
    forall i, j :: 0 <= i < j < |ticks| && j == i + 1 ==> ticks[j] - ticks[i] <= d
  }

  ghost predicate EndsAtTicks(windows: seq<Window>, ticks: seq<int>, buffer: int) {
    forall k :: 0 <= k < |windows| ==> windows[k].end + buffer in ticks
  }

  ghost predicate ShorterThan(windows: seq<Window>, bound: int) {
    forall k :: 0 <= k < |windows| ==> windows[k].end - windows[k].start < bound
  }

  // Where the next window starts: on the first tick a full window before its end.
  function FirstStart(last: int, ticks: seq<int>, windowSize: int, buffer: int): int {
    if last == ZERO_TIME && ticks != [] then ticks[0] - buffer - windowSize else last
  }

  /** The fields and results the loop over the ticks builds up. */
  datatype Progress = Progress(last: int, windows: seq<Window>, failures: nat)

  /** The loop over `ticks`, the settle opened at tick j returning nil when ok[j]. */
  function AfterTicks(ticks: seq<int>, ok: seq<bool>, size: int, buffer: int, first: int): Progress
    requires |ok| == |ticks|
  {
    if ticks == [] then Progress(first, [], 0)
    else
      var n := |ticks| - 1;
      AfterTick(AfterTicks(ticks[..n], ok[..n], size, buffer, first), ticks[n], ok[n], size, buffer)
  }

  function AfterTick(p: Progress, tick: int, ok: bool, size: int, buffer: int): Progress {
    var start, end := FirstStart(p.last, [tick], size, buffer), tick - buffer;
    if end - start < size then p.(last := start)
    else if ok then Progress(end, p.windows + [Window(start, end)], p.failures)
    else p.(last := start, failures := p.failures + 1)
  }

  // The clock is past the zero time by more than a window and the buffer.
  predicate Clock(ticks: seq<int>, size: int, buffer: int) {
    forall t :: t in ticks ==> t - buffer > ZERO_TIME && t - buffer - size > ZERO_TIME
  }

  lemma Prefix(ticks: seq<int>, size: int, buffer: int)
    requires ticks != [] && Clock(ticks, size, buffer)
    ensures var init, last := ticks[..|ticks| - 1], ticks[|ticks| - 1];
            Clock(init, size, buffer) && last in ticks && forall t :: t in init ==> t in ticks
  {
    var init, last := ticks[..|ticks| - 1], ticks[|ticks| - 1];
    assert ticks == init + [last];
    forall t | t in init ensures t in ticks {
      assert t in init + [last];
    }
  }

  lemma WindowAppended(windows: seq<Window>, w: Window, size: int, ticks: seq<int>, buffer: int)
    requires Tile(windows, size) && EndsAtTicks(windows, ticks, buffer)
    requires w.end - w.start >= size && (windows != [] ==> w.start == windows[|windows| - 1].end)
    requires w.end + buffer in ticks
    ensures Tile(windows + [w], size) && EndsAtTicks(windows + [w], ticks, buffer)
  {}

  ghost predicate Tiled(p: Progress, ticks: seq<int>, size: int, buffer: int, first: int) {
    && Tile(p.windows, size) && EndsAtTicks(p.windows, ticks, buffer)
    && (p.windows == [] ==>
          p.last == if first == ZERO_TIME && ticks != [] then ticks[0] - buffer - size else first)
    && (p.windows != [] ==>
          && p.last == p.windows[|p.windows| - 1].end
          && p.windows[0].start == if first == ZERO_TIME && ticks != [] then ticks[0] - buffer - size else first)
    && (ticks != [] ==> p.last != ZERO_TIME)
  }

  lemma LongerTicks(windows: seq<Window>, ticks: seq<int>, buffer: int)
    requires ticks != [] && EndsAtTicks(windows, ticks[..|ticks| - 1], buffer)
    ensures EndsAtTicks(windows, ticks, buffer)
  {
    assert forall t :: t in ticks[..|ticks| - 1] ==> t in ticks;
  }

  // A window that is opened by the last tick and closed.
  lemma ClosingTiles(windows: seq<Window>, start: int, ticks: seq<int>, size: int, buffer: int)
    requires ticks != [] && Tile(windows, size) && EndsAtTicks(windows, ticks[..|ticks| - 1], buffer)
    requires windows != [] ==> start == windows[|windows| - 1].end
    requires var end := ticks[|ticks| - 1] - buffer; end - start >= size
    ensures var w := Window(start, ticks[|ticks| - 1] - buffer);
            Tile(windows + [w], size) && EndsAtTicks(windows + [w], ticks, buffer)
  {
    var tick := ticks[|ticks| - 1];
    LongerTicks(windows, ticks, buffer);
    assert tick in ticks;
    WindowAppended(windows, Window(start, tick - buffer), size, ticks, buffer);
  }

  // Where the last tick's window starts.
  lemma TickStart(p: Progress, ticks: seq<int>, size: int, buffer: int, first: int)
    requires ticks != [] && Clock(ticks, size, buffer)
    requires Tiled(p, ticks[..|ticks| - 1], size, buffer, first)
    requires |ticks| == 1 ==> p.windows == []
    ensures FirstStart(p.last, [ticks[|ticks| - 1]], size, buffer)
            == (if p.windows != [] then p.windows[|p.windows| - 1].end
                else if first == ZERO_TIME then ticks[0] - buffer - size else first)
    ensures FirstStart(p.last, [ticks[|ticks| - 1]], size, buffer) != ZERO_TIME
  {
    assert ticks[|ticks| - 1] in ticks;
  }

  lemma TickTiles(p: Progress, ticks: seq<int>, ok: bool, size: int, buffer: int, first: int)
    requires ticks != [] && Clock(ticks, size, buffer)
    requires Tiled(p, ticks[..|ticks| - 1], size, buffer, first)
    requires |ticks| == 1 ==> p.windows == []
    ensures Tiled(AfterTick(p, ticks[|ticks| - 1], ok, size, buffer), ticks, size, buffer, first)
  {
    var tick := ticks[|ticks| - 1];
    var start, end := FirstStart(p.last, [tick], size, buffer), tick - buffer;
    TickStart(p, ticks, size, buffer, first);
    assert tick in ticks;
    if end - start >= size && ok {
      ClosingTiles(p.windows, start, ticks, size, buffer);
    } else {
      LongerTicks(p.windows, ticks, buffer);
    }
  }

  /** Whatever ticks arrive and whichever settles fail, the successful windows tile time from the
      first tick on, each ends `buffer` before a tick, and the next one starts where they end. */
  lemma {:induction false} WindowsTile(ticks: seq<int>, ok: seq<bool>, size: int, buffer: int, first: int)
    requires |ok| == |ticks| && Clock(ticks, size, buffer)
    ensures Tiled(AfterTicks(ticks, ok, size, buffer, first), ticks, size, buffer, first)
    ensures ticks == [] ==> AfterTicks(ticks, ok, size, buffer, first).windows == []
  {
    if ticks != [] {
      var n := |ticks| - 1;
      Prefix(ticks, size, buffer);
      WindowsTile(ticks[..n], ok[..n], size, buffer, first);
      TickTiles(AfterTicks(ticks[..n], ok[..n], size, buffer, first), ticks, ok[n], size, buffer, first);
    }
  }

  /** When no settle fails and ticks are at most `gap` apart, every window is shorter than
      size + gap. */
  lemma {:induction false} WindowsShort(ticks: seq<int>, ok: seq<bool>, size: int, buffer: int, gap: int)
    requires |ok| == |ticks| && Clock(ticks, size, buffer)
    requires size > 0 && gap > 0 && GapsAtMost(ticks, gap)
    requires AfterTicks(ticks, ok, size, buffer, ZERO_TIME).failures == 0
    ensures var p := AfterTicks(ticks, ok, size, buffer, ZERO_TIME);
            && ShorterThan(p.windows, size + gap)
            && (ticks != [] ==> ticks[|ticks| - 1] - buffer - p.last < size)
  {
    if ticks != [] {
      var n := |ticks| - 1;
      Prefix(ticks, size, buffer);
      WindowsTile(ticks[..n], ok[..n], size, buffer, ZERO_TIME);
      WindowsShort(ticks[..n], ok[..n], size, buffer, gap);
    }
  }

  /** One tick takes the tables from `t` to `t'` and lastWindowEnd from `last` to `last'`: a window long
      enough is settled, and becomes the last one exactly when its settle returned nil. */
  ghost predicate Ticked(t: Tables, last: int, tick: int, env: TickEnv, size: int, buffer: int,
                         result: TickResult, t': Tables, last': int) {
    var start, end := if last == ZERO_TIME then tick - buffer - size else last, tick - buffer;
    if end - start < size then result == Waiting && last' == start && t' == t
    else
      && t' == AfterSettle(t, start, end, env.aggregateFails, env.groups)
      && last' == (if result.Closed? then end else start)
      && match SettleOutcome(t, start, end, env.aggregateFails, env.groups)
         case Settled => result == Closed(Window(start, end))
         case AggregateError => result == Failed
         case Died => result == Stopped
  }

  class Engine {
    const db: Database
    const store: PgSettlementStore
    const windowSize: int
    const buffer: int
    var lastWindowEnd: int

    constructor (db: Database, store: PgSettlementStore, windowSize: int, buffer: int)
      requires store.db == db
      ensures this.db == db && this.store == store && this.windowSize == windowSize && this.buffer == buffer
      ensures lastWindowEnd == ZERO_TIME
    {
      this.db, this.store, this.windowSize, this.buffer := db, store, windowSize, buffer;
      lastWindowEnd := ZERO_TIME;
    }

    /** Builds the batch and its two events and hands them to PersistBatch. */
    method ProcessGroup(group: CapturedGroup, start: int, end: int, env: GroupEnv) returns (ok: bool)
      requires store.db == db
      modifies db
      ensures db.Snapshot() ==
              if env.fault in {Fails, Dies} then old(db.Snapshot())
              else Persisted(old(db.Snapshot()), BatchOf(group, start, end, env.batchId), env.payoutId, env.now)
      ensures env.fault in {Commits, CommitsUnseen}
              && !HasBatch(old(db.batches), group.accountId, group.currency, start, end) ==>
        db.outbox == old(db.outbox) + [
          OutboxRow(env.batchId, "payments.settled", group.accountId,
                    Payload.Settled(SettledEvent(
                      batchId := env.batchId, accountId := group.accountId, currency := group.currency,
                      windowStart := start, windowEnd := end,
                      totalMinor := group.totalMinor, txnCount := group.txnCount)), false),
          OutboxRow(env.batchId, "payouts.requested", group.accountId,
                    Payout(PayoutRequestedEvent(
                      payoutId := env.payoutId, batchId := env.batchId, accountId := group.accountId,
                      currency := group.currency, totalMinor := group.totalMinor, requestedAt := env.now)), false)]
      ensures env.fault == Commits ==> ok
      ensures env.fault in {Fails, Dies} ==> !ok
    {
      var batch := BatchOf(group, start, end, env.batchId);
      var settled := SettledEvent(env.batchId, group.accountId, group.currency, start, end,
                                  group.totalMinor, group.txnCount);
      var payout := PayoutRequestedEvent(env.payoutId, env.batchId, group.accountId, group.currency,
                                         group.totalMinor, env.now);
      var _, persisted := store.PersistBatch(batch, settled, payout, env.fault);
      return persisted;
    }

    /** The loop over the groups: a group that fails is skipped, and the process may die before any. */
    method SettleGroups(groups: seq<CapturedGroup>, start: int, end: int, env: nat -> GroupEnv) returns (died: bool)
      requires store.db == db
      modifies db
      ensures db.Snapshot() == SettleFrom(old(db.Snapshot()), groups, start, end, env, 0)
      ensures died == DiesWithin(|groups|, env)
    {
      var i := 0;
      while i < |groups|
        invariant 0 <= i <= |groups|
        invariant SettleFrom(db.Snapshot(), groups, start, end, env, i)
                  == SettleFrom(old(db.Snapshot()), groups, start, end, env, 0)
        invariant forall k :: 0 <= k < i ==> env(k).fault != Dies
      {
        if env(i).fault == Dies {
          return true;
        }
        var _ := ProcessGroup(groups[i], start, end, env(i));
        i := i + 1;
      }
      return false;
    }

    method Settle(start: int, end: int, env: TickEnv) returns (result: SettleResult)
      requires store.db == db
      modifies db
      ensures db.Snapshot() == AfterSettle(old(db.Snapshot()), start, end, env.aggregateFails, env.groups)
      ensures result == SettleOutcome(old(db.Snapshot()), start, end, env.aggregateFails, env.groups)
    {
      var found := store.AggregateCaptured(start, end, env.aggregateFails);
      if found.None? {
        return AggregateError;
      }
      var died := SettleGroups(found.value, start, end, env.groups);
      result := if died then Died else SettleResult.Settled;
    }

    /** The loop body: open the next window when it is long enough, and keep its start otherwise. */
    method Tick(tick: int, env: TickEnv) returns (result: TickResult)
      requires store.db == db
      modifies this`lastWindowEnd, db
      ensures Ticked(old(db.Snapshot()), old(lastWindowEnd), tick, env, windowSize, buffer,
                     result, db.Snapshot(), lastWindowEnd)
    {
      var windowEnd := tick - buffer;
      if lastWindowEnd == ZERO_TIME {
        lastWindowEnd := windowEnd - windowSize;
      }
      var windowStart := lastWindowEnd;
      if windowEnd - windowStart < windowSize {
        return Waiting;
      }
      var settled := Settle(windowStart, windowEnd, env);
      if settled == Died {
        return Stopped;
      }
      if settled == AggregateError {
        return Failed;
      }
      lastWindowEnd := windowEnd;
      return Closed(Window(windowStart, windowEnd));
    }

    /** The loop over the ticks delivered before the process stops: all of them, or as many as it
        takes for a settle to be cut short. `windows` are the windows whose settle returned nil. */
    method Run(ticks: seq<int>, env: nat -> TickEnv) returns (windows: seq<Window>, ok: seq<bool>)
      requires store.db == db
      modifies this`lastWindowEnd, db
      ensures var l := AfterLoop(old(db.Snapshot()), old(lastWindowEnd), ticks, env, windowSize, buffer);
              db.Snapshot() == l.db && lastWindowEnd == l.last && windows == l.windows && ok == l.ok
    {
      windows, ok := [], [];
      ghost var failures := 0;
      while |ok| < |ticks|
        invariant |ok| <= |ticks|
        invariant AfterLoop(old(db.Snapshot()), old(lastWindowEnd), ticks[..|ok|], env, windowSize, buffer)
                  == Loop(db.Snapshot(), lastWindowEnd, windows, ok, failures, false)
      {
        var k := |ok|;
        ghost var l := Loop(db.Snapshot(), lastWindowEnd, windows, ok, failures, false);
        var result := Tick(ticks[k], env(k));
        TickedLoop(l, ticks[k], env(k), windowSize, buffer, result, db.Snapshot(), lastWindowEnd);
        LoopExtends(old(db.Snapshot()), old(lastWindowEnd), ticks, k, env, windowSize, buffer);
        ok := ok + [result.Closed?];
        failures := if result == Failed || result == Stopped then failures + 1 else failures;
        if result.Closed? {
          windows := windows + [result.window];
        }
        if result == Stopped {
          LoopStays(old(db.Snapshot()), old(lastWindowEnd), ticks, |ok|, env, windowSize, buffer);
          return;
        }
      }
      assert ticks[..|ok|] == ticks;
    }
  }

  /** What the loop has done to the tables and to its own state; ok[j]: the settle opened at tick j
      returned nil; `failures` counts those that did not. */
  datatype Loop = Loop(db: Tables, last: int, windows: seq<Window>, ok: seq<bool>, failures: nat, stopped: bool)

  function LoopTick(l: Loop, tick: int, env: TickEnv, size: int, buffer: int): Loop {
    var start, end := FirstStart(l.last, [tick], size, buffer), tick - buffer;
    if end - start < size then l.(last := start, ok := l.ok + [false])
    else
      var t' := AfterSettle(l.db, start, end, env.aggregateFails, env.groups);
      match SettleOutcome(l.db, start, end, env.aggregateFails, env.groups)
      case Settled => Loop(t', end, l.windows + [Window(start, end)], l.ok + [true], l.failures, false)
      case AggregateError => Loop(t', start, l.windows, l.ok + [false], l.failures + 1, false)
      case Died => Loop(t', start, l.windows, l.ok + [false], l.failures + 1, true)
  }

  function AfterLoop(t: Tables, first: int, ticks: seq<int>, env: nat -> TickEnv, size: int, buffer: int): (l: Loop)
    ensures |l.ok| <= |ticks| && (!l.stopped ==> |l.ok| == |ticks|)
    ensures l.stopped ==> l.failures > 0
  {
    if ticks == [] then Loop(t, first, [], [], 0, false)
    else
      var n := |ticks| - 1;
      var l := AfterLoop(t, first, ticks[..n], env, size, buffer);
      if l.stopped then l else LoopTick(l, ticks[n], env(n), size, buffer)
  }

  lemma TickedLoop(l: Loop, tick: int, env: TickEnv, size: int, buffer: int, result: TickResult, t': Tables, last': int)
    requires Ticked(l.db, l.last, tick, env, size, buffer, result, t', last') && !l.stopped
    ensures LoopTick(l, tick, env, size, buffer) ==
            Loop(t', last', l.windows + (if result.Closed? then [result.window] else []), l.ok + [result.Closed?],
                 if result == Failed || result == Stopped then l.failures + 1 else l.failures, result == Stopped)
  {}

  lemma LoopExtends(t: Tables, first: int, ticks: seq<int>, k: nat, env: nat -> TickEnv, size: int, buffer: int)
    requires k < |ticks| && !AfterLoop(t, first, ticks[..k], env, size, buffer).stopped
    ensures AfterLoop(t, first, ticks[..k + 1], env, size, buffer)
            == LoopTick(AfterLoop(t, first, ticks[..k], env, size, buffer), ticks[k], env(k), size, buffer)
  {
    assert ticks[..k + 1][..k] == ticks[..k];
  }

  lemma {:induction false} LoopStays(t: Tables, first: int, ticks: seq<int>, k: nat, env: nat -> TickEnv, size: int,
                                     buffer: int)
    requires k <= |ticks| && AfterLoop(t, first, ticks[..k], env, size, buffer).stopped
    ensures AfterLoop(t, first, ticks, env, size, buffer) == AfterLoop(t, first, ticks[..k], env, size, buffer)
  {
    if k < |ticks| {
      var init := ticks[..|ticks| - 1];
      assert init[..k] == ticks[..k];
      LoopStays(t, first, init, k, env, size, buffer);
    } else {
      assert ticks[..k] == ticks;
    }
  }

  lemma TicksAppend(ticks: seq<int>, tick: int, ok: seq<bool>, o: bool, size: int, buffer: int, first: int)
    requires |ok| == |ticks|
    ensures AfterTicks(ticks + [tick], ok + [o], size, buffer, first)
            == AfterTick(AfterTicks(ticks, ok, size, buffer, first), tick, o, size, buffer)
  {
    assert (ticks + [tick])[..|ticks|] == ticks && (ok + [o])[..|ok|] == ok;
  }

  ghost predicate Follows(l: Loop, p: Progress) {
    p == Progress(l.last, l.windows, l.failures)
  }

  lemma TickFollows(l: Loop, p: Progress, tick: int, env: TickEnv, size: int, buffer: int) returns (o: bool)
    requires Follows(l, p)
    ensures LoopTick(l, tick, env, size, buffer).ok == l.ok + [o]
    ensures Follows(LoopTick(l, tick, env, size, buffer), AfterTick(p, tick, o, size, buffer))
  {
    o := LoopTick(l, tick, env, size, buffer).ok[|l.ok|];
  }

  // A loop that goes on with one more tick.
  lemma OneMoreTick(l: Loop, ticks: seq<int>, tick: int, env: TickEnv, size: int, buffer: int, first: int)
    requires |l.ok| == |ticks| && Follows(l, AfterTicks(ticks, l.ok, size, buffer, first))
    ensures var l' := LoopTick(l, tick, env, size, buffer);
            |l'.ok| == |ticks + [tick]| && Follows(l', AfterTicks(ticks + [tick], l'.ok, size, buffer, first))
  {
    var o := TickFollows(l, AfterTicks(ticks, l.ok, size, buffer, first), tick, env, size, buffer);
    TicksAppend(ticks, tick, l.ok, o, size, buffer, first);
  }

  /** The windows of the loop depend on the tables only through which settles succeed. */
  lemma {:induction false} LoopIsTicks(t: Tables, first: int, ticks: seq<int>, env: nat -> TickEnv, size: int,
                                       buffer: int)
    ensures var l := AfterLoop(t, first, ticks, env, size, buffer);
            Follows(l, AfterTicks(ticks[..|l.ok|], l.ok, size, buffer, first))
  {
    if ticks != [] {
      var n := |ticks| - 1;
      var init := ticks[..n];
      var before := AfterLoop(t, first, init, env, size, buffer);
      LoopIsTicks(t, first, init, env, size, buffer);
      assert init[..|before.ok|] == ticks[..|before.ok|];
      if !before.stopped {
        assert init[..n] == init && init + [ticks[n]] == ticks == ticks[..n + 1];
        OneMoreTick(before, init, ticks[n], env(n), size, buffer, first);
      }
    }
  }

  /** Whatever the tables hold and whatever fails, the windows that the loop has closed tile time: they
      follow each other without gap or overlap, each at least `size` long and ending `buffer` before
      a tick; the first one starts a full window before the end of the first tick's, or where the loop
      stood before. */
  lemma LoopTiles(t: Tables, first: int, ticks: seq<int>, env: nat -> TickEnv, size: int, buffer: int)
    requires Clock(ticks, size, buffer)
    ensures var l := AfterLoop(t, first, ticks, env, size, buffer);
            && Tile(l.windows, size) && EndsAtTicks(l.windows, ticks, buffer)
            && (l.windows != [] ==> l.last == l.windows[|l.windows| - 1].end)
            && (l.windows != [] ==>
                  l.windows[0].start == if first == ZERO_TIME then ticks[0] - buffer - size else first)
  {
    var l := AfterLoop(t, first, ticks, env, size, buffer);
    LoopIsTicks(t, first, ticks, env, size, buffer);
    var seen := ticks[..|l.ok|];
    assert forall x :: x in seen ==> x in ticks;
    WindowsTile(seen, l.ok, size, buffer, first);
  }

  /** The first tick after a start opens the window of full size that ends at the tick less the buffer, at once,
      whatever its settle returns: closed if that is nil, opened again otherwise. */
  lemma FirstWindow(t: Tables, tick: int, env: nat -> TickEnv, size: int, buffer: int)
    ensures var start, end := tick - buffer - size, tick - buffer;
            var l := AfterLoop(t, ZERO_TIME, [tick], env, size, buffer);
            && l.db == AfterSettle(t, start, end, env(0).aggregateFails, env(0).groups)
            && if SettleOutcome(t, start, end, env(0).aggregateFails, env(0).groups) == SettleResult.Settled
               then l.windows == [Window(start, end)] && l.last == end
               else l.windows == [] && l.last == start
  {
    assert [tick][..0] == [];
    assert AfterLoop(t, ZERO_TIME, [], env, size, buffer) == Loop(t, ZERO_TIME, [], [], 0, false);
  }

  /** A loop in which every settle returned nil, with ticks at most `gap` apart, closes windows shorter
      than size + gap only, and is never more than that behind. */
  lemma LoopShort(t: Tables, ticks: seq<int>, env: nat -> TickEnv, size: int, buffer: int, gap: int)
    requires Clock(ticks, size, buffer) && size > 0 && gap > 0 && GapsAtMost(ticks, gap)
    requires AfterLoop(t, ZERO_TIME, ticks, env, size, buffer).failures == 0
    ensures var l := AfterLoop(t, ZERO_TIME, ticks, env, size, buffer);
            && !l.stopped && ShorterThan(l.windows, size + gap)
            && (ticks != [] ==> ticks[|ticks| - 1] - buffer - l.last < size)
  {
    var l := AfterLoop(t, ZERO_TIME, ticks, env, size, buffer);
    LoopIsTicks(t, ZERO_TIME, ticks, env, size, buffer);
    assert ticks[..|l.ok|] == ticks;
    WindowsShort(ticks, l.ok, size, buffer, gap);
  }

  /* ---- what one settle does ---- */

  lemma {:induction false} BatchesGrow(t: Tables, groups: seq<CapturedGroup>, start: int, end: int,
                                       env: nat -> GroupEnv, i: nat,
                                       b: Batch)
    requires b in t.batches
    ensures b in SettleFrom(t, groups, start, end, env, i).batches
    decreases |groups| - i
  {
    if i < |groups| && env(i).fault != Dies {
      var b' := BatchOf(groups[i], start, end, env(i).batchId);
      BatchesGrow(if env(i).fault == Fails then t else Persisted(t, b', env(i).payoutId, env(i).now),
                  groups, start, end, env, i + 1, b);
    }
  }

  /** Without a store error every group ends up with a batch for the window, new or old. */
  lemma {:induction false} EveryGroupHasBatch(t: Tables, groups: seq<CapturedGroup>, start: int, end: int,
                                              env: nat -> GroupEnv,
                                              i: nat, g: nat)
    requires i <= g < |groups| && forall k :: env(k).fault == Commits
    ensures HasBatch(SettleFrom(t, groups, start, end, env, i).batches,
                     groups[g].accountId, groups[g].currency, start, end)
    decreases |groups| - i
  {
    var b := BatchOf(groups[i], start, end, env(i).batchId);
    var t' := Persisted(t, b, env(i).payoutId, env(i).now);
    if i == g {
      assert b in t.batches + [b];
      var kept :| kept in t'.batches && kept.accountId == groups[g].accountId && kept.currency == groups[g].currency
                  && kept.windowStart == start && kept.windowEnd == end;
      BatchesGrow(t', groups, start, end, env, i + 1, kept);
    } else {
      EveryGroupHasBatch(t', groups, start, end, env, i + 1, g);
    }
  }

  lemma {:induction false} NothingLeft(t: Tables, groups: seq<CapturedGroup>, start: int, end: int,
                                       env: nat -> GroupEnv, i: nat)
    requires forall g :: 0 <= g < |groups| ==>
               HasBatch(t.batches, groups[g].accountId, groups[g].currency, start, end)
    ensures SettleFrom(t, groups, start, end, env, i) == t
    decreases |groups| - i
  {
    if i < |groups| && env(i).fault != Dies {
      assert Persisted(t, BatchOf(groups[i], start, end, env(i).batchId), env(i).payoutId, env(i).now) == t;
      NothingLeft(t, groups, start, end, env, i + 1);
    }
  }

  lemma {:induction false} RowsOnlySettle(t: Tables, groups: seq<CapturedGroup>, start: int, end: int,
                                          env: nat -> GroupEnv, i: nat)
    ensures var rows, rows' := t.transactions, SettleFrom(t, groups, start, end, env, i).transactions;
            |rows'| == |rows| && forall k :: 0 <= k < |rows| ==>
              rows'[k] == rows[k] || (rows[k].state == CAPTURED && rows'[k] == rows[k].(state := SETTLED))
    decreases |groups| - i
  {
    if i < |groups| && env(i).fault != Dies {
      var b := BatchOf(groups[i], start, end, env(i).batchId);
      RowsOnlySettle(if env(i).fault == Fails then t else Persisted(t, b, env(i).payoutId, env(i).now),
                     groups, start, end, env, i + 1);
    }
  }

  /** What is still captured after a settle was captured before it. */
  lemma KeysShrink(rows: seq<Transaction>, rows': seq<Transaction>, start: int, end: int, key: Key)
    requires |rows'| == |rows| && forall k :: 0 <= k < |rows| ==> rows'[k] == rows[k] || rows'[k].state != CAPTURED
    requires key in Keys(rows', start, end)
    ensures key in Keys(rows, start, end)
  {
    KeysOccur(rows', start, end, key);
    var k :| 0 <= k < |rows'| && InWindow(rows'[k], start, end) && KeyOf(rows'[k]) == key;
    assert rows'[k] == rows[k];
    KeysOccur(rows, start, end, key);
  }

  /** After a settle with no store error, settling the same window again changes no table, whatever
      happens in the second call, and even where a taken batch key left payments CAPTURED. */
  lemma SettleIdempotent(t: Tables, start: int, end: int, env: nat -> GroupEnv, fails': bool, env': nat -> GroupEnv)
    requires forall k :: env(k).fault == Commits
    ensures var once := AfterSettle(t, start, end, false, env);
            AfterSettle(once, start, end, fails', env') == once
  {
    var groups := Groups(t.transactions, start, end);
    if Scannable(groups) {
      var once := SettleFrom(t, groups, start, end, env, 0);
      var again := Groups(once.transactions, start, end);
      RowsOnlySettle(t, groups, start, end, env, 0);
      forall g | 0 <= g < |again|
        ensures HasBatch(once.batches, again[g].accountId, again[g].currency, start, end)
      {
        var key := Keys(once.transactions, start, end)[g];
        KeysShrink(t.transactions, once.transactions, start, end, key);
        var g0 :| 0 <= g0 < |groups| && Keys(t.transactions, start, end)[g0] == key;
        EveryGroupHasBatch(t, groups, start, end, env, 0, g0);
      }
      NothingLeft(once, again, start, end, env', 0);
    }
  }

  lemma {:induction false} RowUntouched(t: Tables, groups: seq<CapturedGroup>, start: int, end: int,
                                        env: nat -> GroupEnv,
                                        i: nat, k: nat)
    requires k < |t.transactions|
    requires forall g :: i <= g < |groups| ==> t.transactions[k].paymentId !in groups[g].paymentIds
    ensures |SettleFrom(t, groups, start, end, env, i).transactions| == |t.transactions|
    ensures SettleFrom(t, groups, start, end, env, i).transactions[k] == t.transactions[k]
    decreases |groups| - i
  {
    RowsOnlySettle(t, groups, start, end, env, i);
    if i < |groups| && env(i).fault != Dies {
      var b := BatchOf(groups[i], start, end, env(i).batchId);
      RowUntouched(if env(i).fault == Fails then t else Persisted(t, b, env(i).payoutId, env(i).now),
                   groups, start, end, env, i + 1, k);
    }
  }

  lemma {:induction false} RowSettledAt(t: Tables, groups: seq<CapturedGroup>, start: int, end: int,
                                        env: nat -> GroupEnv, i: nat, k: nat, g: nat)
    requires i <= g < |groups| && k < |t.transactions| && t.transactions[k].state == CAPTURED
    requires forall j :: env(j).fault != Dies
    requires forall j :: i <= j < |groups| ==> (t.transactions[k].paymentId in groups[j].paymentIds <==> j == g)
    requires forall j :: i <= j < g ==>
               (groups[j].accountId, groups[j].currency) != (groups[g].accountId, groups[g].currency)
    ensures |SettleFrom(t, groups, start, end, env, i).transactions| == |t.transactions|
    ensures SettleFrom(t, groups, start, end, env, i).transactions[k].state ==
            if env(g).fault == Fails || HasBatch(t.batches, groups[g].accountId, groups[g].currency, start, end)
            then CAPTURED else SETTLED
    decreases |groups| - i
  {
    var b := BatchOf(groups[i], start, end, env(i).batchId);
    var t' := if env(i).fault == Fails then t else Persisted(t, b, env(i).payoutId, env(i).now);
    if i == g {
      RowUntouched(t', groups, start, end, env, i + 1, k);
    } else {
      OtherKeysBatch(t, b, env(i).payoutId, env(i).now, groups[g].accountId, groups[g].currency, start, end);
      RowSettledAt(t', groups, start, end, env, i + 1, k, g);
    }
  }

  lemma OtherKeysBatch(t: Tables, b: Batch, payoutId: string, now: int, account: string, currency: string,
                       start: int, end: int)
    requires (b.accountId, b.currency) != (account, currency)
    ensures HasBatch(Persisted(t, b, payoutId, now).batches, account, currency, start, end)
            <==> HasBatch(t.batches, account, currency, start, end)
  {
    if HasBatch(t.batches, account, currency, start, end) {
      var taken :| taken in t.batches && taken.accountId == account && taken.currency == currency
                  && taken.windowStart == start && taken.windowEnd == end;
      assert taken in Persisted(t, b, payoutId, now).batches;
    }
  }

  // The one group that lists a payment of the window.
  lemma GroupOfRow(rows: seq<Transaction>, start: int, end: int, k: nat) returns (g: nat)
    requires DistinctIds(rows) && k < |rows| && InWindow(rows[k], start, end)
    ensures var groups, keys := Groups(rows, start, end), Keys(rows, start, end);
            && g < |groups| && keys[g] == KeyOf(rows[k])
            && (forall j :: 0 <= j < |groups| ==> (rows[k].paymentId in groups[j].paymentIds <==> j == g))
            && (forall j :: 0 <= j < |groups| && j != g ==> keys[j] != keys[g])
  {
    var keys := Keys(rows, start, end);
    KeysOccur(rows, start, end, KeyOf(rows[k]));
    var i :| 0 <= i < |keys| && keys[i] == KeyOf(rows[k]);
    g := i;
    forall j | 0 <= j < |keys|
      ensures j != g ==> keys[j] != keys[g]
      ensures rows[k].paymentId in Groups(rows, start, end)[j].paymentIds <==> j == g
    {
      if j < g { KeysDistinct(rows, start, end, j, g); }
      if g < j { KeysDistinct(rows, start, end, g, j); }
      GroupsPartition(rows, start, end, k, j);
    }
  }

  lemma RowOutside(rows: seq<Transaction>, start: int, end: int, k: nat)
    requires DistinctIds(rows) && k < |rows| && !InWindow(rows[k], start, end)
    ensures forall g :: 0 <= g < |Groups(rows, start, end)| ==>
              rows[k].paymentId !in Groups(rows, start, end)[g].paymentIds
  {
    forall g | 0 <= g < |Groups(rows, start, end)|
      ensures rows[k].paymentId !in Groups(rows, start, end)[g].paymentIds
    {
      GroupsPartition(rows, start, end, k, g);
    }
  }

  // The persist of the key's group fails.
  ghost predicate FailsFor(rows: seq<Transaction>, start: int, end: int, env: nat -> GroupEnv, key: Key) {
    exists g :: 0 <= g < |Keys(rows, start, end)| && Keys(rows, start, end)[g] == key && env(g).fault == Fails
  }

  /** Which payments a settle settles that runs to its end, whichever groups fail: exactly the captured payments
      of the window whose account and currency have no batch for that window yet and whose own group
      does not fail. */
  lemma SettleDecides(t: Tables, start: int, end: int, env: nat -> GroupEnv, k: nat)
    requires DistinctIds(t.transactions) && k < |t.transactions|
    requires Scannable(Groups(t.transactions, start, end)) && forall j :: env(j).fault != Dies
    ensures var x, t' := t.transactions[k], AfterSettle(t, start, end, false, env);
            && |t'.transactions| == |t.transactions|
            && t'.transactions[k].state ==
               if InWindow(x, start, end) && !HasBatch(t.batches, x.accountId, x.currency, start, end)
                  && !FailsFor(t.transactions, start, end, env, KeyOf(x))
               then SETTLED else x.state
  {
    if InWindow(t.transactions[k], start, end) {
      var g := GroupOfRow(t.transactions, start, end, k);
      RowSettledAt(t, Groups(t.transactions, start, end), start, end, env, 0, k, g);
    } else {
      RowOutside(t.transactions, start, end, k);
      RowUntouched(t, Groups(t.transactions, start, end), start, end, env, 0, k);
    }
  }

  /** settle returns nil exactly when the aggregation succeeds, every sum fits 64 bits and the process lives,
      even if no group is found or every group fails. */
  lemma SettleReturnsNil(t: Tables, start: int, end: int, aggregateFails: bool, env: nat -> GroupEnv)
    ensures var groups := Groups(t.transactions, start, end);
            SettleOutcome(t, start, end, aggregateFails, env) == SettleResult.Settled <==>
            && !aggregateFails
            && (forall i :: 0 <= i < |groups| ==>
                  -0x8000_0000_0000_0000 <= groups[i].totalMinor < 0x8000_0000_0000_0000)
            && (forall i :: 0 <= i < |groups| ==> env(i).fault != Dies)
  {}

  /* ---- payments captured too late ---- */

  function SettleAll(t: Tables, windows: seq<Window>, env: nat -> TickEnv): Tables {
    if windows == [] then t
    else
      var before, w := SettleAll(t, windows[..|windows| - 1], env), windows[|windows| - 1];
      AfterSettle(before, w.start, w.end, env(|windows| - 1).aggregateFails, env(|windows| - 1).groups)
  }

  lemma OutsideUntouched(t: Tables, start: int, end: int, aggregateFails: bool, env: nat -> GroupEnv, k: nat)
    requires DistinctIds(t.transactions) && k < |t.transactions| && !(start <= t.transactions[k].createdAt < end)
    ensures var t' := AfterSettle(t, start, end, aggregateFails, env);
            && |t'.transactions| == |t.transactions| && DistinctIds(t'.transactions)
            && t'.transactions[k] == t.transactions[k]
  {
    var groups := Groups(t.transactions, start, end);
    forall g | 0 <= g < |groups| ensures t.transactions[k].paymentId !in groups[g].paymentIds {
      GroupsPartition(t.transactions, start, end, k, g);
    }
    RowsOnlySettle(t, groups, start, end, env, 0);
    RowUntouched(t, groups, start, end, env, 0, k);
    var rows' := SettleFrom(t, groups, start, end, env, 0).transactions;
    assert forall i :: 0 <= i < |rows'| ==> rows'[i].paymentId == t.transactions[i].paymentId;
  }

  /** The window filters on created_at and the windows only advance: a payment captured after the
      window of its creation was closed is left as it is by every later window. */
  lemma {:induction false} LateCaptureStranded(t: Tables, windows: seq<Window>, env: nat -> TickEnv, size: int, k: nat)
    requires DistinctIds(t.transactions) && k < |t.transactions|
    requires Tile(windows, size) && size >= 0
    requires |windows| > 0 ==> t.transactions[k].createdAt < windows[0].start
    ensures |SettleAll(t, windows, env).transactions| == |t.transactions|
    ensures DistinctIds(SettleAll(t, windows, env).transactions)
    ensures SettleAll(t, windows, env).transactions[k] == t.transactions[k]
    ensures |windows| > 0 ==> t.transactions[k].createdAt < windows[|windows| - 1].end
  {
    if windows != [] {
      var init, w := windows[..|windows| - 1], windows[|windows| - 1];
      LateCaptureStranded(t, init, env, size, k);
      if init != [] {
        assert w.start == init[|init| - 1].end;
      }
      var e := env(|windows| - 1);
      OutsideUntouched(SettleAll(t, init, env), w.start, w.end, e.aggregateFails, e.groups, k);
    }
  }
}
