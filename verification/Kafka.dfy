/** Consuming with retries: a record's offset is committed after its handler, or the dead-letter
    queue, has taken it. */
module Kafka {
  import opened Schema
  import opened Outbox
  import Amount

  /* ---- RetryHandler ---- */

  datatype Outcome = Handled | Retryable | NonRetryable

  datatype RetryResult = Nil | HandlerError | MarshalError | Panicked

  /** `attempts` is the configured maximum, whatever number of attempts was made. */
  datatype DlqMessage = DlqMessage(
    originalTopic: string, originalKey: string, originalPayload: Payload, consumerGroup: string, attempts: int)

  /** A letter from which the record can be replayed to its topic, naming the consumer group that gave up. */
  predicate IsLetter(m: DlqMessage, r: Record, consumerGroup: string, maxAttempts: int) {
    && m.originalTopic == r.topic && m.originalKey == r.key && m.originalPayload == r.payload
    && m.consumerGroup == consumerGroup && m.attempts == maxAttempts
  }

  class DeadLetterQueue {
    var messages: seq<DlqMessage>

    constructor ()
      ensures messages == []
    {
      messages := [];
    }
  }

  // 100 ms in nanoseconds
  const HUNDRED_MS := 100_000_000

  function Squares(n: nat): nat {
    if n == 0 then 0 else Squares(n - 1) + n * n
  }

  lemma SquaresStep(n: nat)
    ensures (n - 1) * n * (2 * n - 1) + 6 * (n * n) == n * (n + 1) * (2 * n + 1)
  {
    var a, b := (n - 1) * (2 * n - 1), (n + 1) * (2 * n + 1);
    assert b == a + 6 * n;
    assert (n - 1) * n * (2 * n - 1) == n * a && n * (n + 1) * (2 * n + 1) == n * b;
    assert n * (a + 6 * n) == n * a + 6 * (n * n);
  }

  lemma {:induction false} SquaresClosed(n: nat)
    ensures 6 * Squares(n) == n * (n + 1) * (2 * n + 1)
  {
    if n > 0 {
      SquaresClosed(n - 1);
      SquaresStep(n);
    }
  }

  // The multiplications wrap at 64 bits; time.Sleep returns at once for a negative duration.
  function Wait(attempt: nat): nat {
    var d := Amount.Wrap(attempt * attempt * HUNDRED_MS);
    if d > 0 then d else 0
  }

  // The sleep after n failed attempts.
  function Slept(n: nat): nat {
    if n == 0 then 0 else Slept(n - 1) + Wait(n)
  }

  /** Never more than 100 ms times the sum of squares, and exactly that as long as nothing wraps. */
  lemma {:induction false} SleptAtMost(n: nat)
    ensures Slept(n) <= 100_000_000 * Squares(n)
    ensures (forall k :: 1 <= k <= n ==> Amount.IsInt64(k * k * 100_000_000)) ==> Slept(n) == 100_000_000 * Squares(n)
  {
    if n > 0 {
      SleptAtMost(n - 1);
    }
  }

  class RetryHandler {
    const dlq: DeadLetterQueue
    const topic: string
    const consumerGroup: string
    const maxAttempts: int

    constructor (dlq: DeadLetterQueue, topic: string, consumerGroup: string, maxAttempts: int)
      ensures this.dlq == dlq && this.topic == topic && this.consumerGroup == consumerGroup
      ensures this.maxAttempts == maxAttempts
    {
      this.dlq, this.topic, this.consumerGroup, this.maxAttempts := dlq, topic, consumerGroup, maxAttempts;
    }

    function Message(key: string, payload: Payload): DlqMessage {
      DlqMessage(topic, key, payload, consumerGroup, maxAttempts)
    }

    /** The attempts: `outcomes(i)` is what the i-th handler call returns, `slept` is in nanoseconds. */
    method Attempt(outcomes: nat -> Outcome) returns (calls: nat, slept: int)
      requires maxAttempts >= 1
      ensures 1 <= calls <= maxAttempts
      ensures forall i :: 1 <= i < calls ==> outcomes(i) == Retryable
      ensures outcomes(calls) == Retryable ==> calls == maxAttempts
      ensures slept == Slept(if outcomes(calls) == Retryable then calls else calls - 1)
    {
      slept := 0;
      calls := 1;
      while true
        invariant 1 <= calls <= maxAttempts
        invariant forall i :: 1 <= i < calls ==> outcomes(i) == Retryable
        invariant slept == Slept(calls - 1)
        decreases maxAttempts - calls
      {
        if outcomes(calls) != Retryable {
          return;
        }
        slept := slept + Wait(calls);
        if calls == maxAttempts {
          return;
        }
        calls := calls + 1;
      }
    }

    /** `json` says whether the payload is valid JSON, `publish` what the broker does with the letter. */
    method PublishToDLQ(key: string, payload: Payload, json: bool, publish: PublishOutcome)
      returns (result: RetryResult)
      modifies dlq
      ensures result == if !json then MarshalError else if publish == Acked then Nil else HandlerError
      ensures json && publish != NotAppended ==>
        && |dlq.messages| == |old(dlq.messages)| + 1 && dlq.messages[..|old(dlq.messages)|] == old(dlq.messages)
        && IsLetter(dlq.messages[|old(dlq.messages)|], Record(topic, key, payload), consumerGroup, maxAttempts)
      ensures !json || publish == NotAppended ==> dlq.messages == old(dlq.messages)
    {
      if !json {
        return MarshalError;
      }
      if publish != NotAppended {
        dlq.messages := dlq.messages + [Message(key, payload)];
      }
      return if publish == Acked then Nil else HandlerError;
    }

    /** nil exactly when the last attempt succeeded or the dead-letter queue acknowledged the letter;
        at most maxAttempts calls and at most 100 ms * n(n+1)(2n+1)/6 of sleep for n attempts. */
    method Handle(key: string, payload: Payload, json: bool, outcomes: nat -> Outcome, publish: PublishOutcome)
      returns (result: RetryResult, calls: nat, slept: int)
      modifies dlq
      ensures maxAttempts >= 1 ==>
        && 1 <= calls <= maxAttempts
        && (forall i :: 1 <= i < calls ==> outcomes(i) == Retryable)
        && (outcomes(calls) == Retryable ==> calls == maxAttempts)
        && (result == Nil <==> outcomes(calls) == Handled || (json && publish == Acked))
        && slept == Slept(if outcomes(calls) == Retryable then calls else calls - 1)
        && 6 * slept <= 100_000_000 * (maxAttempts * (maxAttempts + 1) * (2 * maxAttempts + 1))
        && (outcomes(calls) == Handled || !json || publish == NotAppended ==> dlq.messages == old(dlq.messages))
        && (outcomes(calls) != Handled && json && publish != NotAppended ==>
              && |dlq.messages| == |old(dlq.messages)| + 1 && dlq.messages[..|old(dlq.messages)|] == old(dlq.messages)
              && IsLetter(dlq.messages[|old(dlq.messages)|], Record(topic, key, payload), consumerGroup, maxAttempts))
      ensures maxAttempts < 1 ==> result == Panicked && dlq.messages == old(dlq.messages)
    {
      if maxAttempts < 1 {
        // lastErr is nil and lastErr.Error() panics
        return Panicked, 0, 0;
      }
      calls, slept := Attempt(outcomes);
      SleptAtMost(if outcomes(calls) == Retryable then calls else calls - 1);
      SquaresGrow(if outcomes(calls) == Retryable then calls else calls - 1, maxAttempts);
      if outcomes(calls) == Handled {
        return Nil, calls, slept;
      }
      result := PublishToDLQ(key, payload, json, publish);
    }
  }

  lemma {:induction false} SquaresMonotone(k: nat, n: nat)
    requires k <= n
    ensures Squares(k) <= Squares(n)
  {
    if k < n {
      SquaresMonotone(k, n - 1);
    }
  }

  lemma SquaresGrow(k: nat, n: nat)
    requires k <= n
    ensures 6 * Squares(k) <= n * (n + 1) * (2 * n + 1)
  {
    SquaresMonotone(k, n);
    SquaresClosed(n);
  }

  /* ---- Consume ---- */

  datatype Fetched = Fetched(partition: nat, offset: nat)

  /** `cancelled`: the context ends while the poll is worked on. */
  datatype Poll = Poll(records: seq<Fetched>, fetchError: bool, cancelled: bool)

  /** CommitLost: no effect; CommitUnseen: it took effect but an error was returned. */
  datatype CommitOutcome = CommitOk | CommitLost | CommitUnseen

  datatype ConsumeEnv = ConsumeEnv(handled: bool, commit: CommitOutcome)

  datatype ConsumeResult = Stopped | Cancelled | FetchFailed | HandleFailed | CommitFailed

  function At(offsets: map<nat, nat>, partition: nat): nat {
    if partition in offsets then offsets[partition] else 0
  }

  // The next offset of each partition after some records.
  function After(position: map<nat, nat>, records: seq<Fetched>): map<nat, nat> {
    if records == [] then position
    else
      var last := records[|records| - 1];
      After(position, records[..|records| - 1])[last.partition := last.offset + 1]
  }

  /** The client delivers each partition's records in offset order, without gaps. */
  ghost predicate Consecutive(position: map<nat, nat>, records: seq<Fetched>) {
    forall i :: 0 <= i < |records| ==> records[i].offset == At(After(position, records[..i]), records[i].partition)
  }

  function AfterPolls(position: map<nat, nat>, polls: seq<Poll>): map<nat, nat> {
    if polls == [] then position
    else After(AfterPolls(position, polls[..|polls| - 1]), polls[|polls| - 1].records)
  }

  ghost predicate Delivery(position: map<nat, nat>, polls: seq<Poll>) {
    forall k :: 0 <= k < |polls| ==> Consecutive(AfterPolls(position, polls[..k]), polls[k].records)
  }

  /** Every record below an offset is among the handled ones. */
  ghost predicate Covers(handled: set<Fetched>, offsets: map<nat, nat>) {
    forall p: nat, o: nat :: o < At(offsets, p) ==> Fetched(p, o) in handled
  }

  lemma CoversNext(handled: set<Fetched>, committed: map<nat, nat>, record: Fetched)
    requires Covers(handled, committed) && record.offset == At(committed, record.partition)
    ensures var more := handled + {record};
            Covers(more, committed) && Covers(more, committed[record.partition := record.offset + 1])
  {}

  /** The broker's committed offsets, and, as history, the records whose handler returned nil. */
  datatype Offsets = Offsets(committed: map<nat, nat>, handled: set<Fetched>) {
    /** Every record below a committed offset has been handled. */
    ghost predicate Safe() {
      Covers(handled, committed)
    }
  }

  predicate Passed(e: ConsumeEnv) {
    e.handled && e.commit == CommitOk
  }

  function AfterRecord(s: Offsets, record: Fetched, e: ConsumeEnv): Offsets {
    if !e.handled then s
    else
      Offsets(if e.commit == CommitLost then s.committed else s.committed[record.partition := record.offset + 1],
              s.handled + {record})
  }

  function AfterRecords(s: Offsets, records: seq<Fetched>, env: nat -> ConsumeEnv, i: nat): Offsets
    decreases |records| - i
  {
    if i >= |records| then s
    else if Passed(env(i)) then AfterRecords(AfterRecord(s, records[i], env(i)), records, env, i + 1)
    else AfterRecord(s, records[i], env(i))
  }

  predicate AllPassed(records: seq<Fetched>, env: nat -> ConsumeEnv, i: nat) {
    forall k :: i <= k < |records| ==> Passed(env(k))
  }

  function Outcomes(env: (nat, nat) -> ConsumeEnv, k: nat): nat -> ConsumeEnv {
    (i: nat) => env(k, i)
  }

  predicate GoesOn(poll: Poll) {
    !poll.fetchError && !poll.cancelled
  }

  /** A session over the polls from the k-th on; it ends at the first failure. */
  function AfterSession(s: Offsets, polls: seq<Poll>, env: (nat, nat) -> ConsumeEnv, k: nat): Offsets
    decreases |polls| - k
  {
    if k >= |polls| then s
    else
      var s' := AfterRecords(s, polls[k].records, Outcomes(env, k), 0);
      if AllPassed(polls[k].records, Outcomes(env, k), 0) && GoesOn(polls[k])
      then AfterSession(s', polls, env, k + 1) else s'
  }

  class ConsumerGroup {
    var committed: map<nat, nat>
    ghost var handled: set<Fetched>

    constructor ()
      ensures State() == Offsets(map[], {}) && State().Safe()
    {
      committed, handled := map[], {};
    }

    ghost function State(): Offsets
      reads this
    {
      Offsets(committed, handled)
    }

    method Consume(polls: seq<Poll>, env: (nat, nat) -> ConsumeEnv) returns (result: ConsumeResult)
      modifies this
      ensures State() == AfterSession(old(State()), polls, env, 0)
      ensures result == Stopped <==>
              forall k :: 0 <= k < |polls| ==> AllPassed(polls[k].records, Outcomes(env, k), 0) && GoesOn(polls[k])
    {
      var k := 0;
      while k < |polls|
        invariant 0 <= k <= |polls|
        invariant AfterSession(State(), polls, env, k) == AfterSession(old(State()), polls, env, 0)
        invariant forall j :: 0 <= j < k ==> AllPassed(polls[j].records, Outcomes(env, j), 0) && GoesOn(polls[j])
      {
        result := HandleRecords(polls[k].records, Outcomes(env, k));
        if result != Stopped {
          return;
        }
        if polls[k].fetchError {
          return FetchFailed;
        }
        if polls[k].cancelled {
          return Cancelled;
        }
        k := k + 1;
      }
      return Stopped;
    }

    /** Each record is committed after it is handled, and only then the next one is handled. */
    method HandleRecords(records: seq<Fetched>, env: nat -> ConsumeEnv) returns (result: ConsumeResult)
      modifies this
      ensures State() == AfterRecords(old(State()), records, env, 0)
      ensures result == Stopped <==> AllPassed(records, env, 0)
      ensures result in {Stopped, HandleFailed, CommitFailed}
    {
      var i := 0;
      while i < |records|
        invariant 0 <= i <= |records|
        invariant AfterRecords(State(), records, env, i) == AfterRecords(old(State()), records, env, 0)
        invariant forall k :: 0 <= k < i ==> Passed(env(k))
      {
        var record := records[i];
        if !env(i).handled {
          return HandleFailed;
        }
        handled := handled + {record};
        if env(i).commit != CommitLost {
          committed := committed[record.partition := record.offset + 1];
        }
        if env(i).commit != CommitOk {
          return CommitFailed;
        }
        i := i + 1;
      }
      return Stopped;
    }
  }

  /** A record that is handled moves its partition's offset to one past it, unless the commit is lost, and leaves
      the other offsets; a record that is not handled changes nothing. */
  lemma RecordCommitted(s: Offsets, record: Fetched, e: ConsumeEnv, p: nat)
    ensures var s' := AfterRecord(s, record, e);
            && At(s'.committed, p)
               == (if p == record.partition && e.handled && e.commit != CommitLost then record.offset + 1
                   else At(s.committed, p))
            && s'.handled == s.handled + if e.handled then {record} else {}
  {}

  lemma RecordSafe(s: Offsets, start: map<nat, nat>, records: seq<Fetched>, e: ConsumeEnv, i: nat)
    requires i < |records| && s.Safe() && s.committed == After(start, records[..i])
    requires records[i].offset == At(s.committed, records[i].partition)
    ensures var s' := AfterRecord(s, records[i], e);
            && s'.Safe() && s.handled <= s'.handled
            && (Passed(e) ==> s'.committed == After(start, records[..i + 1]))
  {
    CoversNext(s.handled, s.committed, records[i]);
    assert records[..i + 1][..i] == records[..i];
  }

  lemma {:induction false} RecordsSafe(s: Offsets, start: map<nat, nat>, records: seq<Fetched>,
                                       env: nat -> ConsumeEnv, i: nat)
    requires i <= |records| && Consecutive(start, records)
    requires s.Safe() && s.committed == After(start, records[..i])
    ensures var s' := AfterRecords(s, records, env, i);
            && s'.Safe() && s.handled <= s'.handled
            && (AllPassed(records, env, i) ==> s'.committed == After(start, records))
    decreases |records| - i
  {
    if i < |records| {
      RecordSafe(s, start, records, env(i), i);
      if Passed(env(i)) {
        RecordsSafe(AfterRecord(s, records[i], env(i)), start, records, env, i + 1);
      }
    } else {
      assert records[..i] == records;
    }
  }

  lemma {:induction false} SessionFrom(s: Offsets, start: map<nat, nat>, polls: seq<Poll>, env: (nat,
                                       nat) -> ConsumeEnv, k: nat)
    requires k <= |polls| && Delivery(start, polls)
    requires s.Safe() && s.committed == AfterPolls(start, polls[..k])
    ensures AfterSession(s, polls, env, k).Safe() && s.handled <= AfterSession(s, polls, env, k).handled
    decreases |polls| - k
  {
    if k < |polls| {
      var records := polls[k].records;
      assert records[..0] == [];
      RecordsSafe(s, s.committed, records, Outcomes(env, k), 0);
      if AllPassed(records, Outcomes(env, k), 0) && GoesOn(polls[k]) {
        assert polls[..k + 1][..k] == polls[..k];
        SessionFrom(AfterRecords(s, records, Outcomes(env, k), 0), start, polls, env, k + 1);
      }
    }
  }

  /** A session starts at the committed offsets and is delivered each partition in order. However it
      ends, nothing below a committed offset is unhandled, so the next session skips no record. */
  lemma SessionSafe(s: Offsets, polls: seq<Poll>, env: (nat, nat) -> ConsumeEnv)
    requires s.Safe() && Delivery(s.committed, polls)
    ensures AfterSession(s, polls, env, 0).Safe() && s.handled <= AfterSession(s, polls, env, 0).handled
  {
    assert polls[..0] == [];
    SessionFrom(s, s.committed, polls, env, 0);
  }
}
