/** The GROUP BY over the CAPTURED payments of a window. */
module Aggregation {
  import opened Domain
  import opened Sequences
  import opened Schema
  import opened Amount

  datatype CapturedGroup = CapturedGroup(
    accountId: string, currency: string, totalMinor: int, txnCount: int, paymentIds: seq<string>)

  type Key = (string, string)

  predicate InWindow(x: Transaction, start: int, end: int) {
    x.state == CAPTURED && start <= x.createdAt < end
  }

  function KeyOf(x: Transaction): Key {
    (x.accountId, x.currency)
  }

  function Member(key: Key, start: int, end: int): Transaction -> bool {
    (x: Transaction) => InWindow(x, start, end) && KeyOf(x) == key
  }

  function MinorUnits(): Transaction -> int {
    (x: Transaction) => x.minorUnits
  }

  function PaymentId(): Transaction -> string {
    (x: Transaction) => x.paymentId
  }

  // Summed, counted and listed.
  function Summary(key: Key, members: seq<Transaction>): CapturedGroup {
    CapturedGroup(key.0, key.1, Sum(members, MinorUnits()), |members|, Image(members, PaymentId()))
  }

  /** The group of a key. */
  function GroupOf(rows: seq<Transaction>, key: Key, start: int, end: int): CapturedGroup {
    Summary(key, Filter(rows, Member(key, start, end)))
  }

  // The keys in order of first appearance.
  function Keys(rows: seq<Transaction>, start: int, end: int): seq<Key> {
    if rows == [] then []
    else
      var earlier, x := Keys(rows[..|rows| - 1], start, end), rows[|rows| - 1];
      if InWindow(x, start, end) && KeyOf(x) !in earlier then earlier + [KeyOf(x)] else earlier
  }

  function Groups(rows: seq<Transaction>, start: int, end: int): (groups: seq<CapturedGroup>)
    ensures |groups| == |Keys(rows, start, end)|
    ensures forall i :: 0 <= i < |groups| ==> groups[i] == GroupOf(rows, Keys(rows, start, end)[i], start, end)
  {
    var keys := Keys(rows, start, end);
    seq(|keys|, i requires 0 <= i < |keys| => GroupOf(rows, keys[i], start, end))
  }

  ghost predicate Occurs(rows: seq<Transaction>, start: int, end: int, key: Key) {
    exists i :: 0 <= i < |rows| && InWindow(rows[i], start, end) && KeyOf(rows[i]) == key
  }

  /** The keys are those of the captured rows of the window, */
  lemma {:induction false} KeysOccur(rows: seq<Transaction>, start: int, end: int, key: Key)
    ensures key in Keys(rows, start, end) <==> Occurs(rows, start, end, key)
  {
    if rows != [] {
      var init, x := rows[..|rows| - 1], rows[|rows| - 1];
      KeysOccur(init, start, end, key);
      if Occurs(init, start, end, key) {
        var i :| 0 <= i < |init| && InWindow(init[i], start, end) && KeyOf(init[i]) == key;
        assert rows[i] == init[i];
      }
      if Occurs(rows, start, end, key) {
        var i :| 0 <= i < |rows| && InWindow(rows[i], start, end) && KeyOf(rows[i]) == key;
        assert i < |init| ==> init[i] == rows[i];
      }
    }
  }

  /** each listed once. */
  lemma {:induction false} KeysDistinct(rows: seq<Transaction>, start: int, end: int, i: nat, j: nat)
    requires i < j < |Keys(rows, start, end)|
    ensures Keys(rows, start, end)[i] != Keys(rows, start, end)[j]
  {
    var earlier := Keys(rows[..|rows| - 1], start, end);
    if j < |earlier| {
      KeysDistinct(rows[..|rows| - 1], start, end, i, j);
    } else {
      assert earlier[i] in earlier;
    }
  }

  /** Each payment of the window is listed by the group of its account and currency and by no
      other; nothing else is listed. */
  lemma GroupsPartition(rows: seq<Transaction>, start: int, end: int, i: nat, g: nat)
    requires DistinctIds(rows) && i < |rows|
    requires g < |Groups(rows, start, end)|
    ensures var group := Groups(rows, start, end)[g];
            rows[i].paymentId in group.paymentIds <==>
            InWindow(rows[i], start, end) && KeyOf(rows[i]) == (group.accountId, group.currency)
  {
    var key := Keys(rows, start, end)[g];
    ListedExactly(rows, Member(key, start, end), i);
  }

  lemma ListedExactly(rows: seq<Transaction>, p: Transaction -> bool, i: nat)
    requires DistinctIds(rows) && i < |rows|
    ensures rows[i].paymentId in Image(Filter(rows, p), PaymentId()) <==> p(rows[i])
  {
    var members := Filter(rows, p);
    FilterMember(rows, p, rows[i]);
    if p(rows[i]) {
      var k :| 0 <= k < |members| && members[k] == rows[i];
      assert Image(members, PaymentId())[k] == rows[i].paymentId;
    }
    if rows[i].paymentId in Image(members, PaymentId()) {
      var k :| 0 <= k < |members| && Image(members, PaymentId())[k] == rows[i].paymentId;
      FilterMember(rows, p, members[k]);
      assert members[k] in members;
      var j :| 0 <= j < |rows| && rows[j] == members[k];
    }
  }

  /* ---- the loop ---- */

  function WithMember(group: CapturedGroup, x: Transaction): CapturedGroup {
    group.(totalMinor := group.totalMinor + x.minorUnits, txnCount := group.txnCount + 1,
           paymentIds := group.paymentIds + [x.paymentId])
  }

  function Singleton(x: Transaction): CapturedGroup {
    CapturedGroup(x.accountId, x.currency, x.minorUnits, 1, [x.paymentId])
  }

  lemma SummaryGrows(key: Key, members: seq<Transaction>, x: Transaction)
    ensures Summary(key, members + [x]) == WithMember(Summary(key, members), x)
  {
    SumAppend(members, x, MinorUnits());
    ImageAppend(members, x, PaymentId());
  }

  lemma GroupGrows(rows: seq<Transaction>, x: Transaction, start: int, end: int, key: Key)
    ensures var before, after := GroupOf(rows, key, start, end), GroupOf(rows + [x], key, start, end);
            after == if InWindow(x, start, end) && KeyOf(x) == key then WithMember(before, x) else before
  {
    var p := Member(key, start, end);
    FilterAppend(rows, x, p);
    if InWindow(x, start, end) && KeyOf(x) == key {
      SummaryGrows(key, Filter(rows, p), x);
    } else {
      assert Filter(rows + [x], p) == Filter(rows, p);
    }
  }

  lemma KeysGrow(rows: seq<Transaction>, x: Transaction, start: int, end: int)
    ensures var earlier := Keys(rows, start, end);
            Keys(rows + [x], start, end) ==
            if InWindow(x, start, end) && KeyOf(x) !in earlier then earlier + [KeyOf(x)] else earlier
  {
    assert (rows + [x])[..|rows|] == rows;
  }

  lemma {:induction false} NoMember(rows: seq<Transaction>, start: int, end: int, key: Key)
    requires key !in Keys(rows, start, end)
    ensures Filter(rows, Member(key, start, end)) == []
  {
    if rows != [] {
      NoMember(rows[..|rows| - 1], start, end, key);
    }
  }

  // The groups after one more row of a known key,
  lemma KeysKept(rows: seq<Transaction>, x: Transaction, start: int, end: int, j: nat)
    requires j < |Keys(rows, start, end)| && Keys(rows, start, end)[j] == KeyOf(x)
    ensures Keys(rows + [x], start, end) == Keys(rows, start, end)
  {
    KeysGrow(rows, x, start, end);
    assert KeyOf(x) in Keys(rows, start, end);
  }

  lemma GroupExtended(rows: seq<Transaction>, x: Transaction, start: int, end: int, j: nat, i: nat)
    requires InWindow(x, start, end)
    requires j < |Keys(rows, start, end)| && Keys(rows, start, end)[j] == KeyOf(x)
    requires i < |Groups(rows, start, end)| == |Groups(rows + [x], start, end)|
    ensures Groups(rows + [x], start, end)[i]
            == if i == j then WithMember(Groups(rows, start, end)[i], x) else Groups(rows, start, end)[i]
  {
    KeysKept(rows, x, start, end, j);
    GroupGrows(rows, x, start, end, Keys(rows, start, end)[i]);
    if i < j { KeysDistinct(rows, start, end, i, j); }
    if j < i { KeysDistinct(rows, start, end, j, i); }
  }

  lemma GroupsExtend(rows: seq<Transaction>, x: Transaction, start: int, end: int, j: nat)
    requires InWindow(x, start, end)
    requires j < |Keys(rows, start, end)| && Keys(rows, start, end)[j] == KeyOf(x)
    ensures var before := Groups(rows, start, end);
            Groups(rows + [x], start, end) == before[j := WithMember(before[j], x)]
  {
    var before, after := Groups(rows, start, end), Groups(rows + [x], start, end);
    assert |after| == |before| by {
      KeysKept(rows, x, start, end, j);
    }
    forall i | 0 <= i < |before| ensures after[i] == if i == j then WithMember(before[i], x) else before[i] {
      GroupExtended(rows, x, start, end, j, i);
    }
  }

  lemma FirstOfGroup(rows: seq<Transaction>, x: Transaction, start: int, end: int)
    requires InWindow(x, start, end) && KeyOf(x) !in Keys(rows, start, end)
    ensures GroupOf(rows + [x], KeyOf(x), start, end) == Singleton(x)
  {
    NoMember(rows, start, end, KeyOf(x));
    GroupGrows(rows, x, start, end, KeyOf(x));
  }

  // and of a new one.
  lemma GroupKept(rows: seq<Transaction>, x: Transaction, start: int, end: int, i: nat)
    requires i < |Keys(rows, start, end)| && (InWindow(x, start, end) ==> KeyOf(x) != Keys(rows, start, end)[i])
    ensures i < |Keys(rows + [x], start, end)|
    ensures Groups(rows + [x], start, end)[i] == Groups(rows, start, end)[i]
  {
    KeysGrow(rows, x, start, end);
    GroupGrows(rows, x, start, end, Keys(rows, start, end)[i]);
  }

  lemma LastGroup(rows: seq<Transaction>, x: Transaction, start: int, end: int)
    requires InWindow(x, start, end) && KeyOf(x) !in Keys(rows, start, end)
    ensures |Groups(rows + [x], start, end)| == |Groups(rows, start, end)| + 1
    ensures Groups(rows + [x], start, end)[|Groups(rows, start, end)|] == Singleton(x)
  {
    KeysGrow(rows, x, start, end);
    FirstOfGroup(rows, x, start, end);
  }

  lemma GroupsAppend(rows: seq<Transaction>, x: Transaction, start: int, end: int)
    requires InWindow(x, start, end) && KeyOf(x) !in Keys(rows, start, end)
    ensures Groups(rows + [x], start, end) == Groups(rows, start, end) + [Singleton(x)]
  {
    var before, after := Groups(rows, start, end), Groups(rows + [x], start, end);
    LastGroup(rows, x, start, end);
    forall i | 0 <= i < |before| ensures after[i] == before[i] {
      assert Keys(rows, start, end)[i] in Keys(rows, start, end);
      GroupKept(rows, x, start, end, i);
    }
  }

  // j is the place where the loop's search for the row's group ends.
  lemma GroupsStep(rows: seq<Transaction>, x: Transaction, start: int, end: int, j: nat)
    requires InWindow(x, start, end)
    requires var groups := Groups(rows, start, end);
             && j <= |groups|
             && (forall k :: 0 <= k < j ==> (groups[k].accountId, groups[k].currency) != KeyOf(x))
             && (j < |groups| ==> (groups[j].accountId, groups[j].currency) == KeyOf(x))
    ensures var groups := Groups(rows, start, end);
            Groups(rows + [x], start, end) ==
            if j < |groups| then groups[j := WithMember(groups[j], x)] else groups + [Singleton(x)]
  {
    var keys, groups := Keys(rows, start, end), Groups(rows, start, end);
    assert forall k :: 0 <= k < |keys| ==> (groups[k].accountId, groups[k].currency) == keys[k];
    if j < |groups| {
      GroupsExtend(rows, x, start, end, j);
    } else {
      GroupsAppend(rows, x, start, end);
    }
  }

  lemma GroupsSkip(rows: seq<Transaction>, x: Transaction, start: int, end: int)
    requires !InWindow(x, start, end)
    ensures Groups(rows + [x], start, end) == Groups(rows, start, end)
  {
    KeysGrow(rows, x, start, end);
    forall i | 0 <= i < |Keys(rows, start, end)|
      ensures Groups(rows + [x], start, end)[i] == Groups(rows, start, end)[i]
    {
      GroupGrows(rows, x, start, end, Keys(rows, start, end)[i]);
    }
  }

  method Search(groups: seq<CapturedGroup>, key: Key) returns (j: nat)
    ensures j <= |groups|
    ensures forall k :: 0 <= k < j ==> (groups[k].accountId, groups[k].currency) != key
    ensures j < |groups| ==> (groups[j].accountId, groups[j].currency) == key
  {
    j := 0;
    while j < |groups| && (groups[j].accountId, groups[j].currency) != key
      invariant j <= |groups|
      invariant forall k :: 0 <= k < j ==> (groups[k].accountId, groups[k].currency) != key
    {
      j := j + 1;
    }
  }

  /** One pass over the table, keeping the groups found so far. */
  method Aggregate(rows: seq<Transaction>, start: int, end: int) returns (groups: seq<CapturedGroup>)
    ensures groups == Groups(rows, start, end)
  {
    groups := [];
    for i := 0 to |rows|
      invariant groups == Groups(rows[..i], start, end)
    {
      var x := rows[i];
      assert rows[..i + 1] == rows[..i] + [x];
      if InWindow(x, start, end) {
        var j := Search(groups, KeyOf(x));
        GroupsStep(rows[..i], x, start, end, j);
        if j < |groups| {
          groups := groups[j := WithMember(groups[j], x)];
        } else {
          groups := groups + [Singleton(x)];
        }
      } else {
        GroupsSkip(rows[..i], x, start, end);
      }
    }
    assert rows[..|rows|] == rows;
  }

  // SUM(bigint) is a NUMERIC; scanning it into an int64 fails when it does not fit.
  predicate Scannable(groups: seq<CapturedGroup>) {
    forall i :: 0 <= i < |groups| ==> IsInt64(groups[i].totalMinor)
  }
}
