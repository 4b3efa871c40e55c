/** The idempotency key of a submission and its claim in Redis. */
module Idempotency {
  import opened Domain
  import opened Amount

  function SourceName(source: Source): string {
    match source
    case CARD => "CARD"
    case UPI => "UPI"
    case BANK_TRANSFER => "BANK_TRANSFER"
    case WALLET => "WALLET"
  }

  // The hashed text: "%s|%s|%s|%d|%s".
  function Preimage(t: Transaction): string {
    SourceName(t.source)
    + ("|" + (t.externalTxnId + ("|" + (t.accountId + ("|" + (Decimal(t.minorUnits) + ("|" + t.currency)))))))
  }

  /** The client's key if there is one, else "derived:" and the hash of the identifying fields. */
  function DeriveKey(t: Transaction, hash: string -> string): string {
    if t.idempotencyKey != "" then t.idempotencyKey else "derived:" + hash(Preimage(t))
  }

  ghost predicate CollisionFree(hash: string -> string) {
    forall a, b :: hash(a) == hash(b) ==> a == b
  }

  lemma FirstBar(a: string, b: string, c: string, d: string)
    requires a + ("|" + b) == c + ("|" + d) && !Contains(a, '|') && !Contains(c, '|')
    ensures a == c && b == d
  {
    var s := a + ("|" + b);
    assert s == c + ("|" + d);
    assert s[|a|] == '|' && s[|c|] == '|';
    assert forall i :: 0 <= i < |c| ==> s[i] == c[i] != '|';
    assert forall i :: 0 <= i < |a| ==> s[i] == a[i] != '|';
    assert s[..|a|] == a && s[..|a|] == c;
    assert s[|a| + 1..] == b && s[|a| + 1..] == d;
  }

  lemma SourceNamesDiffer(a: Source, b: Source)
    ensures !Contains(SourceName(a), '|')
    ensures SourceName(a) == SourceName(b) ==> a == b
  {
    var s, t := SourceName(a), SourceName(b);
    assert s[0] == t[0] ==> a == b || |s| != |t|;
  }

  lemma DecimalInjective(x: int, y: int)
    requires Decimal(x) == Decimal(y)
    ensures x == y
  {
    DecimalShape(x);
    DecimalShape(y);
    var n: nat, m: nat := if x < 0 then -x else x, if y < 0 then -y else y;
    assert Decimal(x)[if x < 0 then 1 else 0..] == Digits(n);
    assert Decimal(y)[if y < 0 then 1 else 0..] == Digits(m);
    DigitsRoundTrip(n);
    DigitsRoundTrip(m);
  }

  ghost predicate SamePayment(t: Transaction, u: Transaction) {
    t.source == u.source && t.externalTxnId == u.externalTxnId && t.accountId == u.accountId
    && t.minorUnits == u.minorUnits && t.currency == u.currency
  }

  predicate BarFree(t: Transaction) {
    !Contains(t.externalTxnId, '|') && !Contains(t.accountId, '|')
  }

  /** The hashed text determines the five fields, when the free-text ones contain no '|'. */
  lemma PreimageInjective(t: Transaction, u: Transaction)
    requires BarFree(t) && BarFree(u) && Preimage(t) == Preimage(u)
    ensures SamePayment(t, u)
  {
    var t3, u3 := Decimal(t.minorUnits) + ("|" + t.currency), Decimal(u.minorUnits) + ("|" + u.currency);
    var t2, u2 := t.accountId + ("|" + t3), u.accountId + ("|" + u3);
    var t1, u1 := t.externalTxnId + ("|" + t2), u.externalTxnId + ("|" + u2);
    SourceNamesDiffer(t.source, u.source);
    SourceNamesDiffer(u.source, t.source);
    FirstBar(SourceName(t.source), t1, SourceName(u.source), u1);
    FirstBar(t.externalTxnId, t2, u.externalTxnId, u2);
    FirstBar(t.accountId, t3, u.accountId, u3);
    DecimalShape(t.minorUnits);
    DecimalShape(u.minorUnits);
    FirstBar(Decimal(t.minorUnits), t.currency, Decimal(u.minorUnits), u.currency);
    DecimalInjective(t.minorUnits, u.minorUnits);
  }

  /** Two submissions without '|' share a key exactly when both bring the same client key, neither
      brings one and they are the same payment, or a client key spells out the other's derived key. */
  lemma SameKeyExactlyWhen(t: Transaction, u: Transaction, hash: string -> string)
    requires BarFree(t) && BarFree(u) && CollisionFree(hash)
    ensures DeriveKey(t, hash) == DeriveKey(u, hash) <==>
            || (t.idempotencyKey != "" && t.idempotencyKey == u.idempotencyKey)
            || (t.idempotencyKey == "" && u.idempotencyKey == "" && SamePayment(t, u))
            || (t.idempotencyKey == "" && u.idempotencyKey != "" && u.idempotencyKey == "derived:" + hash(Preimage(t)))
            || (t.idempotencyKey != "" && u.idempotencyKey == "" && t.idempotencyKey == "derived:" + hash(Preimage(u)))
  {
    if t.idempotencyKey == "" && u.idempotencyKey == "" {
      var a, b := hash(Preimage(t)), hash(Preimage(u));
      assert ("derived:" + a)[8..] == a && ("derived:" + b)[8..] == b;
      if a == b {
        PreimageInjective(t, u);
      }
    }
  }

  /** With '|' in a field two different payments hash the same text. */
  lemma BarsCollide(t: Transaction, x: string, y: string, z: string)
    ensures var a := t.(externalTxnId := x + ("|" + y), accountId := z);
            var b := t.(externalTxnId := x, accountId := y + ("|" + z));
            Preimage(a) == Preimage(b)
  {
    var tail := "|" + (Decimal(t.minorUnits) + ("|" + t.currency));
    assert (x + ("|" + y)) + ("|" + (z + tail)) == x + ("|" + ((y + ("|" + z)) + tail));
  }

  function Bars(s: string): nat {
    if s == "" then 0 else Bars(s[..|s| - 1]) + if s[|s| - 1] == '|' then 1 else 0
  }

  lemma {:induction false} BarsAppend(a: string, b: string)
    ensures Bars(a + b) == Bars(a) + Bars(b)
  {
    if b == "" {
      assert a + b == a;
    } else {
      assert (a + b)[..|a + b| - 1] == a + b[..|b| - 1];
      BarsAppend(a, b[..|b| - 1]);
    }
  }

  lemma {:induction false} NoBars(s: string)
    ensures Bars(s) == 0 <==> !Contains(s, '|')
  {
    if s != "" {
      var init := s[..|s| - 1];
      NoBars(init);
      assert forall i :: 0 <= i < |init| ==> init[i] == s[i];
      if Contains(s, '|') && !Contains(init, '|') {
        assert s[|s| - 1] == '|';
      }
    }
  }

  lemma BarAndMore(s: string)
    ensures Bars("|" + s) == 1 + Bars(s)
  {
    BarsAppend("|", s);
    assert "|"[..0] == "";
  }

  lemma PreimageBars(t: Transaction)
    ensures Bars(Preimage(t)) == 4 + Bars(t.externalTxnId) + Bars(t.accountId) + Bars(t.currency)
  {
    var d := Decimal(t.minorUnits);
    var t4 := "|" + t.currency;
    var t3 := "|" + (d + t4);
    var t2 := "|" + (t.accountId + t3);
    BarAndMore(t.currency);
    BarsAppend(d, t4);
    BarAndMore(d + t4);
    BarsAppend(t.accountId, t3);
    BarAndMore(t.accountId + t3);
    BarsAppend(t.externalTxnId, t2);
    BarAndMore(t.externalTxnId + t2);
    BarsAppend(SourceName(t.source), "|" + (t.externalTxnId + t2));
    DecimalShape(t.minorUnits);
    NoBars(d);
    SourceNamesDiffer(t.source, t.source);
    NoBars(SourceName(t.source));
  }

  lemma SplitAtBar(s: string) returns (x: string, y: string)
    requires Contains(s, '|')
    ensures s == x + ("|" + y)
  {
    var i :| 0 <= i < |s| && s[i] == '|';
    x, y := s[..i], s[i + 1..];
  }

  // With a bar in the external id or the account there is another payment of the same text.
  lemma AnotherOfThatText(t: Transaction) returns (u: Transaction)
    requires !BarFree(t)
    ensures u.currency == t.currency && Preimage(u) == Preimage(t) && !SamePayment(t, u)
  {
    if Contains(t.externalTxnId, '|') {
      var x, y := SplitAtBar(t.externalTxnId);
      u := t.(externalTxnId := x, accountId := y + ("|" + t.accountId));
      BarsCollide(t, x, y, t.accountId);
      assert t.(externalTxnId := x + ("|" + y), accountId := t.accountId) == t;
      assert |u.externalTxnId| < |t.externalTxnId|;
    } else {
      var y, z := SplitAtBar(t.accountId);
      u := t.(externalTxnId := t.externalTxnId + ("|" + y), accountId := z);
      BarsCollide(t, t.externalTxnId, y, z);
      assert t.(externalTxnId := t.externalTxnId, accountId := y + ("|" + z)) == t;
      assert |u.externalTxnId| > |t.externalTxnId|;
    }
  }

  ghost predicate AloneWithItsText(t: Transaction) {
    forall u: Transaction :: !Contains(u.currency, '|') && Preimage(u) == Preimage(t) ==> SamePayment(t, u)
  }

  /** When exactly the hashed text identifies a payment: among payments with bar-free currencies, if and
      only if neither its external id nor its account contains a bar. */
  lemma IdentifiedExactlyWhen(t: Transaction)
    requires !Contains(t.currency, '|')
    ensures AloneWithItsText(t) <==> BarFree(t)
  {
    if BarFree(t) {
      forall u: Transaction | !Contains(u.currency, '|') && Preimage(u) == Preimage(t) ensures SamePayment(t, u) {
        PreimageBars(t);
        PreimageBars(u);
        NoBars(t.externalTxnId);
        NoBars(t.accountId);
        NoBars(t.currency);
        NoBars(u.currency);
        NoBars(u.externalTxnId);
        NoBars(u.accountId);
        PreimageInjective(t, u);
      }
    } else {
      var u := AnotherOfThatText(t);
    }
  }

  /** SetUnseen: the key is set, if it was free, and an error is returned all the same. */
  datatype ClaimFault = NoFault | SetFails | SetUnseen | GetFails

  datatype ClaimResult = Claimed | Existing(paymentId: string) | ClaimError

  class Redis {
    var keys: map<string, string>

    constructor ()
      ensures keys == map[]
    {
      keys := map[];
    }

    /** SET key paymentId NX, then GET; `expires` is a key whose time runs out between the two. */
    method Claim(key: string, paymentId: string, fault: ClaimFault, expires: bool) returns (result: ClaimResult)
      modifies this
      ensures result == ClaimReply(old(keys), key, fault, expires)
      ensures keys == AfterClaim(old(keys), key, paymentId, fault, expires)
    {
      if fault == SetFails {
        return ClaimError;
      }
      if key !in keys {
        keys := keys[key := paymentId];
        return if fault == SetUnseen then ClaimError else Claimed;
      }
      if fault == SetUnseen {
        return ClaimError;
      }
      if expires {
        keys := keys - {key};
      }
      if fault == GetFails || key !in keys {
        return ClaimError;
      }
      return Existing(keys[key]);
    }
  }

  /** Claimed if the key was free and the reply arrives; otherwise the earlier id, if it can be read. */
  function ClaimReply(keys: map<string, string>, key: string, fault: ClaimFault, expires: bool): ClaimResult {
    if fault in {SetFails, SetUnseen} then ClaimError
    else if key !in keys then Claimed
    else if fault == GetFails || expires then ClaimError
    else Existing(keys[key])
  }

  function AfterClaim(keys: map<string, string>, key: string, paymentId: string, fault: ClaimFault, expires: bool):
    map<string, string>
  {
    if fault == SetFails then keys
    else if key !in keys then keys[key := paymentId]
    else if fault != SetUnseen && expires then keys - {key}
    else keys
  }

  /** Of two claims of one key, without its expiry between them, at most one wins, and a reader is told
      the id of the claim that set the key. */
  lemma OneClaimWins(keys: map<string, string>, key: string, id1: string, f1: ClaimFault, id2: string, f2: ClaimFault,
                     expires: bool)
    requires f1 != SetFails
    ensures var keys1 := AfterClaim(keys, key, id1, f1, false);
            && key in keys1 && ClaimReply(keys1, key, f2, expires) != Claimed
            && (ClaimReply(keys1, key, f2, expires).Existing? ==>
                  ClaimReply(keys1, key, f2, expires) == Existing(if key in keys then keys[key] else id1))
  {}

  /** A key that is set and readable is answered with its id; every other reply for a set key is an error. */
  lemma SetKeyIsRead(keys: map<string, string>, key: string, fault: ClaimFault, expires: bool)
    requires key in keys
    ensures ClaimReply(keys, key, fault, expires)
            == if fault == NoFault && !expires then Existing(keys[key]) else ClaimError
  {}

  /** The hashed text of a payment of 25 dollars, written out. */
  lemma PreimageExample(t: Transaction)
    requires t.minorUnits == 2500 && t.currency == "USD"
    ensures Preimage(t) ==
            (match t.source case CARD => "CARD" case UPI => "UPI" case BANK_TRANSFER => "BANK_TRANSFER"
                            case WALLET => "WALLET")
            + ("|" + t.externalTxnId + "|" + t.accountId + "|2500|USD")
  {
    assert Digits(2500) == "2500" by {
      assert Digits(25) == "25";
      assert Digits(250) == "250";
    }
    var tail := "|2500|USD";
    assert Decimal(2500) + ("|" + "USD") == "2500|USD";
    assert "|" + (t.externalTxnId + ("|" + (t.accountId + tail)))
           == "|" + t.externalTxnId + "|" + t.accountId + "|2500|USD";
  }
}
