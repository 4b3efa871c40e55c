/** The intake: raw payload, normalizers and SubmitPayment, which claims the idempotency key, validates
    and stores. */
module Intake {
  import opened Domain
  import opened Amount
  import opened Idempotency
  import opened Schema
  import opened Store
  import Pipeline

  type Minor = x: int | IsInt64(x)
  type UInt32 = x: int | 0 <= x < 0x1_0000_0000

  datatype Money = Money(minorUnits: Minor, currency: string)

  /** `source` is None for a value of the enumeration that the server does not know. */
  datatype Request = Request(
    idempotencyKey: string, source: Option<Source>, externalTxnId: string, accountId: string,
    amount: Option<Money>, metadata: map<string, string>, schemaVersion: UInt32)

  type RawFields = map<string, string>

  datatype Normalized = Normal(txn: Transaction) | BadAmount(error: ParseError)

  /* ---- normalizers ---- */

  datatype Normalizer = CardNormalizer | UPINormalizer

  // Go's map lookup: a missing key reads as "".
  function Field(raw: RawFields, key: string): string {
    if key in raw then raw[key] else ""
  }

  // `state` and `createdAt` are overwritten before the payment is stored.
  function Normalize(n: Normalizer, raw: RawFields): Normalized {
    var amount := ParseAmount(Field(raw, "amount"));
    if amount.Invalid? then BadAmount(amount.error)
    else
      Normal(Transaction(
        Field(raw, "payment_id"), Field(raw, "idempotency_key"), if n.CardNormalizer? then CARD else UPI,
        Field(raw, if n.CardNormalizer? then "external_txn_id" else "upi_trx_id"),
        Field(raw, "account_id"), amount.minorUnits, Field(raw, "currency"), RECEIVED, 0))
  }

  // The conversion of a uint32 to an int32.
  function ToInt32(x: UInt32): int {
    if x < 0x8000_0000 then x else x - 0x1_0000_0000
  }

  function HandlerKey(source: string, schemaVersion: int): string {
    source + ":" + Decimal(schemaVersion)
  }

  class Registry {
    var handlers: map<string, Normalizer>

    constructor ()
      ensures handlers == map[]
    {
      handlers := map[];
    }

    method Register(source: string, schemaVersion: int, normalizer: Normalizer)
      modifies this
      ensures handlers == old(handlers)[HandlerKey(source, schemaVersion) := normalizer]
    {
      handlers := handlers[HandlerKey(source, schemaVersion) := normalizer];
    }

    method Get(source: string, schemaVersion: int) returns (normalizer: Option<Normalizer>)
      ensures normalizer == Handler(handlers, source, schemaVersion)
    {
      var key := HandlerKey(source, schemaVersion);
      normalizer := if key in handlers then Some(handlers[key]) else None;
    }
  }

  function Handler(handlers: map<string, Normalizer>, source: string, schemaVersion: int): Option<Normalizer> {
    var key := HandlerKey(source, schemaVersion);
    if key in handlers then Some(handlers[key]) else None
  }

  lemma SourceNamesPlain(a: Source, i: nat)
    requires i < |SourceName(a)|
    ensures SourceName(a)[i] != ':'
  {}

  lemma FirstColon(a: Source, s: string, b: Source, t: string)
    requires SourceName(a) + ":" + s == SourceName(b) + ":" + t
    ensures SourceName(a) == SourceName(b) && s == t
  {
    var x, y := SourceName(a), SourceName(b);
    var whole := x + ":" + s;
    assert whole[|x|] == ':' && whole[|y|] == ':';
    if |x| < |y| {
      assert whole[|x|] == y[|x|];
      SourceNamesPlain(b, |x|);
    }
    if |y| < |x| {
      assert whole[|y|] == x[|y|];
      SourceNamesPlain(a, |y|);
    }
    assert whole[..|x|] == x && whole[..|y|] == y;
    assert whole[|x| + 1..] == s && whole[|y| + 1..] == t;
  }

  /** A registration is found again, and hides no other source or version. */
  lemma RegisteredIsFound(handlers: map<string, Normalizer>, source: Source, version: int, n: Normalizer,
                          other: Source, otherVersion: int)
    ensures var handlers' := handlers[HandlerKey(SourceName(source), version) := n];
            Handler(handlers', SourceName(other), otherVersion) ==
            if other == source && otherVersion == version then Some(n)
            else Handler(handlers, SourceName(other), otherVersion)
  {
    var key, key' := HandlerKey(SourceName(source), version), HandlerKey(SourceName(other), otherVersion);
    if key == key' {
      FirstColon(source, Decimal(version), other, Decimal(otherVersion));
      SourceNamesDiffer(source, other);
      DecimalInjective(version, otherVersion);
    }
  }

  /* ---- the raw payload ---- */

  function BaseFields(req: Request, paymentId: string): RawFields {
    var base := map["payment_id" := paymentId, "idempotency_key" := req.idempotencyKey,
                    "account_id" := req.accountId, "external_txn_id" := req.externalTxnId,
                    "currency" := if req.amount.Some? then req.amount.value.currency else "",
                    "state" := "RECEIVED"];
    if req.amount.Some? then base["amount" := FormatAmount(req.amount.value.minorUnits)] else base
  }

  /** The request's metadata overrides the fields of the same name. */
  function Raw(req: Request, paymentId: string): RawFields {
    BaseFields(req, paymentId) + req.metadata
  }

  method Override<K(==), V>(base: map<K, V>, metadata: map<K, V>) returns (raw: map<K, V>)
    ensures raw == base + metadata
  {
    raw := base;
    var keys := metadata.Keys;
    while keys != {}
      invariant keys <= metadata.Keys
      invariant forall k :: k in raw <==> k in base || (k in metadata && k !in keys)
      invariant forall k :: k in raw ==> raw[k] == if k in metadata && k !in keys then metadata[k] else base[k]
      decreases |keys|
    {
      var key :| key in keys;
      raw := raw[key := metadata[key]];
      keys := keys - {key};
    }
  }

  const RESERVED: set<string> :=
    {"payment_id", "idempotency_key", "account_id", "external_txn_id", "currency", "state", "amount"}

  function NormalizedBy(handlers: map<string, Normalizer>, req: Request, paymentId: string): Option<Normalized> {
    if req.source.None? then None
    else
      var n := Handler(handlers, SourceName(req.source.value), ToInt32(req.schemaVersion));
      if n.None? then None else Some(Normalize(n.value, Raw(req, paymentId)))
  }

  lemma BaseKept(req: Request, paymentId: string, key: string)
    requires req.metadata.Keys !! RESERVED && key in RESERVED
    ensures Field(Raw(req, paymentId), key) == Field(BaseFields(req, paymentId), key)
  {
    assert key !in req.metadata.Keys;
  }

  lemma FieldsSurvive(req: Request, paymentId: string)
    requires req.amount.Some? && req.metadata.Keys !! RESERVED
    ensures var raw := Raw(req, paymentId);
            && Field(raw, "payment_id") == paymentId && Field(raw, "idempotency_key") == req.idempotencyKey
            && Field(raw, "account_id") == req.accountId && Field(raw, "external_txn_id") == req.externalTxnId
            && Field(raw, "currency") == req.amount.value.currency
            && Field(raw, "amount") == FormatAmount(req.amount.value.minorUnits)
  {
    BaseKept(req, paymentId, "payment_id");
    BaseKept(req, paymentId, "idempotency_key");
    BaseKept(req, paymentId, "account_id");
    BaseKept(req, paymentId, "external_txn_id");
    BaseKept(req, paymentId, "currency");
    BaseKept(req, paymentId, "amount");
  }

  lemma TrxIdSurvives(req: Request, paymentId: string)
    ensures Field(Raw(req, paymentId), "upi_trx_id") == Field(req.metadata, "upi_trx_id")
  {}

  lemma ReadBack(n: Normalizer, raw: RawFields, minorUnits: int)
    requires ParseAmount(Field(raw, "amount")) == Value(minorUnits)
    ensures Normalize(n, raw) ==
            Normal(Transaction(Field(raw, "payment_id"), Field(raw, "idempotency_key"),
                               if n.CardNormalizer? then CARD else UPI,
                               Field(raw, if n.CardNormalizer? then "external_txn_id" else "upi_trx_id"),
                               Field(raw, "account_id"), minorUnits, Field(raw, "currency"), RECEIVED, 0))
  {}

  /** What the caller sent is what is normalized: unless metadata reuses a reserved key, every field
      arrives unchanged, the amount through printing and parsing, for all 64-bit amounts. Only a UPI
      payment's external id is taken from its metadata instead. */
  lemma RequestSurvives(n: Normalizer, req: Request, paymentId: string)
    requires req.amount.Some? && req.metadata.Keys !! RESERVED
    ensures Normalize(n, Raw(req, paymentId)) ==
            Normal(Transaction(paymentId, req.idempotencyKey, if n.CardNormalizer? then CARD else UPI,
                               if n.CardNormalizer? then req.externalTxnId else Field(req.metadata, "upi_trx_id"),
                               req.accountId, req.amount.value.minorUnits, req.amount.value.currency, RECEIVED, 0))
  {
    RoundTrip(req.amount.value.minorUnits);
    FieldsSurvive(req, paymentId);
    TrxIdSurvives(req, paymentId);
    ReadBack(n, Raw(req, paymentId), req.amount.value.minorUnits);
  }

  /** A UPI payment is identified by what its metadata names: two of them without client keys share an
      idempotency key exactly when account, amount, currency and "upi_trx_id" agree, whatever external
      ids the two requests carry. */
  lemma UPIKeys(a: Request, b: Request, idA: string, idB: string, hash: string -> string)
    requires a.amount.Some? && b.amount.Some? && a.metadata.Keys !! RESERVED && b.metadata.Keys !! RESERVED
    requires a.idempotencyKey == "" && b.idempotencyKey == "" && CollisionFree(hash)
    requires !Contains(Field(a.metadata, "upi_trx_id"), '|') && !Contains(Field(b.metadata, "upi_trx_id"), '|')
    requires !Contains(a.accountId, '|') && !Contains(b.accountId, '|')
    ensures Normalize(UPINormalizer, Raw(a, idA)).Normal? && Normalize(UPINormalizer, Raw(b, idB)).Normal?
    ensures var t, u := Normalize(UPINormalizer, Raw(a, idA)).txn, Normalize(UPINormalizer, Raw(b, idB)).txn;
            DeriveKey(t, hash) == DeriveKey(u, hash)
            <==> a.accountId == b.accountId && a.amount == b.amount
                 && Field(a.metadata, "upi_trx_id") == Field(b.metadata, "upi_trx_id")
  {
    RequestSurvives(UPINormalizer, a, idA);
    RequestSurvives(UPINormalizer, b, idB);
    var t, u := Normalize(UPINormalizer, Raw(a, idA)).txn, Normalize(UPINormalizer, Raw(b, idB)).txn;
    SameKeyExactlyWhen(t, u, hash);
  }

  /* ---- SubmitPayment ---- */

  datatype SubmitEnv = SubmitEnv(
    paymentId: string, now: int, claim: ClaimFault, expires: bool, rejects: bool, dies: bool, save: SaveFault)

  datatype SubmitResult =
    | Accepted(paymentId: string)
    | Deduplicated(existingId: string)
    | NotConfigured
    | UnsupportedSource
    | NoNormalizer
    | InvalidAmount(error: ParseError)
    | ClaimFailed
    | ValidationFailed
    | SaveFailed
    | Died

  // The transaction a request is normalized to, if it is.
  function Submitted(handlers: map<string, Normalizer>, req: Request, paymentId: string): Option<Transaction> {
    var n := NormalizedBy(handlers, req, paymentId);
    if n.Some? && n.value.Normal? then Some(n.value.txn) else None
  }

  /** What becomes of a normalized transaction: the reply, */
  function ClaimAndStore(hash: string -> string, keys: map<string, string>, t: Tables, txn: Transaction,
                         env: SubmitEnv): SubmitResult
  {
    match ClaimReply(keys, DeriveKey(txn, hash), env.claim, env.expires)
    case ClaimError => ClaimFailed
    case Existing(id) => Deduplicated(id)
    case Claimed =>
      if env.rejects then ValidationFailed
      else if env.dies then Died
      else if env.save in {SaveFault.NoFault, CommitFails} && Insertable(t, Pipeline.ToStore(txn, env.now))
      then Accepted(txn.paymentId)
      else SaveFailed
  }

  /** Redis: the claim stays whatever happens after it, */
  function KeysAfter(hash: string -> string, keys: map<string, string>, txn: Transaction, env: SubmitEnv):
    map<string, string>
  {
    AfterClaim(keys, DeriveKey(txn, hash), txn.paymentId, env.claim, env.expires)
  }

  /** and the tables: only an accepted submission stores anything, if its COMMIT succeeds. */
  function TablesAfter(hash: string -> string, keys: map<string, string>, t: Tables, txn: Transaction,
                       env: SubmitEnv): Tables
  {
    if ClaimAndStore(hash, keys, t, txn, env).Accepted? && env.save != CommitFails
    then Saved(t, Pipeline.ToStore(txn, env.now)) else t
  }

  function SubmitReply(handlers: map<string, Normalizer>, hash: string -> string, keys: map<string, string>, t: Tables,
                       req: Request, env: SubmitEnv): SubmitResult
  {
    var n := NormalizedBy(handlers, req, env.paymentId);
    if req.source.None? then UnsupportedSource
    else if n.None? then NoNormalizer
    else if n.value.BadAmount? then InvalidAmount(n.value.error)
    else ClaimAndStore(hash, keys, t, n.value.txn, env)
  }

  function AfterSubmitKeys(handlers: map<string, Normalizer>, hash: string -> string, keys: map<string, string>,
                           req: Request, env: SubmitEnv): map<string, string>
  {
    var txn := Submitted(handlers, req, env.paymentId);
    if txn.None? then keys else KeysAfter(hash, keys, txn.value, env)
  }

  function AfterSubmitTables(handlers: map<string, Normalizer>, hash: string -> string, keys: map<string, string>,
                             t: Tables, req: Request, env: SubmitEnv): Tables
  {
    var txn := Submitted(handlers, req, env.paymentId);
    if txn.None? then t else TablesAfter(hash, keys, t, txn.value, env)
  }

  class Server {
    const normalizers: Registry?
    const store: PgStore?
    const idem: Redis?
    const hash: string -> string

    constructor (normalizers: Registry?, store: PgStore?, idem: Redis?, hash: string -> string)
      ensures this.normalizers == normalizers && this.store == store && this.idem == idem && this.hash == hash
    {
      this.normalizers, this.store, this.idem, this.hash := normalizers, store, idem, hash;
    }

    method SubmitPayment(req: Request, env: SubmitEnv) returns (result: SubmitResult)
      modifies if store != null then {store.db} else {}, if idem != null then {idem} else {}
      ensures normalizers == null || store == null || idem == null ==>
        && result == NotConfigured
        && (store != null ==> store.db.Snapshot() == old(store.db.Snapshot()))
        && (idem != null ==> idem.keys == old(idem.keys))
      ensures normalizers != null && store != null && idem != null ==>
        var handlers, keys, t := old(normalizers.handlers), old(idem.keys), old(store.db.Snapshot());
        && result == SubmitReply(handlers, hash, keys, t, req, env)
        && idem.keys == AfterSubmitKeys(handlers, hash, keys, req, env)
        && store.db.Snapshot() == AfterSubmitTables(handlers, hash, keys, t, req, env)
    {
      if normalizers == null || store == null || idem == null {
        return NotConfigured;
      }
      var raw := Override(BaseFields(req, env.paymentId), req.metadata);
      if req.source.None? {
        return UnsupportedSource;
      }
      var normalizer := normalizers.Get(SourceName(req.source.value), ToInt32(req.schemaVersion));
      if normalizer.None? {
        return NoNormalizer;
      }
      var normalized := Normalize(normalizer.value, raw);
      if normalized.BadAmount? {
        return InvalidAmount(normalized.error);
      }
      result := ClaimValidateSave(store, idem, normalized.txn, env);
    }

    /** The claim, the validation and the transaction with the outbox row. */
    method ClaimValidateSave(store: PgStore, idem: Redis, txn: Transaction, env: SubmitEnv)
      returns (result: SubmitResult)
      modifies store.db, idem
      ensures result == ClaimAndStore(hash, old(idem.keys), old(store.db.Snapshot()), txn, env)
      ensures idem.keys == KeysAfter(hash, old(idem.keys), txn, env)
      ensures store.db.Snapshot() == TablesAfter(hash, old(idem.keys), old(store.db.Snapshot()), txn, env)
    {
      var claim := idem.Claim(DeriveKey(txn, hash), txn.paymentId, env.claim, env.expires);
      if claim == ClaimError {
        return ClaimFailed;
      }
      if claim.Existing? {
        return Deduplicated(claim.paymentId);
      }
      if env.rejects {
        return ValidationFailed;
      }
      if env.dies {
        return Died;
      }
      var transaction := txn.(state := VALIDATED, createdAt := env.now);
      var saved := store.SaveWithOutbox(transaction, env.save);
      return if saved == NoError then Accepted(transaction.paymentId) else SaveFailed;
    }
  }

  /* ---- SubmitPayment as steps of the system ---- */

  /** The intake steps, each enabled when its turn comes, lead from s to s'. */
  ghost predicate Lead(env: Pipeline.Env, actions: seq<Pipeline.IntakeAction>, s: Pipeline.System,
                       s': Pipeline.System)
  {
    if actions == [] then s' == s
    else
      Pipeline.IntakeEnabled(s, actions[0])
      && Lead(env, actions[1..], Pipeline.IntakeStep(env, s, actions[0]), s')
  }

  lemma OneStep(env: Pipeline.Env, a: Pipeline.IntakeAction, s: Pipeline.System)
    requires Pipeline.IntakeEnabled(s, a)
    ensures Lead(env, [a], s, Pipeline.IntakeStep(env, s, a))
  {
    assert [a][1..] == [];
  }

  lemma TwoSteps(env: Pipeline.Env, a: Pipeline.IntakeAction, b: Pipeline.IntakeAction, s: Pipeline.System)
    requires Pipeline.IntakeEnabled(s, a) && Pipeline.IntakeEnabled(Pipeline.IntakeStep(env, s, a), b)
    ensures Lead(env, [a, b], s, Pipeline.IntakeStep(env, Pipeline.IntakeStep(env, s, a), b))
  {
    assert [a, b][1..] == [b];
    OneStep(env, b, Pipeline.IntakeStep(env, s, a));
  }

  // What the caller of SubmitPayment is told, if anything.
  function Replies(txn: Transaction, claim: string, result: SubmitResult): seq<Pipeline.Ack> {
    match result
    case Accepted(id) => [Pipeline.Ack(id, txn.idempotencyKey, claim, false)]
    case Deduplicated(id) => [Pipeline.Ack(id, txn.idempotencyKey, claim, true)]
    case _ => []
  }

  lemma ClaimThenEnd(env: Pipeline.Env, s: Pipeline.System, request: nat, txn: Transaction, e: SubmitEnv,
                     accepted: bool)
    returns (actions: seq<Pipeline.IntakeAction>)
    requires request !in s.submits && DeriveKey(txn, env.hash) !in s.redis
    requires accepted ==> Insertable(s.db, txn)
    ensures Lead(env, actions, s,
                 s.(redis := s.redis[DeriveKey(txn, env.hash) := txn.paymentId],
                    db := if accepted then Saved(s.db, Pipeline.ToStore(txn, e.now)) else s.db,
                    acks := s.acks + Replies(txn, DeriveKey(txn, env.hash),
                                             if accepted then Accepted(txn.paymentId) else SaveFailed)))
    ensures |actions| <= 2
  {
    var claim := Pipeline.Claim(request, txn);
    var end := if accepted then Pipeline.IntakeAction.Store(request, e.now, true) else Pipeline.Abandon(request);
    TwoSteps(env, claim, end, s);
    assert s.submits[request := txn] - {request} == s.submits;
    actions := [claim, end];
  }

  // The part of a submission that reads a key already set.
  lemma ReadsKey(env: Pipeline.Env, s: Pipeline.System, request: nat, txn: Transaction, e: SubmitEnv)
    returns (actions: seq<Pipeline.IntakeAction>)
    requires request !in s.submits
    requires var key := DeriveKey(txn, env.hash); e.claim == SetFails || key in s.redis
    ensures var key := DeriveKey(txn, env.hash);
            Lead(env, actions, s,
                 s.(redis := AfterClaim(s.redis, key, txn.paymentId, e.claim, e.expires),
                    acks := s.acks + match ClaimReply(s.redis, key, e.claim, e.expires)
                                     case Existing(id) => [Pipeline.Ack(id, txn.idempotencyKey, key, true)]
                                     case _ => []))
    ensures |actions| <= 2
  {
    var key := DeriveKey(txn, env.hash);
    if e.claim !in {SetFails, SetUnseen} && e.expires {
      OneStep(env, Pipeline.Expire(key), s);
      actions := [Pipeline.Expire(key)];
    } else if ClaimReply(s.redis, key, e.claim, e.expires).Existing? {
      OneStep(env, Pipeline.Claim(request, txn), s);
      actions := [Pipeline.Claim(request, txn)];
    } else {
      actions := [];
    }
  }

  lemma ClaimAndStoreIsSteps(env: Pipeline.Env, s: Pipeline.System, request: nat, txn: Transaction, e: SubmitEnv)
    returns (actions: seq<Pipeline.IntakeAction>)
    requires request !in s.submits && e.save != CommitFails
    ensures Lead(env, actions, s,
                 s.(redis := KeysAfter(env.hash, s.redis, txn, e),
                    db := TablesAfter(env.hash, s.redis, s.db, txn, e),
                    acks := s.acks + Replies(txn, DeriveKey(txn, env.hash),
                                             ClaimAndStore(env.hash, s.redis, s.db, txn, e))))
    ensures |actions| <= 2
  {
    if e.claim != SetFails && DeriveKey(txn, env.hash) !in s.redis {
      actions := ClaimThenEnd(env, s, request, txn, e, ClaimAndStore(env.hash, s.redis, s.db, txn, e).Accepted?);
    } else {
      actions := ReadsKey(env, s, request, txn, e);
    }
  }

  /** Every call of SubmitPayment, whatever fails in it but a COMMIT that is reached, is a sequence of steps of
      the system: its effect on Redis and the tables and its reply are those of at most two of them, and
      of none if the request cannot be normalized. */
  lemma SubmitIsSteps(handlers: map<string, Normalizer>, env: Pipeline.Env, s: Pipeline.System, request: nat,
                      req: Request, e: SubmitEnv) returns (actions: seq<Pipeline.IntakeAction>)
    requires request !in s.submits && e.save != CommitFails
    ensures var txn := Submitted(handlers, req, e.paymentId);
            Lead(env, actions, s,
                 s.(redis := AfterSubmitKeys(handlers, env.hash, s.redis, req, e),
                    db := AfterSubmitTables(handlers, env.hash, s.redis, s.db, req, e),
                    acks := s.acks + if txn.None? then []
                                     else Replies(txn.value, DeriveKey(txn.value, env.hash),
                                                  SubmitReply(handlers, env.hash, s.redis, s.db, req, e))))
    ensures |actions| <= if Submitted(handlers, req, e.paymentId).None? then 0 else 2
  {
    var txn := Submitted(handlers, req, e.paymentId);
    if txn.None? {
      actions := [];
      assert s.acks + [] == s.acks;
    } else {
      actions := ClaimAndStoreIsSteps(env, s, request, txn.value, e);
    }
  }

  /** When exactly an acknowledged payment is stored: unless the COMMIT failed, whose error is dropped. */
  lemma AcceptedIsStoredExactlyWhen(hash: string -> string, keys: map<string, string>, t: Tables, txn: Transaction,
                                    env: SubmitEnv)
    requires ClaimAndStore(hash, keys, t, txn, env).Accepted?
    ensures (exists x :: x in TablesAfter(hash, keys, t, txn, env).transactions && x.paymentId == txn.paymentId)
            <==> env.save != CommitFails
  {
    var t' := TablesAfter(hash, keys, t, txn, env);
    if env.save != CommitFails {
      assert t'.transactions[|t.transactions|].paymentId == txn.paymentId;
    }
  }

  /* ---- what a submission comes to ---- */

  /** The registry of cmd/intake: cards and UPI, each in version 1. */
  function Configured(): map<string, Normalizer> {
    map[HandlerKey("CARD", 1) := CardNormalizer, HandlerKey("UPI", 1) := UPINormalizer]
  }

  /** Of the four sources only cards and UPI, and of them only version 1, find a normalizer, each its own. */
  lemma ConfiguredExactly(source: Source, schemaVersion: UInt32)
    ensures Handler(Configured(), SourceName(source), ToInt32(schemaVersion)) ==
            if source == CARD && schemaVersion == 1 then Some(CardNormalizer)
            else if source == UPI && schemaVersion == 1 then Some(UPINormalizer)
            else None
  {
    var empty: map<string, Normalizer> := map[];
    var card := empty[HandlerKey(SourceName(CARD), 1) := CardNormalizer];
    assert Configured() == card[HandlerKey(SourceName(UPI), 1) := UPINormalizer];
    RegisteredIsFound(card, UPI, 1, UPINormalizer, source, ToInt32(schemaVersion));
    RegisteredIsFound(empty, CARD, 1, CardNormalizer, source, ToInt32(schemaVersion));
  }

  // The transaction of a request under its own normalizer's source.
  function Meant(n: Normalizer, req: Request, paymentId: string): Transaction
    requires req.amount.Some?
  {
    Transaction(paymentId, req.idempotencyKey, if n.CardNormalizer? then CARD else UPI,
                if n.CardNormalizer? then req.externalTxnId else Field(req.metadata, "upi_trx_id"),
                req.accountId, req.amount.value.minorUnits, req.amount.value.currency, RECEIVED, 0)
  }

  /** The normalizer registered for the source and version decides what is submitted. */
  lemma SubmittedIs(handlers: map<string, Normalizer>, req: Request, paymentId: string, n: Normalizer)
    requires req.source.Some? && req.amount.Some? && req.metadata.Keys !! RESERVED
    requires Handler(handlers, SourceName(req.source.value), ToInt32(req.schemaVersion)) == Some(n)
    ensures Submitted(handlers, req, paymentId)
            == Some(Transaction(paymentId, req.idempotencyKey, if n.CardNormalizer? then CARD else UPI,
                                if n.CardNormalizer? then req.externalTxnId else Field(req.metadata, "upi_trx_id"),
                                req.accountId, req.amount.value.minorUnits, req.amount.value.currency, RECEIVED, 0))
  {
    RequestSurvives(n, req, paymentId);
  }

  /** A submission that meets no fault and finds its key free and its id and client key new is accepted: its
      payment is stored, VALIDATED and created now, announced, and its key claimed. */
  lemma GoodSubmission(handlers: map<string, Normalizer>, hash: string -> string, keys: map<string, string>, t: Tables,
                       req: Request, env: SubmitEnv, n: Normalizer)
    requires req.source.Some? && req.amount.Some? && req.metadata.Keys !! RESERVED
    requires Handler(handlers, SourceName(req.source.value), ToInt32(req.schemaVersion)) == Some(n)
    requires env.claim == ClaimFault.NoFault && !env.rejects && !env.dies && env.save == SaveFault.NoFault
    requires DeriveKey(Meant(n, req, env.paymentId), hash) !in keys
    requires forall x :: x in t.transactions ==> x.paymentId != env.paymentId && x.idempotencyKey != req.idempotencyKey
    ensures var txn := Meant(n, req, env.paymentId);
            && SubmitReply(handlers, hash, keys, t, req, env) == Accepted(env.paymentId)
            && AfterSubmitKeys(handlers, hash, keys, req, env) == keys[DeriveKey(txn, hash) := env.paymentId]
            && AfterSubmitTables(handlers, hash, keys, t, req, env).transactions
               == t.transactions + [txn.(state := VALIDATED, createdAt := env.now)]
            && |AfterSubmitTables(handlers, hash, keys, t, req, env).outbox| == |t.outbox| + 1
  {
    SubmittedIs(handlers, req, env.paymentId, n);
    Outcome(hash, keys, t, Meant(n, req, env.paymentId), env);
  }

  lemma Outcome(hash: string -> string, keys: map<string, string>, t: Tables, txn: Transaction, env: SubmitEnv)
    requires env.claim == ClaimFault.NoFault && !env.rejects && !env.dies && env.save == SaveFault.NoFault
    requires DeriveKey(txn, hash) !in keys
    requires forall x :: x in t.transactions ==> x.paymentId != txn.paymentId && x.idempotencyKey != txn.idempotencyKey
    ensures ClaimAndStore(hash, keys, t, txn, env) == Accepted(txn.paymentId)
    ensures KeysAfter(hash, keys, txn, env) == keys[DeriveKey(txn, hash) := txn.paymentId]
    ensures TablesAfter(hash, keys, t, txn, env).transactions
            == t.transactions + [txn.(state := VALIDATED, createdAt := env.now)]
    ensures |TablesAfter(hash, keys, t, txn, env).outbox| == |t.outbox| + 1
  {}

  /** A repeated submission whose key is set is answered with the earlier id and changes nothing. */
  lemma RepeatedSubmission(hash: string -> string, keys: map<string, string>, t: Tables, txn: Transaction,
                           env: SubmitEnv)
    requires env.claim == ClaimFault.NoFault && !env.expires && DeriveKey(txn, hash) in keys
    ensures ClaimAndStore(hash, keys, t, txn, env) == Deduplicated(keys[DeriveKey(txn, hash)])
    ensures KeysAfter(hash, keys, txn, env) == keys && TablesAfter(hash, keys, t, txn, env) == t
  {}

  /** What a submission from an unknown source, or without a normalizer, is told. */
  lemma NotNormalized(handlers: map<string, Normalizer>, hash: string -> string, keys: map<string, string>, t: Tables,
                      req: Request, env: SubmitEnv)
    requires req.source.None? || Handler(handlers, SourceName(req.source.value), ToInt32(req.schemaVersion)).None?
    ensures SubmitReply(handlers, hash, keys, t, req, env)
            == if req.source.None? then UnsupportedSource else NoNormalizer
    ensures AfterSubmitKeys(handlers, hash, keys, req, env) == keys
    ensures AfterSubmitTables(handlers, hash, keys, t, req, env) == t
  {}

  // One whose raw amount does not parse.
  lemma Unreadable(handlers: map<string, Normalizer>, hash: string -> string, keys: map<string, string>, t: Tables,
                   req: Request, env: SubmitEnv, raw: RawFields)
    requires req.source.Some? && Handler(handlers, SourceName(req.source.value), ToInt32(req.schemaVersion)).Some?
    requires raw == Raw(req, env.paymentId) && ParseAmount(Field(raw, "amount")).Invalid?
    ensures SubmitReply(handlers, hash, keys, t, req, env) == InvalidAmount(ParseAmount(Field(raw, "amount")).error)
    ensures AfterSubmitKeys(handlers, hash, keys, req, env) == keys
    ensures AfterSubmitTables(handlers, hash, keys, t, req, env) == t
  {}

  /** A request without an amount is refused as empty, unless its metadata brings one. */
  lemma MissingAmount(handlers: map<string, Normalizer>, hash: string -> string, keys: map<string, string>, t: Tables,
                      req: Request, env: SubmitEnv)
    requires req.source.Some? && Handler(handlers, SourceName(req.source.value), ToInt32(req.schemaVersion)).Some?
    requires req.amount.None? && "amount" !in req.metadata
    ensures SubmitReply(handlers, hash, keys, t, req, env) == InvalidAmount(Empty)
  {
    NoAmount(req, env.paymentId);
    RejectsBlank("");
    Unreadable(handlers, hash, keys, t, req, env, Raw(req, env.paymentId));
  }

  lemma NoAmount(req: Request, paymentId: string)
    requires req.amount.None? && "amount" !in req.metadata
    ensures Field(Raw(req, paymentId), "amount") == ""
  {}

  // A raw field: the metadata's value, or else the given one.
  function Stated(req: Request, key: string, base: string): string {
    if key in req.metadata then req.metadata[key] else base
  }

  lemma FieldIs(req: Request, paymentId: string, key: string)
    ensures Field(Raw(req, paymentId), key) == Stated(req, key, Field(BaseFields(req, paymentId), key))
  {}

  lemma BaseIs(req: Request, paymentId: string)
    ensures var base := BaseFields(req, paymentId);
            && Field(base, "payment_id") == paymentId && Field(base, "idempotency_key") == req.idempotencyKey
            && Field(base, "external_txn_id") == req.externalTxnId && Field(base, "upi_trx_id") == ""
            && Field(base, "account_id") == req.accountId
            && Field(base, "currency") == (if req.amount.Some? then req.amount.value.currency else "")
            && Field(base, "amount") == (if req.amount.Some? then FormatAmount(req.amount.value.minorUnits) else "")
  {}

  lemma NormalizedTo(n: Normalizer, raw: RawFields)
    ensures var amount := ParseAmount(Field(raw, "amount"));
            Normalize(n, raw) ==
            if amount.Invalid? then BadAmount(amount.error)
            else Normal(Transaction(
              Field(raw, "payment_id"), Field(raw, "idempotency_key"), if n.CardNormalizer? then CARD else UPI,
              if n.CardNormalizer? then Field(raw, "external_txn_id") else Field(raw, "upi_trx_id"),
              Field(raw, "account_id"), amount.minorUnits, Field(raw, "currency"), RECEIVED, 0))
  {}

  /** What any request is normalized to, reserved keys in its metadata or not: each field is the metadata's value
      of its name, or else the request's. */
  lemma SubmittedExactly(handlers: map<string, Normalizer>, req: Request, paymentId: string, n: Normalizer)
    requires req.source.Some?
    requires Handler(handlers, SourceName(req.source.value), ToInt32(req.schemaVersion)) == Some(n)
    ensures var printed := if req.amount.Some? then FormatAmount(req.amount.value.minorUnits) else "";
            var amount := ParseAmount(Stated(req, "amount", printed));
            Submitted(handlers, req, paymentId)
            == if amount.Invalid? then None
               else Some(Transaction(
                 Stated(req, "payment_id", paymentId), Stated(req, "idempotency_key", req.idempotencyKey),
                 if n.CardNormalizer? then CARD else UPI,
                 if n.CardNormalizer? then Stated(req, "external_txn_id", req.externalTxnId)
                 else Stated(req, "upi_trx_id", ""),
                 Stated(req, "account_id", req.accountId), amount.minorUnits,
                 Stated(req, "currency", if req.amount.Some? then req.amount.value.currency else ""), RECEIVED, 0))
  {
    NormalizedTo(n, Raw(req, paymentId));
    BaseIs(req, paymentId);
    FieldIs(req, paymentId, "amount");
    FieldIs(req, paymentId, "payment_id");
    FieldIs(req, paymentId, "idempotency_key");
    FieldIs(req, paymentId, "external_txn_id");
    FieldIs(req, paymentId, "upi_trx_id");
    FieldIs(req, paymentId, "account_id");
    FieldIs(req, paymentId, "currency");
  }

  /** A normalizer registered under a 32-bit version serves exactly the requests of its source whose unsigned
      schema version has the same 32 bits. */
  lemma VersionsServed(handlers: map<string, Normalizer>, source: Source, version: int, n: Normalizer,
                       other: Source, schemaVersion: UInt32)
    requires -0x8000_0000 <= version < 0x8000_0000
    ensures var handlers' := handlers[HandlerKey(SourceName(source), version) := n];
            Handler(handlers', SourceName(other), ToInt32(schemaVersion)) ==
            if other == source && schemaVersion == (if version < 0 then version + 0x1_0000_0000 else version)
            then Some(n)
            else Handler(handlers, SourceName(other), ToInt32(schemaVersion))
  {
    RegisteredIsFound(handlers, source, version, n, other, ToInt32(schemaVersion));
  }

  /** A submission that wins its claim and then fails stores nothing and keeps the key. */
  lemma FailedSubmission(hash: string -> string, keys: map<string, string>, t: Tables, txn: Transaction,
                         env: SubmitEnv)
    requires env.claim == ClaimFault.NoFault && DeriveKey(txn, hash) !in keys
    requires env.rejects || env.dies || env.save !in {SaveFault.NoFault, CommitFails}
             || exists x :: x in t.transactions
                            && (x.paymentId == txn.paymentId || x.idempotencyKey == txn.idempotencyKey)
    ensures ClaimAndStore(hash, keys, t, txn, env)
            == if env.rejects then ValidationFailed else if env.dies then Died else SaveFailed
    ensures KeysAfter(hash, keys, txn, env) == keys[DeriveKey(txn, hash) := txn.paymentId]
    ensures TablesAfter(hash, keys, t, txn, env) == t
  {}

  /** A claim that cannot be made ends the submission with nothing stored. */
  lemma UnclaimedSubmission(hash: string -> string, keys: map<string, string>, t: Tables, txn: Transaction,
                            env: SubmitEnv)
    requires env.claim in {SetFails, SetUnseen}
             || (DeriveKey(txn, hash) in keys && (env.claim == GetFails || env.expires))
    ensures ClaimAndStore(hash, keys, t, txn, env) == ClaimFailed && TablesAfter(hash, keys, t, txn, env) == t
  {}
}
