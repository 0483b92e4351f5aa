/**
 The durable table of model-effect intents (`model_effect_store.py`).

 The table is a map from the primary key to the row. Every public store operation is
 one transaction; its effect on the table is a function below, and the methods of the class
 are proved against those functions. SHA-256 and the size of a serialized receipt stay abstract.
 */
module ModelEffectStore {
  import opened Prelude

  datatype Status = Pending | Succeeded | Unknown | Failed | Revoked

  datatype ReceiptValue = Text(text: string) | Number(number: int) | Flag(flag: bool)

  type Receipt = map<string, ReceiptValue>

  datatype Env = Env(sha256: string -> Sha256, receiptBytes: Receipt -> nat)

  datatype Intent = Intent(
    effectId: string,
    tenantId: string,
    runId: string,
    station: string,
    sourceArtifactId: string,
    sourceArtifactHash: string,
    instructionHash: string,
    providerId: string,
    model: string,
    endpointHost: string,
    requestSha256: string,
    maxOutputTokens: int,
    maxCostMicros: int,
    idempotencyDigest: string,
    bindingDigest: string,
    status: Status,
    fence: int,
    outputText: string,
    outputSha256: string,
    receipt: Receipt,
    failureReason: string,
    createdAt: string,
    updatedAt: string,
    completedAt: Option<string>,
    revokedAt: Option<string>)

  datatype Reservation = Reservation(intent: Intent, executable: bool, replayed: bool)

  datatype StoreError =
    | InvalidArgument
    | IdempotencyConflict
    | BindingConflict
    | UniqueViolation
    | WrongState
    | NotFound

  type Table = map<string, Intent>

  const MAX_OUTPUT_BYTES: nat := 1024 * 1024
  const MAX_RECEIPT_BYTES: nat := 16 * 1024
  const MAX_COST_MICROS: int := 10_000_000_000

  // ---------------------------------------------------------------- validation

  predicate IsLowerAlnum(c: char) { 'a' <= c <= 'z' || '0' <= c <= '9' }

  predicate IsAlnum(c: char) { IsLowerAlnum(c) || 'A' <= c <= 'Z' }

  predicate IsIdentifier(s: string) {
    && 1 <= |s| <= 256
    && IsAlnum(s[0])
    && forall i | 1 <= i < |s| :: IsAlnum(s[i]) || s[i] in "._:@/-"
  }

  predicate IsProvider(s: string) {
    && 2 <= |s| <= 32
    && 'a' <= s[0] <= 'z'
    && forall i | 1 <= i < |s| :: IsLowerAlnum(s[i]) || s[i] in "_-"
  }

  predicate IsModel(s: string) {
    && 1 <= |s| <= 128
    && IsAlnum(s[0])
    && forall i | 1 <= i < |s| :: IsAlnum(s[i]) || s[i] in "._:/-"
  }

  predicate IsHost(s: string) {
    && 1 <= |s| <= 253
    && IsLowerAlnum(s[0])
    && forall i | 1 <= i < |s| :: IsLowerAlnum(s[i]) || s[i] in ".-"
  }

  predicate IsReason(s: string) {
    && 1 <= |s| <= 256
    && IsLowerAlnum(s[0])
    && forall i | 1 <= i < |s| :: IsLowerAlnum(s[i]) || s[i] in "_.:-"
  }

  predicate IsOutput(text: string) {
    text != "" && Utf8Length(text) <= MAX_OUTPUT_BYTES
  }

  predicate IsReceipt(env: Env, receipt: Receipt) {
    env.receiptBytes(receipt) <= MAX_RECEIPT_BYTES
  }

  /** What a row must satisfy before it is inserted. */
  predicate IsPendingIntent(env: Env, intent: Intent) {
    && IsIdentifier(intent.effectId)
    && IsIdentifier(intent.tenantId)
    && IsIdentifier(intent.runId)
    && IsIdentifier(intent.station)
    && IsIdentifier(intent.sourceArtifactId)
    && IsSha256(intent.sourceArtifactHash)
    && IsSha256(intent.instructionHash)
    && IsSha256(intent.requestSha256)
    && IsSha256(intent.idempotencyDigest)
    && IsSha256(intent.bindingDigest)
    && IsProvider(intent.providerId)
    && IsModel(intent.model)
    && IsHost(intent.endpointHost)
    && 1 <= intent.maxOutputTokens <= 8192
    && 0 <= intent.maxCostMicros <= MAX_COST_MICROS
    && intent.status == Pending
    && 1 <= intent.fence
    && (intent.outputText != "" ==> IsOutput(intent.outputText))
    && (intent.outputSha256 != "" ==> IsSha256(intent.outputSha256))
    && IsReceipt(env, intent.receipt)
    && (intent.failureReason != "" ==> IsReason(intent.failureReason))
  }

  // ---------------------------------------------------------------- keys

  predicate SameIdempotency(row: Intent, intent: Intent) {
    row.tenantId == intent.tenantId && row.idempotencyDigest == intent.idempotencyDigest
  }

  predicate SameBinding(row: Intent, intent: Intent) {
    row.tenantId == intent.tenantId && row.bindingDigest == intent.bindingDigest
  }

  /** The primary key and both UNIQUE constraints of the table. */
  ghost predicate KeysUnique(table: Table) {
    && (forall id | id in table :: table[id].effectId == id)
    && (forall a, b | a in table && b in table && a != b ::
          !SameIdempotency(table[a], table[b]) && !SameBinding(table[a], table[b]))
  }

  /** The row the reserving query selects: a match on the idempotency key comes first. */
  ghost function Lookup(table: Table, intent: Intent): (id: Option<string>)
    ensures id.Some? ==> id.value in table
    ensures id.Some? ==> SameIdempotency(table[id.value], intent) || SameBinding(table[id.value], intent)
    ensures id.Some? && !SameIdempotency(table[id.value], intent) ==>
              forall k | k in table :: !SameIdempotency(table[k], intent)
    ensures id.None? ==>
              forall k | k in table :: !SameIdempotency(table[k], intent) && !SameBinding(table[k], intent)
  {
    if k :| k in table && SameIdempotency(table[k], intent) then Some(k)
    else if k :| k in table && SameBinding(table[k], intent) then Some(k)
    else None
  }

  // ---------------------------------------------------------------- operations on the table

  /** Outcome of `reserve` together with the table it leaves behind. */
  ghost function ReserveStep(env: Env, table: Table, intent: Intent): (Table, Result<Reservation, StoreError>) {
    if !IsPendingIntent(env, intent) then (table, Err(InvalidArgument))
    else
      match Lookup(table, intent)
      case Some(id) =>
        var row := table[id];
        if row.idempotencyDigest == intent.idempotencyDigest && row.bindingDigest != intent.bindingDigest then
          (table, Err(IdempotencyConflict))
        else if row.bindingDigest != intent.bindingDigest then
          (table, Err(BindingConflict))
        else
          (table, Ok(Reservation(row, false, row.status == Succeeded)))
      case None =>
        if intent.effectId in table then (table, Err(UniqueViolation))
        else (table[intent.effectId := intent], Ok(Reservation(intent, true, false)))
  }

  /** The columns one guarded UPDATE of `_transition` assigns. */
  datatype Change = Change(
    status: Status,
    outputText: Option<string>,
    outputSha256: Option<string>,
    receipt: Option<Receipt>,
    failureReason: string,
    completed: bool)

  predicate IsChange(env: Env, change: Change) {
    && (change.outputText.Some? ==> IsOutput(change.outputText.value))
    && (change.outputSha256.Some? ==> IsSha256(change.outputSha256.value))
    && (change.receipt.Some? ==> IsReceipt(env, change.receipt.value))
    && (change.failureReason != "" ==> IsReason(change.failureReason))
  }

  function Assign(row: Intent, change: Change, now: string): Intent {
    row.(status := change.status,
         updatedAt := now,
         outputText := if change.outputText.Some? then change.outputText.value else row.outputText,
         outputSha256 := if change.outputSha256.Some? then change.outputSha256.value else row.outputSha256,
         receipt := if change.receipt.Some? then change.receipt.value else row.receipt,
         failureReason := if change.failureReason != "" || change.status == Succeeded
                          then change.failureReason else row.failureReason,
         completedAt := if change.completed then Some(now) else row.completedAt)
  }

  function Transition(env: Env, table: Table, now: string, tenantId: string, effectId: string, fence: int,
                      change: Change): Result<Table, StoreError>
  {
    if !IsIdentifier(tenantId) || !IsIdentifier(effectId) || fence < 1 || !IsChange(env, change) then
      Err(InvalidArgument)
    else if
      && effectId in table && table[effectId].tenantId == tenantId
      && table[effectId].status == Pending && table[effectId].fence == fence
    then Ok(table[effectId := Assign(table[effectId], change, now)])
    else Err(WrongState)
  }

  function CompletionChange(env: Env, text: string, receipt: Receipt): Change {
    Change(Succeeded, Some(text), Some(env.sha256(text)), Some(receipt), "", true)
  }

  function OutcomeChange(status: Status, reason: string): Change {
    Change(status, None, None, None, reason, false)
  }

  function Complete(env: Env, table: Table, now: string, tenantId: string, effectId: string, fence: int,
                    text: string, receipt: Receipt): Result<Table, StoreError>
  {
    Transition(env, table, now, tenantId, effectId, fence, CompletionChange(env, text, receipt))
  }

  function MarkUnknown(env: Env, table: Table, now: string, tenantId: string, effectId: string, fence: int,
                       reason: string): Result<Table, StoreError>
  {
    Transition(env, table, now, tenantId, effectId, fence, OutcomeChange(Unknown, reason))
  }

  function MarkFailed(env: Env, table: Table, now: string, tenantId: string, effectId: string, fence: int,
                      reason: string): Result<Table, StoreError>
  {
    Transition(env, table, now, tenantId, effectId, fence, OutcomeChange(Failed, reason))
  }

  const RECONCILIATION_KEY := "reconciliation_binding_digest"

  /** A repeated reconciliation is recognised by the binding digest kept in both receipts. */
  predicate ReconciliationMatches(row: Intent, outputSha256: string, receipt: Receipt) {
    && row.status == Succeeded
    && row.outputSha256 == outputSha256
    && RECONCILIATION_KEY in receipt
    && receipt[RECONCILIATION_KEY].Text?
    && IsSha256(receipt[RECONCILIATION_KEY].text)
    && RECONCILIATION_KEY in row.receipt
    && row.receipt[RECONCILIATION_KEY] == receipt[RECONCILIATION_KEY]
  }

  function Reconciled(env: Env, row: Intent, text: string, receipt: Receipt, now: string): Intent {
    row.(status := Succeeded, outputText := text, outputSha256 := env.sha256(text), receipt := receipt,
         failureReason := "", completedAt := Some(now), updatedAt := now)
  }

  function ReconcileSuccess(env: Env, table: Table, now: string, tenantId: string, effectId: string,
                            text: string, receipt: Receipt): Result<Table, StoreError>
  {
    if !IsIdentifier(tenantId) || !IsIdentifier(effectId) || !IsOutput(text) || !IsReceipt(env, receipt) then
      Err(InvalidArgument)
    else if effectId in table && table[effectId].tenantId == tenantId && table[effectId].status == Unknown then
      Ok(table[effectId := Reconciled(env, table[effectId], text, receipt, now)])
    else if effectId in table && table[effectId].tenantId == tenantId
            && ReconciliationMatches(table[effectId], env.sha256(text), receipt) then
      Ok(table)
    else
      Err(WrongState)
  }

  predicate Revocable(row: Intent, tenantId: string, runId: string) {
    row.tenantId == tenantId && row.runId == runId && row.status == Pending
  }

  function RevokeUnused(table: Table, now: string, tenantId: string, runId: string,
                        reason: string): Result<Table, StoreError>
  {
    if !IsIdentifier(tenantId) || !IsIdentifier(runId) || !IsReason(reason) then Err(InvalidArgument)
    else Ok(map id | id in table :: if Revocable(table[id], tenantId, runId)
                                    then RevokedRow(table[id], now, reason) else table[id])
  }

  function RevocableIds(table: Table, tenantId: string, runId: string): set<string> {
    set id | id in table && Revocable(table[id], tenantId, runId)
  }

  function RevokedRow(row: Intent, now: string, reason: string): Intent {
    row.(status := Revoked, fence := row.fence + 1, failureReason := reason, revokedAt := Some(now),
         updatedAt := now)
  }

  function Get(table: Table, tenantId: string, effectId: string): Result<Intent, StoreError> {
    if !IsIdentifier(tenantId) || !IsIdentifier(effectId) then Err(InvalidArgument)
    else if effectId in table && table[effectId].tenantId == tenantId then Ok(table[effectId])
    else Err(NotFound)
  }

  // ---------------------------------------------------------------- how rows and tables may evolve

  predicate Terminal(status: Status) {
    status == Succeeded || status == Failed || status == Revoked
  }

  /** The allowed life of one row: its identity is fixed and a settled row is frozen. */
  predicate RowEvolves(before: Intent, after: Intent) {
    && after == before.(status := after.status, fence := after.fence, outputText := after.outputText,
                        outputSha256 := after.outputSha256, receipt := after.receipt,
                        failureReason := after.failureReason, updatedAt := after.updatedAt,
                        completedAt := after.completedAt, revokedAt := after.revokedAt)
    && (Terminal(before.status) ==> after == before)
    && (before.status == Unknown ==> after.status == Unknown || after.status == Succeeded)
    && before.fence <= after.fence
    && (after.fence != before.fence ==> before.status == Pending && after.status == Revoked)
  }

  ghost predicate Evolves(before: Table, after: Table) {
    forall id | id in before :: id in after && RowEvolves(before[id], after[id])
  }

  lemma EvolvesTransitive(a: Table, b: Table, c: Table)
    requires Evolves(a, b) && Evolves(b, c)
    ensures Evolves(a, c)
  {
    forall id | id in a ensures id in c && RowEvolves(a[id], c[id]) {
      assert id in b && RowEvolves(a[id], b[id]) && RowEvolves(b[id], c[id]);
    }
  }

  /** What every row keeps: output and digest agree, and only revocation moves the fence. */
  ghost predicate RowConsistent(env: Env, row: Intent) {
    && (row.status == Succeeded ==> row.outputText != "" && row.outputSha256 == env.sha256(row.outputText))
    && 1 <= row.fence
  }

  ghost predicate TableConsistent(env: Env, table: Table) {
    KeysUnique(table) && forall id | id in table :: RowConsistent(env, table[id])
  }

  /** A row matched by neither key is matched by no key, so inserting it keeps both of them unique. */
  lemma InsertKeeps(env: Env, table: Table, row: Intent)
    requires TableConsistent(env, table)
    requires row.effectId !in table && row.status == Pending && 1 <= row.fence
    requires forall k | k in table :: !SameIdempotency(table[k], row) && !SameBinding(table[k], row)
    ensures TableConsistent(env, table[row.effectId := row])
    ensures Evolves(table, table[row.effectId := row])
  {
    var after := table[row.effectId := row];
    forall a, b | a in after && b in after && a != b
      ensures !SameIdempotency(after[a], after[b]) && !SameBinding(after[a], after[b])
    {
      assert a in table || b in table;
    }
  }

  lemma UpdateKeeps(env: Env, table: Table, id: string, row: Intent)
    requires TableConsistent(env, table)
    requires id in table && RowEvolves(table[id], row) && RowConsistent(env, row)
    ensures TableConsistent(env, table[id := row])
    ensures Evolves(table, table[id := row])
  {
    var after := table[id := row];
    forall a, b | a in after && b in after && a != b
      ensures !SameIdempotency(after[a], after[b]) && !SameBinding(after[a], after[b])
    {
      assert !SameIdempotency(table[a], table[b]) && !SameBinding(table[a], table[b]);
    }
  }

  lemma RowEvolvesReflexive(row: Intent)
    ensures RowEvolves(row, row)
  {
  }

  lemma EvolvesReflexive(table: Table)
    ensures Evolves(table, table)
  {
  }

  /** What a reservation answers, and when it changes the table. */
  lemma {:induction false} ReserveAnswers(env: Env, table: Table, intent: Intent)
    requires KeysUnique(table)
    ensures var (after, r) := ReserveStep(env, table, intent);
            && (if r.Ok? && r.value.executable
                then && intent.effectId !in table && after == table[intent.effectId := intent]
                     && r.value == Reservation(intent, true, false)
                     && IsPendingIntent(env, intent) && Lookup(table, intent) == None
                else after == table)
            && (r.Ok? && !r.value.executable ==>
                  && r.value.intent.effectId in table
                  && table[r.value.intent.effectId] == r.value.intent
                  && SameBinding(r.value.intent, intent)
                  && (r.value.replayed <==> r.value.intent.status == Succeeded))
            && r != Err(BindingConflict)
  {
    hide IsPendingIntent;
  }

  lemma {:induction false} PendingIntent(env: Env, intent: Intent)
    requires IsPendingIntent(env, intent)
    ensures intent.status == Pending && 1 <= intent.fence
  {
  }

  /**
   A reservation changes the table exactly when it may be executed; otherwise it hands back the stored
   row of the same binding, and the second conflict branch is never taken.
   */
  lemma ReserveKeeps(env: Env, table: Table, intent: Intent)
    requires TableConsistent(env, table)
    ensures var (after, r) := ReserveStep(env, table, intent);
            && TableConsistent(env, after)
            && Evolves(table, after)
            && (if r.Ok? && r.value.executable
                then intent.effectId !in table && after == table[intent.effectId := intent]
                     && r.value == Reservation(intent, true, false)
                else after == table)
            && (r.Ok? && !r.value.executable ==>
                  && r.value.intent.effectId in table
                  && table[r.value.intent.effectId] == r.value.intent
                  && SameBinding(r.value.intent, intent)
                  && (r.value.replayed <==> r.value.intent.status == Succeeded))
            && r != Err(BindingConflict)
  {
    var (after, r) := ReserveStep(env, table, intent);
    assert KeysUnique(table);
    hide *;
    ReserveAnswers(env, table, intent);
    EvolvesReflexive(table);
    if r.Ok? && r.value.executable {
      PendingIntent(env, intent);
      InsertKeeps(env, table, intent);
    }
  }

  /** The primary key cannot collide either when effect ids are derived injectively from the idempotency key. */
  lemma FreshInsertNeverViolatesKeys(env: Env, table: Table, intent: Intent, effectIdOf: (string, string) -> string)
    requires TableConsistent(env, table)
    requires forall t, d, u, e :: effectIdOf(t, d) == effectIdOf(u, e) ==> t == u && d == e
    requires intent.effectId == effectIdOf(intent.tenantId, intent.idempotencyDigest)
    requires forall id | id in table :: id == effectIdOf(table[id].tenantId, table[id].idempotencyDigest)
    ensures ReserveStep(env, table, intent).1 != Err(UniqueViolation)
  {
    if Lookup(table, intent).None? && intent.effectId in table {
      assert SameIdempotency(table[intent.effectId], intent);
    }
  }

  lemma TransitionKeeps(env: Env, table: Table, now: string, tenantId: string, effectId: string, fence: int,
                        change: Change)
    requires TableConsistent(env, table)
    requires change.status in {Unknown, Failed} || (exists t, r :: change == CompletionChange(env, t, r))
    ensures var r := Transition(env, table, now, tenantId, effectId, fence, change);
            r.Ok? ==>
              && TableConsistent(env, r.value)
              && Evolves(table, r.value)
              && effectId in table && table[effectId].tenantId == tenantId && table[effectId].fence == fence
              && table[effectId].status == Pending && r.value[effectId].status == change.status
  {
    if Transition(env, table, now, tenantId, effectId, fence, change).Ok? {
      UpdateKeeps(env, table, effectId, Assign(table[effectId], change, now));
    }
  }

  lemma ReconcileKeeps(env: Env, table: Table, now: string, tenantId: string, effectId: string, text: string,
                       receipt: Receipt)
    requires TableConsistent(env, table)
    ensures var r := ReconcileSuccess(env, table, now, tenantId, effectId, text, receipt);
            r.Ok? ==>
              && TableConsistent(env, r.value)
              && Evolves(table, r.value)
              && effectId in table && table[effectId].tenantId == tenantId
              && table[effectId].status in {Unknown, Succeeded}
              && r.value[effectId].status == Succeeded
              && r.value[effectId].outputSha256 == env.sha256(text)
  {
    EvolvesReflexive(table);
    if ReconcileSuccess(env, table, now, tenantId, effectId, text, receipt).Ok? && table[effectId].status == Unknown {
      UpdateKeeps(env, table, effectId, Reconciled(env, table[effectId], text, receipt, now));
    }
  }

  /** Reconciling twice with the same text and receipt is the same as reconciling once. */
  lemma ReconcileIdempotent(env: Env, table: Table, now: string, later: string, tenantId: string,
                            effectId: string, text: string, receipt: Receipt)
    requires RECONCILIATION_KEY in receipt && receipt[RECONCILIATION_KEY].Text?
    requires IsSha256(receipt[RECONCILIATION_KEY].text)
    ensures var r := ReconcileSuccess(env, table, now, tenantId, effectId, text, receipt);
            r.Ok? ==> ReconcileSuccess(env, r.value, later, tenantId, effectId, text, receipt) == r
  {
  }

  lemma RevokedRowEvolves(env: Env, row: Intent, now: string, tenantId: string, runId: string, reason: string)
    requires RowConsistent(env, row) && Revocable(row, tenantId, runId)
    ensures var after := RevokedRow(row, now, reason);
            RowConsistent(env, after) && RowEvolves(row, after) && !Revocable(after, tenantId, runId)
  {
  }

  lemma RevokeKeeps(env: Env, table: Table, now: string, tenantId: string, runId: string, reason: string)
    requires TableConsistent(env, table)
    ensures var r := RevokeUnused(table, now, tenantId, runId, reason);
            r.Ok? ==>
              && TableConsistent(env, r.value)
              && Evolves(table, r.value)
              && r.value.Keys == table.Keys
              && forall id | id in table :: !Revocable(r.value[id], tenantId, runId)
  {
    hide RowConsistent, RowEvolves, Revocable;
    EvolvesReflexive(table);
    var r := RevokeUnused(table, now, tenantId, runId, reason);
    if r.Ok? {
      forall id | id in table
        ensures RowConsistent(env, r.value[id]) && RowEvolves(table[id], r.value[id])
        ensures !Revocable(r.value[id], tenantId, runId)
      {
        if Revocable(table[id], tenantId, runId) {
          RevokedRowEvolves(env, table[id], now, tenantId, runId, reason);
        }
      }
      forall a, b | a in r.value && b in r.value && a != b
        ensures !SameIdempotency(r.value[a], r.value[b]) && !SameBinding(r.value[a], r.value[b])
      {
        assert !SameIdempotency(table[a], table[b]) && !SameBinding(table[a], table[b]);
      }
    }
  }

  // ---------------------------------------------------------------- the SQLite store

  /** The store object: one lock, one connection, so each method is one transaction. */
  class SQLiteModelEffectStore {
    const env: Env
    var rows: Table

    ghost predicate Valid()
      reads this
    {
      TableConsistent(env, rows)
    }

    constructor (env: Env)
      ensures Valid() && rows == map[] && this.env == env
    {
      this.env := env;
      rows := map[];
    }

    method Reserve(intent: Intent) returns (r: Result<Reservation, StoreError>)
      requires Valid()
      modifies this
      ensures Valid()
      ensures (rows, r) == ReserveStep(env, old(rows), intent)
      ensures r != Err(BindingConflict)
    {
      ReserveKeeps(env, rows, intent);
      if !IsPendingIntent(env, intent) {
        return Err(InvalidArgument);
      }
      var existing := SelectExisting(intent);
      if existing.Some? {
        var row := rows[existing.value];
        if row.idempotencyDigest == intent.idempotencyDigest && row.bindingDigest != intent.bindingDigest {
          return Err(IdempotencyConflict);
        }
        if row.bindingDigest != intent.bindingDigest {
          assert false;
        }
        return Ok(Reservation(row, false, row.status == Succeeded));
      }
      if intent.effectId in rows {
        return Err(UniqueViolation);
      }
      rows := rows[intent.effectId := intent];
      r := Ok(Reservation(intent, true, false));
    }

    /** The reserving query; both keys are unique, so it has one answer. */
    method SelectExisting(intent: Intent) returns (id: Option<string>)
      requires Valid()
      ensures id == Lookup(rows, intent)
    {
      if k :| k in rows && SameIdempotency(rows[k], intent) {
        return Some(k);
      }
      if k :| k in rows && SameBinding(rows[k], intent) {
        return Some(k);
      }
      return None;
    }

    method Fetch(tenantId: string, effectId: string) returns (r: Result<Intent, StoreError>)
      ensures r == Get(rows, tenantId, effectId)
    {
      if !IsIdentifier(tenantId) || !IsIdentifier(effectId) {
        return Err(InvalidArgument);
      }
      if effectId !in rows || rows[effectId].tenantId != tenantId {
        return Err(NotFound);
      }
      return Ok(rows[effectId]);
    }

    method ApplyTransition(now: string, tenantId: string, effectId: string, fence: int, change: Change)
      returns (r: Result<Intent, StoreError>)
      requires Valid()
      requires change.status in {Unknown, Failed} || (exists t, p :: change == CompletionChange(env, t, p))
      modifies this
      ensures Valid()
      ensures var t := Transition(env, old(rows), now, tenantId, effectId, fence, change);
              if t.Ok? then rows == t.value && r == Ok(t.value[effectId])
              else rows == old(rows) && r == Err(t.error)
    {
      TransitionKeeps(env, rows, now, tenantId, effectId, fence, change);
      if !IsIdentifier(tenantId) || !IsIdentifier(effectId) || fence < 1 || !IsChange(env, change) {
        return Err(InvalidArgument);
      }
      if
        || effectId !in rows || rows[effectId].tenantId != tenantId
        || rows[effectId].status != Pending || rows[effectId].fence != fence
      {
        return Err(WrongState);
      }
      rows := rows[effectId := Assign(rows[effectId], change, now)];
      r := Fetch(tenantId, effectId);
    }

    method CompleteEffect(now: string, tenantId: string, effectId: string, fence: int, text: string,
                          receipt: Receipt) returns (r: Result<Intent, StoreError>)
      requires Valid()
      modifies this
      ensures Valid()
      ensures var t := Complete(env, old(rows), now, tenantId, effectId, fence, text, receipt);
              if t.Ok? then rows == t.value && r == Ok(t.value[effectId])
              else rows == old(rows) && r == Err(t.error)
    {
      if !IsOutput(text) || !IsReceipt(env, receipt) {
        return Err(InvalidArgument);
      }
      r := ApplyTransition(now, tenantId, effectId, fence, CompletionChange(env, text, receipt));
    }

    method MarkUnknownEffect(now: string, tenantId: string, effectId: string, fence: int, reason: string)
      returns (r: Result<Intent, StoreError>)
      requires Valid()
      modifies this
      ensures Valid()
      ensures var t := MarkUnknown(env, old(rows), now, tenantId, effectId, fence, reason);
              if t.Ok? then rows == t.value && r == Ok(t.value[effectId])
              else rows == old(rows) && r == Err(t.error)
    {
      r := ApplyTransition(now, tenantId, effectId, fence, OutcomeChange(Unknown, reason));
    }

    method MarkFailedEffect(now: string, tenantId: string, effectId: string, fence: int, reason: string)
      returns (r: Result<Intent, StoreError>)
      requires Valid()
      modifies this
      ensures Valid()
      ensures var t := MarkFailed(env, old(rows), now, tenantId, effectId, fence, reason);
              if t.Ok? then rows == t.value && r == Ok(t.value[effectId])
              else rows == old(rows) && r == Err(t.error)
    {
      r := ApplyTransition(now, tenantId, effectId, fence, OutcomeChange(Failed, reason));
    }

    method Reconcile(now: string, tenantId: string, effectId: string, text: string, receipt: Receipt)
      returns (r: Result<Intent, StoreError>)
      requires Valid()
      modifies this
      ensures Valid()
      ensures var t := ReconcileSuccess(env, old(rows), now, tenantId, effectId, text, receipt);
              if t.Ok? then rows == t.value && r == Ok(t.value[effectId])
              else rows == old(rows) && r == Err(t.error)
    {
      ReconcileKeeps(env, rows, now, tenantId, effectId, text, receipt);
      if !IsIdentifier(tenantId) || !IsIdentifier(effectId) || !IsOutput(text) || !IsReceipt(env, receipt) {
        return Err(InvalidArgument);
      }
      if effectId in rows && rows[effectId].tenantId == tenantId && rows[effectId].status == Unknown {
        rows := rows[effectId := Reconciled(env, rows[effectId], text, receipt, now)];
      } else {
        if effectId in rows && rows[effectId].tenantId == tenantId
           && ReconciliationMatches(rows[effectId], env.sha256(text), receipt) {
          return Ok(rows[effectId]);
        }
        return Err(WrongState);
      }
      r := Fetch(tenantId, effectId);
    }

    method Revoke(now: string, tenantId: string, runId: string, reason: string)
      returns (r: Result<nat, StoreError>)
      requires Valid()
      modifies this
      ensures Valid()
      ensures var t := RevokeUnused(old(rows), now, tenantId, runId, reason);
              if t.Ok? then rows == t.value &&
                r == Ok(|RevocableIds(old(rows), tenantId, runId)|)
              else rows == old(rows) && r == Err(t.error)
    {
      if !IsIdentifier(tenantId) || !IsIdentifier(runId) || !IsReason(reason) {
        return Err(InvalidArgument);
      }
      ghost var revoked := RevokeUnused(rows, now, tenantId, runId, reason).value;
      assert TableConsistent(env, revoked) by {
        RevokeKeeps(env, rows, now, tenantId, runId, reason);
      }
      var affected := RevocableIds(rows, tenantId, runId);
      rows := map id | id in rows :: if id in affected then RevokedRow(rows[id], now, reason) else rows[id];
      assert rows == revoked;
      r := Ok(|affected|);
    }
  }
}
