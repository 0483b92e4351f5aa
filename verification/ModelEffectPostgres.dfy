/**
 `reserve` of the PostgreSQL store (`model_effect_postgres.py`).

 There the reservation is not one atomic step: a transaction takes two advisory locks one after the other,
 selects, and inserts only if it found nothing, while other transactions run in between. The lock number is
 an arbitrary hash of the lock name, so unrelated names may share a lock. Both names of one tenant differ
 first at "binding" against "idempotency", so sorting them always puts the binding lock first.
 The transactions refine the atomic `ReserveStep` of the abstract store.
 */
module ModelEffectPostgres {
  import opened Prelude
  import opened ModelEffectStore
  import opened ModelEffect

  datatype Transaction =
    | Waiting(intent: Intent)
    | HoldsBinding(intent: Intent)
    | HoldsBoth(intent: Intent)
    | Cleared(intent: Intent)
    | Finished(result: Result<Reservation, StoreError>)
    | Aborted

  datatype Database = Database(table: Table, holders: map<int, nat>, transactions: map<nat, Transaction>)

  datatype Event =
    | Open(t: nat, intent: Intent)
    | LockBinding(t: nat)
    | LockIdempotency(t: nat)
    | SelectExisting(t: nat)
    | Insert(t: nat)
    | Abort(t: nat)
    | Update(call: StoreCall)

  function BindingLock(hashtext: string -> int, intent: Intent): int {
    hashtext("model-effect:" + intent.tenantId + ":binding:" + intent.bindingDigest)
  }

  function IdempotencyLock(hashtext: string -> int, intent: Intent): int {
    hashtext("model-effect:" + intent.tenantId + ":idempotency:" + intent.idempotencyDigest)
  }

  predicate Free(db: Database, lock: int, t: nat) {
    lock in db.holders ==> db.holders[lock] == t
  }

  /** Transaction locks are released together at commit or rollback. */
  function Release(db: Database, t: nat): map<int, nat> {
    map lock | lock in db.holders && db.holders[lock] != t :: db.holders[lock]
  }

  function End(db: Database, t: nat, to: Transaction): Database {
    db.(holders := Release(db, t), transactions := db.transactions[t := to])
  }

  function Advance(db: Database, t: nat, lock: int, to: Transaction): Database {
    db.(holders := db.holders[lock := t], transactions := db.transactions[t := to])
  }

  ghost function Happen(env: Env, hashtext: string -> int, db: Database, e: Event): Database {
    match e
    case Open(t, intent) =>
      if t in db.transactions then db
      else db.(transactions := db.transactions[t := if IsPendingIntent(env, intent) then Waiting(intent)
                                                    else Finished(Err(InvalidArgument))])
    case LockBinding(t) =>
      if t in db.transactions && db.transactions[t].Waiting?
         && Free(db, BindingLock(hashtext, db.transactions[t].intent), t)
      then Advance(db, t, BindingLock(hashtext, db.transactions[t].intent),
                   HoldsBinding(db.transactions[t].intent))
      else db
    case LockIdempotency(t) =>
      if t in db.transactions && db.transactions[t].HoldsBinding?
         && Free(db, IdempotencyLock(hashtext, db.transactions[t].intent), t)
      then Advance(db, t, IdempotencyLock(hashtext, db.transactions[t].intent),
                   HoldsBoth(db.transactions[t].intent))
      else db
    case SelectExisting(t) =>
      if t in db.transactions && db.transactions[t].HoldsBoth?
      then
        var intent := db.transactions[t].intent;
        if Lookup(db.table, intent).None? then db.(transactions := db.transactions[t := Cleared(intent)])
        else End(db, t, Finished(Found(db.table[Lookup(db.table, intent).value], intent)))
      else db
    case Insert(t) =>
      if t in db.transactions && db.transactions[t].Cleared?
      then
        var intent := db.transactions[t].intent;
        // The constraints of the table: a clash makes the statement fail and the transaction roll back.
        if intent.effectId in db.table || Lookup(db.table, intent).Some?
        then End(db, t, Finished(Err(UniqueViolation)))
        else End(db.(table := db.table[intent.effectId := intent]), t,
                 Finished(Ok(Reservation(intent, true, false))))
      else db
    case Abort(t) => if t in db.transactions && !db.transactions[t].Finished? then End(db, t, Aborted) else db
    case Update(call) => db.(table := Perform(env, db.table, call))
  }

  /** What a transaction answers when its select found a row. */
  function Found(row: Intent, intent: Intent): Result<Reservation, StoreError> {
    if row.idempotencyDigest == intent.idempotencyDigest && row.bindingDigest != intent.bindingDigest
    then Err(IdempotencyConflict)
    else if row.bindingDigest != intent.bindingDigest then Err(BindingConflict)
    else Ok(Reservation(row, false, row.status == Succeeded))
  }

  ghost predicate Unmatched(table: Table, intent: Intent) {
    forall k | k in table :: !SameIdempotency(table[k], intent) && !SameBinding(table[k], intent)
  }

  ghost predicate Holds(db: Database, lock: int, t: nat) {
    lock in db.holders && db.holders[lock] == t
  }

  /** The transaction inserted its own row and may go on to call the provider. */
  predicate Granted(x: Transaction) {
    x.Finished? && x.result.Ok? && x.result.value.executable
  }

  ghost predicate TransactionConsistent(env: Env, hashtext: string -> int, db: Database, t: nat, x: Transaction) {
    && (x.Waiting? || x.HoldsBinding? || x.HoldsBoth? || x.Cleared? ==> IsPendingIntent(env, x.intent))
    && (x.HoldsBinding? || x.HoldsBoth? || x.Cleared? ==> Holds(db, BindingLock(hashtext, x.intent), t))
    && (x.HoldsBoth? || x.Cleared? ==> Holds(db, IdempotencyLock(hashtext, x.intent), t))
    && (x.Cleared? ==> Unmatched(db.table, x.intent))
    && (Granted(x) ==> Owns(db.table, x.result.value.intent))
  }

  ghost predicate DatabaseInv(env: Env, hashtext: string -> int, db: Database) {
    && TableConsistent(env, db.table)
    && (forall t | t in db.transactions :: TransactionConsistent(env, hashtext, db, t, db.transactions[t]))
    && (forall t, u | t in db.transactions && u in db.transactions && t != u
          && Granted(db.transactions[t]) && Granted(db.transactions[u]) ::
          db.transactions[t].result.value.intent.effectId != db.transactions[u].result.value.intent.effectId)
  }

  lemma UnmatchedSurvives(before: Table, after: Table, intent: Intent)
    requires Evolves(before, after) && after.Keys == before.Keys && Unmatched(before, intent)
    ensures Unmatched(after, intent)
  {
    forall k | k in after ensures !SameIdempotency(after[k], intent) && !SameBinding(after[k], intent) {
      assert k in before && RowEvolves(before[k], after[k]);
    }
  }

  lemma PerformAddsNoRow(env: Env, table: Table, call: StoreCall)
    ensures Perform(env, table, call).Keys == table.Keys
  {
  }

  /** A transaction that shares a key with another cannot also have selected: they share a lock. */
  lemma ClearedExcludes(env: Env, hashtext: string -> int, db: Database, t: nat, u: nat)
    requires DatabaseInv(env, hashtext, db)
    requires t in db.transactions && u in db.transactions && t != u
    requires db.transactions[t].Cleared? && db.transactions[u].Cleared?
    ensures !SameIdempotency(db.transactions[t].intent, db.transactions[u].intent)
    ensures !SameBinding(db.transactions[t].intent, db.transactions[u].intent)
  {
    assert TransactionConsistent(env, hashtext, db, t, db.transactions[t]);
    assert TransactionConsistent(env, hashtext, db, u, db.transactions[u]);
  }

  /** Changing one transaction, and only locks nobody else holds, keeps the others consistent. */
  lemma ReplaceKeeps(env: Env, hashtext: string -> int, db: Database, holders: map<int, nat>, t: nat, to: Transaction)
    requires DatabaseInv(env, hashtext, db) && !Granted(to)
    requires forall lock, u | u != t && Holds(db, lock, u) :: lock in holders && holders[lock] == u
    requires TransactionConsistent(env, hashtext, db.(holders := holders), t, to)
    ensures DatabaseInv(env, hashtext, db.(holders := holders, transactions := db.transactions[t := to]))
  {
    var after := db.(holders := holders, transactions := db.transactions[t := to]);
    forall u | u in after.transactions
      ensures TransactionConsistent(env, hashtext, after, u, after.transactions[u])
    {
      if u != t {
        var x := db.transactions[u];
        assert TransactionConsistent(env, hashtext, db, u, x);
      }
    }
  }

  lemma EndKeeps(env: Env, hashtext: string -> int, db: Database, t: nat, to: Transaction)
    requires DatabaseInv(env, hashtext, db) && (to.Aborted? || (to.Finished? && !Granted(to)))
    ensures DatabaseInv(env, hashtext, End(db, t, to))
  {
    forall lock, u | u != t && Holds(db, lock, u) ensures lock in Release(db, t) && Release(db, t)[lock] == u {
    }
    ReplaceKeeps(env, hashtext, db, Release(db, t), t, to);
  }

  lemma AdvanceKeeps(env: Env, hashtext: string -> int, db: Database, t: nat, lock: int, to: Transaction)
    requires DatabaseInv(env, hashtext, db) && t in db.transactions && Free(db, lock, t)
    requires var x := db.transactions[t];
             || (x.Waiting? && to == HoldsBinding(x.intent) && lock == BindingLock(hashtext, x.intent))
             || (x.HoldsBinding? && to == HoldsBoth(x.intent) && lock == IdempotencyLock(hashtext, x.intent))
    ensures DatabaseInv(env, hashtext, Advance(db, t, lock, to))
  {
    assert TransactionConsistent(env, hashtext, db, t, db.transactions[t]);
    ReplaceKeeps(env, hashtext, db, db.holders[lock := t], t, to);
  }

  lemma InsertInv(env: Env, hashtext: string -> int, db: Database, t: nat)
    requires DatabaseInv(env, hashtext, db) && t in db.transactions && db.transactions[t].Cleared?
    requires db.transactions[t].intent.effectId !in db.table
    ensures var intent := db.transactions[t].intent;
            DatabaseInv(env, hashtext, End(db.(table := db.table[intent.effectId := intent]), t,
                                           Finished(Ok(Reservation(intent, true, false)))))
  {
    var intent := db.transactions[t].intent;
    assert TransactionConsistent(env, hashtext, db, t, db.transactions[t]);
    hide TransactionConsistent, TableConsistent, Granted, End;
    ClearedIsPending(env, hashtext, db, t);
    InsertKeeps(env, db.table, intent);
    var after := Inserted(db, t);
    assert after == End(db.(table := db.table[intent.effectId := intent]), t,
                        Finished(Ok(Reservation(intent, true, false))));
    InsertedParts(db, t);
    forall u | u in after.transactions
      ensures TransactionConsistent(env, hashtext, after, u, after.transactions[u])
      ensures u != t && Granted(after.transactions[u]) ==>
                after.transactions[u].result.value.intent.effectId != intent.effectId
    {
      if u == t {
        OwnInsert(env, hashtext, db, t);
      } else {
        if db.transactions[u].Cleared? {
          ClearedExcludes(env, hashtext, db, t, u);
        }
        OtherInsert(env, hashtext, db, t, u);
      }
    }
  }

  /** The database after a transaction has inserted its row and ended. */
  ghost function Inserted(db: Database, t: nat): Database
    requires t in db.transactions && db.transactions[t].Cleared?
  {
    var intent := db.transactions[t].intent;
    End(db.(table := db.table[intent.effectId := intent]), t, Finished(Ok(Reservation(intent, true, false))))
  }

  lemma {:induction false} ClearedIsPending(env: Env, hashtext: string -> int, db: Database, t: nat)
    requires t in db.transactions && db.transactions[t].Cleared?
    requires TransactionConsistent(env, hashtext, db, t, db.transactions[t])
    ensures var i := db.transactions[t].intent;
            IsPendingIntent(env, i) && i.status == Pending && 1 <= i.fence && Unmatched(db.table, i)
  {
  }

  lemma {:induction false} InsertedParts(db: Database, t: nat)
    requires t in db.transactions && db.transactions[t].Cleared?
    ensures var i, after := db.transactions[t].intent, Inserted(db, t);
            && after.table == db.table[i.effectId := i]
            && after.transactions == db.transactions[t := Finished(Ok(Reservation(i, true, false)))]
  {
  }

  lemma {:induction false} OwnInsert(env: Env, hashtext: string -> int, db: Database, t: nat)
    requires t in db.transactions && db.transactions[t].Cleared? && db.transactions[t].intent.status == Pending
    ensures var after := Inserted(db, t);
            t in after.transactions && TransactionConsistent(env, hashtext, after, t, after.transactions[t])
  {
    RowEvolvesReflexive(db.transactions[t].intent);
    hide RowEvolves;
  }

  lemma {:induction false} OtherInsert(env: Env, hashtext: string -> int, db: Database, t: nat, u: nat)
    requires t in db.transactions && db.transactions[t].Cleared? && u in db.transactions && u != t
    requires db.transactions[t].intent.effectId !in db.table
    requires TransactionConsistent(env, hashtext, db, u, db.transactions[u])
    requires db.transactions[u].Cleared? ==>
               && !SameIdempotency(db.transactions[t].intent, db.transactions[u].intent)
               && !SameBinding(db.transactions[t].intent, db.transactions[u].intent)
    ensures var after := Inserted(db, t);
            && u in after.transactions
            && TransactionConsistent(env, hashtext, after, u, after.transactions[u])
            && (Granted(after.transactions[u]) ==>
                  after.transactions[u].result.value.intent.effectId != db.transactions[t].intent.effectId)
  {
    hide IsPendingIntent, RowEvolves;
  }

  lemma UpdateInv(env: Env, hashtext: string -> int, db: Database, call: StoreCall)
    requires DatabaseInv(env, hashtext, db)
    ensures DatabaseInv(env, hashtext, db.(table := Perform(env, db.table, call)))
  {
    var after := db.(table := Perform(env, db.table, call));
    PerformKeeps(env, db.table, call);
    PerformAddsNoRow(env, db.table, call);
    forall u | u in after.transactions
      ensures TransactionConsistent(env, hashtext, after, u, after.transactions[u])
    {
      var x := db.transactions[u];
      assert TransactionConsistent(env, hashtext, db, u, x);
      if x.Cleared? {
        UnmatchedSurvives(db.table, after.table, x.intent);
      }
      if Granted(x) {
        var i := x.result.value.intent;
        RowEvolvesTransitive(i, db.table[i.effectId], after.table[i.effectId]);
      }
    }
  }

  lemma HappenInv(env: Env, hashtext: string -> int, db: Database, e: Event)
    requires DatabaseInv(env, hashtext, db)
    ensures DatabaseInv(env, hashtext, Happen(env, hashtext, db, e))
  {
    if e.Update? {
      UpdateInv(env, hashtext, db, e.call);
    } else if e.Open? {
      if e.t !in db.transactions {
        ReplaceKeeps(env, hashtext, db, db.holders, e.t,
                     if IsPendingIntent(env, e.intent) then Waiting(e.intent) else Finished(Err(InvalidArgument)));
      }
    } else if e.t in db.transactions {
      var x := db.transactions[e.t];
      assert TransactionConsistent(env, hashtext, db, e.t, x);
      match e
      case LockBinding(t) =>
        if x.Waiting? && Free(db, BindingLock(hashtext, x.intent), t) {
          AdvanceKeeps(env, hashtext, db, t, BindingLock(hashtext, x.intent), HoldsBinding(x.intent));
        }
      case LockIdempotency(t) =>
        if x.HoldsBinding? && Free(db, IdempotencyLock(hashtext, x.intent), t) {
          AdvanceKeeps(env, hashtext, db, t, IdempotencyLock(hashtext, x.intent), HoldsBoth(x.intent));
        }
      case SelectExisting(t) =>
        if x.HoldsBoth? {
          if Lookup(db.table, x.intent).None? {
            ReplaceKeeps(env, hashtext, db, db.holders, t, Cleared(x.intent));
          } else {
            EndKeeps(env, hashtext, db, t,
                     Finished(Found(db.table[Lookup(db.table, x.intent).value], x.intent)));
          }
        }
      case Insert(t) =>
        if x.Cleared? {
          if x.intent.effectId in db.table {
            EndKeeps(env, hashtext, db, t, Finished(Err(UniqueViolation)));
          } else {
            InsertInv(env, hashtext, db, t);
          }
        }
      case Abort(t) => if !x.Finished? { EndKeeps(env, hashtext, db, t, Aborted); }
    }
  }

  /**
   The step that finishes a transaction answers and changes the table exactly as the atomic reservation
   would at that moment; every other reservation step leaves the table alone.
   */
  lemma FinishIsAtomicReserve(env: Env, hashtext: string -> int, db: Database, e: Event)
    requires DatabaseInv(env, hashtext, db)
    requires e.SelectExisting? || e.Insert?
    requires e.t in db.transactions && !db.transactions[e.t].Finished?
    requires Happen(env, hashtext, db, e).transactions[e.t].Finished?
    ensures var after := Happen(env, hashtext, db, e);
            (after.table, after.transactions[e.t].result)
            == ReserveStep(env, db.table, db.transactions[e.t].intent)
  {
    assert TransactionConsistent(env, hashtext, db, e.t, db.transactions[e.t]);
  }

  ghost function History(env: Env, hashtext: string -> int, db: Database, events: seq<Event>): Database
    decreases |events|
  {
    if events == [] then db
    else Happen(env, hashtext, History(env, hashtext, db, events[..|events| - 1]), events[|events| - 1])
  }

  lemma {:induction false} HistoryInv(env: Env, hashtext: string -> int, events: seq<Event>)
    ensures DatabaseInv(env, hashtext, History(env, hashtext, Database(map[], map[], map[]), events))
    decreases |events|
  {
    if events != [] {
      var init := events[..|events| - 1];
      HistoryInv(env, hashtext, init);
      HappenInv(env, hashtext, History(env, hashtext, Database(map[], map[], map[]), init), events[|events| - 1]);
    }
  }

  /**
   Over any interleaving of transactions, aborts and updates, two reservations of one tenant that were both
   told to call the provider differ in both keys, whatever lock numbers collide.
   */
  lemma GrantedOncePerKey(env: Env, hashtext: string -> int, events: seq<Event>, t: nat, u: nat)
    requires var db := History(env, hashtext, Database(map[], map[], map[]), events);
             && t in db.transactions && u in db.transactions && t != u
             && Granted(db.transactions[t]) && Granted(db.transactions[u])
    ensures var db := History(env, hashtext, Database(map[], map[], map[]), events);
            var a, b := db.transactions[t].result.value.intent, db.transactions[u].result.value.intent;
            !SameIdempotency(a, b) && !SameBinding(a, b)
  {
    var db := History(env, hashtext, Database(map[], map[], map[]), events);
    HistoryInv(env, hashtext, events);
    assert TransactionConsistent(env, hashtext, db, t, db.transactions[t]);
    assert TransactionConsistent(env, hashtext, db, u, db.transactions[u]);
    var a, b := db.transactions[t].result.value.intent.effectId, db.transactions[u].result.value.intent.effectId;
    assert !SameIdempotency(db.table[a], db.table[b]) && !SameBinding(db.table[a], db.table[b]);
  }
}
