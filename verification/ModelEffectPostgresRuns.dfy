/**
 The program `execute` over the PostgreSQL store. The callers are those of `ModelEffect`, except that a reservation
 is a transaction of several steps, interleaved with everything else, and a transaction ends with its caller. Every
 such execution is an execution with atomic reservations, so its results carry over.
 */
module ModelEffectPostgresRuns {
  import opened Prelude
  import opened ModelEffectStore
  import opened ModelEffect
  import opened ModelEffectPostgres

  /** The protocol state with the locks and transactions; transaction `c` belongs to caller `c`. */
  datatype Execution = Execution(s: System, holders: map<int, nat>, transactions: map<nat, Transaction>)

  datatype Happening = Reserving(e: Event) | Acting(a: Action)

  function Db(x: Execution): Database {
    Database(x.s.table, x.holders, x.transactions)
  }

  predicate Reservable(x: Execution, e: Event) {
    && !e.Update? && e.t in x.s.callers && x.s.callers[e.t].Prepared?
    && (e.Open? ==> e.intent == x.s.callers[e.t].intent)
  }

  predicate Ended(transactions: map<nat, Transaction>, t: nat) {
    t in transactions && (transactions[t].Finished? || transactions[t].Aborted?)
  }

  /** The caller learns how its transaction ended; when that is aborted, the caller is gone. */
  function Informed(s: System, t: nat, x: Transaction): System
    requires t in s.callers && s.callers[t].Prepared?
  {
    match x
    case Finished(r) => Move(s, t, AfterReservation(r, s.callers[t].descriptor))
    case Aborted => Move(s, t, Crashed)
    case _ => s
  }

  ghost function Next(d: Derivation, hashtext: string -> int, x: Execution, h: Happening): Execution {
    match h
    case Acting(a) => if a.Reserve? then x else x.(s := Step(d, x.s, a))
    case Reserving(e) =>
      if Reservable(x, e) && !Ended(x.transactions, e.t) then
        var db := Happen(d.store, hashtext, Db(x), e);
        if e.t in db.transactions
        then Execution(Informed(x.s.(table := db.table), e.t, db.transactions[e.t]), db.holders, db.transactions)
        else x
      else if e.Abort? && e.t in x.transactions && !Ended(x.transactions, e.t) then
        var db := Happen(d.store, hashtext, Db(x), e);
        x.(holders := db.holders, transactions := db.transactions)
      else x
  }

  ghost function Executed(d: Derivation, hashtext: string -> int, happenings: seq<Happening>): Execution {
    if happenings == [] then Execution(Initial, map[], map[])
    else Next(d, hashtext, Executed(d, hashtext, happenings[..|happenings| - 1]), happenings[|happenings| - 1])
  }

  /** The action of the atomic protocol that a happening amounts to, if it is visible there at all. */
  ghost function Meaning(d: Derivation, hashtext: string -> int, x: Execution, h: Happening): seq<Action> {
    match h
    case Acting(a) => if a.Reserve? then [] else [a]
    case Reserving(e) =>
      if Reservable(x, e) && !Ended(x.transactions, e.t) then
        var after := Happen(d.store, hashtext, Db(x), e).transactions;
        if e.t in after && after[e.t].Finished? then [Reserve(e.t)]
        else if e.t in after && after[e.t].Aborted? then [Crash(e.t)]
        else []
      else []
  }

  ghost predicate ExecutionInv(d: Derivation, hashtext: string -> int, x: Execution) {
    && DatabaseInv(d.store, hashtext, Db(x))
    && (forall t | t in x.transactions && !Ended(x.transactions, t) ::
          t in x.s.callers && (x.s.callers[t].Prepared? ==> x.transactions[t].intent == x.s.callers[t].intent))
  }

  // ---------------------------------------------------------------- the database under the other actions

  /** Every other action changes the table like one of the store's own updates, or not at all. */
  lemma {:induction false} ActionUpdates(d: Derivation, s: System, a: Action)
    requires !a.Reserve?
    ensures Step(d, s, a).table == s.table || exists call :: Step(d, s, a).table == Perform(d.store, s.table, call)
  {
    match a
    case CommitResult(c, now, fault) =>
      if c in s.callers && s.callers[c].Completing? {
        CommitUpdates(d, s, c, now, fault);
      }
    case RecordUnknown(c, now, fault) =>
      if c in s.callers && s.callers[c].Marking? {
        RecordUpdates(d, s, c, now, fault);
      }
    case Other(call) => assert Step(d, s, a).table == Perform(d.store, s.table, call);
    case _ =>
  }

  lemma {:induction false} CommitUpdates(d: Derivation, s: System, c: nat, now: string, fault: ModelEffect.Fault)
    requires c in s.callers && s.callers[c].Completing?
    ensures var after := CommitAction(d, s, c, now, fault).table;
            after == s.table || exists call :: after == Perform(d.store, s.table, call)
  {
    var Completing(i, text, receipt) := s.callers[c];
    hide Complete;
    var call := DoComplete(now, i.tenantId, i.effectId, i.fence, text, receipt);
    assert CommitAction(d, s, c, now, fault).table == s.table
           || CommitAction(d, s, c, now, fault).table == Perform(d.store, s.table, call);
  }

  lemma {:induction false} RecordUpdates(d: Derivation, s: System, c: nat, now: string, fault: ModelEffect.Fault)
    requires c in s.callers && s.callers[c].Marking?
    ensures var after := RecordAction(d, s, c, now, fault).table;
            after == s.table || exists call :: after == Perform(d.store, s.table, call)
  {
    var Marking(i, reason) := s.callers[c];
    hide MarkUnknown;
    var call := DoMarkUnknown(now, i.tenantId, i.effectId, i.fence, reason);
    assert RecordAction(d, s, c, now, fault).table == s.table
           || RecordAction(d, s, c, now, fault).table == Perform(d.store, s.table, call);
  }

  lemma {:induction false} ActingKeeps(d: Derivation, hashtext: string -> int, x: Execution, a: Action)
    requires ExecutionInv(d, hashtext, x) && !a.Reserve?
    ensures ExecutionInv(d, hashtext, x.(s := Step(d, x.s, a)))
  {
    hide Perform, DatabaseInv, Step;
    var after := x.(s := Step(d, x.s, a));
    ActionUpdates(d, x.s, a);
    if after.s.table != x.s.table {
      var call :| after.s.table == Perform(d.store, x.s.table, call);
      UpdateInv(d.store, hashtext, Db(x), call);
      assert Db(after) == Db(x).(table := Perform(d.store, x.s.table, call));
    } else {
      assert Db(after) == Db(x);
    }
    forall t | t in after.transactions && !Ended(after.transactions, t)
      ensures t in after.s.callers
      ensures after.s.callers[t].Prepared? ==> after.transactions[t].intent == after.s.callers[t].intent
    {
      CallersStay(d, x.s, a, t);
    }
  }

  /** Callers are never forgotten, and only the first action of a caller prepares it. */
  lemma {:induction false} CallersStay(d: Derivation, s: System, a: Action, t: nat)
    requires t in s.callers
    ensures t in Step(d, s, a).callers
    ensures Step(d, s, a).callers[t].Prepared? ==> Step(d, s, a).callers[t] == s.callers[t]
  {
    if !ActsFor(a, t) {
      OthersStay(d, s, a, t);
    }
  }

  // ---------------------------------------------------------------- the steps of a reservation

  lemma {:induction false} HappenLocal(env: Env, hashtext: string -> int, db: Database, e: Event)
    requires !e.Update? && !Ended(db.transactions, e.t)
    ensures var after := Happen(env, hashtext, db, e);
            && (forall u | u != e.t :: u in after.transactions <==> u in db.transactions)
            && (forall u | u != e.t && u in db.transactions :: after.transactions[u] == db.transactions[u])
            && (e.t in after.transactions && !Ended(after.transactions, e.t) ==>
                  && after.table == db.table
                  && after.transactions[e.t].intent
                     == if e.t in db.transactions then db.transactions[e.t].intent else e.intent)
            && (e.t in after.transactions && after.transactions[e.t].Aborted? ==> after.table == db.table)
            && (e.t in db.transactions ==> e.t in after.transactions)
            && (e.t !in db.transactions && e.t in after.transactions ==> e.Open? && after.table == db.table)
  {
    hide Lookup;
  }

  /** Whatever ends a transaction ends it with the answer and the table of the atomic reservation. */
  lemma {:induction false} EndIsReserve(env: Env, hashtext: string -> int, db: Database, e: Event)
    requires DatabaseInv(env, hashtext, db) && !e.Update? && !Ended(db.transactions, e.t)
    requires e.t in Happen(env, hashtext, db, e).transactions && Happen(env, hashtext, db, e).transactions[e.t].Finished?
    ensures var after := Happen(env, hashtext, db, e);
            var intent := if e.t in db.transactions then db.transactions[e.t].intent else e.intent;
            (after.table, after.transactions[e.t].result) == ReserveStep(env, db.table, intent)
  {
    hide Lookup;
    if e.t in db.transactions {
      assert e.SelectExisting? || e.Insert?;
      FinishIsAtomicReserve(env, hashtext, db, e);
    }
  }

  /** One step of an execution is the action it means, or invisible. */
  lemma {:induction false} ReservingMeans(d: Derivation, hashtext: string -> int, x: Execution, e: Event)
    requires ExecutionInv(d, hashtext, x) && Reservable(x, e) && !Ended(x.transactions, e.t)
    ensures var next := Next(d, hashtext, x, Reserving(e));
            var meaning := Meaning(d, hashtext, x, Reserving(e));
            && ExecutionInv(d, hashtext, next)
            && next.s == if meaning == [] then x.s else Step(d, x.s, meaning[0])
  {
    hide Happen, DatabaseInv, ReserveStep, Informed, Step, Next, Meaning;
    var db := Db(x);
    HappenInv(d.store, hashtext, db, e);
    HappenLocal(d.store, hashtext, db, e);
    NextIs(d, hashtext, x, e);
    var after := Happen(d.store, hashtext, db, e);
    if e.t in after.transactions {
      InformedIs(x.s.(table := after.table), e.t, after.transactions[e.t]);
      if after.transactions[e.t].Finished? {
        EndIsReserve(d.store, hashtext, db, e);
        ReserveInforms(d, x.s, e.t);
      } else if after.transactions[e.t].Aborted? {
        CrashIs(d, x.s, e.t);
      }
      assert Db(Next(d, hashtext, x, Reserving(e))) == after;
    }
  }

  lemma {:induction false} NextIs(d: Derivation, hashtext: string -> int, x: Execution, e: Event)
    requires Reservable(x, e) && !Ended(x.transactions, e.t)
    ensures var after := Happen(d.store, hashtext, Db(x), e);
            var next, meaning := Next(d, hashtext, x, Reserving(e)), Meaning(d, hashtext, x, Reserving(e));
            if e.t in after.transactions then
              && next == Execution(Informed(x.s.(table := after.table), e.t, after.transactions[e.t]), after.holders,
                                   after.transactions)
              && meaning == (if after.transactions[e.t].Finished? then [Reserve(e.t)]
                             else if after.transactions[e.t].Aborted? then [Crash(e.t)] else [])
            else next == x && meaning == []
  {
    hide Happen, Informed;
  }

  lemma {:induction false} InformedIs(s: System, t: nat, x: Transaction)
    requires t in s.callers && s.callers[t].Prepared?
    ensures var after := Informed(s, t, x);
            && after.table == s.table
            && (forall u | u != t :: (u in after.callers <==> u in s.callers) && (u in s.callers ==> after.callers[u] == s.callers[u]))
            && t in after.callers
            && (!x.Finished? && !x.Aborted? ==> after == s)
            && (x.Finished? ==> after == Move(s, t, AfterReservation(x.result, s.callers[t].descriptor)))
            && (x.Finished? || x.Aborted? ==> !after.callers[t].Prepared?)
            && (x.Aborted? ==> after == Move(s, t, Crashed))
  {
  }

  lemma {:induction false} ReserveInforms(d: Derivation, s: System, t: nat)
    requires t in s.callers && s.callers[t].Prepared?
    ensures var (table, r) := ReserveStep(d.store, s.table, s.callers[t].intent);
            Step(d, s, Reserve(t)) == Move(s.(table := table), t, AfterReservation(r, s.callers[t].descriptor))
  {
    hide ReserveStep, AfterReservation;
    assert Step(d, s, Reserve(t)) == ReserveAction(d, s, t);
  }

  lemma {:induction false} CrashIs(d: Derivation, s: System, t: nat)
    requires t in s.callers && s.callers[t].Prepared?
    ensures Step(d, s, Crash(t)) == Move(s, t, Crashed)
  {
  }

  lemma {:induction false} StepMeans(d: Derivation, hashtext: string -> int, x: Execution, h: Happening)
    requires ExecutionInv(d, hashtext, x)
    ensures var next := Next(d, hashtext, x, h);
            var meaning := Meaning(d, hashtext, x, h);
            && |meaning| <= 1
            && ExecutionInv(d, hashtext, next)
            && next.s == if meaning == [] then x.s else Step(d, x.s, meaning[0])
  {
    match h
    case Acting(a) =>
      if !a.Reserve? {
        ActingKeeps(d, hashtext, x, a);
      }
    case Reserving(e) =>
      if Reservable(x, e) && !Ended(x.transactions, e.t) {
        ReservingMeans(d, hashtext, x, e);
      } else if e.Abort? && e.t in x.transactions && !Ended(x.transactions, e.t) {
        hide Happen, DatabaseInv;
        HappenInv(d.store, hashtext, Db(x), e);
        HappenLocal(d.store, hashtext, Db(x), e);
        AbortKeepsTable(d.store, hashtext, Db(x), e.t);
        assert Db(Next(d, hashtext, x, h)) == Happen(d.store, hashtext, Db(x), e);
      }
  }

  lemma {:induction false} AbortKeepsTable(env: Env, hashtext: string -> int, db: Database, t: nat)
    ensures Happen(env, hashtext, db, Abort(t)).table == db.table
    ensures t in db.transactions && !db.transactions[t].Finished? ==>
      t in Happen(env, hashtext, db, Abort(t)).transactions && Happen(env, hashtext, db, Abort(t)).transactions[t] == Aborted
  {
  }

  /** The atomic protocol run that an execution amounts to. */
  ghost function Abstracted(d: Derivation, hashtext: string -> int, happenings: seq<Happening>): seq<Action> {
    if happenings == [] then []
    else
      Abstracted(d, hashtext, happenings[..|happenings| - 1])
      + Meaning(d, hashtext, Executed(d, hashtext, happenings[..|happenings| - 1]), happenings[|happenings| - 1])
  }

  /** Every execution over PostgreSQL reaches the protocol state of a run with atomic reservations. */
  lemma {:induction false} ExecutionIsRun(d: Derivation, hashtext: string -> int, happenings: seq<Happening>)
    ensures ExecutionInv(d, hashtext, Executed(d, hashtext, happenings))
    ensures Executed(d, hashtext, happenings).s == Run(d, Initial, Abstracted(d, hashtext, happenings))
    decreases |happenings|
  {
    hide Meaning, Next, ExecutionInv;
    if happenings == [] {
      assert ExecutionInv(d, hashtext, Executed(d, hashtext, [])) by { StartHolds(d, hashtext); }
    } else {
      var n := |happenings| - 1;
      var x, actions := Executed(d, hashtext, happenings[..n]), Abstracted(d, hashtext, happenings[..n]);
      ExecutionIsRun(d, hashtext, happenings[..n]);
      StepMeans(d, hashtext, x, happenings[n]);
      var meaning := Meaning(d, hashtext, x, happenings[n]);
      if meaning == [] {
        assert actions + meaning == actions;
      } else {
        assert meaning == [meaning[0]];
        RunSnoc(d, Initial, actions, meaning[0]);
      }
    }
  }

  lemma {:induction false} StartHolds(d: Derivation, hashtext: string -> int)
    ensures ExecutionInv(d, hashtext, Execution(Initial, map[], map[]))
  {
  }

  /** At most one paid call per key and per binding over the PostgreSQL store as well. */
  lemma {:induction false} AtMostOneCallOnPostgres(d: Derivation, hashtext: string -> int, happenings: seq<Happening>,
                                                   i: nat, j: nat)
    requires i < j < |Executed(d, hashtext, happenings).s.calls|
    ensures var calls := Executed(d, hashtext, happenings).s.calls;
            calls[i].tenantId == calls[j].tenantId ==>
              && calls[i].idempotencyDigest != calls[j].idempotencyDigest
              && calls[i].bindingDigest != calls[j].bindingDigest
  {
    hide Executed, Run;
    ExecutionIsRun(d, hashtext, happenings);
    AtMostOneCall(d, Abstracted(d, hashtext, happenings), i, j);
  }

  /** And what `execute` returns is the durable row there, too. */
  lemma {:induction false} ReturnedIsDurableOnPostgres(d: Derivation, hashtext: string -> int,
                                                       happenings: seq<Happening>, caller: nat)
    ensures var s := Executed(d, hashtext, happenings).s;
            caller in s.callers && s.callers[caller].Returned? ==>
              var result := s.callers[caller].result;
              && result.effectId in s.table && s.table[result.effectId].status == Succeeded
              && result == FromIntent(s.table[result.effectId], result.replayed)
  {
    hide Executed, Run;
    ExecutionIsRun(d, hashtext, happenings);
    var s := Executed(d, hashtext, happenings).s;
    if caller in s.callers && s.callers[caller].Returned? {
      ReturnedIsDurable(d, Abstracted(d, hashtext, happenings), caller);
    }
  }
}
