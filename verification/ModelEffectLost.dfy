/**
 Effects whose outcome nobody will record any more: when a pending row can still be settled through the public
 interface, and by which steps that chance is lost.
 */
module ModelEffectLost {
  import opened Prelude
  import opened ModelEffectStore
  import opened ModelEffect

  /** A caller between its reservation of this row and its last step. */
  predicate Holds(caller: Caller, effectId: string) {
    && (caller.Executable? || caller.Completing? || caller.Reading? || caller.Marking?)
    && caller.intent.effectId == effectId
  }

  ghost predicate Held(s: System, effectId: string) {
    exists c :: c in s.callers && Holds(s.callers[c], effectId)
  }

  ghost predicate PendingRow(s: System, effectId: string) {
    effectId in s.table && s.table[effectId].status == Pending
  }

  /** Stored identities are valid. */
  ghost predicate IdentitiesValid(table: Table) {
    forall id | id in table ::
      IsIdentifier(table[id].tenantId) && IsIdentifier(table[id].effectId) && table[id].fence >= 1
  }

  /** Reasons are the program's own. */
  ghost predicate ReasonsValid(s: System) {
    forall c | c in s.callers && s.callers[c].Marking? :: IsReason(s.callers[c].reason)
  }

  /** No two callers hold one row. */
  ghost predicate HeldOnce(s: System) {
    forall b, c, id | b in s.callers && c in s.callers && Holds(s.callers[b], id) && Holds(s.callers[c], id) :: b == c
  }

  lemma {:induction false} ProgramReasons()
    ensures IsReason("provider_outcome_unknown")
    ensures IsReason("provider_receipt_invalid")
    ensures IsReason("result_persistence_uncertain")
  {
  }

  /** A caller that holds a row after a step held it before, unless the step inserted the row for it. */
  lemma {:induction false} HoldsBefore(d: Derivation, s: System, a: Action, c: nat, id: string)
    requires Inv(d, s) && c in Step(d, s, a).callers && Holds(Step(d, s, a).callers[c], id)
    ensures || (c in s.callers && Holds(s.callers[c], id))
            || (a.Reserve? && a.caller == c && id !in s.table)
  {
    if !ActsFor(a, c) {
      hide Step, Inv;
      OthersStay(d, s, a, c);
    } else if c in s.callers {
      ActedHolds(d, s, a, c, id);
    }
  }

  lemma {:induction false} ActedHolds(d: Derivation, s: System, a: Action, c: nat, id: string)
    requires Inv(d, s) && c in s.callers && ActsFor(a, c)
    requires c in Step(d, s, a).callers && Holds(Step(d, s, a).callers[c], id)
    ensures Holds(s.callers[c], id) || (a.Reserve? && id !in s.table)
  {
    hide RowEvolves, Called, ReceiptAccepted, DurableReceipt, Complete, MarkUnknown;
    var k := s.callers[c];
    if a.Reserve? && k.Prepared? {
      ReserveKeeps(d.store, s.table, k.intent);
      assert Step(d, s, a) == ReserveAction(d, s, c);
    } else if a.CallProvider? && k.Executable? {
      assert Step(d, s, a) == CallAction(d, s, c, a.reply);
    } else if a.CommitResult? && k.Completing? {
      assert Step(d, s, a) == CommitAction(d, s, c, a.now, a.fault);
    }
  }

  lemma {:induction false} HeldOnceStep(d: Derivation, s: System, a: Action)
    requires Inv(d, s) && HeldOnce(s)
    ensures HeldOnce(Step(d, s, a))
  {
    hide Step, TableConsistent;
    var after := Step(d, s, a);
    forall b, c, id | b in after.callers && c in after.callers && Holds(after.callers[b], id) && Holds(after.callers[c], id)
      ensures b == c
    {
      HoldsBefore(d, s, a, b, id);
      HoldsBefore(d, s, a, c, id);
      HolderOwns(d, s, b, id);
      HolderOwns(d, s, c, id);
    }
  }

  lemma {:induction false} HolderOwns(d: Derivation, s: System, c: nat, id: string)
    requires Inv(d, s)
    ensures c in s.callers && Holds(s.callers[c], id) ==>
              Owns(s.table, s.callers[c].intent) && (s.callers[c].Reading? ==> s.table[id].status == Succeeded)
  {
    hide TableConsistent, Called, RowEvolves;
    if c in s.callers && Holds(s.callers[c], id) {
      assert CallerConsistent(s, s.callers[c]);
    }
  }

  lemma {:induction false} ReasonsStep(d: Derivation, s: System, a: Action)
    requires ReasonsValid(s)
    ensures ReasonsValid(Step(d, s, a))
  {
    ProgramReasons();
    hide IsReason;
    var after := Step(d, s, a);
    forall c | c in after.callers && after.callers[c].Marking? ensures IsReason(after.callers[c].reason) {
      if !ActsFor(a, c) {
        OthersStay(d, s, a, c);
      }
    }
  }

  lemma {:induction false} IdentitiesStep(d: Derivation, s: System, a: Action)
    requires Inv(d, s) && IdentitiesValid(s.table)
    ensures IdentitiesValid(Step(d, s, a).table)
  {
    hide IsIdentifier, Step, Inv;
    var after := Step(d, s, a);
    StepInv(d, s, a);
    forall id | id in after.table
      ensures IsIdentifier(after.table[id].tenantId) && IsIdentifier(after.table[id].effectId) && after.table[id].fence >= 1
    {
      if id in s.table {
        IdentityStays(s.table[id], after.table[id]);
      } else {
        InsertedIsValid(d, s, a, id);
      }
    }
  }

  lemma {:induction false} IdentityStays(before: Intent, after: Intent)
    requires RowEvolves(before, after)
    ensures after.tenantId == before.tenantId && after.effectId == before.effectId && after.fence >= before.fence
  {
  }

  lemma {:induction false} InsertedIsValid(d: Derivation, s: System, a: Action, id: string)
    requires Inv(d, s) && id !in s.table && id in Step(d, s, a).table
    ensures var row := Step(d, s, a).table[id];
            IsIdentifier(row.tenantId) && IsIdentifier(row.effectId) && row.fence >= 1
  {
    hide IsIdentifier, Inv;
    TableGrowsByReserve(d, s, a, id);
    assert Step(d, s, a) == ReserveAction(d, s, a.caller);
  }

  /** Every reachable state has valid identities and reasons, and at most one holder of each row. */
  lemma {:induction false} Reachable(d: Derivation, actions: seq<Action>)
    ensures var s := Run(d, Initial, actions);
            Inv(d, s) && IdentitiesValid(s.table) && ReasonsValid(s) && HeldOnce(s)
    decreases |actions|
  {
    hide Inv, IdentitiesValid, ReasonsValid, HeldOnce, Step;
    assert Inv(d, Initial) && IdentitiesValid(map[]) && ReasonsValid(Initial) && HeldOnce(Initial) by { StartsWell(d); }
    if actions != [] {
      var n := |actions| - 1;
      Reachable(d, actions[..n]);
      var s := Run(d, Initial, actions[..n]);
      StepInv(d, s, actions[n]);
      IdentitiesStep(d, s, actions[n]);
      ReasonsStep(d, s, actions[n]);
      HeldOnceStep(d, s, actions[n]);
    }
  }

  lemma {:induction false} StartsWell(d: Derivation)
    ensures Inv(d, Initial) && IdentitiesValid(map[]) && ReasonsValid(Initial) && HeldOnce(Initial)
  {
  }

  // ---------------------------------------------------------------- settling a pending row

  predicate AllPublic(actions: seq<Action>) {
    forall i | 0 <= i < |actions| :: PublicAction(actions[i])
  }

  /** Some use of the public interface, with whatever replies and timing, gets the row out of its pending state. */
  ghost predicate CanBeSettled(d: Derivation, s: System, effectId: string) {
    exists actions: seq<Action> :: AllPublic(actions) && !PendingRow(Run(d, s, actions), effectId)
  }

  lemma {:induction false} OwnedPending(d: Derivation, s: System, c: nat, id: string)
    requires Inv(d, s) && IdentitiesValid(s.table) && c in s.callers
    requires Holds(s.callers[c], id) && PendingRow(s, id)
    ensures var i := s.callers[c].intent;
            && !s.callers[c].Reading?
            && s.table[i.effectId].tenantId == i.tenantId && s.table[i.effectId].runId == i.runId
            && s.table[i.effectId].fence == i.fence && i.fence >= 1
            && IsIdentifier(i.tenantId) && IsIdentifier(i.effectId)
  {
    hide IsIdentifier, TableConsistent, Called;
    assert CallerConsistent(s, s.callers[c]);
    assert s.table[s.callers[c].intent.effectId].effectId == s.callers[c].intent.effectId;
  }

  /** Recording an unknown outcome takes the row out of the pending state unless the write is lost. */
  lemma {:induction false} MarkingSettles(d: Derivation, s: System, c: nat, now: string, fault: Fault)
    requires Inv(d, s) && IdentitiesValid(s.table) && ReasonsValid(s)
    requires c in s.callers && s.callers[c].Marking? && PendingRow(s, s.callers[c].intent.effectId)
    ensures var id, after := s.callers[c].intent.effectId, Step(d, s, RecordUnknown(c, now, fault));
            && (PendingRow(after, id) <==> fault == LostBeforeCommit)
            && (PendingRow(after, id) ==> after == Move(s, c, Raised))
  {
    var Marking(intent, reason) := s.callers[c];
    OwnedPending(d, s, c, intent.effectId);
    hide Inv, IdentitiesValid, IsIdentifier, IsReason;
    assert IsReason(reason);
    assert Step(d, s, RecordUnknown(c, now, fault)) == RecordAction(d, s, c, now, fault);
  }

  /** The steps by which a holder settles its row. */
  function SettlingSteps(caller: Caller, c: nat, now: string): seq<Action> {
    (if caller.Executable? then [CallProvider(c, ProviderError)]
     else if caller.Completing? then [CommitResult(c, now, LostBeforeCommit)]
     else []) + [RecordUnknown(c, now, NoFault)]
  }

  lemma {:induction false} HolderSettles(d: Derivation, s: System, c: nat, id: string, now: string)
    requires Inv(d, s) && IdentitiesValid(s.table) && ReasonsValid(s)
    requires c in s.callers && Holds(s.callers[c], id) && PendingRow(s, id)
    ensures AllPublic(SettlingSteps(s.callers[c], c, now))
    ensures !PendingRow(Run(d, s, SettlingSteps(s.callers[c], c, now)), id)
  {
    var k := s.callers[c];
    OwnedPending(d, s, c, id);
    hide Inv, IdentitiesValid, ReasonsValid, Step;
    if k.Marking? {
      MarkingSettles(d, s, c, now, NoFault);
      RunSnoc(d, s, [], RecordUnknown(c, now, NoFault));
      assert SettlingSteps(k, c, now) == [] + [RecordUnknown(c, now, NoFault)];
    } else {
      var a := if k.Executable? then CallProvider(c, ProviderError) else CommitResult(c, now, LostBeforeCommit);
      var next := Step(d, s, a);
      StepsToMarking(d, s, c, now);
      StepInv(d, s, a);
      ReasonsStep(d, s, a);
      MarkingSettles(d, next, c, now, NoFault);
      RunSnoc(d, s, [], a);
      RunSnoc(d, s, [] + [a], RecordUnknown(c, now, NoFault));
      assert SettlingSteps(k, c, now) == [] + [a] + [RecordUnknown(c, now, NoFault)];
    }
  }

  lemma {:induction false} StepsToMarking(d: Derivation, s: System, c: nat, now: string)
    requires c in s.callers && (s.callers[c].Executable? || s.callers[c].Completing?)
    ensures var k := s.callers[c];
            var a := if k.Executable? then CallProvider(c, ProviderError) else CommitResult(c, now, LostBeforeCommit);
            var next := Step(d, s, a);
            next.table == s.table && c in next.callers && next.callers[c].Marking? && next.callers[c].intent == k.intent
  {
    hide Complete;
  }

  lemma {:induction false} NotHeldIsLost(d: Derivation, s: System, id: string)
    requires Inv(d, s) && PendingRow(s, id)
    ensures Lost(s, id) <==> !Held(s, id)
  {
    hide Inv;
    forall c | c in s.callers && Holds(s.callers[c], id) ensures !s.callers[c].Reading? {
      HolderOwns(d, s, c, id);
    }
  }

  /**
   In every reachable state, a pending row can still leave its pending state through the public interface if and
   only if a caller holds it that has neither crashed nor ended.
   */
  lemma {:induction false} CanBeSettledIffHeld(d: Derivation, earlier: seq<Action>, effectId: string)
    ensures var s := Run(d, Initial, earlier);
            PendingRow(s, effectId) ==> (CanBeSettled(d, s, effectId) <==> Held(s, effectId))
  {
    hide Inv, IdentitiesValid, ReasonsValid, HeldOnce, Step, Run;
    var s := Run(d, Initial, earlier);
    Reachable(d, earlier);
    if PendingRow(s, effectId) {
      NotHeldIsLost(d, s, effectId);
      if Held(s, effectId) {
        var c :| c in s.callers && Holds(s.callers[c], effectId);
        HolderSettles(d, s, c, effectId, "");
        assert CanBeSettled(d, s, effectId);
      } else {
        forall actions: seq<Action> | AllPublic(actions) ensures PendingRow(Run(d, s, actions), effectId) {
          LostReservationStaysPending(d, s, actions, effectId);
        }
      }
    }
  }

  // ---------------------------------------------------------------- how the chance is lost

  /** The steps that end a holder's work with its row pending: a crash, an escaped error, a lost last write. */
  predicate GivesUp(a: Action, caller: Caller, c: nat) {
    || (a.Crash? && a.caller == c)
    || (a.CallProvider? && a.caller == c && caller.Executable? && a.reply.Escaped?)
    || (a.RecordUnknown? && a.caller == c && caller.Marking? && a.fault == LostBeforeCommit)
  }

  lemma {:induction false} GivingUpLoses(d: Derivation, s: System, a: Action, c: nat, id: string)
    requires Inv(d, s) && IdentitiesValid(s.table) && ReasonsValid(s) && HeldOnce(s)
    requires PendingRow(s, id) && c in s.callers && Holds(s.callers[c], id) && GivesUp(a, s.callers[c], c)
    ensures PendingRow(Step(d, s, a), id) && !Held(Step(d, s, a), id)
  {
    var after := Step(d, s, a);
    HolderOwns(d, s, c, id);
    if a.RecordUnknown? {
      MarkingSettles(d, s, c, a.now, a.fault);
    } else {
      assert after.table == s.table && (after.callers[c].Raised? || after.callers[c].Crashed?) by { GivenUp(d, s, a, c); }
    }
    hide Inv, IdentitiesValid, ReasonsValid, Step;
    forall b | b in after.callers ensures !Holds(after.callers[b], id) {
      if Holds(after.callers[b], id) {
        HoldsBefore(d, s, a, b, id);
      }
    }
  }

  lemma {:induction false} GivenUp(d: Derivation, s: System, a: Action, c: nat)
    requires c in s.callers && GivesUp(a, s.callers[c], c) && !a.RecordUnknown? && Active(s.callers[c])
    ensures var after := Step(d, s, a);
            after.table == s.table && c in after.callers && (after.callers[c].Raised? || after.callers[c].Crashed?)
  {
  }

  lemma {:induction false} HolderGoesOn(d: Derivation, s: System, a: Action, c: nat, id: string)
    requires Inv(d, s) && IdentitiesValid(s.table) && ReasonsValid(s)
    requires PendingRow(s, id) && c in s.callers && Holds(s.callers[c], id) && !GivesUp(a, s.callers[c], c)
    ensures PendingRow(Step(d, s, a), id) ==> Held(Step(d, s, a), id)
  {
    var after := Step(d, s, a);
    HolderOwns(d, s, c, id);
    if !ActsFor(a, c) {
      OthersStay(d, s, a, c);
      assert PendingRow(after, id) ==> Holds(after.callers[c], id);
    } else if a.RecordUnknown? && s.callers[c].Marking? {
      MarkingSettles(d, s, c, a.now, a.fault);
    } else {
      StaysHeld(d, s, a, c, id);
    }
  }

  lemma {:induction false} StaysHeld(d: Derivation, s: System, a: Action, c: nat, id: string)
    requires c in s.callers && Holds(s.callers[c], id) && !s.callers[c].Reading? && !GivesUp(a, s.callers[c], c)
    requires ActsFor(a, c) && !(a.RecordUnknown? && s.callers[c].Marking?)
    ensures c in Step(d, s, a).callers && Holds(Step(d, s, a).callers[c], id)
  {
    hide Complete, ReceiptAccepted, DurableReceipt;
  }

  /**
   A held pending row is lost by exactly three kinds of step of its holder: a crash, an error out of the gateway
   that is no provider error, and a last write that does not commit. After the last two nobody has crashed, and
   the provider may have been paid.
   */
  lemma {:induction false} LostExactlyByGivingUp(d: Derivation, earlier: seq<Action>, a: Action, c: nat, effectId: string)
    ensures var s := Run(d, Initial, earlier);
            var after := Step(d, s, a);
            PendingRow(s, effectId) && c in s.callers && Holds(s.callers[c], effectId) ==>
              (PendingRow(after, effectId) && !Held(after, effectId) <==> GivesUp(a, s.callers[c], c))
  {
    hide Inv, IdentitiesValid, ReasonsValid, HeldOnce, Step, Run;
    var s := Run(d, Initial, earlier);
    Reachable(d, earlier);
    if PendingRow(s, effectId) && c in s.callers && Holds(s.callers[c], effectId) {
      if GivesUp(a, s.callers[c], c) {
        GivingUpLoses(d, s, a, c, effectId);
      } else {
        HolderGoesOn(d, s, a, c, effectId);
      }
    }
  }

  // ---------------------------------------------------------------- both happen

  /** The first two steps of any acceptable command on the empty table. */
  lemma {:induction false} Reserved(d: Derivation, command: Command, descriptor: Descriptor, now: string)
    requires IsCommand(d, command) && IsPendingIntent(d.store, BuildIntent(d, command, descriptor, now))
    ensures var intent := BuildIntent(d, command, descriptor, now);
            Run(d, Initial, [Begin(0, command, true, Some(descriptor), now), Reserve(0)])
            == System(map[intent.effectId := intent], map[0 := Executable(intent, descriptor)], [])
  {
    hide IsCommand, IsPendingIntent, BuildIntent, Lookup;
    var intent := BuildIntent(d, command, descriptor, now);
    var first, second := Begin(0, command, true, Some(descriptor), now), Reserve(0);
    RunSnoc(d, Initial, [], first);
    RunSnoc(d, Initial, [] + [first], second);
    assert [first, second] == [] + [first] + [second];
    assert Step(d, Initial, first) == System(map[], map[0 := Prepared(intent, descriptor)], []);
    assert ReserveStep(d.store, map[], intent) == (map[intent.effectId := intent], Ok(Reservation(intent, true, false)));
  }

  /** A crash right after the reservation leaves a pending row that nobody holds and nobody paid for. */
  lemma {:induction false} CrashLosesRow(d: Derivation, command: Command, descriptor: Descriptor, now: string)
    requires IsCommand(d, command) && IsPendingIntent(d.store, BuildIntent(d, command, descriptor, now))
    ensures var s := Run(d, Initial, [Begin(0, command, true, Some(descriptor), now), Reserve(0), Crash(0)]);
            var id := BuildIntent(d, command, descriptor, now).effectId;
            PendingRow(s, id) && !Held(s, id) && s.calls == []
  {
    hide IsCommand, BuildIntent;
    var actions := [Begin(0, command, true, Some(descriptor), now), Reserve(0)];
    Reserved(d, command, descriptor, now);
    RunSnoc(d, Initial, actions, Crash(0));
    assert actions + [Crash(0)] == [Begin(0, command, true, Some(descriptor), now), Reserve(0), Crash(0)];
  }

  /** An error that escapes from the gateway does the same without any crash, after the provider was called. */
  lemma {:induction false} EscapedErrorLosesPaidRow(d: Derivation, command: Command, descriptor: Descriptor, now: string)
    requires IsCommand(d, command) && IsPendingIntent(d.store, BuildIntent(d, command, descriptor, now))
    ensures var intent := BuildIntent(d, command, descriptor, now);
            var s := Run(d, Initial, [Begin(0, command, true, Some(descriptor), now), Reserve(0), CallProvider(0, Escaped)]);
            PendingRow(s, intent.effectId) && !Held(s, intent.effectId) && s.calls == [CallOf(intent)]
  {
    hide IsCommand, BuildIntent;
    var actions := [Begin(0, command, true, Some(descriptor), now), Reserve(0)];
    Reserved(d, command, descriptor, now);
    RunSnoc(d, Initial, actions, CallProvider(0, Escaped));
    assert actions + [CallProvider(0, Escaped)]
           == [Begin(0, command, true, Some(descriptor), now), Reserve(0), CallProvider(0, Escaped)];
  }
}
