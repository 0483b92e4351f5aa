/** How a caller of `execute` that is under way ends when nothing goes wrong any more, from wherever it stands. */
module CallersFinish {
  import opened Prelude
  import opened ModelEffectStore
  import opened ModelEffect
  import opened ModelEffectLost

  /** The provider's answer will be accepted and can be committed. */
  predicate GoodAnswer(d: Derivation, intent: Intent, descriptor: Descriptor, text: string, receipt: ProviderReceipt) {
    ReceiptAccepted(d, descriptor, text, receipt) && IsOutput(text) && IsReceipt(d.store, DurableReceipt(intent, receipt))
  }

  /** A reservation of this intent would be fresh. */
  ghost predicate Unreserved(d: Derivation, table: Table, intent: Intent) {
    IsPendingIntent(d.store, intent) && intent.effectId !in table && Lookup(table, intent) == None
  }

  predicate Unfinished(caller: Caller) {
    caller.Prepared? || caller.Executable? || caller.Completing?
  }

  /** The caller has its effect still before it, or pending, and the answer is or will be a good one. */
  ghost predicate WillFinish(d: Derivation, s: System, c: nat, text: string, receipt: ProviderReceipt) {
    && c in s.callers
    && match s.callers[c]
       case Prepared(i, descriptor) => Unreserved(d, s.table, i) && GoodAnswer(d, i, descriptor, text, receipt)
       case Executable(i, descriptor) => PendingRow(s, i.effectId) && GoodAnswer(d, i, descriptor, text, receipt)
       case Completing(i, t, r) => PendingRow(s, i.effectId) && t == text && IsOutput(t) && IsReceipt(d.store, r)
       case _ => false
  }

  /** The steps that are left. */
  function Finishing(caller: Caller, c: nat, text: string, receipt: ProviderReceipt, now: string): seq<Action> {
    var last := [CommitResult(c, now, NoFault)] + [ReadBack(c, false)];
    if caller.Completing? then last
    else if caller.Executable? then [CallProvider(c, Answer(text, receipt))] + last
    else [Reserve(c)] + ([CallProvider(c, Answer(text, receipt))] + last)
  }

  /** The caller has returned the recorded answer of its effect. */
  ghost predicate Finished(s: System, c: nat, intent: Intent, text: string) {
    && c in s.callers && s.callers[c].Returned?
    && intent.effectId in s.table
    && var row := s.table[intent.effectId];
       row.status == Succeeded && row.outputText == text && row.tenantId == intent.tenantId && row.runId == intent.runId
  }

  lemma {:induction false} RunCons(d: Derivation, s: System, a: Action, rest: seq<Action>)
    ensures Run(d, s, [a] + rest) == Run(d, Step(d, s, a), rest)
    decreases |rest|
  {
    hide Step;
    if rest == [] {
      RunSnoc(d, s, [], a);
      assert [a] + rest == [] + [a];
    } else {
      var n := |rest| - 1;
      RunCons(d, s, a, rest[..n]);
      assert ([a] + rest)[..n + 1] == [a] + rest[..n];
    }
  }

  lemma {:induction false} CommitIs(d: Derivation, s: System, c: nat, text: string, receipt: ProviderReceipt, now: string)
    requires Inv(d, s) && IdentitiesValid(s.table)
    requires WillFinish(d, s, c, text, receipt) && s.callers[c].Completing?
    ensures var k := s.callers[c];
            var id := k.intent.effectId;
            var row := Assign(s.table[id], CompletionChange(d.store, text, k.receipt), now);
            && Step(d, s, CommitResult(c, now, NoFault))
               == System(s.table[id := row], s.callers[c := Reading(k.intent)], s.calls)
            && row.status == Succeeded && row.outputText == text
            && row.tenantId == k.intent.tenantId && row.runId == k.intent.runId
            && IsIdentifier(k.intent.tenantId) && IsIdentifier(id)
  {
    var k := s.callers[c];
    OwnedPending(d, s, c, k.intent.effectId);
    hide Inv, IdentitiesValid, IsIdentifier, IsOutput, IsReceipt, Holds;
    assert IsSha256(d.store.sha256(text));
    hide IsSha256;
    assert Step(d, s, CommitResult(c, now, NoFault)) == CommitAction(d, s, c, now, NoFault);
  }

  lemma {:induction false} ReadBackIs(d: Derivation, s: System, c: nat)
    requires c in s.callers && s.callers[c].Reading?
    requires var i := s.callers[c].intent;
             && IsIdentifier(i.tenantId) && IsIdentifier(i.effectId)
             && i.effectId in s.table && s.table[i.effectId].tenantId == i.tenantId
    ensures var i := s.callers[c].intent;
            Step(d, s, ReadBack(c, false))
            == System(s.table, s.callers[c := Returned(FromIntent(s.table[i.effectId], false))], s.calls)
  {
    hide IsIdentifier, FromIntent;
  }

  lemma {:induction false} CompletingFinishes(d: Derivation, s: System, c: nat, text: string, receipt: ProviderReceipt,
                                              now: string)
    requires Inv(d, s) && IdentitiesValid(s.table)
    requires WillFinish(d, s, c, text, receipt) && s.callers[c].Completing?
    ensures var after := Run(d, s, Finishing(s.callers[c], c, text, receipt, now));
            Finished(after, c, s.callers[c].intent, text) && after.calls == s.calls
  {
    hide Inv, IdentitiesValid, IsIdentifier, IsOutput, IsReceipt, Run, Step, FromIntent, WillFinish;
    var commit, back := CommitResult(c, now, NoFault), ReadBack(c, false);
    var next := Step(d, s, commit);
    CommitIs(d, s, c, text, receipt, now);
    ReadBackIs(d, next, c);
    RunCons(d, s, commit, [back]);
    RunCons(d, next, back, []);
    assert [back] + [] == [back];
    NoSteps(d, Step(d, next, back));
  }

  lemma {:induction false} NoSteps(d: Derivation, s: System)
    ensures Run(d, s, []) == s
  {
  }

  lemma {:induction false} CallIs(d: Derivation, s: System, c: nat, text: string, receipt: ProviderReceipt)
    requires WillFinish(d, s, c, text, receipt) && s.callers[c].Executable?
    ensures var i := s.callers[c].intent;
            Step(d, s, CallProvider(c, Answer(text, receipt)))
            == System(s.table, s.callers[c := Completing(i, text, DurableReceipt(i, receipt))], s.calls + [CallOf(i)])
  {
    hide ReceiptAccepted, DurableReceipt, IsOutput, IsReceipt;
  }

  lemma {:induction false} ExecutableFinishes(d: Derivation, s: System, c: nat, text: string, receipt: ProviderReceipt,
                                              now: string)
    requires Inv(d, s) && IdentitiesValid(s.table)
    requires WillFinish(d, s, c, text, receipt) && s.callers[c].Executable?
    ensures var after := Run(d, s, Finishing(s.callers[c], c, text, receipt, now));
            Finished(after, c, s.callers[c].intent, text) && after.calls == s.calls + [CallOf(s.callers[c].intent)]
  {
    hide Inv, IdentitiesValid, Run, Step, ReceiptAccepted, DurableReceipt, IsOutput, IsReceipt, Finished;
    var call := CallProvider(c, Answer(text, receipt));
    var next := Step(d, s, call);
    CallIs(d, s, c, text, receipt);
    StepInv(d, s, call);
    CompletingFinishes(d, next, c, text, receipt, now);
    RunCons(d, s, call, Finishing(next.callers[c], c, text, receipt, now));
  }

  lemma {:induction false} ReserveIs(d: Derivation, s: System, c: nat, text: string, receipt: ProviderReceipt)
    requires WillFinish(d, s, c, text, receipt) && s.callers[c].Prepared?
    ensures var k := s.callers[c];
            Step(d, s, Reserve(c))
            == System(s.table[k.intent.effectId := k.intent], s.callers[c := Executable(k.intent, k.descriptor)], s.calls)
    ensures s.callers[c].intent.status == Pending
  {
    hide IsReceipt, IsOutput, Lookup, ReceiptAccepted, DurableReceipt;
    var k := s.callers[c];
    assert k.intent.status == Pending;
    hide IsPendingIntent;
    assert ReserveStep(d.store, s.table, k.intent)
           == (s.table[k.intent.effectId := k.intent], Ok(Reservation(k.intent, true, false)));
  }

  lemma {:induction false} PreparedFinishes(d: Derivation, s: System, c: nat, text: string, receipt: ProviderReceipt,
                                            now: string)
    requires Inv(d, s) && IdentitiesValid(s.table)
    requires WillFinish(d, s, c, text, receipt) && s.callers[c].Prepared?
    ensures var after := Run(d, s, Finishing(s.callers[c], c, text, receipt, now));
            Finished(after, c, s.callers[c].intent, text) && after.calls == s.calls + [CallOf(s.callers[c].intent)]
  {
    hide Inv, IdentitiesValid, Run, Step, GoodAnswer, Finished, IsPendingIntent, Lookup;
    var next := Step(d, s, Reserve(c));
    ReserveIs(d, s, c, text, receipt);
    StepInv(d, s, Reserve(c));
    IdentitiesStep(d, s, Reserve(c));
    ExecutableFinishes(d, next, c, text, receipt, now);
    RunCons(d, s, Reserve(c), Finishing(next.callers[c], c, text, receipt, now));
  }

  /**
   From wherever it stands the caller returns the recorded answer; the provider is called once, unless it has been
   called already.
   */
  lemma {:induction false} CallerFinishes(d: Derivation, s: System, c: nat, text: string, receipt: ProviderReceipt,
                                          now: string)
    requires Inv(d, s) && IdentitiesValid(s.table) && WillFinish(d, s, c, text, receipt)
    ensures Unfinished(s.callers[c])
    ensures var k := s.callers[c];
            var after := Run(d, s, Finishing(k, c, text, receipt, now));
            && Finished(after, c, k.intent, text)
            && after.calls == s.calls + if k.Completing? then [] else [CallOf(k.intent)]
  {
    hide Inv, IdentitiesValid, Run, Finishing, Finished, Unreserved, GoodAnswer;
    match s.callers[c]
    case Prepared(_, _) => PreparedFinishes(d, s, c, text, receipt, now);
    case Executable(_, _) => ExecutableFinishes(d, s, c, text, receipt, now);
    case Completing(_, _, _) => CompletingFinishes(d, s, c, text, receipt, now);
  }
}
