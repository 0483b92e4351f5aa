/**
 Which model outputs get into their runs: exactly those that are attached while the run waits for its decision.
 Callers know nothing of the decision, so whoever is still under way when it falls goes on, and pays in vain.
 */
module LateEffects {
  import opened Prelude
  import opened Models
  import opened Campaign
  import opened Runs
  import opened Orchestrator
  import opened RunShape
  import opened RunProgress
  import opened RunGrowth
  import opened RunInvariant
  import opened RunStates
  import opened RunStore
  import opened Service
  import opened ServiceInvariant
  import opened ServiceHistory
  import opened EffectsAndRuns
  import opened EffectOutputs
  import Effects = ModelEffectStore
  import Protocol = ModelEffect
  import Loss = ModelEffectLost
  import opened CallersFinish

  // ---------------------------------------------------------------- attaching a result

  lemma {:induction false} FoundById(artifacts: seq<Artifact>, a: Artifact)
    ensures WithId(artifacts + [a], a.id).Some?
    decreases |artifacts|
  {
    if artifacts == [] {
      assert (artifacts + [a])[0] == a;
    } else if artifacts[0].id != a.id {
      assert (artifacts + [a])[1..] == artifacts[1..] + [a];
      FoundById(artifacts[1..], a);
    }
  }

  lemma {:induction false} NotFoundById(artifacts: seq<Artifact>, id: string)
    requires WithId(artifacts, id) == None
    ensures forall j | 0 <= j < |artifacts| :: artifacts[j].id != id
    decreases |artifacts|
  {
    if artifacts != [] {
      NotFoundById(artifacts[1..], id);
      forall j | 0 <= j < |artifacts| ensures artifacts[j].id != id {
        assert j > 0 ==> artifacts[j] == artifacts[1..][j - 1];
      }
    }
  }

  /** The run holds the output of this effect. */
  ghost predicate HasOutput(artifacts: seq<Artifact>, effectId: string) {
    exists j :: 0 <= j < |artifacts| && artifacts[j].kind == ModelCompletion
                && artifacts[j].payload.Completion? && artifacts[j].payload.effectId == effectId
  }

  lemma {:induction false} AttachIs(ids: Ids, st: State, tenant: string, runId: string, action: string, e: EffectResult)
    requires var key := Key(tenant, runId);
             && key in st.store.runs && WellFormed(st.store.runs[key]) && st.store.runs[key].runId == runId
             && WithId(st.store.runs[key].artifacts, ids.completion(e.effectId)) == None
    ensures var key := Key(tenant, runId);
            var run := st.store.runs[key];
            var answer := AttachResult(ids, st, tenant, runId, action, e);
            && (answer.reply.Ok?
                <==> && run.status == AwaitingGreenlight
                     && WithId(run.artifacts, e.sourceId).Some?
                     && ids.attachment(tenant, action, e.effectId) !in st.store.audit)
            && (answer.reply.Ok? ==>
                  key in answer.state.store.runs && HasOutput(answer.state.store.runs[key].artifacts, e.effectId))
  {
    hide WithId, Find;
    var key := Key(tenant, runId);
    var run, answer := st.store.runs[key], AttachResult(ids, st, tenant, runId, action, e);
    if answer.reply.Ok? {
      var after := answer.state.store.runs[key].artifacts;
      assert after[|run.artifacts|].payload == Completion(e.effectId, e.sourceId, e.output);
    }
  }

  /** A result that no artifact stands for yet is attached exactly if three things hold. */
  lemma {:induction false} ResultAttachesIff(w: World, ids: Ids, st: State, tenant: string, runId: string,
                                             action: string, e: EffectResult)
    requires StoreInv(w, ids, st) && Key(tenant, runId) in st.store.runs
    requires WithId(st.store.runs[Key(tenant, runId)].artifacts, ids.completion(e.effectId)) == None
    ensures var key := Key(tenant, runId);
            var run := st.store.runs[key];
            var answer := Step(w, ids, st, SupplyResult(tenant, runId, action, e));
            && (answer.reply.Ok?
                <==> && run.status == AwaitingGreenlight
                     && WithId(run.artifacts, e.sourceId).Some?
                     && ids.attachment(tenant, action, e.effectId) !in st.store.audit)
            && (answer.reply.Ok? ==>
                  key in answer.state.store.runs && HasOutput(answer.state.store.runs[key].artifacts, e.effectId))
  {
    hide *;
    var key := Key(tenant, runId);
    RowHolds(w, ids, st, key);
    RowIsWell(w, key, st.store.runs[key]);
    RowKey(w, key, st.store.runs[key]);
    AttachIs(ids, st, tenant, runId, action, e);
    StepIsAttach(w, ids, st, tenant, runId, action, e);
  }

  // ---------------------------------------------------------------- the runs that effects belong to

  /** The run of an effect has reached its gate, whatever has become of it since. */
  predicate PastStations(st: State, key: Key) {
    key in st.store.runs && !Busy(st.store.runs[key].status)
  }

  function RunOf(i: Effects.Intent): Key {
    Key(i.tenantId, i.runId)
  }

  ghost predicate RowsKnown(effects: Protocol.System, st: State) {
    forall id | id in effects.table :: PastStations(st, RunOf(effects.table[id]))
  }

  ghost predicate CallersKnown(effects: Protocol.System, st: State) {
    forall c | c in effects.callers && effects.callers[c].Prepared? ::
      PastStations(st, RunOf(effects.callers[c].intent))
  }

  lemma {:induction false} StaysPast(a: State, b: State, key: Key)
    requires StoreGrows(a.store, b.store) && PastStations(a, key)
    ensures PastStations(b, key)
  {
    RowsGrow(a.store, b.store, key);
  }

  /** The effects' step: new rows come from prepared callers, and new prepared callers from a waiting run. */
  lemma {:induction false} EffectStepKnown(d: Protocol.Derivation, s: Protocol.System, a: Protocol.Action, st: State)
    requires Protocol.Inv(d, s) && RowsKnown(s, st) && CallersKnown(s, st)
    requires a.Begin? ==> AwaitsDecision(st, Key(a.command.tenantId, a.command.runId))
    ensures var after := Protocol.Step(d, s, a); RowsKnown(after, st) && CallersKnown(after, st)
  {
    hide Protocol.Step, Protocol.Inv, PastStations;
    var after := Protocol.Step(d, s, a);
    Protocol.StepInv(d, s, a);
    forall id | id in after.table ensures PastStations(st, RunOf(after.table[id])) {
      if id in s.table {
        SameRun(s.table[id], after.table[id]);
      } else {
        Protocol.TableGrowsByReserve(d, s, a, id);
      }
    }
    forall c | c in after.callers && after.callers[c].Prepared? ensures PastStations(st, RunOf(after.callers[c].intent)) {
      Protocol.PreparedIsBuilt(d, s, a, c);
      if !(c in s.callers && s.callers[c] == after.callers[c]) {
        BuiltFor(d, a.command, a.descriptor.value, a.now);
        WaitingIsPast(st, Key(a.command.tenantId, a.command.runId));
      }
    }
  }

  lemma {:induction false} SameRun(a: Effects.Intent, b: Effects.Intent)
    requires Effects.RowEvolves(a, b)
    ensures RunOf(a) == RunOf(b)
  {
  }

  lemma {:induction false} BuiltFor(d: Protocol.Derivation, command: Protocol.Command, descriptor: Protocol.Descriptor,
                                    now: string)
    ensures RunOf(Protocol.BuildIntent(d, command, descriptor, now)) == Key(command.tenantId, command.runId)
  {
  }

  lemma {:induction false} WaitingIsPast(st: State, key: Key)
    ensures AwaitsDecision(st, key) ==> PastStations(st, key)
  {
  }

  lemma {:induction false} KnownStays(effects: Protocol.System, a: State, b: State)
    requires RowsKnown(effects, a) && CallersKnown(effects, a) && StoreGrows(a.store, b.store)
    ensures RowsKnown(effects, b) && CallersKnown(effects, b)
  {
    hide StoreGrows, PastStations;
    forall id | id in effects.table ensures PastStations(b, RunOf(effects.table[id])) {
      StaysPast(a, b, RunOf(effects.table[id]));
    }
    forall c | c in effects.callers && effects.callers[c].Prepared? ensures PastStations(b, RunOf(effects.callers[c].intent)) {
      StaysPast(a, b, RunOf(effects.callers[c].intent));
    }
  }

  /** In every reachable state each effect's run is stored and past its stations. */
  lemma {:induction false} RunsAreKnown(w: World, ids: Ids, d: Protocol.Derivation, moves: seq<Move>)
    requires IdsDistinct(ids)
    ensures var x := Moved(w, ids, d, Beginning(), moves);
            RowsKnown(x.effects, x.service) && CallersKnown(x.effects, x.service)
    decreases |moves|
  {
    hide *;
    if moves == [] {
      NothingKnown(w, ids, d);
    } else {
      var n := |moves| - 1;
      var x := Moved(w, ids, d, Beginning(), moves[..n]);
      RunsAreKnown(w, ids, d, moves[..n]);
      Reached(w, ids, d, moves[..n]);
      NextKnown(w, ids, d, x, moves[n]);
      MovedSnoc(w, ids, d, Beginning(), moves);
    }
  }

  lemma {:induction false} NothingKnown(w: World, ids: Ids, d: Protocol.Derivation)
    ensures var x := Moved(w, ids, d, Beginning(), []);
            RowsKnown(x.effects, x.service) && CallersKnown(x.effects, x.service)
  {
  }

  lemma {:induction false} MovedSnoc(w: World, ids: Ids, d: Protocol.Derivation, x: Combined, moves: seq<Move>)
    requires moves != []
    ensures Moved(w, ids, d, x, moves) == Next(w, ids, d, Moved(w, ids, d, x, moves[..|moves| - 1]), moves[|moves| - 1])
  {
    hide Next;
  }

  lemma {:induction false} NextKnown(w: World, ids: Ids, d: Protocol.Derivation, x: Combined, m: Move)
    requires IdsDistinct(ids) && CombinedInv(w, ids, d, x)
    requires RowsKnown(x.effects, x.service) && CallersKnown(x.effects, x.service)
    ensures var now := Next(w, ids, d, x, m); RowsKnown(now.effects, now.service) && CallersKnown(now.effects, now.service)
  {
    hide StoreInv, StoreGrows, Protocol.Inv, IdsDistinct, Step, Protocol.Step, RowsKnown, CallersKnown, ForService,
         Effects.Evolves;
    MoveKeeps(w, ids, d, x, m);
    var now := Next(w, ids, d, x, m);
    var e := ForEffects(x, m);
    if e != [] {
      EffectStepKnown(d, x.effects, e[0], x.service);
    }
    KnownStays(now.effects, x.service, now.service);
  }

  // ---------------------------------------------------------------- which outputs get in

  /** The output of a succeeded effect that could be attached if only its run would take it. */
  ghost predicate Unattached(ids: Ids, x: Combined, m: Move) {
    && m.Attach? && m.effectId in x.effects.table
    && var row := x.effects.table[m.effectId];
       && row.status == Effects.Succeeded
       && RunOf(row) in x.service.store.runs
       && var artifacts := x.service.store.runs[RunOf(row)].artifacts;
          && WithId(artifacts, ids.completion(m.effectId)) == None
          && WithId(artifacts, row.sourceArtifactId).Some?
          && ids.attachment(row.tenantId, m.action, m.effectId) !in x.service.store.audit
  }

  ghost predicate Holds(x: Combined, key: Key, effectId: string) {
    key in x.service.store.runs && HasOutput(x.service.store.runs[key].artifacts, effectId)
  }

  ghost predicate CanGetIn(w: World, ids: Ids, d: Protocol.Derivation, x: Combined, key: Key, effectId: string) {
    exists moves: seq<Move> :: Holds(Moved(w, ids, d, x, moves), key, effectId)
  }

  /** A run that is past its stations and does not wait takes nothing any more. */
  lemma {:induction false} ClosedArtifactsStay(w: World, ids: Ids, a: State, b: State, key: Key)
    requires StoreInv(w, ids, a) && StoreInv(w, ids, b) && StoreGrows(a.store, b.store)
    requires PastStations(a, key) && !AwaitsDecision(a, key)
    ensures key in b.store.runs && b.store.runs[key].artifacts == a.store.runs[key].artifacts
  {
    hide StoreInv, StoreGrows, RowOk;
    RowHolds(w, ids, a, key);
    RowsGrow(a.store, b.store, key);
    var run := a.store.runs[key];
    if run.status != Failed {
      ClosedIsDecided(w, key, run);
      DecidedArtifactsStay(w, ids, a, b, key);
    }
  }

  lemma {:induction false} ClosedIsDecided(w: World, key: Key, run: Run)
    requires RowOk(w, key, run) && !Busy(run.status) && run.status != AwaitingGreenlight && run.status != Failed
    ensures run.greenlight.Some?
  {
    hide RunInv, ValidBrief;
    DecisionInEnvelope(w, run);
  }

  lemma {:induction false} AttachesNow(w: World, ids: Ids, d: Protocol.Derivation, x: Combined, m: Move)
    requires CombinedInv(w, ids, d, x) && Unattached(ids, x, m)
    requires AwaitsDecision(x.service, RunOf(x.effects.table[m.effectId]))
    ensures Holds(Next(w, ids, d, x, m), RunOf(x.effects.table[m.effectId]), m.effectId)
  {
    hide StoreInv, Protocol.Inv, Step, WithId, HasOutput;
    var row := x.effects.table[m.effectId];
    ResultAttachesIff(w, ids, x.service, row.tenantId, row.runId, m.action,
                      EffectResult(m.effectId, m.role, row.sourceArtifactId, row.outputText));
  }

  lemma {:induction false} OneMove(w: World, ids: Ids, d: Protocol.Derivation, x: Combined, m: Move)
    ensures Moved(w, ids, d, x, [m]) == Next(w, ids, d, x, m)
  {
    hide Next;
    assert [m][..0] == [];
  }

  lemma {:induction false} NotHeld(ids: Ids, x: Combined, m: Move)
    requires Unattached(ids, x, m) && OutputsPaid(ids, x.effects.table, x.service.store)
    ensures !Holds(x, RunOf(x.effects.table[m.effectId]), m.effectId)
  {
    hide WithId;
    var key := RunOf(x.effects.table[m.effectId]);
    var artifacts := x.service.store.runs[key].artifacts;
    NotFoundById(artifacts, ids.completion(m.effectId));
    forall j | 0 <= j < |artifacts| && artifacts[j].kind == ModelCompletion && artifacts[j].payload.Completion?
      ensures artifacts[j].payload.effectId != m.effectId
    {
      assert Paid(ids, x.effects.table, key, artifacts[j]);
    }
  }

  /**
   In every reachable state, the output of a succeeded effect that is not attached yet, whose source is in the run and
   whose attachment is not recorded, can still get into its run if and only if the run waits for its decision.
   */
  lemma {:induction false} GetsInIffAwaiting(w: World, ids: Ids, d: Protocol.Derivation, moves: seq<Move>, m: Move)
    requires IdsDistinct(ids)
    ensures var x := Moved(w, ids, d, Beginning(), moves);
            Unattached(ids, x, m) ==>
              var key := RunOf(x.effects.table[m.effectId]);
              CanGetIn(w, ids, d, x, key, m.effectId) <==> AwaitsDecision(x.service, key)
  {
    hide *;
    var x := Moved(w, ids, d, Beginning(), moves);
    Reached(w, ids, d, moves);
    RunsAreKnown(w, ids, d, moves);
    EveryOutputWasPaid(w, ids, d, moves);
    if Unattached(ids, x, m) {
      GetsIn(w, ids, d, x, m);
    }
  }

  lemma {:induction false} GetsIn(w: World, ids: Ids, d: Protocol.Derivation, x: Combined, m: Move)
    requires IdsDistinct(ids) && CombinedInv(w, ids, d, x) && Unattached(ids, x, m)
    requires RowsKnown(x.effects, x.service) && OutputsPaid(ids, x.effects.table, x.service.store)
    ensures var key := RunOf(x.effects.table[m.effectId]);
            CanGetIn(w, ids, d, x, key, m.effectId) <==> AwaitsDecision(x.service, key)
  {
    hide StoreInv, StoreGrows, Protocol.Inv, IdsDistinct, Next, Moved, HasOutput, Effects.Evolves, PastStations,
         AwaitsDecision, OutputsPaid;
    var key := RunOf(x.effects.table[m.effectId]);
    if AwaitsDecision(x.service, key) {
      AttachesNow(w, ids, d, x, m);
      OneMove(w, ids, d, x, m);
      assert Holds(Moved(w, ids, d, x, [m]), key, m.effectId);
    } else {
      NotHeld(ids, x, m);
      forall moves: seq<Move> ensures !Holds(Moved(w, ids, d, x, moves), key, m.effectId) {
        MovesKeep(w, ids, d, x, moves);
        ClosedArtifactsStay(w, ids, x.service, Moved(w, ids, d, x, moves).service, key);
      }
    }
  }

  // ---------------------------------------------------------------- callers under way when the decision falls

  ghost predicate Decides(x: Combined, m: Move) {
    || (m.Approve? && m.reader in x.listings)
    || (m.ServiceMove? && m.a.Judge? && m.a.decision == Refused)
  }

  ghost function DecisionOf(x: Combined, m: Move): Action
    requires Decides(x, m)
  {
    if m.Approve? then Approval(x, m) else m.a
  }

  ghost function DecidedKey(x: Combined, m: Move): Key
    requires Decides(x, m)
  {
    if m.Approve? then Key(x.listings[m.reader].tenant, x.listings[m.reader].runId) else Key(m.a.c.tenant, m.a.runId)
  }

  /** The move is an approval or a rejection that succeeds for the first time. */
  ghost predicate FreshlyDecides(w: World, ids: Ids, x: Combined, m: Move) {
    hide *;
    && Decides(x, m)
    && var reply := Step(w, ids, x.service, DecisionOf(x, m)).reply; reply.Ok? && !reply.value.replayed
  }

  lemma {:induction false} DecisionMove(x: Combined, m: Move)
    requires Decides(x, m)
    ensures ForService(x, m) == [DecisionOf(x, m)] && ForEffects(x, m) == [] && !m.List?
    ensures var a := DecisionOf(x, m); a.Judge? && DecidedKey(x, m) == Key(a.c.tenant, a.runId)
  {
    hide Listed;
  }

  lemma {:induction false} JudgeIs(w: World, ids: Ids, st: State, a: Action)
    requires a.Judge?
    ensures Step(w, ids, st, a)
            == DecideRun(w, ids, st, a.c, a.runId, a.decision, a.note, a.effects, a.fault, a.clock)
  {
    hide DecideRun;
  }

  /** A fresh decision is stored, and adds no model output to the run. */
  lemma {:induction false} DecisionIsStored(w: World, ids: Ids, st: State, a: Action)
    requires StoreInv(w, ids, st) && a.Judge?
    ensures var answer := Step(w, ids, st, a);
            var key := Key(a.c.tenant, a.runId);
            answer.reply.Ok? && !answer.reply.value.replayed ==>
              && key in st.store.runs && key in answer.state.store.runs
              && answer.state.store.runs[key].greenlight.Some?
              && NoOutput(st.store.runs[key].artifacts, answer.state.store.runs[key].artifacts)
  {
    hide StoreInv, RowOk, Decide, EffectsObjection, NoOutput, Step, Find;
    var key := Key(a.c.tenant, a.runId);
    JudgeIs(w, ids, st, a);
    RowHolds(w, ids, st, key);
    if key in st.store.runs {
      var run := st.store.runs[key];
      RowIsWell(w, key, run);
      DecidedRunIs(w, key, run, a.decision, a.c.subject, a.note, a.fault, a.clock);
      DecideAdds(w, run, a.decision, a.c.subject, a.note, a.fault, a.clock);
    }
  }

  lemma {:induction false} DecidedRunIs(w: World, key: Key, run: Run, decision: Decision, reviewer: string, note: string,
                                        fault: Fault, clock: Clock)
    requires RowOk(w, key, run)
    ensures WellFormed(run)
    ensures var r := Decide(w, run, decision, reviewer, note, fault, clock);
            r.Ok? ==> r.value.runId == key.runId && r.value.greenlight.Some?
  {
    hide RunInv, ValidBrief, Decide;
    RowIsWell(w, key, run);
    DecideKeeps(w, run, decision, reviewer, note, fault, clock);
  }

  /** An effect that has not succeeded has no output in any run. */
  lemma {:induction false} UnpaidHasNone(ids: Ids, x: Combined, key: Key, effectId: string)
    requires OutputsPaid(ids, x.effects.table, x.service.store)
    requires effectId in x.effects.table ==> x.effects.table[effectId].status != Effects.Succeeded
    ensures !Holds(x, key, effectId)
  {
    if key in x.service.store.runs {
      var artifacts := x.service.store.runs[key].artifacts;
      forall j | 0 <= j < |artifacts| && artifacts[j].kind == ModelCompletion && artifacts[j].payload.Completion?
        ensures artifacts[j].payload.effectId != effectId
      {
        assert Paid(ids, x.effects.table, key, artifacts[j]);
      }
    }
  }

  lemma {:induction false} NoOutputMeansNone(a: seq<Artifact>, b: seq<Artifact>, effectId: string)
    requires NoOutput(a, b) && !HasOutput(a, effectId)
    ensures !HasOutput(b, effectId)
  {
    forall j | 0 <= j < |b| && b[j].kind == ModelCompletion && b[j].payload.Completion?
      ensures b[j].payload.effectId != effectId
    {
      assert j < |a| && a[j] == b[j];
    }
  }

  function AsMoves(actions: seq<Protocol.Action>): seq<Move> {
    seq(|actions|, i requires 0 <= i < |actions| => EffectMove(actions[i]))
  }

  /** Effect steps that prepare nothing run as they would alone, and touch nothing else. */
  lemma {:induction false} EffectMoves(w: World, ids: Ids, d: Protocol.Derivation, x: Combined,
                                       actions: seq<Protocol.Action>)
    requires forall i | 0 <= i < |actions| :: !actions[i].Begin?
    ensures Moved(w, ids, d, x, AsMoves(actions)) == x.(effects := Protocol.Run(d, x.effects, actions))
    decreases |actions|
  {
    hide Step, Protocol.Step;
    if actions != [] {
      var n := |actions| - 1;
      assert AsMoves(actions)[..n] == AsMoves(actions[..n]);
      EffectMoves(w, ids, d, x, actions[..n]);
    }
  }

  /** The caller ends with the recorded and paid answer, and its run never holds it. */
  ghost predicate PaidInVain(w: World, ids: Ids, d: Protocol.Derivation, x: Combined, m: Move, c: nat, text: string,
                             receipt: Protocol.ProviderReceipt, now: string, later: seq<Move>)
    requires Decides(x, m) && WillFinish(d, x.effects, c, text, receipt) && Unfinished(x.effects.callers[c])
  {
    hide *;
    var k, y := x.effects.callers[c], Next(w, ids, d, x, m);
    var paid := Moved(w, ids, d, y, AsMoves(Finishing(k, c, text, receipt, now)));
    && Finished(paid.effects, c, k.intent, text)
    && paid.effects.calls == x.effects.calls + (if k.Completing? then [] else [Protocol.CallOf(k.intent)])
    && !Holds(Moved(w, ids, d, paid, later), DecidedKey(x, m), k.intent.effectId)
  }

  lemma {:induction false} WillFinishMeans(d: Protocol.Derivation, s: Protocol.System, c: nat, text: string,
                                           receipt: Protocol.ProviderReceipt)
    requires WillFinish(d, s, c, text, receipt)
    ensures c in s.callers && Unfinished(s.callers[c])
    ensures var id := s.callers[c].intent.effectId; id in s.table ==> s.table[id].status != Effects.Succeeded
  {
    hide GoodAnswer, Effects.IsPendingIntent, Effects.Lookup;
  }

  lemma {:induction false} FinishingPreparesNothing(caller: Protocol.Caller, c: nat, text: string,
                                                    receipt: Protocol.ProviderReceipt, now: string)
    ensures forall i | 0 <= i < |Finishing(caller, c, text, receipt, now)| ::
              !Finishing(caller, c, text, receipt, now)[i].Begin?
  {
  }

  /** The effects half of a combined history is a history of its own. */
  lemma {:induction false} EffectsAreReachable(w: World, ids: Ids, d: Protocol.Derivation, moves: seq<Move>)
    ensures Loss.IdentitiesValid(Moved(w, ids, d, Beginning(), moves).effects.table)
  {
    hide *;
    PartsMove(w, ids, d, Beginning(), moves);
    BeginsEmpty();
    Loss.Reachable(d, EffectPart(w, ids, d, Beginning(), moves));
  }

  lemma {:induction false} BeginsEmpty()
    ensures Beginning().effects == Protocol.Initial && Beginning().service == Service.Initial()
  {
  }

  /**
   Whoever is under way for a run, prepared, reserved or even answered, when the run is approved or rejected, still
   ends with a paid and recorded answer, and the run never holds it, whatever comes later.
   */
  lemma {:induction false} LateEffectIsPaidInVain(w: World, ids: Ids, d: Protocol.Derivation, moves: seq<Move>, m: Move,
                                                  c: nat, text: string, receipt: Protocol.ProviderReceipt, now: string,
                                                  later: seq<Move>)
    requires IdsDistinct(ids)
    ensures var x := Moved(w, ids, d, Beginning(), moves);
            Decides(x, m) && FreshlyDecides(w, ids, x, m) && WillFinish(d, x.effects, c, text, receipt)
            && Unfinished(x.effects.callers[c]) && RunOf(x.effects.callers[c].intent) == DecidedKey(x, m) ==>
              PaidInVain(w, ids, d, x, m, c, text, receipt, now, later)
  {
    hide *;
    var x := Moved(w, ids, d, Beginning(), moves);
    Reached(w, ids, d, moves);
    EveryOutputWasPaid(w, ids, d, moves);
    EffectsAreReachable(w, ids, d, moves);
    if Decides(x, m) && FreshlyDecides(w, ids, x, m) && WillFinish(d, x.effects, c, text, receipt) {
      WillFinishMeans(d, x.effects, c, text, receipt);
      PaysInVain(w, ids, d, x, m, c, text, receipt, now, later);
    }
  }

  lemma {:induction false} PaysInVain(w: World, ids: Ids, d: Protocol.Derivation, x: Combined, m: Move, c: nat,
                                      text: string, receipt: Protocol.ProviderReceipt, now: string, later: seq<Move>)
    requires IdsDistinct(ids) && CombinedInv(w, ids, d, x) && OutputsPaid(ids, x.effects.table, x.service.store)
    requires Loss.IdentitiesValid(x.effects.table)
    requires Decides(x, m) && FreshlyDecides(w, ids, x, m)
    requires WillFinish(d, x.effects, c, text, receipt) && Unfinished(x.effects.callers[c])
    ensures PaidInVain(w, ids, d, x, m, c, text, receipt, now, later)
  {
    hide StoreInv, StoreGrows, Protocol.Inv, IdsDistinct, Step, Protocol.Step, Moved, HasOutput, Effects.Evolves,
         OutputsPaid, Decides, DecisionOf, DecidedKey, ForService, ForEffects, Finishing, Finished, Loss.IdentitiesValid,
         WillFinish, NoOutput;
    WillFinishMeans(d, x.effects, c, text, receipt);
    var k, y := x.effects.callers[c], Next(w, ids, d, x, m);
    var a := DecisionOf(x, m);
    DecisionMove(x, m);
    assert y.effects == x.effects && y.service == Step(w, ids, x.service, a).state;
    DecisionIsStored(w, ids, x.service, a);
    UnpaidHasNone(ids, x, DecidedKey(x, m), k.intent.effectId);
    var key := DecidedKey(x, m);
    NoOutputMeansNone(x.service.store.runs[key].artifacts, y.service.store.runs[key].artifacts, k.intent.effectId);
    var rest := Finishing(k, c, text, receipt, now);
    FinishingPreparesNothing(k, c, text, receipt, now);
    EffectMoves(w, ids, d, y, rest);
    CallerFinishes(d, x.effects, c, text, receipt, now);
    MoveKeeps(w, ids, d, x, m);
    var paid := Moved(w, ids, d, y, AsMoves(rest));
    MovesKeep(w, ids, d, y, AsMoves(rest));
    MovesKeep(w, ids, d, paid, later);
    DecidedArtifactsStay(w, ids, paid.service, Moved(w, ids, d, paid, later).service, key);
  }

  // ---------------------------------------------------------------- and it happens

  /** Everything a maintainer can choose: a brief, a command for its run, an answer, and who decides what. */
  datatype Scene = Scene(
    brief: Brief,
    starter: Caller,
    decider: Caller,
    note: string,
    clocks: nat -> Clock,
    clock: Clock,
    started: int,
    command: Protocol.Command,
    descriptor: Protocol.Descriptor,
    prepared: string,
    text: string,
    receipt: Protocol.ProviderReceipt)

  ghost predicate Acceptable(w: World, ids: Ids, d: Protocol.Derivation, e: Scene) {
    var intent := Protocol.BuildIntent(d, e.command, e.descriptor, e.prepared);
    && ValidBrief(w.language.isSpace, e.brief) && GateOpens(w, e.brief)
    && e.decider.tenant == e.starter.tenant && Strip(w.language.isSpace, e.decider.subject) != ""
    && (Political(e.brief) ==>
          Strip(w.language.isSpace, e.brief.legalReviewedBy) != Strip(w.language.isSpace, e.decider.subject))
    && e.command.tenantId == e.starter.tenant && e.command.runId == w.runId(e.brief)
    && Protocol.IsCommand(d, e.command) && Effects.IsPendingIntent(d.store, intent)
    && GoodAnswer(d, intent, e.descriptor, e.text, e.receipt)
  }

  /** The two commands have receipts of their own. */
  predicate OwnReceipts(ids: Ids, e: Scene, decision: Decision) {
    ids.command(e.starter.tenant, StartOperation(), e.starter.key)
    != ids.command(e.decider.tenant, DecisionOperation(decision), e.decider.key)
  }

  function StartAction(e: Scene): Action {
    Action.Start(e.starter, e.brief, false, _ => NoFault, e.clocks, e.started)
  }

  function BeginAction(e: Scene): Protocol.Action {
    Protocol.Begin(0, e.command, true, Some(e.descriptor), e.prepared)
  }

  /** The caller's next two steps. */
  function FirstSteps(e: Scene): seq<Protocol.Action> {
    [Protocol.Reserve(0)] + [Protocol.CallProvider(0, Protocol.Answer(e.text, e.receipt))]
  }

  /** A run is started, an effect prepared for it, its effects read, and `n` steps of the effect go by. */
  function Opening(w: World, e: Scene): seq<Move> {
    [ServiceMove(StartAction(e))] + [EffectMove(BeginAction(e))] + [List(0, e.starter.tenant, w.runId(e.brief))]
  }

  function Caught(w: World, e: Scene, n: nat): seq<Move>
    requires n <= 2
  {
    Opening(w, e) + AsMoves(FirstSteps(e)[..n])
  }

  function DecisionMoveOf(w: World, e: Scene, decision: Decision): Move {
    if decision == Approved then Approve(0, e.decider, e.note, NoFault, e.clock)
    else ServiceMove(Judge(e.decider, w.runId(e.brief), Refused, e.note, [], NoFault, e.clock))
  }

  /** The run of the scene as its start leaves it. */
  function StartedRunOf(w: World, e: Scene): Run {
    Advances(w, Create(w, e.brief, false, e.started), _ => NoFault, e.clocks, MAX_ADVANCES).run
  }

  function StartedState(w: World, ids: Ids, e: Scene): State {
    var run, key := StartedRunOf(w, e), Key(e.starter.tenant, w.runId(e.brief));
    var eventId := ids.command(e.starter.tenant, StartOperation(), e.starter.key);
    var fp := ids.fingerprint(StartOperation(), e.starter.subject, w.runId(e.brief), ids.briefPayload(e.brief));
    State(Store(map[key := run], map[eventId := AuditEntry(e.starter.tenant, Receipt(StartOperation(), fp, run))]),
          {key}, map[])
  }

  lemma {:induction false} SceneStarts(w: World, ids: Ids, e: Scene)
    requires ValidBrief(w.language.isSpace, e.brief)
    ensures Step(w, ids, Service.Initial(), StartAction(e)).state == StartedState(w, ids, e)
    ensures var run := StartedRunOf(w, e);
            FreshAtGate(w, run) && run.brief == e.brief && run.runId == w.runId(e.brief)
            && run.status == AwaitingGreenlight && WellFormed(run)
  {
    hide ValidBrief, Advances, FreshAtGate;
    StartedRun(w, e.brief, _ => NoFault, e.clocks, e.started);
    GateLoad(w, StartedRunOf(w, e));
    AdvancesKeepId(w, e.brief, _ => NoFault, e.clocks, e.started, MAX_ADVANCES);
  }

  lemma {:induction false} ServiceMoveIs(w: World, ids: Ids, d: Protocol.Derivation, x: Combined, a: Action)
    requires !a.SupplyResult? && (a.Judge? ==> a.decision == Refused)
    ensures Next(w, ids, d, x, ServiceMove(a)) == x.(service := Step(w, ids, x.service, a).state)
  {
    hide Step;
  }

  lemma {:induction false} EffectMoveIs(w: World, ids: Ids, d: Protocol.Derivation, x: Combined, a: Protocol.Action)
    requires a.Begin? ==> AwaitsDecision(x.service, Key(a.command.tenantId, a.command.runId))
    ensures Next(w, ids, d, x, EffectMove(a)) == x.(effects := Protocol.Step(d, x.effects, a))
  {
    hide Protocol.Step;
  }

  lemma {:induction false} ListIs(w: World, ids: Ids, d: Protocol.Derivation, x: Combined, reader: nat, tenant: string,
                                  runId: string)
    ensures Next(w, ids, d, x, List(reader, tenant, runId))
            == x.(listings := x.listings[reader := Listing(tenant, runId, x.effects.table)])
  {
  }

  lemma {:induction false} ThreeMoves(w: World, ids: Ids, d: Protocol.Derivation, x: Combined, a: Move, b: Move, c: Move)
    ensures Moved(w, ids, d, x, [a] + [b] + [c]) == Next(w, ids, d, Next(w, ids, d, Next(w, ids, d, x, a), b), c)
  {
    hide Next;
    var two := [a] + [b];
    assert (two + [c])[..2] == two && two[..1] == [a];
    MovedSnoc(w, ids, d, x, two + [c]);
    MovedSnoc(w, ids, d, x, two);
    OneMove(w, ids, d, x, a);
  }

  lemma {:induction false} SceneAwaits(w: World, ids: Ids, e: Scene)
    requires ValidBrief(w.language.isSpace, e.brief)
    ensures AwaitsDecision(StartedState(w, ids, e), Key(e.starter.tenant, w.runId(e.brief)))
  {
    hide ValidBrief, Advances, FreshAtGate, StartedRunOf;
    SceneStarts(w, ids, e);
  }

  lemma {:induction false} EmptyStart()
    ensures Beginning() == Combined(Protocol.Initial, Service.Initial(), map[])
  {
  }

  /** After the opening the caller is prepared, nothing is in the effect table, and the reader has seen that. */
  lemma {:induction false} Opened(w: World, ids: Ids, d: Protocol.Derivation, e: Scene)
    requires ValidBrief(w.language.isSpace, e.brief) && Protocol.IsCommand(d, e.command)
    requires e.command.tenantId == e.starter.tenant && e.command.runId == w.runId(e.brief)
    ensures var intent := Protocol.BuildIntent(d, e.command, e.descriptor, e.prepared);
            Moved(w, ids, d, Beginning(), Opening(w, e))
            == Combined(Protocol.System(map[], map[0 := Protocol.Prepared(intent, e.descriptor)], []),
                        StartedState(w, ids, e), map[0 := Listing(e.starter.tenant, w.runId(e.brief), map[])])
  {
    OpeningIs(w, e);
    hide *;
    var intent := Protocol.BuildIntent(d, e.command, e.descriptor, e.prepared);
    var st, begun := StartedState(w, ids, e), Protocol.System(map[], map[0 := Protocol.Prepared(intent, e.descriptor)], []);
    SceneStarts(w, ids, e);
    SceneAwaits(w, ids, e);
    EmptyStart();
    BeginIs(d, e, intent);
    ThreeMoves(w, ids, d, Beginning(), ServiceMove(StartAction(e)), EffectMove(BeginAction(e)),
               List(0, e.starter.tenant, w.runId(e.brief)));
    ServiceMoveIs(w, ids, d, Beginning(), StartAction(e));
    EffectMoveIs(w, ids, d, Combined(Protocol.Initial, st, map[]), BeginAction(e));
    ListIs(w, ids, d, Combined(begun, st, map[]), 0, e.starter.tenant, w.runId(e.brief));
    assert map[][0 := Listing(e.starter.tenant, w.runId(e.brief), map[])]
           == map[0 := Listing(e.starter.tenant, w.runId(e.brief), map[])];
  }

  lemma {:induction false} OpeningIs(w: World, e: Scene)
    ensures Opening(w, e) == [ServiceMove(StartAction(e))] + [EffectMove(BeginAction(e))]
                             + [List(0, e.starter.tenant, w.runId(e.brief))]
    ensures StartAction(e).Start? && BeginAction(e).Begin? && BeginAction(e).command == e.command
  {
  }

  lemma {:induction false} BeginIs(d: Protocol.Derivation, e: Scene, intent: Effects.Intent)
    requires Protocol.IsCommand(d, e.command)
    requires intent == Protocol.BuildIntent(d, e.command, e.descriptor, e.prepared)
    ensures Protocol.Step(d, Protocol.Initial, BeginAction(e))
            == Protocol.System(map[], map[0 := Protocol.Prepared(intent, e.descriptor)], [])
  {
    hide Protocol.IsCommand, Protocol.BuildIntent;
  }

  /** The caller after `n` of its first steps is still going to finish. */
  lemma {:induction false} UnderWayAfter(d: Protocol.Derivation, e: Scene, intent: Effects.Intent, n: nat)
    requires n <= 2 && Effects.IsPendingIntent(d.store, intent) && GoodAnswer(d, intent, e.descriptor, e.text, e.receipt)
    ensures var s := Protocol.System(map[], map[0 := Protocol.Prepared(intent, e.descriptor)], []);
            var after := Protocol.Run(d, s, FirstSteps(e)[..n]);
            WillFinish(d, after, 0, e.text, e.receipt) && after.callers[0].intent == intent
            && (n == 0 <==> after.callers[0].Prepared?) && (n == 1 <==> after.callers[0].Executable?)
            && (n == 2 <==> after.callers[0].Completing?)
  {
    var s := Protocol.System(map[], map[0 := Protocol.Prepared(intent, e.descriptor)], []);
    var p := FirstSteps(e);
    assert p[..0] == [] && p[..1] == [p[0]] + [] && p[..2] == [p[0]] + ([p[1]] + []);
    assert WillFinish(d, s, 0, e.text, e.receipt);
    ReserveIs(d, s, 0, e.text, e.receipt);
    hide Effects.IsPendingIntent, GoodAnswer, Protocol.Step, Protocol.Run;
    var s1 := Protocol.Step(d, s, p[0]);
    CallIs(d, s1, 0, e.text, e.receipt);
    var s2 := Protocol.Step(d, s1, p[1]);
    RunCons(d, s, p[0], []);
    RunCons(d, s, p[0], [p[1]] + []);
    RunCons(d, s1, p[1], []);
    NoSteps(d, s);
    NoSteps(d, s1);
    NoSteps(d, s2);
    GoodAnswerGives(d, intent, e.descriptor, e.text, e.receipt);
  }

  lemma {:induction false} GoodAnswerGives(d: Protocol.Derivation, intent: Effects.Intent, descriptor: Protocol.Descriptor,
                                           text: string, receipt: Protocol.ProviderReceipt)
    requires GoodAnswer(d, intent, descriptor, text, receipt)
    ensures Effects.IsOutput(text) && Effects.IsReceipt(d.store, Protocol.DurableReceipt(intent, receipt))
  {
  }

  /** A first decision on the started run, with no effects in the way, succeeds. */
  lemma {:induction false} SceneDecides(w: World, ids: Ids, e: Scene, decision: Decision, effects: seq<Effect>)
    requires ValidBrief(w.language.isSpace, e.brief) && GateOpens(w, e.brief)
    requires e.decider.tenant == e.starter.tenant && Strip(w.language.isSpace, e.decider.subject) != ""
    requires Political(e.brief) ==>
               Strip(w.language.isSpace, e.brief.legalReviewedBy) != Strip(w.language.isSpace, e.decider.subject)
    requires OwnReceipts(ids, e, decision) && effects == [] && IdsDistinct(ids)
    ensures var a := Judge(e.decider, w.runId(e.brief), decision, e.note, effects, NoFault, e.clock);
            var reply := Step(w, ids, StartedState(w, ids, e), a).reply;
            reply.Ok? && !reply.value.replayed
  {
    hide *;
    var st, run := StartedState(w, ids, e), StartedRunOf(w, e);
    var key := Key(e.starter.tenant, w.runId(e.brief));
    SceneStarts(w, ids, e);
    SceneReached(w, ids, e);
    SceneStores(w, ids, e, decision);
    RowHolds(w, ids, st, key);
    RowIsInv(w, key, run);
    DecidableIff(w, run, decision, e.decider.subject);
    var a := Judge(e.decider, w.runId(e.brief), decision, e.note, effects, NoFault, e.clock);
    JudgeIs(w, ids, st, a);
    AllowedDecision(w, run, decision, e.decider.subject, e.note, e.clock);
    DecidedRunIs(w, key, run, decision, e.decider.subject, e.note, NoFault, e.clock);
    FreshJudge(w, ids, st, a);
  }

  lemma {:induction false} SceneStores(w: World, ids: Ids, e: Scene, decision: Decision)
    requires OwnReceipts(ids, e, decision)
    ensures var st, key := StartedState(w, ids, e), Key(e.starter.tenant, w.runId(e.brief));
            && key in st.store.runs && st.store.runs[key] == StartedRunOf(w, e)
            && ids.command(e.decider.tenant, DecisionOperation(decision), e.decider.key) !in st.store.audit
  {
    hide StartedRunOf, StartOperation, DecisionOperation;
  }

  lemma {:induction false} SceneReached(w: World, ids: Ids, e: Scene)
    requires ValidBrief(w.language.isSpace, e.brief) && IdsDistinct(ids)
    ensures StoreInv(w, ids, StartedState(w, ids, e))
  {
    hide *;
    SceneStarts(w, ids, e);
    StartsWithInv(w, ids);
    StepKeeps(w, ids, Service.Initial(), StartAction(e));
    KeepsInv(w, ids, Service.Initial(), Step(w, ids, Service.Initial(), StartAction(e)));
  }

  lemma {:induction false} StartsWithInv(w: World, ids: Ids)
    ensures StoreInv(w, ids, Service.Initial())
  {
  }

  lemma {:induction false} KeepsInv(w: World, ids: Ids, st: State, a: Answer)
    requires Keeps(w, ids, st, a)
    ensures StoreInv(w, ids, a.state)
  {
    hide StoreInv, StoreGrows;
  }

  lemma {:induction false} RowIsInv(w: World, key: Key, run: Run)
    requires RowOk(w, key, run)
    ensures RunInv(w, run)
  {
    hide RunInv, ValidBrief;
  }

  lemma {:induction false} AllowedDecision(w: World, run: Run, decision: Decision, reviewer: string, note: string,
                                           clock: Clock)
    requires WellFormed(run) && Refusal(w, run, decision, reviewer) == None
    ensures Decide(w, run, decision, reviewer, note, NoFault, clock).Ok?
  {
    hide Refusal, Presented, Orchestrator.Approve, Orchestrator.Reject, NewGreenlight, Strip;
  }

  lemma {:induction false} FreshJudge(w: World, ids: Ids, st: State, a: Action)
    requires a.Judge? && a.effects == []
    requires var key := Key(a.c.tenant, a.runId);
             && key in st.store.runs && WellFormed(st.store.runs[key])
             && st.store.runs[key].status == AwaitingGreenlight
             && ids.command(a.c.tenant, DecisionOperation(a.decision), a.c.key) !in st.store.audit
             && var r := Decide(w, st.store.runs[key], a.decision, a.c.subject, a.note, a.fault, a.clock);
                r.Ok? && r.value.runId == a.runId
    ensures var reply := DecideRun(w, ids, st, a.c, a.runId, a.decision, a.note, a.effects, a.fault, a.clock).reply;
            reply.Ok? && !reply.value.replayed
  {
    hide Decide, DecisionOperation;
  }

  /** A first decision on the run of a caller that is prepared, has reserved or has its answer, and will finish. */
  ghost predicate Catches(w: World, ids: Ids, d: Protocol.Derivation, x: Combined, m: Move, e: Scene, n: nat) {
    hide *;
    && Decides(x, m) && FreshlyDecides(w, ids, x, m)
    && WillFinish(d, x.effects, 0, e.text, e.receipt)
    && 0 in x.effects.callers
    && var k := x.effects.callers[0];
       && (if n == 0 then k.Prepared? else if n == 1 then k.Executable? else k.Completing?)
       && RunOf(k.intent) == DecidedKey(x, m)
  }

  /**
   For every acceptable scene, whether the run is approved or rejected and wherever the caller stands by then, the
   decision is a first and successful one and catches the caller under way.
   */
  lemma {:induction false} DecisionCatchesCaller(w: World, ids: Ids, d: Protocol.Derivation, e: Scene, n: nat,
                                                 decision: Decision)
    requires IdsDistinct(ids) && n <= 2 && Acceptable(w, ids, d, e) && OwnReceipts(ids, e, decision)
    ensures Catches(w, ids, d, Moved(w, ids, d, Beginning(), Caught(w, e, n)), DecisionMoveOf(w, e, decision), e, n)
  {
    hide *;
    AcceptableMeans(w, ids, d, e);
    var intent := Protocol.BuildIntent(d, e.command, e.descriptor, e.prepared);
    var x := Moved(w, ids, d, Beginning(), Caught(w, e, n));
    CaughtState(w, ids, d, e, n);
    UnderWayAfter(d, e, intent, n);
    BuiltFor(d, e.command, e.descriptor, e.prepared);
    WillFinishMeans(d, x.effects, 0, e.text, e.receipt);
    SceneDecides(w, ids, e, decision, []);
    DecisionIs(w, ids, e, x, decision);
    CatchesIs(w, ids, d, x, DecisionMoveOf(w, e, decision), e, n);
  }

  lemma {:induction false} CatchesIs(w: World, ids: Ids, d: Protocol.Derivation, x: Combined, m: Move, e: Scene, n: nat)
    requires Decides(x, m) && FreshlyDecides(w, ids, x, m) && WillFinish(d, x.effects, 0, e.text, e.receipt)
    requires 0 in x.effects.callers
    requires var k := x.effects.callers[0];
             && (if n == 0 then k.Prepared? else if n == 1 then k.Executable? else k.Completing?)
             && RunOf(k.intent) == DecidedKey(x, m)
    ensures Catches(w, ids, d, x, m, e, n)
  {
    hide Decides, FreshlyDecides, WillFinish, RunOf, DecidedKey;
  }

  lemma {:induction false} AcceptableMeans(w: World, ids: Ids, d: Protocol.Derivation, e: Scene)
    requires Acceptable(w, ids, d, e)
    ensures ValidBrief(w.language.isSpace, e.brief) && GateOpens(w, e.brief)
    ensures e.decider.tenant == e.starter.tenant && Strip(w.language.isSpace, e.decider.subject) != ""
    ensures Political(e.brief) ==>
      Strip(w.language.isSpace, e.brief.legalReviewedBy) != Strip(w.language.isSpace, e.decider.subject)
    ensures e.command.tenantId == e.starter.tenant && e.command.runId == w.runId(e.brief)
    ensures var intent := Protocol.BuildIntent(d, e.command, e.descriptor, e.prepared);
            Protocol.IsCommand(d, e.command) && Effects.IsPendingIntent(d.store, intent)
            && GoodAnswer(d, intent, e.descriptor, e.text, e.receipt)
  {
    hide ValidBrief, GateOpens, Strip, Political, Protocol.IsCommand, Effects.IsPendingIntent, GoodAnswer,
         Protocol.BuildIntent;
  }

  lemma {:induction false} CaughtIs(w: World, e: Scene, n: nat)
    requires n <= 2
    ensures |FirstSteps(e)| == 2 && Caught(w, e, n) == Opening(w, e) + AsMoves(FirstSteps(e)[..n])
    ensures forall i | 0 <= i < n :: !FirstSteps(e)[i].Begin?
  {
  }

  /** The combined state when the decision falls. */
  lemma {:induction false} CaughtState(w: World, ids: Ids, d: Protocol.Derivation, e: Scene, n: nat)
    requires n <= 2 && ValidBrief(w.language.isSpace, e.brief) && Protocol.IsCommand(d, e.command)
    requires e.command.tenantId == e.starter.tenant && e.command.runId == w.runId(e.brief)
    ensures var intent := Protocol.BuildIntent(d, e.command, e.descriptor, e.prepared);
            var s := Protocol.System(map[], map[0 := Protocol.Prepared(intent, e.descriptor)], []);
            Moved(w, ids, d, Beginning(), Caught(w, e, n))
            == Combined(Protocol.Run(d, s, FirstSteps(e)[..n]), StartedState(w, ids, e),
                        map[0 := Listing(e.starter.tenant, w.runId(e.brief), map[])])
  {
    hide *;
    CaughtIs(w, e, n);
    var steps := FirstSteps(e)[..n];
    Opened(w, ids, d, e);
    MovedConcat(w, ids, d, Beginning(), Opening(w, e), AsMoves(steps));
    EffectMoves(w, ids, d, Moved(w, ids, d, Beginning(), Opening(w, e)), steps);
  }

  /** What the decision of a scene means in a state whose reader saw no effects. */
  lemma {:induction false} DecisionIs(w: World, ids: Ids, e: Scene, x: Combined, decision: Decision)
    requires x.listings == map[0 := Listing(e.starter.tenant, w.runId(e.brief), map[])]
    requires e.decider.tenant == e.starter.tenant
    requires var a := Judge(e.decider, w.runId(e.brief), decision, e.note, [], NoFault, e.clock);
             var reply := Step(w, ids, x.service, a).reply; reply.Ok? && !reply.value.replayed
    ensures var m := DecisionMoveOf(w, e, decision);
            Decides(x, m) && FreshlyDecides(w, ids, x, m) && DecidedKey(x, m) == Key(e.starter.tenant, w.runId(e.brief))
  {
    NothingListed(e.starter.tenant, w.runId(e.brief));
    hide Step, Listed;
    assert e.decider.(tenant := e.starter.tenant) == e.decider;
    var m := DecisionMoveOf(w, e, decision);
    assert DecisionOf(x, m) == Judge(e.decider, w.runId(e.brief), decision, e.note, [], NoFault, e.clock);
  }

  lemma {:induction false} NothingListed(tenant: string, runId: string)
    ensures Listed(Listing(tenant, runId, map[])) == []
  {
    assert EffectsAndRuns.RunIds(Listing(tenant, runId, map[])) == {};
  }

  lemma {:induction false} MovedConcat(w: World, ids: Ids, d: Protocol.Derivation, x: Combined, a: seq<Move>, b: seq<Move>)
    ensures Moved(w, ids, d, x, a + b) == Moved(w, ids, d, Moved(w, ids, d, x, a), b)
    decreases |b|
  {
    hide Next;
    if b == [] {
      assert a + b == a;
    } else {
      MovedConcat(w, ids, d, x, a, b[..|b| - 1]);
      assert (a + b)[..|a + b| - 1] == a + b[..|b| - 1];
    }
  }

  /** The gate is open for every valid brief that is not political. */
  lemma {:induction false} CommercialGateOpens(w: World, brief: Brief)
    ensures !Political(brief) ==> GateOpens(w, brief)
  {
    hide Campaign.CopyDeck, Ledger;
    CritiqueReport(w.language, brief, Ledger(w, brief), Campaign.CopyDeck(w.language, brief, Ledger(w, brief)));
  }
}
