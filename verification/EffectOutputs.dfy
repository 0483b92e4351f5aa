/** Where the model outputs in a run come from: each of them was paid for, and is what the provider answered. */
module EffectOutputs {
  import opened Prelude
  import opened Models
  import opened Campaign
  import opened Runs
  import opened Orchestrator
  import opened RunShape
  import opened RunGrowth
  import opened RunInvariant
  import opened RunStates
  import opened RunStore
  import opened Service
  import opened ServiceInvariant
  import opened ServiceHistory
  import opened EffectsAndRuns
  import Effects = ModelEffectStore
  import Protocol = ModelEffect

  /** The second list goes on without another model output. */
  ghost predicate NoOutput(a: seq<Artifact>, b: seq<Artifact>) {
    a <= b && forall j | |a| <= j < |b| :: b[j].kind != ModelCompletion
  }

  lemma {:induction false} CompleteAdds(w: World, run: Run, role: Role, payload: Payload, evidence: seq<Evidence>, at: int)
    requires WellFormed(run)
    ensures NoOutput(run.artifacts, Complete(w, run, role, payload, evidence, at).artifacts)
  {
    hide Merge, EvidenceIds;
  }

  lemma {:induction false} AwaitAdds(run: Run, at: int)
    requires WellFormed(run)
    ensures Await(run, at).run.artifacts == run.artifacts
  {
    hide Latest, ReportAllows;
  }

  lemma {:induction false} ExecuteAdds(w: World, run: Run, i: nat, fault: Fault, clock: Clock)
    requires WellFormed(run) && i < EXECUTABLE
    ensures NoOutput(run.artifacts, Execute(w, run, i, fault, clock).run.artifacts)
  {
    hide Complete, Await, Orchestrator.Work;
    var work := Orchestrator.Work(w, run.brief, run.runId, run.artifacts, Station(i));
    if fault != BeforeWork && work.Some? {
      var evidence := w.evidence(Station(i), run.brief);
      var done := Complete(w, run, Station(i), work.value, evidence, clock(0));
      CompleteAdds(w, run, Station(i), work.value, evidence, clock(0));
      CompleteAgents(w, run, Station(i), work.value, evidence, clock(0));
      AwaitAdds(done.(execution := done.execution.(nextStation := Station(i + 1))), clock(1));
    }
  }

  lemma {:induction false} AdvanceAdds(w: World, run: Run, fault: Fault, clock: Clock)
    requires WellFormed(run)
    ensures NoOutput(run.artifacts, Advance(w, run, fault, clock).run.artifacts)
  {
    hide Execute, Await, NextOpen;
    var r := Dequeued(run);
    var i := NextOpen(r.agents, 0);
    if r.status == Running {
      if i == EXECUTABLE {
        AwaitAdds(r, clock(0));
      } else {
        ExecuteAdds(w, r.(execution := r.execution.(nextStation := Station(i))), i, fault, clock);
      }
    }
  }

  lemma {:induction false} AdvancesAdd(w: World, run: Run, faults: nat -> Fault, clocks: nat -> Clock, n: nat)
    requires WellFormed(run) && run.artifacts == []
    ensures NoOutput([], Advances(w, run, faults, clocks, n).run.artifacts)
    decreases n
  {
    hide Advance;
    if n > 0 {
      AdvancesAdd(w, run, faults, clocks, n - 1);
      var before := Advances(w, run, faults, clocks, n - 1).run;
      AdvanceAdds(w, before, faults(n - 1), clocks(n - 1));
    }
  }

  lemma {:induction false} DecideAdds(w: World, run: Run, decision: Decision, reviewer: string, note: string,
                                      fault: Fault, clock: Clock)
    requires WellFormed(run)
    ensures var r := Decide(w, run, decision, reviewer, note, fault, clock);
            r.Ok? ==> NoOutput(run.artifacts, r.value.artifacts)
  {
    hide Complete, Refusal, Strip, NewGreenlight;
    var who, why := Strip(w.language.isSpace, reviewer), Strip(w.language.isSpace, note);
    var presented := Presented(w, run, decision, who);
    assert NoOutput(run.artifacts, presented.artifacts);
    var g := NewGreenlight(w, presented, decision, who, why, clock(0));
    var recorded := Event(Update(presented.(greenlight := Some(g)), Publisher, Processing, 50),
                          Publisher, GreenlightApproved, Processing, clock(1), [], []);
    CompleteAdds(w, recorded, Publisher, w.package(presented.runId, presented.artifacts),
                 w.packageEvidence(presented.runId, presented.artifacts), clock(2));
  }

  // ---------------------------------------------------------------- the store

  function Held(s: Store, key: Key): seq<Artifact> {
    if key in s.runs then s.runs[key].artifacts else []
  }

  ghost predicate StoreNoOutput(a: Store, b: Store) {
    forall key | key in b.runs :: NoOutput(Held(a, key), b.runs[key].artifacts)
  }

  lemma {:induction false} SavedNoOutput(s: Store, tenant: string, run: Run, expected: RunStatus, id: Option<string>,
                                         record: Record)
    requires NoOutput(Held(s, Key(tenant, run.runId)), run.artifacts)
    ensures var r := SaveRow(s, tenant, run, expected, id, record); r.Ok? ==> StoreNoOutput(s, r.value)
  {
  }

  lemma {:induction false} SameNoOutput(a: Store, b: Store)
    requires b.runs == a.runs
    ensures StoreNoOutput(a, b)
  {
  }

  lemma {:induction false} StartNoOutput(w: World, ids: Ids, st: State, a: Action)
    requires a.Start?
    ensures StoreNoOutput(st.store, Step(w, ids, st, a).state.store)
  {
    hide ValidBrief, Advances, Replay, StoreNoOutput;
    SameNoOutput(st.store, st.store);
    assert forall s: Store | s.runs == st.store.runs :: StoreNoOutput(st.store, s) by {
      forall s: Store | s.runs == st.store.runs ensures StoreNoOutput(st.store, s) { SameNoOutput(st.store, s); }
    }
    AdvancesAdd(w, Create(w, a.brief, false, a.now), a.faults, a.clocks, MAX_ADVANCES);
    CreatedNoOutput(st.store, a.c.tenant, Create(w, a.brief, true, a.now));
    CreatedNoOutput(st.store, a.c.tenant, Advances(w, Create(w, a.brief, false, a.now), a.faults, a.clocks, MAX_ADVANCES).run);
  }

  lemma {:induction false} CreatedNoOutput(s: Store, tenant: string, run: Run)
    requires NoOutput([], run.artifacts)
    ensures forall id, record :: CreateRow(s, tenant, run, id, record).Ok? ==>
      StoreNoOutput(s, CreateRow(s, tenant, run, id, record).value)
  {
  }

  lemma {:induction false} CommitNoOutput(st: State, c: Caller, run: Run, expected: RunStatus, eventId: string,
                                          operation: string, fp: string)
    requires NoOutput(Held(st.store, Key(c.tenant, run.runId)), run.artifacts)
    ensures StoreNoOutput(st.store, Commit(st, c, run, expected, eventId, operation, fp).state.store)
  {
    hide StoreNoOutput;
    SameNoOutput(st.store, st.store);
    SavedNoOutput(st.store, c.tenant, run, expected, Some(eventId), Receipt(operation, fp, run));
  }

  lemma {:induction false} JudgeNoOutput(w: World, ids: Ids, st: State, a: Action)
    requires StoreInv(w, ids, st) && a.Judge?
    ensures StoreNoOutput(st.store, Step(w, ids, st, a).state.store)
  {
    hide StoreInv, RowOk, Decide, EffectsObjection, Replay, StoreNoOutput, Commit, NoOutput;
    var key := Key(a.c.tenant, a.runId);
    SameNoOutput(st.store, st.store);
    if key in st.store.runs {
      RowHolds(w, ids, st, key);
      var run := st.store.runs[key];
      RowIsWell(w, key, run);
      var r := Decide(w, run, a.decision, a.c.subject, a.note, a.fault, a.clock);
      DecideAdds(w, run, a.decision, a.c.subject, a.note, a.fault, a.clock);
      if r.Ok? {
        DecidedRun(w, key, run, a.decision, a.c.subject, a.note, a.fault, a.clock);
        var operation := DecisionOperation(a.decision);
        CommitNoOutput(st, a.c, r.value, AwaitingGreenlight, ids.command(a.c.tenant, operation, a.c.key), operation,
                       ids.fingerprint(operation, a.c.subject, a.runId, a.note));
      }
    }
  }

  lemma {:induction false} DecidedRun(w: World, key: Key, run: Run, decision: Decision, reviewer: string, note: string,
                                      fault: Fault, clock: Clock)
    requires RowOk(w, key, run) && WellFormed(run)
    ensures var r := Decide(w, run, decision, reviewer, note, fault, clock); r.Ok? ==> r.value.runId == key.runId
  {
    hide RunInv, ValidBrief, Decide;
    DecideKeeps(w, run, decision, reviewer, note, fault, clock);
  }

  lemma {:induction false} WithdrawNoOutput(w: World, ids: Ids, st: State, a: Action)
    requires StoreInv(w, ids, st) && a.Withdraw?
    ensures StoreNoOutput(st.store, Step(w, ids, st, a).state.store)
  {
    hide StoreInv, RowOk, Orchestrator.Revoke, Replay, StoreNoOutput, Commit;
    var key := Key(a.c.tenant, a.runId);
    SameNoOutput(st.store, st.store);
    if key in st.store.runs {
      RowHolds(w, ids, st, key);
      var run := st.store.runs[key];
      RowIsWell(w, key, run);
      RowKey(w, key, run);
      var r := Orchestrator.Revoke(w, run, a.c.subject, a.reason, a.clock);
      if r.Ok? {
        RevokedRun(w, run, a.c.subject, a.reason, a.clock);
        CommitNoOutput(st, a.c, r.value, Completed, ids.command(a.c.tenant, RevocationOperation(), a.c.key),
                       RevocationOperation(),
                       ids.fingerprint(RevocationOperation(), a.c.subject, a.runId, a.reason));
      }
    }
  }

  lemma {:induction false} RevokedRun(w: World, run: Run, reviewer: string, reason: string, clock: Clock)
    requires WellFormed(run)
    ensures var r := Orchestrator.Revoke(w, run, reviewer, reason, clock);
            r.Ok? ==> r.value.artifacts == run.artifacts && r.value.runId == run.runId
  {
    hide Strip;
  }

  lemma {:induction false} MediaNoOutput(w: World, ids: Ids, st: State, a: Action)
    requires StoreInv(w, ids, st) && a.SupplyMedia?
    ensures StoreNoOutput(st.store, Step(w, ids, st, a).state.store)
  {
    hide StoreInv, RowOk, Replay, StoreNoOutput, Commit, MediaOf, Step;
    StepIsMedia(w, ids, st, a);
    var key, m := Key(a.c.tenant, a.runId), a.media;
    SameNoOutput(st.store, st.store);
    if key in st.store.runs && WellFormed(st.store.runs[key]) {
      RowHolds(w, ids, st, key);
      var run := st.store.runs[key];
      RowKey(w, key, run);
      var eventId := ids.command(a.c.tenant, MediaOperation(), a.c.key);
      var fp := ids.fingerprint(MediaOperation(), a.c.subject, a.runId, m.payload);
      var more := AddArtifact(run, Artifact(m.artifactId, PublicationMedia, Media,
                                            MediaRecord(Instagram(), m.mediaId, m.url, m.sha256), []));
      CommitNoOutput(st, a.c, run, AwaitingGreenlight, eventId, MediaOperation(), fp);
      CommitNoOutput(st, a.c, more, AwaitingGreenlight, eventId, MediaOperation(), fp);
    }
  }

  lemma {:induction false} LeaseNoOutput(w: World, ids: Ids, st: State, a: Action)
    requires StoreInv(w, ids, st) && a.Lease?
    ensures StoreNoOutput(st.store, Step(w, ids, st, a).state.store)
  {
    hide StoreInv, RowOk, StoreNoOutput, LeasedByOther;
    SameNoOutput(st.store, st.store);
    if a.key in st.store.runs {
      RowHolds(w, ids, st, a.key);
      var run := st.store.runs[a.key];
      RowKey(w, a.key, run);
      SavedNoOutput(st.store, a.key.tenant, WithLease(run, a.worker, a.now, a.seconds), run.status, None, Note(""));
    }
  }

  lemma {:induction false} WorkNoOutput(w: World, ids: Ids, st: State, a: Action)
    requires StoreInv(w, ids, st) && IdsDistinct(ids) && a.Work?
    ensures StoreNoOutput(st.store, Step(w, ids, st, a).state.store)
  {
    hide StoreInv, IdsDistinct, RowOk, Checkpointed, NoOutput;
    if a.key in st.held {
      CheckpointNeverConflicts(w, ids, st, a.key, a.fault, a.clock, a.now);
      HeldRow(w, ids, st, a.key);
      assert st.store.runs[a.key] == st.held[a.key] by { HeldIsRow(w, ids, st, a.key); }
      CheckpointAdds(w, st.held[a.key], a.fault, a.clock, a.now);
    }
    forall key | key in st.store.runs ensures NoOutput(st.store.runs[key].artifacts, st.store.runs[key].artifacts) {
      NothingAdded(st.store.runs[key].artifacts);
    }
  }

  lemma {:induction false} NothingAdded(a: seq<Artifact>)
    ensures NoOutput(a, a)
  {
  }

  lemma {:induction false} HeldIsRow(w: World, ids: Ids, st: State, key: Key)
    requires StoreInv(w, ids, st) && key in st.held
    ensures key in st.store.runs && st.store.runs[key] == st.held[key]
  {
    hide RowOk;
  }

  lemma {:induction false} CheckpointAdds(w: World, run: Run, fault: Fault, clock: Clock, now: int)
    requires WellFormed(run)
    ensures NoOutput(run.artifacts, Checkpointed(w, run, fault, clock, now).artifacts)
  {
    hide Advance;
    AdvanceAdds(w, run, fault, clock);
  }

  /** Only the attachment of a result adds a model output to a run. */
  lemma {:induction false} OnlyAttachmentsAdd(w: World, ids: Ids, st: State, a: Action)
    requires StoreInv(w, ids, st) && IdsDistinct(ids) && !a.SupplyResult?
    ensures StoreNoOutput(st.store, Step(w, ids, st, a).state.store)
  {
    hide StoreInv, IdsDistinct, Step, StoreNoOutput;
    match a
    case Start(_, _, _, _, _, _) => StartNoOutput(w, ids, st, a);
    case Judge(_, _, _, _, _, _, _) => JudgeNoOutput(w, ids, st, a);
    case Withdraw(_, _, _, _) => WithdrawNoOutput(w, ids, st, a);
    case SupplyMedia(_, _, _) => MediaNoOutput(w, ids, st, a);
    case Lease(_, _, _, _) => LeaseNoOutput(w, ids, st, a);
    case Work(_, _, _, _) => WorkNoOutput(w, ids, st, a);
    case WorkerCrash(_) => RestingNoOutput(w, ids, st, a);
    case Restart => RestingNoOutput(w, ids, st, a);
  }

  lemma {:induction false} RestingNoOutput(w: World, ids: Ids, st: State, a: Action)
    requires a.WorkerCrash? || a.Restart?
    ensures StoreNoOutput(st.store, Step(w, ids, st, a).state.store)
  {
    SameNoOutput(st.store, st.store);
  }

  // ---------------------------------------------------------------- every output was paid

  /** The artifact is the recorded answer of a succeeded effect of this run. */
  ghost predicate Paid(ids: Ids, table: Effects.Table, key: Key, a: Artifact) {
    && a.payload.Completion?
    && a.id == ids.completion(a.payload.effectId)
    && OfRun(table, a.payload.effectId, key.tenant, key.runId)
    && var row := table[a.payload.effectId];
       row.status == Effects.Succeeded && row.outputText == a.payload.output && row.sourceArtifactId == a.payload.sourceId
  }

  ghost predicate OutputsPaid(ids: Ids, table: Effects.Table, store: Store) {
    forall key, j | key in store.runs && 0 <= j < |store.runs[key].artifacts|
                    && store.runs[key].artifacts[j].kind == ModelCompletion ::
      Paid(ids, table, key, store.runs[key].artifacts[j])
  }

  lemma {:induction false} PaidStays(ids: Ids, a: Effects.Table, b: Effects.Table, key: Key, art: Artifact)
    requires Effects.Evolves(a, b) && Paid(ids, a, key, art)
    ensures Paid(ids, b, key, art)
  {
  }

  lemma {:induction false} OutputsStay(ids: Ids, a: Effects.Table, b: Effects.Table, store: Store)
    requires Effects.Evolves(a, b) && OutputsPaid(ids, a, store)
    ensures OutputsPaid(ids, b, store)
  {
    hide Paid, Effects.Evolves;
    forall key, j | key in store.runs && 0 <= j < |store.runs[key].artifacts|
                    && store.runs[key].artifacts[j].kind == ModelCompletion
      ensures Paid(ids, b, key, store.runs[key].artifacts[j])
    {
      PaidStays(ids, a, b, key, store.runs[key].artifacts[j]);
    }
  }

  /** Rows that grew without an output, or by one that was paid. */
  lemma {:induction false} GrownPaid(ids: Ids, table: Effects.Table, a: Store, b: Store)
    requires OutputsPaid(ids, table, a) && StoreGrows(a, b)
    requires forall key, j | key in b.runs && |Held(a, key)| <= j < |b.runs[key].artifacts|
                             && b.runs[key].artifacts[j].kind == ModelCompletion ::
               Paid(ids, table, key, b.runs[key].artifacts[j])
    ensures OutputsPaid(ids, table, b)
  {
    hide Paid;
    forall key, j | key in b.runs && 0 <= j < |b.runs[key].artifacts| && b.runs[key].artifacts[j].kind == ModelCompletion
      ensures Paid(ids, table, key, b.runs[key].artifacts[j])
    {
      if j < |Held(a, key)| {
        RowsGrow(a, b, key);
        assert a.runs[key].artifacts[j] == b.runs[key].artifacts[j];
      }
    }
  }

  /** An attachment leaves the rows alone or adds the output to the one row. */
  lemma {:induction false} AttachIsAdd(ids: Ids, st: State, tenant: string, runId: string, action: string, e: EffectResult)
    returns (evidenceIds: seq<string>)
    requires var key := Key(tenant, runId); key in st.store.runs ==> st.store.runs[key].runId == runId
    ensures var key := Key(tenant, runId);
            var next := AttachResult(ids, st, tenant, runId, action, e).state.store;
            || next.runs == st.store.runs
            || (key in st.store.runs
                && next.runs.Keys == st.store.runs.Keys
                && (forall k | k in next.runs && k != key :: next.runs[k] == st.store.runs[k])
                && next.runs[key].artifacts
                   == st.store.runs[key].artifacts
                      + [Artifact(ids.completion(e.effectId), ModelCompletion, e.role,
                                  Completion(e.effectId, e.sourceId, e.output), evidenceIds)])
  {
    hide WithId, Find;
    var key := Key(tenant, runId);
    evidenceIds := [];
    if key in st.store.runs && WithId(st.store.runs[key].artifacts, e.sourceId).Some? {
      evidenceIds := WithId(st.store.runs[key].artifacts, e.sourceId).value.evidenceIds;
    }
  }

  lemma {:induction false} AttachAdds(ids: Ids, st: State, tenant: string, runId: string, action: string, e: EffectResult,
                                      key: Key, j: nat)
    requires var own := Key(tenant, runId); own in st.store.runs ==> st.store.runs[own].runId == runId
    requires var next := AttachResult(ids, st, tenant, runId, action, e).state.store;
             key in next.runs && |Held(st.store, key)| <= j < |next.runs[key].artifacts|
    ensures var next := AttachResult(ids, st, tenant, runId, action, e).state.store;
            && key == Key(tenant, runId)
            && next.runs[key].artifacts[j].payload == Completion(e.effectId, e.sourceId, e.output)
            && next.runs[key].artifacts[j].id == ids.completion(e.effectId)
  {
    hide AttachResult;
    var evidenceIds := AttachIsAdd(ids, st, tenant, runId, action, e);
  }

  /** What the attachment of a succeeded row adds. */
  lemma {:induction false} AttachmentAdds(w: World, ids: Ids, st: State, table: Effects.Table, m: Move)
    requires StoreInv(w, ids, st) && m.Attach? && m.effectId in table && table[m.effectId].status == Effects.Succeeded
    ensures var next := Step(w, ids, st, Attachment(table, m)).state.store;
            forall key, j | key in next.runs && |Held(st.store, key)| <= j < |next.runs[key].artifacts| ::
              Paid(ids, table, key, next.runs[key].artifacts[j])
  {
    hide StoreInv, RowOk, Step, AttachResult;
    var row := table[m.effectId];
    var key := Key(row.tenantId, row.runId);
    if key in st.store.runs {
      RowHolds(w, ids, st, key);
      RowKey(w, key, st.store.runs[key]);
    }
    var e := EffectResult(m.effectId, m.role, row.sourceArtifactId, row.outputText);
    StepIsAttach(w, ids, st, row.tenantId, row.runId, m.action, e);
    var next := AttachResult(ids, st, row.tenantId, row.runId, m.action, e).state.store;
    forall k, j | k in next.runs && |Held(st.store, k)| <= j < |next.runs[k].artifacts|
      ensures Paid(ids, table, k, next.runs[k].artifacts[j])
    {
      AttachAdds(ids, st, row.tenantId, row.runId, m.action, e, k, j);
    }
  }

  lemma {:induction false} MovePaid(w: World, ids: Ids, d: Protocol.Derivation, x: Combined, m: Move)
    requires IdsDistinct(ids) && CombinedInv(w, ids, d, x) && OutputsPaid(ids, x.effects.table, x.service.store)
    ensures var now := Next(w, ids, d, x, m); OutputsPaid(ids, now.effects.table, now.service.store)
  {
    hide StoreInv, Protocol.Inv, IdsDistinct, Step, Protocol.Step, StoreGrows, OutputsPaid, Effects.Evolves, Paid;
    var now := Next(w, ids, d, x, m);
    MoveKeeps(w, ids, d, x, m);
    var s := ForService(x, m);
    if s != [] {
      StepKeeps(w, ids, x.service, s[0]);
      if m.Attach? {
        AttachmentAdds(w, ids, x.service, x.effects.table, m);
      } else {
        assert !s[0].SupplyResult?;
        OnlyAttachmentsAdd(w, ids, x.service, s[0]);
        assert StoreNoOutput(x.service.store, now.service.store);
      }
      GrownPaid(ids, x.effects.table, x.service.store, now.service.store);
    }
    OutputsStay(ids, x.effects.table, now.effects.table, now.service.store);
  }

  /** In every reachable state each model output in a run is the answer of a succeeded effect of that run. */
  lemma {:induction false} EveryOutputWasPaid(w: World, ids: Ids, d: Protocol.Derivation, moves: seq<Move>)
    requires IdsDistinct(ids)
    ensures var x := Moved(w, ids, d, Beginning(), moves); OutputsPaid(ids, x.effects.table, x.service.store)
    decreases |moves|
  {
    hide IdsDistinct, Next, CombinedInv, OutputsPaid;
    if moves == [] {
      assert OutputsPaid(ids, map[], Store(map[], map[])) by { NothingToPay(ids); }
    } else {
      var n := |moves| - 1;
      EveryOutputWasPaid(w, ids, d, moves[..n]);
      Reached(w, ids, d, moves[..n]);
      MovePaid(w, ids, d, Moved(w, ids, d, Beginning(), moves[..n]), moves[n]);
    }
  }

  lemma {:induction false} NothingToPay(ids: Ids)
    ensures OutputsPaid(ids, map[], Store(map[], map[]))
  {
  }
}
