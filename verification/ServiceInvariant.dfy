/**
 What holds in every state of the service: stored runs are in one of their proper states, the worker that holds a
 run's lock still finds the row it saved, and no checkpoint event exists yet for a fence that is still to be used.
 Rows only grow and audit events are never lost.
 */
module ServiceInvariant {
  import opened Prelude
  import opened Models
  import opened Campaign
  import opened Runs
  import opened Orchestrator
  import opened RunShape
  import opened RunInvariant
  import opened RunGrowth
  import opened RunStates
  import opened RunStore
  import opened Service

  function CheckpointId(ids: Ids, key: Key, fence: nat): string {
    ids.checkpoint(key.tenant, key.runId, fence)
  }

  /** Checkpoint ids do not collide with each other nor with the ids of other events. */
  ghost predicate IdsDistinct(ids: Ids) {
    && (forall k, f: nat, l, g: nat | CheckpointId(ids, k, f) == CheckpointId(ids, l, g) :: k == l && f == g)
    && (forall t, o, i :: NotCheckpoint(ids, ids.command(t, o, i)))
    && (forall t, a, e :: NotCheckpoint(ids, ids.attachment(t, a, e)))
  }

  ghost predicate NotCheckpoint(ids: Ids, id: string) {
    forall k, f: nat :: CheckpointId(ids, k, f) != id
  }

  /** The fencing token of a run counts its leases. */
  ghost predicate RowOk(w: World, key: Key, run: Run) {
    && run.runId == key.runId
    && RunInv(w, run)
    && ValidBrief(w.language.isSpace, run.brief)
    && run.execution.fence == run.execution.attempts
  }

  ghost predicate RowsOk(w: World, runs: map<Key, Run>) {
    forall k | k in runs :: RowOk(w, k, runs[k])
  }

  /** A worker that holds a run's lock has the stored row in hand. */
  ghost predicate LocksOk(runs: map<Key, Run>, held: map<Key, Run>) {
    forall k | k in held :: k in runs && runs[k] == held[k] && Busy(held[k].status)
  }

  /** Checkpoints exist only for fences that were handed out and whose work is over. */
  ghost predicate CheckpointsOk(ids: Ids, store: Store, held: map<Key, Run>) {
    forall k, f: nat | CheckpointId(ids, k, f) in store.audit ::
      && k in store.runs && f <= store.runs[k].execution.fence
      && (k in held ==> f < store.runs[k].execution.fence)
  }

  ghost predicate StoreInv(w: World, ids: Ids, st: State) {
    RowsOk(w, st.store.runs) && LocksOk(st.store.runs, st.held) && CheckpointsOk(ids, st.store, st.held)
  }

  ghost predicate StoreGrows(a: Store, b: Store) {
    && (forall k | k in a.runs :: k in b.runs && Grows(a.runs[k], b.runs[k]))
    && (forall e | e in a.audit :: e in b.audit && b.audit[e] == a.audit[e])
  }

  lemma {:induction false} StoreGrowsTransitive(a: Store, b: Store, c: Store)
    requires StoreGrows(a, b) && StoreGrows(b, c)
    ensures StoreGrows(a, c)
  {
    hide Grows;
    forall k | k in a.runs ensures k in c.runs && Grows(a.runs[k], c.runs[k]) {
      GrowsTransitive(a.runs[k], b.runs[k], c.runs[k]);
    }
  }

  // ---------------------------------------------------------------- the kinds of change

  /** A row replaced or added by a command, together with its event. */
  lemma {:induction false} RowWritten(w: World, ids: Ids, st: State, key: Key, run: Run, eventId: string, e: AuditEntry)
    requires StoreInv(w, ids, st) && NotCheckpoint(ids, eventId) && eventId !in st.store.audit
    requires RowOk(w, key, run) && key !in st.held
    requires key in st.store.runs ==>
      Grows(st.store.runs[key], run) && run.execution.fence == st.store.runs[key].execution.fence
    ensures var next := Store(st.store.runs[key := run], st.store.audit[eventId := e]);
            StoreInv(w, ids, st.(store := next)) && StoreGrows(st.store, next)
  {
    hide RowOk, Grows;
    GrowsAreReflexive(st.store);
    var next := Store(st.store.runs[key := run], st.store.audit[eventId := e]);
    assert CheckpointsOk(ids, next, st.held) by {
      forall k, f: nat | CheckpointId(ids, k, f) in next.audit
        ensures k in next.runs && f <= next.runs[k].execution.fence
        ensures k in st.held ==> f < next.runs[k].execution.fence
      {
        assert CheckpointId(ids, k, f) in st.store.audit;
      }
    }
  }

  lemma {:induction false} EventWritten(w: World, ids: Ids, st: State, eventId: string, e: AuditEntry)
    requires StoreInv(w, ids, st) && NotCheckpoint(ids, eventId) && eventId !in st.store.audit
    ensures var next := st.store.(audit := st.store.audit[eventId := e]);
            StoreInv(w, ids, st.(store := next)) && StoreGrows(st.store, next)
  {
    hide RowOk, Grows;
    GrowsAreReflexive(st.store);
    var next := st.store.(audit := st.store.audit[eventId := e]);
    assert CheckpointsOk(ids, next, st.held) by {
      forall k, f: nat | CheckpointId(ids, k, f) in next.audit
        ensures k in next.runs && f <= next.runs[k].execution.fence
        ensures k in st.held ==> f < next.runs[k].execution.fence
      {
        assert CheckpointId(ids, k, f) in st.store.audit;
      }
    }
  }

  lemma {:induction false} GrowsAreReflexive(s: Store)
    ensures forall k | k in s.runs :: Grows(s.runs[k], s.runs[k])
    ensures StoreGrows(s, s)
  {
  }

  // ---------------------------------------------------------------- commands

  ghost predicate Keeps(w: World, ids: Ids, st: State, a: Answer) {
    && StoreInv(w, ids, a.state)
    && StoreGrows(st.store, a.state.store)
  }

  /** Memory is no part of the invariant. */
  lemma {:induction false} Unchanged(w: World, ids: Ids, st: State, remembered: set<Key>)
    requires StoreInv(w, ids, st)
    ensures StoreInv(w, ids, st.(remembered := remembered)) && StoreGrows(st.store, st.store)
  {
    hide RowOk, Grows;
    GrowsAreReflexive(st.store);
  }

  lemma {:induction false} CommitKeeps(w: World, ids: Ids, st: State, c: Caller, key: Key, run: Run,
                                       expected: RunStatus, eventId: string, operation: string, fp: string)
    requires StoreInv(w, ids, st) && NotCheckpoint(ids, eventId)
    requires key == Key(c.tenant, run.runId) && key in st.store.runs && !Busy(st.store.runs[key].status)
    requires RowOk(w, key, run) && Grows(st.store.runs[key], run)
    requires run.execution.fence == st.store.runs[key].execution.fence
    ensures Keeps(w, ids, st, Commit(st, c, run, expected, eventId, operation, fp))
  {
    hide RowOk, Grows;
    GrowsAreReflexive(st.store);
    if eventId !in st.store.audit {
      RowWritten(w, ids, st, key, run, eventId, AuditEntry(c.tenant, Receipt(operation, fp, run)));
    }
  }

  lemma {:induction false} MadeIsOk(w: World, brief: Brief, asynchronous: bool, faults: nat -> Fault,
                                    clocks: nat -> Clock, now: int, n: nat)
    requires ValidBrief(w.language.isSpace, brief)
    ensures var o := Advances(w, Create(w, brief, asynchronous, now), faults, clocks, n);
            && o.run.runId == w.runId(brief) && o.run.brief == brief
            && o.run.execution.fence == o.run.execution.attempts == 0
            && (o.error == None ==> RunInv(w, o.run))
    decreases n
  {
    hide Advance, RunInv;
    if n == 0 {
      CreateKeeps(w, brief, asynchronous, now);
    } else {
      MadeIsOk(w, brief, asynchronous, faults, clocks, now, n - 1);
      var before := Advances(w, Create(w, brief, asynchronous, now), faults, clocks, n - 1);
      if before.error == None && Busy(before.run.status) {
        AdvanceKeeps(w, before.run, faults(n - 1), clocks(n - 1));
        AdvanceGrows(w, before.run, faults(n - 1), clocks(n - 1));
      }
    }
  }

  lemma {:induction false} StartKeeps(w: World, ids: Ids, st: State, c: Caller, brief: Brief, asynchronous: bool,
                                      faults: nat -> Fault, clocks: nat -> Clock, now: int)
    requires StoreInv(w, ids, st) && IdsDistinct(ids)
    ensures Keeps(w, ids, st, StartRun(w, ids, st, c, brief, asynchronous, faults, clocks, now))
  {
    hide RunInv, Grows, ValidBrief, Advances, Replay, StoreInv, StoreGrows;
    var key := Key(c.tenant, w.runId(brief));
    var eventId := ids.command(c.tenant, StartOperation(), c.key);
    var fp := ids.fingerprint(StartOperation(), c.subject, w.runId(brief), ids.briefPayload(brief));
    Unchanged(w, ids, st, st.remembered);
    Unchanged(w, ids, st, st.remembered + {key});
    if ValidBrief(w.language.isSpace, brief) && eventId !in st.store.audit {
      assert NotCheckpoint(ids, eventId);
      if key in st.store.runs {
        EventWritten(w, ids, st, eventId, AuditEntry(c.tenant, Receipt(StartOperation(), fp, st.store.runs[key])));
      } else {
        var made := if asynchronous then Outcome(Create(w, brief, true, now), None)
                    else Advances(w, Create(w, brief, false, now), faults, clocks, MAX_ADVANCES);
        if made.error == None {
          assert RowOk(w, key, made.run) by {
            MadeIsOk(w, brief, asynchronous, faults, clocks, now, if asynchronous then 0 else MAX_ADVANCES);
            NoAdvance(w, Create(w, brief, asynchronous, now), faults, clocks);
          }
          var known := st.(remembered := st.remembered + {key});
          HeldIsStored(w, ids, st, key);
          RowWritten(w, ids, known, key, made.run, eventId,
                     AuditEntry(c.tenant, Receipt(StartOperation(), fp, made.run)));
        }
      }
    }
  }

  lemma {:induction false} NoAdvance(w: World, run: Run, faults: nat -> Fault, clocks: nat -> Clock)
    requires WellFormed(run)
    ensures Advances(w, run, faults, clocks, 0) == Outcome(run, None)
  {
  }

  lemma {:induction false} HeldIsStored(w: World, ids: Ids, st: State, key: Key)
    requires StoreInv(w, ids, st)
    ensures key in st.held ==> key in st.store.runs && Busy(st.store.runs[key].status)
    ensures key in st.store.runs ==> RowOk(w, key, st.store.runs[key])
  {
    hide RowOk;
  }

  lemma {:induction false} DecideRunKeeps(w: World, ids: Ids, st: State, c: Caller, runId: string, decision: Decision,
                                          note: string, effects: seq<Effect>, fault: Fault, clock: Clock)
    requires StoreInv(w, ids, st) && IdsDistinct(ids)
    ensures Keeps(w, ids, st, DecideRun(w, ids, st, c, runId, decision, note, effects, fault, clock))
  {
    hide RunInv, Grows, Decide, Replay, StoreInv, StoreGrows, Commit, EffectsObjection;
    var key := Key(c.tenant, runId);
    Unchanged(w, ids, st, st.remembered);
    HeldIsStored(w, ids, st, key);
    if key in st.store.runs && WellFormed(st.store.runs[key]) {
      var run := st.store.runs[key];
      var decided := Decide(w, run, decision, c.subject, note, fault, clock);
      if decided.Ok? {
        DecideKeeps(w, run, decision, c.subject, note, fault, clock);
        DecideGrows(w, run, decision, c.subject, note, fault, clock);
        OnlyWaiting(w, run, decision, c.subject, note, fault, clock);
        var operation := DecisionOperation(decision);
        CommitKeeps(w, ids, st, c, key, decided.value, AwaitingGreenlight, ids.command(c.tenant, operation, c.key),
                    operation, ids.fingerprint(operation, c.subject, runId, note));
      }
    }
  }

  lemma {:induction false} OnlyWaiting(w: World, run: Run, decision: Decision, reviewer: string, note: string,
                                       fault: Fault, clock: Clock)
    requires WellFormed(run) && Decide(w, run, decision, reviewer, note, fault, clock).Ok?
    ensures run.status == AwaitingGreenlight
  {
    hide Approve, Reject, Presented, NewGreenlight, Latest, Strip;
  }

  lemma {:induction false} RevokeRunKeeps(w: World, ids: Ids, st: State, c: Caller, runId: string, reason: string,
                                          clock: Clock)
    requires StoreInv(w, ids, st) && IdsDistinct(ids)
    ensures Keeps(w, ids, st, RevokeRun(w, ids, st, c, runId, reason, clock))
  {
    hide RunInv, Grows, Replay, StoreInv, StoreGrows, Commit, Strip, Update, Event;
    var key := Key(c.tenant, runId);
    Unchanged(w, ids, st, st.remembered);
    HeldIsStored(w, ids, st, key);
    if key in st.store.runs && WellFormed(st.store.runs[key]) {
      var run := st.store.runs[key];
      var revoked := Orchestrator.Revoke(w, run, c.subject, reason, clock);
      if revoked.Ok? {
        RevokeKeeps(w, run, c.subject, reason, clock);
        RevokeGrows(w, run, c.subject, reason, clock);
        RevokeExecution(w, run, c.subject, reason, clock);
        CommitKeeps(w, ids, st, c, key, revoked.value, Completed,
                    ids.command(c.tenant, RevocationOperation(), c.key), RevocationOperation(),
                    ids.fingerprint(RevocationOperation(), c.subject, runId, reason));
      }
    }
  }

  lemma {:induction false} RevokeExecution(w: World, run: Run, reviewer: string, reason: string, clock: Clock)
    requires WellFormed(run) && Orchestrator.Revoke(w, run, reviewer, reason, clock).Ok?
    ensures var after := Orchestrator.Revoke(w, run, reviewer, reason, clock).value;
            && run.status == Completed
            && after.execution.fence == run.execution.fence && after.execution.attempts == run.execution.attempts
  {
    hide Strip;
  }

  // ---------------------------------------------------------------- attachments

  lemma {:induction false} AttachmentGrows(w: World, run: Run, a: Artifact)
    requires WellFormed(run) && run.status == AwaitingGreenlight
    ensures Grows(run, AddArtifact(run, a)) && AddArtifact(run, a).execution == run.execution
  {
  }

  lemma {:induction false} AttachmentOk(w: World, key: Key, run: Run, a: Artifact)
    requires RowOk(w, key, run) && run.status == AwaitingGreenlight && IsAttachment(a) && WellFormed(run)
    requires forall k | 0 <= k < |a.evidenceIds| :: Holds(run.evidence, a.evidenceIds[k])
    ensures RowOk(w, key, AddArtifact(run, a)) && Grows(run, AddArtifact(run, a))
    ensures AddArtifact(run, a).execution == run.execution && AddArtifact(run, a).runId == run.runId
  {
    hide RunInv, ValidBrief;
    AttachKeeps(w, run, a);
    AttachmentGrows(w, run, a);
  }

  lemma {:induction false} AttachMediaKeeps(w: World, ids: Ids, st: State, c: Caller, runId: string, m: MediaRequest)
    requires StoreInv(w, ids, st) && IdsDistinct(ids)
    ensures Keeps(w, ids, st, AttachMedia(ids, st, c, runId, m))
  {
    hide RowOk, Grows, Replay, StoreInv, StoreGrows, Commit, AddArtifact, Holds, MediaOf;
    var key := Key(c.tenant, runId);
    Unchanged(w, ids, st, st.remembered);
    HeldIsStored(w, ids, st, key);
    GrowsAreReflexive(st.store);
    if key in st.store.runs && WellFormed(st.store.runs[key]) && st.store.runs[key].status == AwaitingGreenlight {
      var run := st.store.runs[key];
      var eventId := ids.command(c.tenant, MediaOperation(), c.key);
      var fp := ids.fingerprint(MediaOperation(), c.subject, runId, m.payload);
      var a := Artifact(m.artifactId, PublicationMedia, Media, MediaRecord(Instagram(), m.mediaId, m.url, m.sha256), []);
      RowKey(w, key, run);
      AttachmentOk(w, key, run, a);
      CommitKeeps(w, ids, st, c, key, run, AwaitingGreenlight, eventId, MediaOperation(), fp);
      CommitKeeps(w, ids, st, c, key, AddArtifact(run, a), AwaitingGreenlight, eventId, MediaOperation(), fp);
    }
  }

  lemma {:induction false} RowKey(w: World, key: Key, run: Run)
    requires RowOk(w, key, run)
    ensures run.runId == key.runId && Sound(run)
  {
    hide AtGate, AtStage, Sound, Decided, Released;
  }

  lemma {:induction false} SourceEvidence(artifacts: seq<Artifact>, id: string)
    requires WithId(artifacts, id).Some?
    ensures WithId(artifacts, id).value in artifacts
    decreases |artifacts|
  {
    if artifacts[0].id != id {
      SourceEvidence(artifacts[1..], id);
    }
  }

  lemma {:induction false} AttachResultKeeps(w: World, ids: Ids, st: State, tenant: string, runId: string,
                                             action: string, e: EffectResult)
    requires StoreInv(w, ids, st) && IdsDistinct(ids)
    ensures Keeps(w, ids, st, AttachResult(ids, st, tenant, runId, action, e))
  {
    hide RowOk, Grows, StoreInv, StoreGrows, AddArtifact, Holds, WithId, OncePerId;
    var key := Key(tenant, runId);
    Unchanged(w, ids, st, st.remembered);
    HeldIsStored(w, ids, st, key);
    var eventId := ids.attachment(tenant, action, e.effectId);
    assert NotCheckpoint(ids, eventId);
    if key in st.store.runs && WellFormed(st.store.runs[key]) && st.store.runs[key].status == AwaitingGreenlight
       && eventId !in st.store.audit {
      var run := st.store.runs[key];
      RowKey(w, key, run);
      EventWritten(w, ids, st, eventId, AuditEntry(tenant, Note(action)));
      var source := WithId(run.artifacts, e.sourceId);
      if source.Some? {
        SourceEvidence(run.artifacts, e.sourceId);
        var a := Artifact(ids.completion(e.effectId), ModelCompletion, e.role,
                          Completion(e.effectId, e.sourceId, e.output), source.value.evidenceIds);
        AttachmentOk(w, key, run, a);
        RowWritten(w, ids, st, key, AddArtifact(run, a), eventId, AuditEntry(tenant, Note(action)));
      }
    }
  }

  // ---------------------------------------------------------------- the worker

  lemma {:induction false} LeaseOk(w: World, key: Key, run: Run, worker: string, now: int, seconds: int)
    requires RowOk(w, key, run) && Busy(run.status)
    ensures RowOk(w, key, WithLease(run, worker, now, seconds)) && Grows(run, WithLease(run, worker, now, seconds))
  {
    hide RunInv, ValidBrief;
    ExecutionKeeps(w, run, WithLease(run, worker, now, seconds).execution);
    RowIsSound(w, run);
  }

  lemma {:induction false} RowIsSound(w: World, run: Run)
    requires RunInv(w, run)
    ensures Sound(run)
  {
  }

  lemma {:induction false} TakeLeaseKeeps(w: World, ids: Ids, st: State, worker: string, key: Key, now: int, seconds: int)
    requires StoreInv(w, ids, st)
    ensures Keeps(w, ids, st, TakeLease(st, worker, key, now, seconds))
  {
    hide RowOk, Grows, LeasedByOther;
    GrowsAreReflexive(st.store);
    if key in st.store.runs && key !in st.held && Busy(st.store.runs[key].status) {
      LeaseOk(w, key, st.store.runs[key], worker, now, seconds);
      RowKey(w, key, st.store.runs[key]);
    }
  }

  lemma {:induction false} CheckpointedOk(w: World, key: Key, run: Run, fault: Fault, clock: Clock, now: int)
    requires RowOk(w, key, run) && Busy(run.status) && WellFormed(run)
    ensures var after := Checkpointed(w, run, fault, clock, now);
            && RowOk(w, key, after) && Grows(run, after)
            && after.execution.fence == run.execution.fence
  {
    hide RunInv, ValidBrief, Advance;
    AdvanceKeeps(w, run, fault, clock);
    AdvanceGrows(w, run, fault, clock);
    var o, after := Advance(w, run, fault, clock), Checkpointed(w, run, fault, clock, now);
    if o.error.Some? {
      ExecutionKeeps(w, o.run.(status := Failed), after.execution);
      assert after == o.run.(status := Failed).(execution := after.execution);
    } else {
      ExecutionKeeps(w, o.run, after.execution);
      assert after == o.run.(execution := after.execution);
    }
  }

  /** The second save of a worker always succeeds: its row is still there and its event id is unused. */
  lemma {:induction false} CheckpointNeverConflicts(w: World, ids: Ids, st: State, key: Key, fault: Fault, clock: Clock,
                                                    now: int)
    requires StoreInv(w, ids, st) && IdsDistinct(ids)
    ensures key in st.held ==>
            && WellFormed(st.held[key])
            && var after := Checkpointed(w, st.held[key], fault, clock, now);
            var answer := Checkpoint(w, ids, st, key, fault, clock, now);
            && answer.reply == Ok(Reply(after, false))
            && answer.state.store.runs == st.store.runs[key := after]
            && CheckpointId(ids, key, st.held[key].execution.fence) !in st.store.audit
            && CheckpointId(ids, key, st.held[key].execution.fence) in answer.state.store.audit
  {
    hide Grows, RunInv, ValidBrief, Checkpointed;
    if key !in st.held {
      return;
    }
    RowKey(w, key, st.store.runs[key]);
    var id := CheckpointId(ids, key, st.held[key].execution.fence);
    assert id !in st.store.audit;
    CheckpointedOk(w, key, st.held[key], fault, clock, now);
  }

  lemma {:induction false} CheckpointKeeps(w: World, ids: Ids, st: State, key: Key, fault: Fault, clock: Clock, now: int)
    requires StoreInv(w, ids, st) && IdsDistinct(ids)
    ensures Keeps(w, ids, st, Checkpoint(w, ids, st, key, fault, clock, now))
  {
    hide RowOk, Grows, Checkpointed;
    GrowsAreReflexive(st.store);
    if key in st.held {
      CheckpointNeverConflicts(w, ids, st, key, fault, clock, now);
      CheckpointedOk(w, key, st.held[key], fault, clock, now);
      var fence := st.held[key].execution.fence;
      var next := Checkpoint(w, ids, st, key, fault, clock, now).state;
      RowKey(w, key, Checkpointed(w, st.held[key], fault, clock, now));
      assert CheckpointsOk(ids, next.store, next.held) by {
        forall k, f: nat | CheckpointId(ids, k, f) in next.store.audit
          ensures k in next.store.runs && f <= next.store.runs[k].execution.fence
          ensures k in next.held ==> f < next.store.runs[k].execution.fence
        {
          if CheckpointId(ids, k, f) !in st.store.audit {
            assert CheckpointId(ids, k, f) == CheckpointId(ids, key, fence);
          }
        }
      }
    }
  }

  // ---------------------------------------------------------------- all of them

  lemma {:induction false} StepKeeps(w: World, ids: Ids, st: State, a: Action)
    requires StoreInv(w, ids, st) && IdsDistinct(ids)
    ensures Keeps(w, ids, st, Step(w, ids, st, a))
  {
    hide RowOk, Grows, StartRun, DecideRun, RevokeRun, AttachMedia, AttachResult, TakeLease, Checkpoint;
    GrowsAreReflexive(st.store);
    match a
    case Start(c, brief, asynchronous, faults, clocks, now) =>
      StartKeeps(w, ids, st, c, brief, asynchronous, faults, clocks, now);
    case Judge(c, runId, decision, note, effects, fault, clock) =>
      DecideRunKeeps(w, ids, st, c, runId, decision, note, effects, fault, clock);
    case Withdraw(c, runId, reason, clock) => RevokeRunKeeps(w, ids, st, c, runId, reason, clock);
    case SupplyMedia(c, runId, media) => AttachMediaKeeps(w, ids, st, c, runId, media);
    case SupplyResult(tenant, runId, action, result) => AttachResultKeeps(w, ids, st, tenant, runId, action, result);
    case Lease(worker, key, now, seconds) => TakeLeaseKeeps(w, ids, st, worker, key, now, seconds);
    case Work(key, fault, clock, now) => CheckpointKeeps(w, ids, st, key, fault, clock, now);
    case WorkerCrash(key) =>
    case Restart =>
  }

  /** Over any history: the invariant holds in every state, rows only grow, and no event is lost. */
  lemma {:induction false} HistoryKeeps(w: World, ids: Ids, st: State, actions: seq<Action>)
    requires StoreInv(w, ids, st) && IdsDistinct(ids)
    ensures StoreInv(w, ids, After(w, ids, st, actions))
    ensures StoreGrows(st.store, After(w, ids, st, actions).store)
    decreases |actions|
  {
    hide StoreInv, StoreGrows, Step;
    if actions == [] {
      Unchanged(w, ids, st, st.remembered);
    } else {
      var n := |actions| - 1;
      var before := After(w, ids, st, actions[..n]);
      HistoryKeeps(w, ids, st, actions[..n]);
      StepKeeps(w, ids, before, actions[n]);
      StoreGrowsTransitive(st.store, before.store, Step(w, ids, before, actions[n]).state.store);
    }
  }

  lemma {:induction false} Reachable(w: World, ids: Ids, actions: seq<Action>)
    requires IdsDistinct(ids)
    ensures StoreInv(w, ids, After(w, ids, Initial(), actions))
  {
    hide RowOk, Step;
    HistoryKeeps(w, ids, Initial(), actions);
  }
}
