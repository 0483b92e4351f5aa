/** The service itself: commands and the worker, performed on the store and on run objects restored from it. */
module LiveService {
  import opened Prelude
  import opened Models
  import opened Campaign
  import opened Runs
  import opened Orchestrator
  import AgencyRuntime
  import opened RunStore
  import opened Service

  /** Rows are stored under their own id, and every document is that of a run. */
  ghost predicate Proper(store: Store) {
    forall k | k in store.runs :: store.runs[k].runId == k.runId && WellFormed(store.runs[k])
  }

  /** One pass of a worker over the runs that may be executed: it works on the first that it can lease. */
  function WorkerPass(w: World, ids: Ids, st: State, worker: string, keys: seq<Key>, now: int, seconds: int,
                      fault: Fault, clock: Clock, later: int): Answer
  {
    if keys == [] then Answer(st, Err(NothingToDo))
    else
      var taken := Step(w, ids, st, Action.Lease(worker, keys[0], now, seconds));
      if taken.reply.Ok? then Step(w, ids, taken.state, Action.Work(keys[0], fault, clock, later))
      else WorkerPass(w, ids, st, worker, keys[1..], now, seconds, fault, clock, later)
  }

  class RuntimeService {
    const w: World
    const ids: Ids
    const store: SQLiteRunStore
    var remembered: set<Key>

    constructor (world: World, identifiers: Ids, runs: SQLiteRunStore)
      ensures w == world && ids == identifiers && store == runs && remembered == {}
    {
      w, ids, store := world, identifiers, runs;
      remembered := {};
    }

    function Current(): State
      reads this, store
    {
      State(store.Contents(), remembered, map[])
    }

    method Start(c: Caller, brief: Brief, asynchronous: bool, faults: nat -> Fault, clocks: nat -> Clock, now: int)
      returns (r: Result<Reply, ServiceError>)
      modifies this, store
      ensures Answer(Current(), r) == StartRun(w, ids, old(Current()), c, brief, asynchronous, faults, clocks, now)
    {
      hide ValidBrief, Replay, Advances;
      if !ValidBrief(w.language.isSpace, brief) {
        return Err(InvalidBrief);
      }
      var key := Key(c.tenant, w.runId(brief));
      var eventId := ids.command(c.tenant, StartOperation(), c.key);
      var fp := ids.fingerprint(StartOperation(), c.subject, key.runId, ids.briefPayload(brief));
      var known := Replay(store.Contents(), c.tenant, eventId, StartOperation(), fp);
      if known.Some? {
        return known.value;
      }
      if key in store.runs {
        var existing := store.runs[key];
        var error := store.AppendAudit(c.tenant, eventId, Receipt(StartOperation(), fp, existing));
        return if error == None then Ok(Reply(existing, true)) else Err(Storage(error.value));
      }
      if key in remembered {
        return Err(Raised(RunExists));
      }
      var run := new ExecutionRun(Create(w, brief, asynchronous, now));
      remembered := remembered + {key};
      if !asynchronous {
        var raised := AgencyRuntime.Finish(w, run, faults, clocks);
        if raised != None {
          return Err(Raised(raised.value));
        }
      }
      var document := run.Document();
      var error := store.Create(c.tenant, document, eventId, Receipt(StartOperation(), fp, document));
      r := if error == None then Ok(Reply(document, false)) else Err(Storage(error.value));
    }

    method SaveDecided(c: Caller, run: Run, expected: RunStatus, eventId: string, operation: string, fp: string)
      returns (r: Result<Reply, ServiceError>)
      modifies store
      ensures Answer(Current(), r) == Commit(old(Current()), c, run, expected, eventId, operation, fp)
    {
      var error := store.Save(c.tenant, run, expected, Some(eventId), Receipt(operation, fp, run));
      r := if error == None then Ok(Reply(run, false)) else Err(Storage(error.value));
    }

    method Decide(c: Caller, runId: string, decision: Decision, note: string, effects: seq<Effect>, fault: Fault,
                  clock: Clock)
      returns (r: Result<Reply, ServiceError>)
      modifies this, store
      ensures Answer(Current(), r)
              == DecideRun(w, ids, old(Current()), c, runId, decision, note, effects, fault, clock)
    {
      hide Orchestrator.Decide, Commit, Replay, EffectsObjection;
      var operation := DecisionOperation(decision);
      var eventId := ids.command(c.tenant, operation, c.key);
      var fp := ids.fingerprint(operation, c.subject, runId, note);
      var known := Replay(store.Contents(), c.tenant, eventId, operation, fp);
      if known.Some? {
        return known.value;
      }
      var key := Key(c.tenant, runId);
      if key !in store.runs || |store.runs[key].agents| != STATIONS {
        return Err(Storage(RowMissing));
      }
      if decision == Approved {
        var objection := EffectsObjection(ids, store.runs[key], effects);
        if objection.Some? {
          return Err(objection.value);
        }
      }
      var run := new ExecutionRun(store.runs[key]);
      var error := AgencyRuntime.DecideRun(w, run, decision, c.subject, note, fault, clock);
      if error != None {
        return Err(Raised(error.value));
      }
      r := SaveDecided(c, run.Document(), AwaitingGreenlight, eventId, operation, fp);
    }

    method RevokeGreenlight(c: Caller, runId: string, reason: string, clock: Clock)
      returns (r: Result<Reply, ServiceError>)
      modifies this, store
      ensures Answer(Current(), r) == RevokeRun(w, ids, old(Current()), c, runId, reason, clock)
    {
      hide Orchestrator.Revoke, Commit, Replay;
      var eventId := ids.command(c.tenant, RevocationOperation(), c.key);
      var fp := ids.fingerprint(RevocationOperation(), c.subject, runId, reason);
      var known := Replay(store.Contents(), c.tenant, eventId, RevocationOperation(), fp);
      if known.Some? {
        return known.value;
      }
      var key := Key(c.tenant, runId);
      if key !in store.runs || |store.runs[key].agents| != STATIONS {
        return Err(Storage(RowMissing));
      }
      var run := new ExecutionRun(store.runs[key]);
      var error := AgencyRuntime.RevokeRun(w, run, c.subject, reason, clock);
      if error != None {
        return Err(Raised(error.value));
      }
      r := SaveDecided(c, run.Document(), Completed, eventId, RevocationOperation(), fp);
    }

    method AttachPublicationMedia(c: Caller, runId: string, m: MediaRequest) returns (r: Result<Reply, ServiceError>)
      modifies this, store
      ensures Answer(Current(), r) == AttachMedia(ids, old(Current()), c, runId, m)
    {
      hide Commit, Replay, MediaOf;
      var eventId := ids.command(c.tenant, MediaOperation(), c.key);
      var fp := ids.fingerprint(MediaOperation(), c.subject, runId, m.payload);
      var known := Replay(store.Contents(), c.tenant, eventId, MediaOperation(), fp);
      if known.Some? {
        return known.value;
      }
      var key := Key(c.tenant, runId);
      if key !in store.runs || |store.runs[key].agents| != STATIONS {
        return Err(Storage(RowMissing));
      }
      var document := store.runs[key];
      if document.status != AwaitingGreenlight || document.greenlight.Some? {
        return Err(Raised(NotAwaiting));
      }
      if Instagram() !in document.brief.platforms {
        return Err(ChannelNotInBrief);
      }
      var payload := MediaRecord(Instagram(), m.mediaId, m.url, m.sha256);
      var existing := MediaOf(document.artifacts, Instagram());
      if existing.Some? && (existing.value.id != m.artifactId || existing.value.payload != payload) {
        return Err(MediaConflict);
      }
      var run := new ExecutionRun(document);
      if existing.None? {
        run.Attach(Artifact(m.artifactId, PublicationMedia, Media, payload, []));
      }
      r := SaveDecided(c, run.Document(), AwaitingGreenlight, eventId, MediaOperation(), fp);
      if r.Ok? {
        r := Ok(r.value.(replayed := m.repeated));
      }
    }

    method AttachModelEffectResult(tenant: string, runId: string, action: string, e: EffectResult)
      returns (r: Result<Reply, ServiceError>)
      modifies this, store
      ensures Answer(Current(), r) == AttachResult(ids, old(Current()), tenant, runId, action, e)
    {
      hide WithId;
      var eventId := ids.attachment(tenant, action, e.effectId);
      var key := Key(tenant, runId);
      if key !in store.runs || |store.runs[key].agents| != STATIONS {
        return Err(Storage(RowMissing));
      }
      var document := store.runs[key];
      if document.status != AwaitingGreenlight {
        return Err(Raised(NotAwaiting));
      }
      var payload := Completion(e.effectId, e.sourceId, e.output);
      var existing := WithId(document.artifacts, ids.completion(e.effectId));
      if existing.Some? {
        var a := existing.value;
        if a.kind != ModelCompletion || a.createdBy != e.role || a.payload != payload {
          return Err(CompletionConflict);
        }
        var error: Option<StoreError> := None;
        if Find(store.Contents(), tenant, eventId) == None {
          error := store.AppendAudit(tenant, eventId, Note(action));
        }
        return if error == None then Ok(Reply(document, true)) else Err(Storage(error.value));
      }
      var source := WithId(document.artifacts, e.sourceId);
      if source == None {
        return Err(SourceMissing);
      }
      var run := new ExecutionRun(document);
      run.Attach(Artifact(ids.completion(e.effectId), ModelCompletion, e.role, payload, source.value.evidenceIds));
      var error := store.Save(tenant, run.Document(), AwaitingGreenlight, Some(eventId), Note(action));
      r := if error == None then Ok(Reply(run.Document(), false)) else Err(Storage(error.value));
    }

    /** `execute_one_queued_run` of a worker that survives: a lease, an advance and a checkpoint. */
    method ExecuteOne(worker: string, keys: seq<Key>, now: int, seconds: int, fault: Fault, clock: Clock, later: int)
      returns (worked: bool)
      requires Proper(store.Contents())
      modifies this, store
      ensures var answer := WorkerPass(w, ids, old(Current()), worker, keys, now, seconds, fault, clock, later);
              Current() == answer.state && (worked <==> answer.reply != Err(NothingToDo))
    {
      hide Step;
      ghost var before := Current();
      for i := 0 to |keys|
        invariant Current() == before
        invariant WorkerPass(w, ids, before, worker, keys, now, seconds, fault, clock, later)
                  == WorkerPass(w, ids, before, worker, keys[i..], now, seconds, fault, clock, later)
      {
        assert keys[i..][1..] == keys[i + 1..];
        var taken := Take(worker, keys[i], now, seconds);
        if taken.Some? {
          SaveCheckpoint(keys[i], taken.value, fault, clock, later);
          return true;
        }
      }
      worked := false;
    }

    method Take(worker: string, key: Key, now: int, seconds: int) returns (taken: Option<Run>)
      requires Proper(store.Contents())
      modifies store
      ensures var a := Step(w, ids, old(Current()), Action.Lease(worker, key, now, seconds));
              && (taken.Some? <==> a.reply.Ok?)
              && store.Contents() == a.state.store
              && (taken.Some? ==> WellFormed(taken.value) && a.state == Current().(held := map[key := taken.value]))
              && (taken.None? ==> a.state == Current() == old(Current()))
    {
      hide LeasedByOther;
      if key !in store.runs {
        return None;
      }
      var run := store.runs[key];
      if !Busy(run.status) || LeasedByOther(run, worker, now) {
        return None;
      }
      var leased := WithLease(run, worker, now, seconds);
      var error := store.Save(key.tenant, leased, run.status, None, Note(""));
      taken := Some(leased);
    }

    method SaveCheckpoint(key: Key, leased: Run, fault: Fault, clock: Clock, now: int)
      requires WellFormed(leased)
      modifies store
      ensures Current()
              == Step(w, ids, old(Current()).(held := map[key := leased]), Action.Work(key, fault, clock, now)).state
      ensures Step(w, ids, old(Current()).(held := map[key := leased]), Action.Work(key, fault, clock, now)).reply
              != Err(NothingToDo)
    {
      hide Checkpointed;
      var document := WorkOn(w, leased, fault, clock, now);
      var saved := store.Save(key.tenant, document, leased.status,
                              Some(ids.checkpoint(key.tenant, key.runId, leased.execution.fence)),
                              Note(if document.status == Failed then "run.failed" else "run.checkpointed"));
    }
  }

  /** The worker's part between its two transactions; a raising station fails the run. */
  method WorkOn(w: World, leased: Run, fault: Fault, clock: Clock, now: int) returns (document: Run)
    requires WellFormed(leased)
    ensures document == Checkpointed(w, leased, fault, clock, now)
  {
    hide Advance;
    var run := new ExecutionRun(leased);
    var error := AgencyRuntime.AdvanceRun(w, run, fault, clock);
    run.execution := run.execution.(leaseOwner := "", leaseExpires := None, checkpointedAt := Some(now));
    if error.Some? {
      run.status := Failed;
      run.execution := run.execution.(state := Broken, failed := true);
    } else if Busy(run.status) {
      run.execution := run.execution.(state := UnderWay);
    }
    document := run.Document();
  }
}
