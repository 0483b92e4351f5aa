/**
 The commands of the runtime service (`RuntimeService` in `api.py`) as transitions of one serialized store. Every
 command looks for its receipt, works on a copy of the stored run and commits run and receipt in one transaction.
 The durable worker commits twice, a lease and a checkpoint; between the two anything else may happen, except that
 no second worker can hold the execution lock of the run.
 */
module Service {
  import opened Prelude
  import opened Models
  import opened Campaign
  import opened Runs
  import opened Orchestrator
  import opened RunStore
  import ModelEffectStore

  /** The identifiers the service derives by hashing. */
  datatype Ids = Ids(
    command: (string, string, string) -> string,
    fingerprint: (string, string, string, string) -> string,
    briefPayload: Brief -> string,
    checkpoint: (string, string, nat) -> string,
    attachment: (string, string, string) -> string,
    completion: string -> string)

  /** The store, the runs remembered by the orchestrators in memory, and the rows under lease by a live worker. */
  datatype State = State(store: Store, remembered: set<Key>, held: map<Key, Run>)

  /** Who sends a command, and under which idempotency key. */
  datatype Caller = Caller(tenant: string, subject: string, key: string)

  datatype Effect = Effect(effectId: string, status: ModelEffectStore.Status)

  datatype Reply = Reply(run: Run, replayed: bool)

  datatype ServiceError =
    | InvalidBrief | KeyConflict | BadReceipt
    | Raised(cause: RunError)
    | Storage(error: StoreError)
    | EffectUnresolved | EffectUnattached
    | ChannelNotInBrief | MediaConflict | CompletionConflict | SourceMissing
    | NothingToDo

  datatype Answer = Answer(state: State, reply: Result<Reply, ServiceError>)

  /** The receipt of an earlier command under the same event id. */
  function Replay(store: Store, tenant: string, eventId: string, operation: string, fingerprint: string)
    : Option<Result<Reply, ServiceError>>
  {
    match Find(store, tenant, eventId)
    case None => None
    case Some(Note(_)) => Some(Err(BadReceipt))
    case Some(Receipt(op, fp, response)) =>
      if op != operation || fp != fingerprint then Some(Err(KeyConflict)) else Some(Ok(Reply(response, true)))
  }

  // ---------------------------------------------------------------- start

  function StartOperation(): string { "run.create" }

  function StartRun(w: World, ids: Ids, st: State, c: Caller, brief: Brief, asynchronous: bool,
                    faults: nat -> Fault, clocks: nat -> Clock, now: int): Answer
  {
    var runId := w.runId(brief);
    var eventId := ids.command(c.tenant, StartOperation(), c.key);
    var fp := ids.fingerprint(StartOperation(), c.subject, runId, ids.briefPayload(brief));
    var key := Key(c.tenant, runId);
    if !ValidBrief(w.language.isSpace, brief) then Answer(st, Err(InvalidBrief))
    else
      match Replay(st.store, c.tenant, eventId, StartOperation(), fp)
      case Some(reply) => Answer(st, reply)
      case None =>
        if key in st.store.runs then
          match Append(st.store, c.tenant, eventId, Receipt(StartOperation(), fp, st.store.runs[key]))
          case Err(e) => Answer(st, Err(Storage(e)))
          case Ok(next) => Answer(st.(store := next), Ok(Reply(st.store.runs[key], true)))
        else if key in st.remembered then Answer(st, Err(Raised(RunExists)))
        else
          var made := if asynchronous then Outcome(Create(w, brief, true, now), None)
                      else Advances(w, Create(w, brief, false, now), faults, clocks, MAX_ADVANCES);
          var known := st.(remembered := st.remembered + {key});
          if made.error.Some? then Answer(known, Err(Raised(made.error.value)))
          else
            match CreateRow(st.store, c.tenant, made.run, eventId, Receipt(StartOperation(), fp, made.run))
            case Err(e) => Answer(known, Err(Storage(e)))
            case Ok(next) => Answer(known.(store := next), Ok(Reply(made.run, false)))
  }

  // ---------------------------------------------------------------- decisions

  function DecisionOperation(decision: Decision): string {
    if decision == Approved then "greenlight.approved" else "greenlight.rejected"
  }

  function RevocationOperation(): string { "greenlight.revoked" }

  /** Why the model effects of a run stand in the way of its approval, if they do. */
  function EffectsObjection(ids: Ids, run: Run, effects: seq<Effect>): Option<ServiceError> {
    if exists i | 0 <= i < |effects| :: effects[i].status.Pending? || effects[i].status.Unknown? then
      Some(EffectUnresolved)
    else if exists i | 0 <= i < |effects| ::
      effects[i].status.Succeeded? && ids.completion(effects[i].effectId) !in ArtifactIds(run.artifacts) then
      Some(EffectUnattached)
    else None
  }

  /** The common end of the commands that replace a row: one transaction for row and receipt. */
  function Commit(st: State, c: Caller, run: Run, expected: RunStatus, eventId: string, operation: string, fp: string)
    : Answer
  {
    match SaveRow(st.store, c.tenant, run, expected, Some(eventId), Receipt(operation, fp, run))
    case Err(e) => Answer(st, Err(Storage(e)))
    case Ok(next) => Answer(st.(store := next), Ok(Reply(run, false)))
  }

  function DecideRun(w: World, ids: Ids, st: State, c: Caller, runId: string, decision: Decision, note: string,
                     effects: seq<Effect>, fault: Fault, clock: Clock): Answer
  {
    var operation := DecisionOperation(decision);
    var eventId := ids.command(c.tenant, operation, c.key);
    var fp := ids.fingerprint(operation, c.subject, runId, note);
    var key := Key(c.tenant, runId);
    match Replay(st.store, c.tenant, eventId, operation, fp)
    case Some(reply) => Answer(st, reply)
    case None =>
      if key !in st.store.runs || !WellFormed(st.store.runs[key]) then Answer(st, Err(Storage(RowMissing)))
      else
        var run := st.store.runs[key];
        var objection := if decision == Approved then EffectsObjection(ids, run, effects) else None;
        if objection.Some? then Answer(st, Err(objection.value))
        else
          match Decide(w, run, decision, c.subject, note, fault, clock)
          case Err(e) => Answer(st, Err(Raised(e)))
          case Ok(decided) => Commit(st, c, decided, AwaitingGreenlight, eventId, operation, fp)
  }

  function RevokeRun(w: World, ids: Ids, st: State, c: Caller, runId: string, reason: string, clock: Clock): Answer {
    var eventId := ids.command(c.tenant, RevocationOperation(), c.key);
    var fp := ids.fingerprint(RevocationOperation(), c.subject, runId, reason);
    var key := Key(c.tenant, runId);
    match Replay(st.store, c.tenant, eventId, RevocationOperation(), fp)
    case Some(reply) => Answer(st, reply)
    case None =>
      if key !in st.store.runs || !WellFormed(st.store.runs[key]) then Answer(st, Err(Storage(RowMissing)))
      else
        match Orchestrator.Revoke(w, st.store.runs[key], c.subject, reason, clock)
        case Err(e) => Answer(st, Err(Raised(e)))
        case Ok(revoked) => Commit(st, c, revoked, Completed, eventId, RevocationOperation(), fp)
  }

  // ---------------------------------------------------------------- attachments

  function MediaOperation(): string { "publication_media.attached:instagram" }
  function Instagram(): string { "instagram" }

  function MediaOf(artifacts: seq<Artifact>, channel: string): Option<Artifact> {
    if artifacts == [] then None
    else if artifacts[0].kind == PublicationMedia && artifacts[0].payload.MediaRecord?
            && artifacts[0].payload.channel == channel then Some(artifacts[0])
    else MediaOf(artifacts[1..], channel)
  }

  /**
   Media that was validated and reserved, with the reservation's word whether it was a repetition; `payload` stands
   for the request in the fingerprint.
   */
  datatype MediaRequest = MediaRequest(artifactId: string, mediaId: string, url: string, sha256: string, payload: string,
                                       repeated: bool)

  function Flagged(a: Answer, repeated: bool): Answer {
    if a.reply.Ok? then a.(reply := Ok(a.reply.value.(replayed := repeated))) else a
  }

  function AttachMedia(ids: Ids, st: State, c: Caller, runId: string, m: MediaRequest): Answer {
    var eventId := ids.command(c.tenant, MediaOperation(), c.key);
    var fp := ids.fingerprint(MediaOperation(), c.subject, runId, m.payload);
    var key := Key(c.tenant, runId);
    var payload := MediaRecord(Instagram(), m.mediaId, m.url, m.sha256);
    match Replay(st.store, c.tenant, eventId, MediaOperation(), fp)
    case Some(reply) => Answer(st, reply)
    case None =>
      if key !in st.store.runs || !WellFormed(st.store.runs[key]) then Answer(st, Err(Storage(RowMissing)))
      else
        var run := st.store.runs[key];
        if run.status != AwaitingGreenlight || run.greenlight.Some? then Answer(st, Err(Raised(NotAwaiting)))
        else if Instagram() !in run.brief.platforms then Answer(st, Err(ChannelNotInBrief))
        else
          match MediaOf(run.artifacts, Instagram())
          case Some(a) =>
            if a.id != m.artifactId || a.payload != payload then Answer(st, Err(MediaConflict))
            else Flagged(Commit(st, c, run, AwaitingGreenlight, eventId, MediaOperation(), fp), m.repeated)
          case None =>
            Flagged(Commit(st, c, AddArtifact(run, Artifact(m.artifactId, PublicationMedia, Media, payload, [])),
                           AwaitingGreenlight, eventId, MediaOperation(), fp), m.repeated)
  }

  function WithId(artifacts: seq<Artifact>, id: string): Option<Artifact> {
    if artifacts == [] then None
    else if artifacts[0].id == id then Some(artifacts[0]) else WithId(artifacts[1..], id)
  }

  /** The result of a paid model effect. */
  datatype EffectResult = EffectResult(effectId: string, role: Role, sourceId: string, output: string)

  /** Attaching is keyed by the effect alone, so it has no receipt: a second attachment finds the artifact. */
  function AttachResult(ids: Ids, st: State, tenant: string, runId: string, action: string, e: EffectResult): Answer {
    var eventId := ids.attachment(tenant, action, e.effectId);
    var key := Key(tenant, runId);
    var payload := Completion(e.effectId, e.sourceId, e.output);
    if key !in st.store.runs || !WellFormed(st.store.runs[key]) then Answer(st, Err(Storage(RowMissing)))
    else
      var run := st.store.runs[key];
      if run.status != AwaitingGreenlight then Answer(st, Err(Raised(NotAwaiting)))
      else
        match WithId(run.artifacts, ids.completion(e.effectId))
        case Some(a) =>
          if a.kind != ModelCompletion || a.createdBy != e.role || a.payload != payload then
            Answer(st, Err(CompletionConflict))
          else if Find(st.store, tenant, eventId).Some? then Answer(st, Ok(Reply(run, true)))
          else
            (match Append(st.store, tenant, eventId, Note(action))
             case Err(x) => Answer(st, Err(Storage(x)))
             case Ok(next) => Answer(st.(store := next), Ok(Reply(run, true))))
        case None =>
          match WithId(run.artifacts, e.sourceId)
          case None => Answer(st, Err(SourceMissing))
          case Some(source) =>
            var a := Artifact(ids.completion(e.effectId), ModelCompletion, e.role, payload, source.evidenceIds);
            match SaveRow(st.store, tenant, AddArtifact(run, a), AwaitingGreenlight, Some(eventId), Note(action))
            case Err(x) => Answer(st, Err(Storage(x)))
            case Ok(next) => Answer(st.(store := next), Ok(Reply(AddArtifact(run, a), false)))
  }

  // ---------------------------------------------------------------- the durable worker

  predicate LeasedByOther(run: Run, worker: string, now: int) {
    && run.execution.leaseOwner != "" && run.execution.leaseOwner != worker
    && run.execution.leaseExpires.Some? && run.execution.leaseExpires.value > now
  }

  function WithLease(run: Run, worker: string, now: int, seconds: int): Run {
    run.(execution := run.execution.(leaseOwner := worker, leaseExpires := Some(now + seconds),
                                     fence := run.execution.fence + 1, attempts := run.execution.attempts + 1,
                                     state := ExecutionState.Leased))
  }

  /** The first transaction: the worker takes the run's execution lock and saves its lease. */
  function TakeLease(st: State, worker: string, key: Key, now: int, seconds: int): Answer {
    if key !in st.store.runs || key in st.held || !Busy(st.store.runs[key].status)
       || LeasedByOther(st.store.runs[key], worker, now)
    then Answer(st, Err(NothingToDo))
    else
      var leased := WithLease(st.store.runs[key], worker, now, seconds);
      match SaveRow(st.store, key.tenant, leased, st.store.runs[key].status, None, Note(""))
      case Err(e) => Answer(st, Err(Storage(e)))
      case Ok(next) => Answer(st.(store := next, held := st.held[key := leased]), Ok(Reply(leased, false)))
  }

  /** What the worker makes of the leased run. */
  function Checkpointed(w: World, run: Run, fault: Fault, clock: Clock, now: int): Run
    requires WellFormed(run)
  {
    var o := Advance(w, run, fault, clock);
    var released := o.run.execution.(leaseOwner := "", leaseExpires := None, checkpointedAt := Some(now));
    if o.error.Some? then o.run.(status := Failed, execution := released.(state := Broken, failed := true))
    else if Busy(o.run.status) then o.run.(execution := released.(state := UnderWay))
    else o.run.(execution := released)
  }

  /** The second transaction: one advance, saved under the status that was read before the lease. */
  function Checkpoint(w: World, ids: Ids, st: State, key: Key, fault: Fault, clock: Clock, now: int): Answer {
    if key !in st.held || !WellFormed(st.held[key]) then Answer(st, Err(NothingToDo))
    else
      var run := st.held[key];
      var after := Checkpointed(w, run, fault, clock, now);
      var eventId := ids.checkpoint(key.tenant, key.runId, run.execution.fence);
      var done := st.(held := st.held - {key});
      match SaveRow(st.store, key.tenant, after, run.status, Some(eventId),
                    Note(if after.status == Failed then "run.failed" else "run.checkpointed"))
      case Err(e) => Answer(done, Err(Storage(e)))
      case Ok(next) => Answer(done.(store := next), Ok(Reply(after, false)))
  }

  // ---------------------------------------------------------------- histories

  datatype Action =
    | Start(c: Caller, brief: Brief, asynchronous: bool, faults: nat -> Fault, clocks: nat -> Clock, now: int)
    | Judge(c: Caller, runId: string, decision: Decision, note: string, effects: seq<Effect>, fault: Fault, clock: Clock)
    | Withdraw(c: Caller, runId: string, reason: string, clock: Clock)
    | SupplyMedia(c: Caller, runId: string, media: MediaRequest)
    | SupplyResult(tenant: string, runId: string, action: string, result: EffectResult)
    | Lease(worker: string, key: Key, now: int, seconds: int)
    | Work(key: Key, fault: Fault, clock: Clock, now: int)
    | WorkerCrash(key: Key)
    | Restart

  function Step(w: World, ids: Ids, st: State, a: Action): Answer {
    match a
    case Start(c, brief, asynchronous, faults, clocks, now) =>
      StartRun(w, ids, st, c, brief, asynchronous, faults, clocks, now)
    case Judge(c, runId, decision, note, effects, fault, clock) =>
      DecideRun(w, ids, st, c, runId, decision, note, effects, fault, clock)
    case Withdraw(c, runId, reason, clock) => RevokeRun(w, ids, st, c, runId, reason, clock)
    case SupplyMedia(c, runId, media) => AttachMedia(ids, st, c, runId, media)
    case SupplyResult(tenant, runId, action, result) => AttachResult(ids, st, tenant, runId, action, result)
    case Lease(worker, key, now, seconds) => TakeLease(st, worker, key, now, seconds)
    case Work(key, fault, clock, now) => Checkpoint(w, ids, st, key, fault, clock, now)
    case WorkerCrash(key) => Answer(st.(held := st.held - {key}), Err(NothingToDo))
    case Restart => Answer(st.(remembered := {}), Err(NothingToDo))
  }

  function After(w: World, ids: Ids, st: State, actions: seq<Action>): State {
    if actions == [] then st
    else Step(w, ids, After(w, ids, st, actions[..|actions| - 1]), actions[|actions| - 1]).state
  }

  function Initial(): State {
    State(Store(map[], map[]), {}, map[])
  }
}
