/** What the invariant of the service means for whole histories of commands, workers and crashes. */
module ServiceHistory {
  import opened Prelude
  import opened Models
  import opened Campaign
  import opened CampaignAgreement
  import opened Runs
  import opened Orchestrator
  import opened RunShape
  import opened RunProgress
  import opened RunInvariant
  import opened RunGrowth
  import opened RunStates
  import opened RunStore
  import opened Service
  import opened ServiceInvariant

  // ---------------------------------------------------------------- exactly-once commands

  /** What identifies a command and its request. */
  datatype Command = Command(tenant: string, eventId: string, operation: string, fingerprint: string)

  function CommandOf(w: World, ids: Ids, a: Action): Option<Command> {
    match a
    case Start(c, brief, _, _, _, _) =>
      if !ValidBrief(w.language.isSpace, brief) then None
      else Some(Command(c.tenant, ids.command(c.tenant, StartOperation(), c.key), StartOperation(),
                        ids.fingerprint(StartOperation(), c.subject, w.runId(brief), ids.briefPayload(brief))))
    case Judge(c, runId, decision, note, _, _, _) =>
      Some(Command(c.tenant, ids.command(c.tenant, DecisionOperation(decision), c.key), DecisionOperation(decision),
                   ids.fingerprint(DecisionOperation(decision), c.subject, runId, note)))
    case Withdraw(c, runId, reason, _) =>
      Some(Command(c.tenant, ids.command(c.tenant, RevocationOperation(), c.key), RevocationOperation(),
                   ids.fingerprint(RevocationOperation(), c.subject, runId, reason)))
    case SupplyMedia(c, runId, m) =>
      Some(Command(c.tenant, ids.command(c.tenant, MediaOperation(), c.key), MediaOperation(),
                   ids.fingerprint(MediaOperation(), c.subject, runId, m.payload)))
    case _ => None
  }

  /** A known event id decides the answer alone, and nothing changes. */
  lemma {:induction false} KnownKeyAnswers(w: World, ids: Ids, st: State, a: Action)
    requires CommandOf(w, ids, a).Some?
    ensures var cmd := CommandOf(w, ids, a).value;
            var reply := Replay(st.store, cmd.tenant, cmd.eventId, cmd.operation, cmd.fingerprint);
            reply.Some? ==> Step(w, ids, st, a) == Answer(st, reply.value)
  {
    hide Replay, ValidBrief, Decide, Orchestrator.Revoke, Commit, Advances, Create, EffectsObjection;
  }

  lemma {:induction false} CommitLeavesReceipt(st: State, c: Caller, run: Run, expected: RunStatus, eventId: string,
                                               operation: string, fp: string)
    ensures var a := Commit(st, c, run, expected, eventId, operation, fp);
            && (a.reply.Ok? ==> a.reply.value.run == run)
            && (a.reply.Ok? ==> Find(a.state.store, c.tenant, eventId) == Some(Receipt(operation, fp, run)))
            && (a.reply.Err? ==> a.state == st)
  {
  }

  lemma {:induction false} StartIsAtomic(w: World, ids: Ids, st: State, a: Action)
    requires a.Start? && CommandOf(w, ids, a).Some?
    ensures var cmd := CommandOf(w, ids, a).value;
            var answer := Step(w, ids, st, a);
            && (answer.reply.Ok? ==> Find(answer.state.store, cmd.tenant, cmd.eventId)
                                     == Some(Receipt(cmd.operation, cmd.fingerprint, answer.reply.value.run)))
            && (answer.reply.Err? ==> answer.state.store == st.store)
  {
    hide ValidBrief, Advances, Create;
  }

  /** A command that succeeds leaves its receipt with its response; one that fails leaves the store as it was. */
  lemma {:induction false} CommandIsAtomic(w: World, ids: Ids, st: State, a: Action)
    requires CommandOf(w, ids, a).Some?
    ensures var cmd := CommandOf(w, ids, a).value;
            var answer := Step(w, ids, st, a);
            && (answer.reply.Ok? ==> Find(answer.state.store, cmd.tenant, cmd.eventId)
                                     == Some(Receipt(cmd.operation, cmd.fingerprint, answer.reply.value.run)))
            && (answer.reply.Err? ==> answer.state.store == st.store)
  {
    hide Step, CommandOf, Find;
    match a
    case Start(_, _, _, _, _, _) => StartIsAtomic(w, ids, st, a);
    case Judge(_, _, _, _, _, _, _) => JudgeIsAtomic(w, ids, st, a);
    case Withdraw(_, _, _, _) => WithdrawIsAtomic(w, ids, st, a);
    case SupplyMedia(_, _, _) => SupplyMediaIsAtomic(w, ids, st, a);
    case _ => NoCommand(w, ids, a);
  }

  lemma {:induction false} NoCommand(w: World, ids: Ids, a: Action)
    requires !a.Start? && !a.Judge? && !a.Withdraw? && !a.SupplyMedia?
    ensures CommandOf(w, ids, a) == None
  {
  }

  lemma {:induction false} JudgeIsAtomic(w: World, ids: Ids, st: State, a: Action)
    requires a.Judge? && CommandOf(w, ids, a).Some?
    ensures var cmd := CommandOf(w, ids, a).value;
            var answer := Step(w, ids, st, a);
            && (answer.reply.Ok? ==> Find(answer.state.store, cmd.tenant, cmd.eventId)
                                     == Some(Receipt(cmd.operation, cmd.fingerprint, answer.reply.value.run)))
            && (answer.reply.Err? ==> answer.state.store == st.store)
  {
    hide Decide, Commit, EffectsObjection;
    var key, cmd := Key(a.c.tenant, a.runId), CommandOf(w, ids, a).value;
    if key in st.store.runs && WellFormed(st.store.runs[key]) {
      var decided := Decide(w, st.store.runs[key], a.decision, a.c.subject, a.note, a.fault, a.clock);
      if decided.Ok? {
        CommitLeavesReceipt(st, a.c, decided.value, AwaitingGreenlight, cmd.eventId, cmd.operation, cmd.fingerprint);
      }
    }
  }

  lemma {:induction false} WithdrawIsAtomic(w: World, ids: Ids, st: State, a: Action)
    requires a.Withdraw? && CommandOf(w, ids, a).Some?
    ensures var cmd := CommandOf(w, ids, a).value;
            var answer := Step(w, ids, st, a);
            && (answer.reply.Ok? ==> Find(answer.state.store, cmd.tenant, cmd.eventId)
                                     == Some(Receipt(cmd.operation, cmd.fingerprint, answer.reply.value.run)))
            && (answer.reply.Err? ==> answer.state.store == st.store)
  {
    hide Orchestrator.Revoke, Commit;
    var key, cmd := Key(a.c.tenant, a.runId), CommandOf(w, ids, a).value;
    if key in st.store.runs && WellFormed(st.store.runs[key]) {
      var revoked := Orchestrator.Revoke(w, st.store.runs[key], a.c.subject, a.reason, a.clock);
      if revoked.Ok? {
        CommitLeavesReceipt(st, a.c, revoked.value, Completed, cmd.eventId, cmd.operation, cmd.fingerprint);
      }
    }
  }

  lemma {:induction false} StepIsMedia(w: World, ids: Ids, st: State, a: Action)
    requires a.SupplyMedia?
    ensures Step(w, ids, st, a) == AttachMedia(ids, st, a.c, a.runId, a.media)
  {
    hide AttachMedia;
  }

  lemma {:induction false} SupplyMediaIsAtomic(w: World, ids: Ids, st: State, a: Action)
    requires a.SupplyMedia? && CommandOf(w, ids, a).Some?
    ensures var cmd := CommandOf(w, ids, a).value;
            var answer := Step(w, ids, st, a);
            && (answer.reply.Ok? ==> Find(answer.state.store, cmd.tenant, cmd.eventId)
                                     == Some(Receipt(cmd.operation, cmd.fingerprint, answer.reply.value.run)))
            && (answer.reply.Err? ==> answer.state.store == st.store)
  {
    hide Commit, AddArtifact, MediaOf, Step, Find;
    StepIsMedia(w, ids, st, a);
    var key, cmd, m := Key(a.c.tenant, a.runId), CommandOf(w, ids, a).value, a.media;
    if key in st.store.runs && WellFormed(st.store.runs[key]) {
      var run := st.store.runs[key];
      var more := AddArtifact(run, Artifact(m.artifactId, PublicationMedia, Media,
                                            MediaRecord(Instagram(), m.mediaId, m.url, m.sha256), []));
      CommitLeavesReceipt(st, a.c, run, AwaitingGreenlight, cmd.eventId, cmd.operation, cmd.fingerprint);
      CommitLeavesReceipt(st, a.c, more, AwaitingGreenlight, cmd.eventId, cmd.operation, cmd.fingerprint);
    }
  }

  lemma {:induction false} FindStays(a: Store, b: Store, tenant: string, eventId: string)
    requires StoreGrows(a, b)
    ensures Find(a, tenant, eventId).Some? ==> Find(b, tenant, eventId) == Find(a, tenant, eventId)
  {
    hide Grows;
  }

  lemma {:induction false} ReceiptStays(w: World, ids: Ids, st: State, first: Action, later: seq<Action>)
    requires StoreInv(w, ids, st) && IdsDistinct(ids) && CommandOf(w, ids, first).Some?
    ensures var cmd := CommandOf(w, ids, first).value;
            var answer := Step(w, ids, st, first);
            answer.reply.Ok? ==>
              Find(After(w, ids, answer.state, later).store, cmd.tenant, cmd.eventId)
              == Some(Receipt(cmd.operation, cmd.fingerprint, answer.reply.value.run))
  {
    hide StoreInv, StoreGrows, Step, CommandOf, IdsDistinct;
    var answer := Step(w, ids, st, first);
    var now := After(w, ids, answer.state, later);
    var cmd := CommandOf(w, ids, first).value;
    CommandIsAtomic(w, ids, st, first);
    StepKeeps(w, ids, st, first);
    HistoryKeeps(w, ids, answer.state, later);
    FindStays(answer.state.store, now.store, cmd.tenant, cmd.eventId);
  }

  /**
   A retry of a successful command, however much later and whatever has happened to the run since, returns the
   first response and changes nothing.
   */
  lemma {:induction false} RetryReturnsFirstResponse(w: World, ids: Ids, earlier: seq<Action>, first: Action,
                                                     later: seq<Action>, again: Action)
    requires IdsDistinct(ids)
    ensures var answer := Step(w, ids, After(w, ids, Initial(), earlier), first);
            var now := After(w, ids, answer.state, later);
            CommandOf(w, ids, first).Some? && CommandOf(w, ids, again) == CommandOf(w, ids, first) && answer.reply.Ok? ==>
              Step(w, ids, now, again) == Answer(now, Ok(Reply(answer.reply.value.run, true)))
  {
    hide StoreInv, Step, CommandOf, IdsDistinct;
    var st := After(w, ids, Initial(), earlier);
    Reachable(w, ids, earlier);
    if CommandOf(w, ids, first).Some? && CommandOf(w, ids, again) == CommandOf(w, ids, first) {
      ReceiptStays(w, ids, st, first, later);
      KnownKeyAnswers(w, ids, After(w, ids, Step(w, ids, st, first).state, later), again);
    }
  }

  /** What a command asks for, and the key under which it does. */
  datatype Request = Request(operation: string, subject: string, resource: string, payload: string)

  datatype CommandKey = CommandKey(tenant: string, operation: string, key: string)

  predicate IsCommand(w: World, ids: Ids, a: Action) {
    CommandOf(w, ids, a).Some?
  }

  function RequestOf(w: World, ids: Ids, a: Action): Request
    requires IsCommand(w, ids, a)
  {
    match a
    case Start(c, brief, _, _, _, _) => Request(StartOperation(), c.subject, w.runId(brief), ids.briefPayload(brief))
    case Judge(c, runId, decision, note, _, _, _) => Request(DecisionOperation(decision), c.subject, runId, note)
    case Withdraw(c, runId, reason, _) => Request(RevocationOperation(), c.subject, runId, reason)
    case SupplyMedia(c, runId, m) => Request(MediaOperation(), c.subject, runId, m.payload)
  }

  function CommandKeyOf(w: World, ids: Ids, a: Action): CommandKey
    requires IsCommand(w, ids, a)
  {
    CommandKey(a.c.tenant, RequestOf(w, ids, a).operation, a.c.key)
  }

  lemma {:induction false} CommandIsHashed(w: World, ids: Ids, a: Action)
    requires IsCommand(w, ids, a)
    ensures var q, k, cmd := RequestOf(w, ids, a), CommandKeyOf(w, ids, a), CommandOf(w, ids, a).value;
            && cmd.tenant == k.tenant && cmd.operation == k.operation
            && cmd.eventId == ids.command(k.tenant, k.operation, k.key)
            && cmd.fingerprint == ids.fingerprint(q.operation, q.subject, q.resource, q.payload)
  {
  }

  function Fingerprint(ids: Ids, q: Request): string {
    ids.fingerprint(q.operation, q.subject, q.resource, q.payload)
  }

  /**
   A command that asks for something else under a key that was used successfully is refused for good and changes
   nothing, or the two requests are distinct ones with the same fingerprint.
   */
  lemma {:induction false} KeyReuseIsRefused(w: World, ids: Ids, earlier: seq<Action>, first: Action, later: seq<Action>,
                                             other: Action)
    requires IdsDistinct(ids) && IsCommand(w, ids, first) && IsCommand(w, ids, other)
    ensures var answer := Step(w, ids, After(w, ids, Initial(), earlier), first);
            var now := After(w, ids, answer.state, later);
            var p, q := RequestOf(w, ids, first), RequestOf(w, ids, other);
            CommandKeyOf(w, ids, first) == CommandKeyOf(w, ids, other) && p != q && answer.reply.Ok? ==>
              || Step(w, ids, now, other) == Answer(now, Err(KeyConflict))
              || Fingerprint(ids, p) == Fingerprint(ids, q)
  {
    hide StoreInv, Step, CommandOf, IdsDistinct, RequestOf;
    var st := After(w, ids, Initial(), earlier);
    Reachable(w, ids, earlier);
    CommandIsHashed(w, ids, first);
    CommandIsHashed(w, ids, other);
    if CommandKeyOf(w, ids, first) == CommandKeyOf(w, ids, other) {
      ReceiptStays(w, ids, st, first, later);
      KnownKeyAnswers(w, ids, After(w, ids, Step(w, ids, st, first).state, later), other);
    }
  }

  // ---------------------------------------------------------------- failed starts

  lemma {:induction false} StepKeepsBlocked(w: World, ids: Ids, st: State, a: Action, key: Key)
    requires key in st.remembered && key !in st.store.runs && a != Restart
    ensures var next := Step(w, ids, st, a).state; key in next.remembered && key !in next.store.runs
  {
    hide ValidBrief, Decide, Orchestrator.Revoke, Advances, Create, EffectsObjection, AddArtifact, MediaOf, WithId,
         Replay, Find, Checkpointed, LeasedByOther;
    if a.Start? {
      StartKeepsBlocked(w, ids, st, a, key);
    }
  }

  lemma {:induction false} StartKeepsBlocked(w: World, ids: Ids, st: State, a: Action, key: Key)
    requires key in st.remembered && key !in st.store.runs && a.Start?
    ensures var next := Step(w, ids, st, a).state; key in next.remembered && key !in next.store.runs
  {
    hide ValidBrief, Advances, Create, Replay, Find;
    if a.asynchronous {
      assert Create(w, a.brief, true, a.now).runId == w.runId(a.brief) by { CreatedId(w, a.brief, true, a.now); }
    } else {
      AdvancesKeepId(w, a.brief, a.faults, a.clocks, a.now, MAX_ADVANCES);
    }
  }

  lemma {:induction false} CreatedId(w: World, brief: Brief, asynchronous: bool, now: int)
    ensures Create(w, brief, asynchronous, now).runId == w.runId(brief)
  {
  }

  lemma {:induction false} AdvancesKeepId(w: World, brief: Brief, faults: nat -> Fault, clocks: nat -> Clock, now: int,
                                          n: nat)
    ensures Advances(w, Create(w, brief, false, now), faults, clocks, n).run.runId == w.runId(brief)
    decreases n
  {
    hide Advance, Grows;
    if n > 0 {
      AdvancesKeepId(w, brief, faults, clocks, now, n - 1);
      var before := Advances(w, Create(w, brief, false, now), faults, clocks, n - 1);
      AdvanceGrows(w, before.run, faults(n - 1), clocks(n - 1));
      SameId(before.run, Advance(w, before.run, faults(n - 1), clocks(n - 1)).run);
    }
  }

  lemma {:induction false} SameId(a: Run, b: Run)
    requires Grows(a, b)
    ensures a.runId == b.runId
  {
  }

  // ---------------------------------------------------------------- decisions

  /** What a publication presents as its authority (`assert_greenlight_effect_authorized`). */
  datatype Token = Token(
    greenlightId: string,
    fence: int,
    artifactIds: seq<string>,
    artifactHashes: seq<string>,
    channel: string,
    budgetCents: int)

  predicate Authorized(store: Store, key: Key, t: Token) {
    && key in store.runs
    && var run := store.runs[key];
       && run.status == Completed && run.greenlight.Some? && Active(run.greenlight.value)
       && var g := run.greenlight.value;
          && g.id == t.greenlightId && g.fence == t.fence
          && g.approvedIds == t.artifactIds && g.approvedHashes == t.artifactHashes
          && t.channel in g.channels && 0 <= t.budgetCents <= g.budgetCents
  }

  /**
   A recorded decision is the only one the run ever gets: later states carry the same decision over the same
   envelope, which still matches the run's artifacts position by position, and its fence never falls.
   */
  lemma {:induction false} DecisionStands(w: World, ids: Ids, earlier: seq<Action>, later: seq<Action>, key: Key)
    requires IdsDistinct(ids)
    ensures var st := After(w, ids, Initial(), earlier);
            var now := After(w, ids, st, later);
            key in st.store.runs && st.store.runs[key].greenlight.Some? ==>
              && key in now.store.runs && now.store.runs[key].greenlight.Some?
              && var g, h := st.store.runs[key].greenlight.value, now.store.runs[key].greenlight.value;
                 && h.id == g.id && h.decision == g.decision && h.reviewer == g.reviewer
                 && h.approvedIds == g.approvedIds && h.approvedHashes == g.approvedHashes
                 && h.channels == g.channels && h.budgetCents == g.budgetCents && g.fence <= h.fence
                 && Enveloped(w, now.store.runs[key], g)
                 && st.store.runs[key].artifacts <= now.store.runs[key].artifacts
  {
    hide StoreInv, StoreGrows, Step, IdsDistinct;
    var st := After(w, ids, Initial(), earlier);
    var now := After(w, ids, st, later);
    Reachable(w, ids, earlier);
    HistoryKeeps(w, ids, st, later);
    if key in st.store.runs && st.store.runs[key].greenlight.Some? {
      RowsGrow(st.store, now.store, key);
      RowHolds(w, ids, now, key);
      DecisionInEnvelope(w, now.store.runs[key]);
    }
  }

  lemma {:induction false} RowsGrow(a: Store, b: Store, key: Key)
    requires StoreGrows(a, b) && key in a.runs
    ensures key in b.runs && Grows(a.runs[key], b.runs[key])
  {
    hide Grows;
  }

  lemma {:induction false} RowHolds(w: World, ids: Ids, st: State, key: Key)
    requires StoreInv(w, ids, st)
    ensures key in st.store.runs ==> RowOk(w, key, st.store.runs[key])
  {
    hide RowOk;
  }

  /** A run has a decision exactly when its status says so, and then it was decided through an open gate. */
  lemma {:induction false} DecisionInEnvelope(w: World, run: Run)
    requires RunInv(w, run)
    ensures run.greenlight.Some?
            <==> run.status == Rejected || run.status == Completed || run.status == RunStatus.Revoked
    ensures run.greenlight.Some? ==> Decided(w, run) && Enveloped(w, run, run.greenlight.value)
    ensures run.greenlight.Some? ==> run.greenlight.value.fence == if run.status == RunStatus.Revoked then 2 else 1
  {
    hide Sound, StationsDone, Enveloped, GateOpens, AgentsAt, ArtifactsAt, EvidenceAt, TraceAt, Timeless;
  }

  /** After a revocation the run never changes again, so nothing is ever authorized for it. */
  lemma {:induction false} RevocationIsFinal(w: World, ids: Ids, earlier: seq<Action>, later: seq<Action>, key: Key,
                                             t: Token)
    requires IdsDistinct(ids)
    ensures var st := After(w, ids, Initial(), earlier);
            var now := After(w, ids, st, later);
            key in st.store.runs && st.store.runs[key].status == RunStatus.Revoked ==>
              && key in now.store.runs && now.store.runs[key] == st.store.runs[key]
              && !Authorized(now.store, key, t)
  {
    hide StoreInv, StoreGrows, Step, IdsDistinct;
    var st := After(w, ids, Initial(), earlier);
    Reachable(w, ids, earlier);
    HistoryKeeps(w, ids, st, later);
    if key in st.store.runs && st.store.runs[key].status == RunStatus.Revoked {
      RowsGrow(st.store, After(w, ids, st, later).store, key);
    }
  }

  /** The tokens of a run: its whole envelope, which is everything but the package, under fence one. */
  ghost predicate TokenOf(w: World, run: Run, t: Token) {
    && run.greenlight.Some? && |run.artifacts| > 0
    && var approved := run.artifacts[..|run.artifacts| - 1];
       && t.fence == 1 && t.greenlightId == run.greenlight.value.id
       && t.artifactIds == ArtifactIds(approved) && t.artifactHashes == ArtifactHashes(w, approved)
       && t.channel in run.brief.platforms && 0 <= t.budgetCents <= run.brief.budgetCents
  }

  /** What can be published at all: an approved, unrevoked run, under fence one and exactly its envelope. */
  lemma {:induction false} AuthorizedIff(w: World, ids: Ids, actions: seq<Action>, key: Key, t: Token)
    requires IdsDistinct(ids)
    ensures var store := After(w, ids, Initial(), actions).store;
            Authorized(store, key, t)
            <==> key in store.runs && store.runs[key].status == Completed && TokenOf(w, store.runs[key], t)
  {
    hide StoreInv, Step, IdsDistinct, RunInv, ValidBrief, Active, TokenOf;
    var st := After(w, ids, Initial(), actions);
    Reachable(w, ids, actions);
    if key in st.store.runs && st.store.runs[key].status == Completed {
      RowHolds(w, ids, st, key);
      CompletedTokens(w, st.store.runs[key], t);
    }
  }

  lemma {:induction false} CompletedTokens(w: World, run: Run, t: Token)
    requires RunInv(w, run) && run.status == Completed
    ensures run.greenlight.Some? && Active(run.greenlight.value)
    ensures TokenOf(w, run, t)
            <==> var g := run.greenlight.value;
                 && g.id == t.greenlightId && g.fence == t.fence
                 && g.approvedIds == t.artifactIds && g.approvedHashes == t.artifactHashes
                 && t.channel in g.channels && 0 <= t.budgetCents <= g.budgetCents
  {
    hide Sound, StationsDone, GateOpens, ArtifactIds, ArtifactHashes, ComplianceArtifact, Strip;
  }

  /** A fresh approval leaves no model effect open, and the output of every paid one is in the envelope. */
  lemma {:induction false} ApprovalCoversEffects(w: World, ids: Ids, st: State, a: Action)
    requires a.Judge? && a.decision == Approved
    ensures var reply := Step(w, ids, st, a).reply;
            reply.Ok? && !reply.value.replayed ==>
            var run := reply.value.run;
            && run.greenlight.Some?
            && forall i | 0 <= i < |a.effects| ::
                 && !a.effects[i].status.Pending? && !a.effects[i].status.Unknown?
                 && (a.effects[i].status.Succeeded? ==>
                       ids.completion(a.effects[i].effectId) in run.greenlight.value.approvedIds)
  {
    hide Decide, ArtifactIds, WellFormed;
    var reply := Step(w, ids, st, a).reply;
    if reply.Err? || reply.value.replayed {
      return;
    }
    var run := st.store.runs[Key(a.c.tenant, a.runId)];
    assert WellFormed(run);
    var decided := Decide(w, run, Approved, a.c.subject, a.note, a.fault, a.clock).value;
    ApprovedEnvelope(w, run, a.c.subject, a.note, a.fault, a.clock);
  }

  lemma {:induction false} ApprovedEnvelope(w: World, run: Run, reviewer: string, note: string, fault: Fault, clock: Clock)
    requires WellFormed(run) && Decide(w, run, Approved, reviewer, note, fault, clock).Ok?
    ensures var after := Decide(w, run, Approved, reviewer, note, fault, clock).value;
            && after.greenlight.Some?
            && forall id | id in ArtifactIds(run.artifacts) :: id in after.greenlight.value.approvedIds
  {
    hide Complete, Refusal, Strip, ArtifactHashes;
    var presented := Presented(w, run, Approved, Strip(w.language.isSpace, reviewer));
    forall id | id in ArtifactIds(run.artifacts) ensures id in ArtifactIds(presented.artifacts) {
      var i :| 0 <= i < |run.artifacts| && run.artifacts[i].id == id;
      assert ArtifactIds(presented.artifacts)[i] == id;
    }
    ApproveKeepsGreenlight(w, presented, NewGreenlight(w, presented, Approved, Strip(w.language.isSpace, reviewer),
                                                       Strip(w.language.isSpace, note), clock(0)), clock);
  }

  lemma {:induction false} ApproveKeepsGreenlight(w: World, run: Run, g: Greenlight, clock: Clock)
    requires WellFormed(run)
    ensures Approve(w, run, g, clock).greenlight == Some(g)
  {
    hide Merge, EvidenceIds;
  }

  // ---------------------------------------------------------------- the critique gate

  /**
   No run with a failing critique ever carries a Greenlight, approval or rejection, whatever was attached to it;
   and a political run that carries one came from a publishable brief.
   */
  lemma {:induction false} GreenlightNeedsPublishableBrief(w: World, ids: Ids, actions: seq<Action>, key: Key)
    requires IdsDistinct(ids) && LowerIsSane(w.language)
    ensures var store := After(w, ids, Initial(), actions).store;
            key in store.runs && store.runs[key].greenlight.Some? ==>
              var run := store.runs[key];
              && GateOpens(w, run.brief)
              && (Political(run.brief) ==> Publishable(w.language, run.brief, run.runId))
  {
    hide StoreInv, Step, IdsDistinct, Verdict, Publishable, Sound, StationsDone, Enveloped, AtGate, AtStage, LowerIsSane;
    Reachable(w, ids, actions);
    var st := After(w, ids, Initial(), actions);
    if key in st.store.runs && st.store.runs[key].greenlight.Some? {
      var run := st.store.runs[key];
      RowHolds(w, ids, st, key);
      DecisionInEnvelope(w, run);
      assert run.runId == w.runId(run.brief) by { DecidedRunId(w, run); }
      GateMeansPublishable(w, run.brief);
    }
  }

  lemma {:induction false} DecidedRunId(w: World, run: Run)
    requires Decided(w, run)
    ensures run.runId == w.runId(run.brief)
  {
    hide GateOpens, Enveloped;
  }

  /** The gate of a run opens exactly for the briefs the writer and critic agree on. */
  lemma {:induction false} GateMeansPublishable(w: World, brief: Brief)
    requires ValidBrief(w.language.isSpace, brief) && LowerIsSane(w.language)
    ensures GateOpens(w, brief) <==> (Political(brief) ==> Publishable(w.language, brief, w.runId(brief)))
  {
    hide ValidBrief, LowerIsSane, CritiqueOf, Publishable;
    GateOpensIff(w.language, brief, w.runId(brief));
  }

  /** A completed political run: separate people, and the compliance record as the last item of the envelope. */
  lemma {:induction false} CompletedPoliticalRun(w: World, ids: Ids, actions: seq<Action>, key: Key)
    requires IdsDistinct(ids)
    ensures var store := After(w, ids, Initial(), actions).store;
            key in store.runs && store.runs[key].status == Completed && Political(store.runs[key].brief) ==>
              var run := store.runs[key];
              run.greenlight.Some? &&
              var g := run.greenlight.value;
              var record := ComplianceArtifact(w, run, g.reviewer);
              && Strip(w.language.isSpace, run.brief.legalReviewedBy) != g.reviewer
              && |g.approvedIds| > EXECUTABLE
              && g.approvedIds[|g.approvedIds| - 1] == record.id
              && |g.approvedHashes| == |g.approvedIds|
              && g.approvedHashes[|g.approvedIds| - 1] == w.envelopeHash(record)
              && First(run.artifacts, ComplianceRecord) == Some(record)
              && Verdict(w, run.brief).eligible
  {
    hide StoreInv, Step, IdsDistinct, Verdict, Sound, AtGate, AtStage, ComplianceArtifact, Strip;
    Reachable(w, ids, actions);
    var st := After(w, ids, Initial(), actions);
    if key in st.store.runs && st.store.runs[key].status == Completed && Political(st.store.runs[key].brief) {
      RowHolds(w, ids, st, key);
      ReleasedPolitical(w, st.store.runs[key]);
    }
  }

  lemma {:induction false} ReleasedPolitical(w: World, run: Run)
    requires Released(w, run)
    ensures Political(run.brief) ==>
            var g := run.greenlight.value;
            var n := |g.approvedIds|;
            var record := ComplianceArtifact(w, run, g.reviewer);
            && Strip(w.language.isSpace, run.brief.legalReviewedBy) != g.reviewer
            && n > EXECUTABLE && |g.approvedHashes| == n
            && g.approvedIds[n - 1] == record.id && g.approvedHashes[n - 1] == w.envelopeHash(record)
            && First(run.artifacts, ComplianceRecord) == Some(record)
            && Verdict(w, run.brief).eligible
  {
    hide Verdict, Strip, ArtifactsAt;
    if !Political(run.brief) {
      return;
    }
    var n := |run.greenlight.value.approvedIds|;
    forall j | 0 <= j < n - 1 ensures run.artifacts[j].kind != ComplianceRecord {
      if j < EXECUTABLE {
        StationKind(w, run, j);
      }
    }
    FirstFound(run.artifacts, ComplianceRecord, n - 1);
  }

  lemma {:induction false} StationKind(w: World, run: Run, j: nat)
    requires StationsDone(w, run) && j < EXECUTABLE
    ensures run.artifacts[j] == StationArtifact(w, run.brief, j)
    ensures run.artifacts[j].kind == KindOf(Station(j))
    ensures run.artifacts[j].kind != ComplianceRecord && run.artifacts[j].kind != PublicationMedia
  {
    hide StationArtifact, StationPayload;
    assert run.artifacts[..EXECUTABLE][j] == run.artifacts[j];
  }

  lemma {:induction false} FirstFound(artifacts: seq<Artifact>, kind: Kind, i: nat)
    requires i < |artifacts| && artifacts[i].kind == kind && forall j | 0 <= j < i :: artifacts[j].kind != kind
    ensures First(artifacts, kind) == Some(artifacts[i])
    decreases |artifacts|
  {
    if i > 0 {
      FirstFound(artifacts[1..], kind, i - 1);
    }
  }

  // ---------------------------------------------------------------- workers

  lemma {:induction false} StageLoad(w: World, run: Run, p: nat)
    requires AtStage(w, run, p)
    ensures WellFormed(run) && Load(run.agents) == TRANSITIONS - p
  {
    hide StationArtifact, ArtifactsAt, EvidenceAt, TraceAt, Timeless;
    forall i | 0 <= i < EXECUTABLE ensures run.agents[i] == AgentAt(w, run.brief, p, i) {}
  }

  /**
   A stored busy run stands at the stage its trace length says: that many transitions are done, and the rest is
   what its stations still have to do.
   */
  lemma {:induction false} BusyRunShape(w: World, ids: Ids, actions: seq<Action>, key: Key)
    requires IdsDistinct(ids)
    ensures var store := After(w, ids, Initial(), actions).store;
            key in store.runs && Busy(store.runs[key].status) ==>
              var run := store.runs[key];
              && InProgress(w, run, |run.trace|)
              && Load(run.agents) == TRANSITIONS - |run.trace|
              && run.execution.fence == run.execution.attempts
  {
    hide StoreInv, Step, IdsDistinct, Sound, AtStage;
    Reachable(w, ids, actions);
    var st := After(w, ids, Initial(), actions);
    if key in st.store.runs && Busy(st.store.runs[key].status) {
      RowHolds(w, ids, st, key);
      StageLoad(w, st.store.runs[key], |st.store.runs[key].trace|);
    }
  }

  lemma {:induction false} LeaseOnlyCounts(w: World, ids: Ids, st: State, worker: string, key: Key, now: int, seconds: int,
                                           other: string, later: int, more: int)
    requires StoreInv(w, ids, st)
    ensures var taken := Step(w, ids, st, Lease(worker, key, now, seconds));
            var crashed := Step(w, ids, taken.state, WorkerCrash(key)).state;
            taken.reply.Ok? ==>
              && key in st.store.runs && key in crashed.store.runs
              && crashed == st.(store := st.store.(runs := st.store.runs[key := crashed.store.runs[key]]))
              && SameUpToTimes(st.store.runs[key], crashed.store.runs[key])
              && crashed.store.runs[key].execution.fence == st.store.runs[key].execution.fence + 1
              && crashed.store.runs[key].execution.attempts == st.store.runs[key].execution.attempts + 1
              && (Step(w, ids, crashed, Lease(other, key, later, more)).reply.Ok?
                  <==> worker == "" || other == worker || later >= now + seconds)
  {
    hide StoreInv, RowOk;
    RowHolds(w, ids, st, key);
    if key in st.store.runs {
      RowKey(w, key, st.store.runs[key]);
    }
  }

  /**
   A worker that dies between its two transactions loses only its step in memory: nothing but the execution record
   of its run has changed, one fence is used, and the run can be leased again by the same worker at once and by any
   other exactly from the end of the lease.
   */
  lemma {:induction false} CrashLosesOnlyTheStep(w: World, ids: Ids, actions: seq<Action>, worker: string, key: Key,
                                                 now: int, seconds: int, other: string, later: int, more: int)
    requires IdsDistinct(ids) && worker != ""
    ensures var st := After(w, ids, Initial(), actions);
            var taken := Step(w, ids, st, Lease(worker, key, now, seconds));
            var crashed := Step(w, ids, taken.state, WorkerCrash(key)).state;
            taken.reply.Ok? ==>
              && key in st.store.runs && key in crashed.store.runs
              && crashed == st.(store := st.store.(runs := st.store.runs[key := crashed.store.runs[key]]))
              && SameUpToTimes(st.store.runs[key], crashed.store.runs[key])
              && crashed.store.runs[key].execution.fence == st.store.runs[key].execution.fence + 1
              && (Step(w, ids, crashed, Lease(other, key, later, more)).reply.Ok?
                  <==> other == worker || later >= now + seconds)
  {
    hide *;
    Reachable(w, ids, actions);
    LeaseOnlyCounts(w, ids, After(w, ids, Initial(), actions), worker, key, now, seconds, other, later, more);
  }

  /** A completed checkpoint fails the run for a raising station, or lowers the load by exactly one. */
  lemma {:induction false} CheckpointProgress(w: World, ids: Ids, actions: seq<Action>, key: Key, fault: Fault,
                                              clock: Clock, now: int)
    requires IdsDistinct(ids)
    ensures var st := After(w, ids, Initial(), actions);
            key in st.held ==>
              && WellFormed(st.held[key])
              && var run, after := st.held[key], Checkpointed(w, st.held[key], fault, clock, now);
                 && (after.status == Failed ==> fault != NoFault)
                 && (after.status != Failed ==>
                       && WellFormed(after)
                       && Load(after.agents) == Load(run.agents) - 1
                       && (after.status == AwaitingGreenlight <==> Load(after.agents) == 0))
  {
    hide StoreInv, Step, IdsDistinct, RowOk, Checkpointed, Load, WellFormed;
    var st := After(w, ids, Initial(), actions);
    Reachable(w, ids, actions);
    if key in st.held {
      HeldRow(w, ids, st, key);
      RowProgress(w, key, st.held[key], fault, clock, now);
    }
  }

  lemma {:induction false} HeldRow(w: World, ids: Ids, st: State, key: Key)
    requires StoreInv(w, ids, st)
    ensures key in st.held ==> RowOk(w, key, st.held[key]) && Busy(st.held[key].status)
  {
    hide RowOk;
  }

  lemma {:induction false} RowProgress(w: World, key: Key, run: Run, fault: Fault, clock: Clock, now: int)
    requires RowOk(w, key, run) && Busy(run.status)
    ensures WellFormed(run)
    ensures var after := Checkpointed(w, run, fault, clock, now);
            && (after.status == Failed ==> fault != NoFault)
            && (after.status != Failed ==>
                  && WellFormed(after)
                  && Load(after.agents) == Load(run.agents) - 1
                  && (after.status == AwaitingGreenlight <==> Load(after.agents) == 0))
  {
    hide RunInv, ValidBrief, Advance, AtStage, AtGate;
    BusyInProgress(w, key, run);
    StageLoad(w, run, |run.trace|);
    AdvanceStage(w, run, |run.trace|, fault, clock);
    var o := Advance(w, run, fault, clock);
    if o.error == None {
      if |run.trace| + 1 < TRANSITIONS {
        StageLoad(w, o.run, |run.trace| + 1);
      } else {
        GateLoad(w, o.run);
      }
    }
  }

  lemma {:induction false} BusyInProgress(w: World, key: Key, run: Run)
    requires RowOk(w, key, run) && Busy(run.status)
    ensures WellFormed(run) && InProgress(w, run, |run.trace|)
  {
    hide AtStage, Holds, OncePerId;
  }

  lemma {:induction false} GateLoad(w: World, run: Run)
    requires FreshAtGate(w, run)
    ensures WellFormed(run) && Load(run.agents) == 0 && run.status == AwaitingGreenlight
  {
    hide StationArtifact, ArtifactsAt, EvidenceAt, TraceAt, Timeless, GateOpens;
  }

  /**
   The checkpoint that brings a queued run to the gate, after any leases, expiries and crashes, leaves the run that
   a synchronous `start` of the same brief produces, up to times and execution record.
   */
  lemma {:induction false} WorkersEndWhereStartEnds(w: World, ids: Ids, actions: seq<Action>, key: Key, fault: Fault,
                                                    clock: Clock, now: int, clocks: nat -> Clock, begin: int)
    requires IdsDistinct(ids)
    ensures var st := After(w, ids, Initial(), actions);
            key in st.held ==>
              && WellFormed(st.held[key])
              && var after := Checkpointed(w, st.held[key], fault, clock, now);
                 var started := Advances(w, Create(w, st.held[key].brief, false, begin), _ => NoFault, clocks,
                                         MAX_ADVANCES);
                 && started.error == None
                 && (after.status == AwaitingGreenlight ==> SameUpToTimes(after, started.run))
  {
    hide StoreInv, Step, IdsDistinct, RowOk, Checkpointed, Advances, Create, WellFormed, SameUpToTimes;
    var st := After(w, ids, Initial(), actions);
    Reachable(w, ids, actions);
    if key in st.held {
      HeldRow(w, ids, st, key);
      var faults: nat -> Fault := _ => NoFault;
      StartedRun(w, st.held[key].brief, faults, clocks, begin);
      RowEnds(w, key, st.held[key], fault, clock, now);
      var after := Checkpointed(w, st.held[key], fault, clock, now);
      if after.status == AwaitingGreenlight {
        CheckpointGate(w, key, st.held[key], fault, clock, now,
                       Advances(w, Create(w, st.held[key].brief, false, begin), faults, clocks, MAX_ADVANCES).run);
      }
    }
  }

  lemma {:induction false} RowEnds(w: World, key: Key, run: Run, fault: Fault, clock: Clock, now: int)
    requires RowOk(w, key, run) && Busy(run.status)
    ensures WellFormed(run)
  {
    hide AtStage;
    BusyInProgress(w, key, run);
  }

  lemma {:induction false} StartedRun(w: World, brief: Brief, faults: nat -> Fault, clocks: nat -> Clock, begin: int)
    requires forall k: nat :: faults(k) == NoFault
    ensures WellFormed(Create(w, brief, false, begin))
    ensures var started := Advances(w, Create(w, brief, false, begin), faults, clocks, MAX_ADVANCES);
            started.error == None && started.run.brief == brief && FreshAtGate(w, started.run)
  {
    hide Advance, AtStage, FreshAtGate;
    CreatedAtStageZero(w, brief, false, begin);
    AdvancesStage(w, Create(w, brief, false, begin), faults, clocks, TRANSITIONS);
    GateLoad(w, Advances(w, Create(w, brief, false, begin), faults, clocks, TRANSITIONS).run);
    AdvancesStop(w, Create(w, brief, false, begin), faults, clocks, TRANSITIONS, MAX_ADVANCES);
  }

  lemma {:induction false} CheckpointGate(w: World, key: Key, run: Run, fault: Fault, clock: Clock, now: int, other: Run)
    requires RowOk(w, key, run) && Busy(run.status) && WellFormed(run)
    requires FreshAtGate(w, other) && other.brief == run.brief
    ensures var after := Checkpointed(w, run, fault, clock, now);
            after.status == AwaitingGreenlight ==> SameUpToTimes(after, other)
  {
    hide RunInv, ValidBrief, Advance, AtStage, FreshAtGate;
    BusyInProgress(w, key, run);
    AdvanceStage(w, run, |run.trace|, fault, clock);
    var o := Advance(w, run, fault, clock);
    if FreshAtGate(w, o.run) {
      GateIsCanonical(w, o.run, other);
    }
  }
}
