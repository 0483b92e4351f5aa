/** The states a run can be stored in, and that every operation leads from one to another. */
module RunStates {
  import opened Prelude
  import opened Models
  import opened Campaign
  import opened Runs
  import opened Orchestrator
  import opened RunShape
  import opened RunProgress
  import opened RunInvariant

  /** The envelope of a decision: ids and hashes of a prefix of the run's artifacts, position by position. */
  ghost predicate Enveloped(w: World, run: Run, g: Greenlight) {
    var n := |g.approvedIds|;
    && n <= |run.artifacts|
    && g.approvedIds == ArtifactIds(run.artifacts[..n])
    && g.approvedHashes == ArtifactHashes(w, run.artifacts[..n])
  }

  /** What every decision was based on. */
  ghost predicate Decided(w: World, run: Run) {
    && StationsDone(w, run)
    && GateOpens(w, run.brief)
    && run.greenlight.Some?
    && var g := run.greenlight.value;
       && Enveloped(w, run, g)
       && EXECUTABLE <= |g.approvedIds|
       && g.runId == run.runId && g.reviewer != ""
       && g.channels == run.brief.platforms && g.budgetCents == run.brief.budgetCents
       && (forall j | EXECUTABLE <= j < |g.approvedIds| ::
             || IsAttachment(run.artifacts[j])
             || (g.decision == Approved && Political(run.brief) && j == |g.approvedIds| - 1))
  }

  /** An approved run: exactly the package follows the envelope, and political runs carry their compliance record. */
  ghost predicate Released(w: World, run: Run) {
    && Decided(w, run)
    && var g := run.greenlight.value;
       var n := |g.approvedIds|;
       && g.decision == Approved
       && |run.artifacts| == n + 1 && run.artifacts[n].kind == CampaignPackage
       && (Political(run.brief) ==>
             && n > EXECUTABLE
             && run.artifacts[n - 1] == ComplianceArtifact(w, run, g.reviewer)
             && Strip(w.language.isSpace, run.brief.legalReviewedBy) != g.reviewer)
  }

  ghost predicate RunInv(w: World, run: Run) {
    && Sound(run)
    && match run.status
       case Queued => InProgress(w, run, |run.trace|)
       case Running => InProgress(w, run, |run.trace|)
       case Failed => AtStage(w, run, |run.trace|)
       case AwaitingGreenlight => AtGate(w, run)
       case Rejected =>
         && Decided(w, run) && run.greenlight.value.decision == Refused && run.greenlight.value.fence == 1
         && run.agents[EXECUTABLE].status == Blocked
       case Completed =>
         && Released(w, run) && Active(run.greenlight.value) && run.greenlight.value.fence == 1
         && run.agents[EXECUTABLE].status == Ready
       case Revoked =>
         && Released(w, run) && run.greenlight.value.revokedAt.Some? && run.greenlight.value.fence == 2
         && run.agents[EXECUTABLE].status == Blocked
  }

  lemma {:induction false} StageLength(w: World, run: Run, p: nat)
    requires AtStage(w, run, p)
    ensures |run.trace| == p
  {
    assert |Timeless(run.trace)| == |TraceAt(w, run.brief, p)|;
  }

  lemma {:induction false} CreateKeeps(w: World, brief: Brief, asynchronous: bool, now: int)
    ensures RunInv(w, Create(w, brief, asynchronous, now))
  {
    hide AtStage, Holds;
    CreatedAtStageZero(w, brief, asynchronous, now);
  }

  /** An advance of a stored busy run, raising or not. */
  lemma {:induction false} AdvanceKeeps(w: World, run: Run, fault: Fault, clock: Clock)
    requires RunInv(w, run) && Busy(run.status)
    ensures var o := Advance(w, run, fault, clock);
            if o.error == None then RunInv(w, o.run) && o.run.status != Failed
            else o.error == Some(HandlerFailed) && RunInv(w, o.run.(status := Failed))
    ensures Advance(w, run, fault, clock).run.brief == run.brief
  {
    hide AtStage, Holds, OncePerId, Advance, StationsDone, Decided, Released;
    AdvanceStage(w, run, |run.trace|, fault, clock);
    AdvanceSound(w, run, fault, clock);
    var o := Advance(w, run, fault, clock);
    assert Sound(o.run.(status := Failed)) by { StatusIsSound(o.run, Failed); }
    if o.error == None {
      if |run.trace| + 1 < TRANSITIONS {
        StageLength(w, o.run, |run.trace| + 1);
      }
    } else {
      FailedStage(w, o.run, |run.trace|);
      FailedStage(w, o.run, |run.trace| + 1);
    }
  }

  lemma {:induction false} StatusIsSound(run: Run, status: RunStatus)
    requires Sound(run)
    ensures Sound(run.(status := status))
  {
    hide Holds;
  }

  lemma {:induction false} FailedStage(w: World, run: Run, p: nat)
    ensures AtStage(w, run, p) ==> |run.trace| == p && AtStage(w, run.(status := Failed), p)
  {
    if AtStage(w, run, p) {
      StageLength(w, run, p);
    }
  }

  // ---------------------------------------------------------------- decisions

  lemma {:induction false} RefusalNone(w: World, run: Run, decision: Decision, reviewer: string)
    requires RunInv(w, run) && Refusal(w, run, decision, reviewer) == None
    ensures WellFormed(run) && AtGate(w, run) && GateOpens(w, run.brief)
    ensures Strip(w.language.isSpace, reviewer) != ""
    ensures decision == Approved && Political(run.brief) ==>
      Strip(w.language.isSpace, run.brief.legalReviewedBy) != Strip(w.language.isSpace, reviewer)
  {
    hide Sound, AtStage, Strip, Latest, GateOpens, Decided, Released;
    assert AtGate(w, run);
    ReportAtGate(w, run.brief, run.artifacts);
  }

  /** Exactly when a stored run can be approved or rejected. */
  lemma {:induction false} DecidableIff(w: World, run: Run, decision: Decision, reviewer: string)
    requires RunInv(w, run)
    ensures Refusal(w, run, decision, reviewer) == None
            <==> && run.status == AwaitingGreenlight && GateOpens(w, run.brief)
                 && Strip(w.language.isSpace, reviewer) != ""
                 && (decision == Approved && Political(run.brief) ==>
                       Strip(w.language.isSpace, run.brief.legalReviewedBy) != Strip(w.language.isSpace, reviewer))
  {
    hide Sound, AtStage, Strip, Latest, GateOpens, Decided, Released;
    if run.status == AwaitingGreenlight {
      ReportAtGate(w, run.brief, run.artifacts);
    }
  }

  lemma {:induction false} AddKeepsStations(w: World, run: Run, a: Artifact)
    requires StationsDone(w, run)
    ensures StationsDone(w, AddArtifact(run, a))
  {
    hide ArtifactsAt;
    var after := AddArtifact(run, a);
    assert after.artifacts[..EXECUTABLE] == run.artifacts[..EXECUTABLE];
  }

  lemma {:induction false} EnvelopeOf(w: World, run: Run, decision: Decision, reviewer: string, note: string, at: int)
    ensures Enveloped(w, run, NewGreenlight(w, run, decision, reviewer, note, at))
    ensures |NewGreenlight(w, run, decision, reviewer, note, at).approvedIds| == |run.artifacts|
  {
    assert run.artifacts[..|run.artifacts|] == run.artifacts;
  }

  lemma {:induction false} RejectKeeps(w: World, run: Run, g: Greenlight, clock: Clock)
    requires AtGate(w, run) && GateOpens(w, run.brief)
    requires g.decision == Refused && g.fence == 1 && g.reviewer != ""
    requires g == NewGreenlight(w, run, Refused, g.reviewer, g.note, g.decidedAt)
    ensures Decided(w, Reject(run, g, clock))
  {
    hide ArtifactsAt, GateOpens, EvidenceAt, TraceAt, Timeless;
    EnvelopeOf(w, run, Refused, g.reviewer, g.note, g.decidedAt);
  }

  /** Approval of a run whose artifacts, compliance record included, are all in the envelope. */
  lemma {:induction false} ApproveKeeps(w: World, run: Run, g: Greenlight, clock: Clock)
    requires StationsDone(w, run) && GateOpens(w, run.brief)
    requires g.decision == Approved && g.reviewer != ""
    requires g == NewGreenlight(w, run, Approved, g.reviewer, g.note, g.decidedAt)
    requires forall j | EXECUTABLE <= j < |run.artifacts| ::
               IsAttachment(run.artifacts[j]) || (Political(run.brief) && j == |run.artifacts| - 1)
    requires Political(run.brief) ==>
      && |run.artifacts| > EXECUTABLE
      && run.artifacts[|run.artifacts| - 1] == ComplianceArtifact(w, run, g.reviewer)
      && Strip(w.language.isSpace, run.brief.legalReviewedBy) != g.reviewer
    ensures Released(w, Approve(w, run, g, clock))
    ensures Approve(w, run, g, clock).greenlight == Some(g)
  {
    hide ArtifactsAt, GateOpens, Strip, Approve, ComplianceArtifact;
    var after := Approve(w, run, g, clock);
    EnvelopeOf(w, run, Approved, g.reviewer, g.note, g.decidedAt);
    ApproveParts(w, run, g, clock);
    var n := |run.artifacts|;
    assert after.artifacts[..n] == run.artifacts == run.artifacts[..n];
    assert after.artifacts[..EXECUTABLE] == run.artifacts[..EXECUTABLE];
    SameCompliance(w, run, after, g.reviewer);
  }

  lemma {:induction false} SameCompliance(w: World, a: Run, b: Run, approver: string)
    requires a.runId == b.runId && a.brief == b.brief
    ensures ComplianceArtifact(w, a, approver) == ComplianceArtifact(w, b, approver)
  {
  }

  lemma {:induction false} ApproveParts(w: World, run: Run, g: Greenlight, clock: Clock)
    requires WellFormed(run)
    ensures var after := Approve(w, run, g, clock);
            && after.status == Completed && after.brief == run.brief && after.runId == run.runId
            && after.greenlight == Some(g)
            && WellFormed(after)
            && (forall j | 0 <= j < EXECUTABLE :: after.agents[j] == run.agents[j])
            && after.agents[EXECUTABLE].status == Ready
            && |after.artifacts| == |run.artifacts| + 1
            && after.artifacts == run.artifacts + [after.artifacts[|run.artifacts|]]
            && after.artifacts[|run.artifacts|].kind == CampaignPackage
  {
    hide Merge, EvidenceIds;
  }

  lemma {:induction false} PresentedStays(w: World, run: Run, decision: Decision, reviewer: string)
    requires AtGate(w, run)
    ensures var p := Presented(w, run, decision, reviewer);
            && WellFormed(p) && StationsDone(w, p) && p.brief == run.brief && p.runId == run.runId && p.status == run.status
            && (decision == Refused ==> p == run)
            && (decision == Approved && Political(run.brief) ==>
                  |p.artifacts| > EXECUTABLE
                  && p.artifacts[|p.artifacts| - 1] == ComplianceArtifact(w, p, reviewer))
            && forall j | EXECUTABLE <= j < |p.artifacts| :: IsAttachment(p.artifacts[j])
                 || (decision == Approved && Political(run.brief) && j == |p.artifacts| - 1)
  {
    hide ArtifactsAt, GateOpens, EvidenceAt, TraceAt, Timeless;
    if decision == Approved && Political(run.brief) {
      AddKeepsStations(w, run, ComplianceArtifact(w, run, reviewer));
      var p := Presented(w, run, decision, reviewer);
      assert ComplianceArtifact(w, p, reviewer) == ComplianceArtifact(w, run, reviewer);
    }
  }

  lemma {:induction false} DecideKeeps(w: World, run: Run, decision: Decision, reviewer: string, note: string,
                                       fault: Fault, clock: Clock)
    requires RunInv(w, run)
    ensures var r := Decide(w, run, decision, reviewer, note, fault, clock);
            r.Ok? ==>
            var after := r.value;
            && RunInv(w, after)
            && after.status == (if decision == Approved then Completed else Rejected)
            && run.greenlight == None && after.brief == run.brief && after.runId == run.runId
            && after.greenlight.Some?
            && var g := after.greenlight.value;
               && g.decision == decision && g.reviewer == Strip(w.language.isSpace, reviewer)
               && g.note == Strip(w.language.isSpace, note) && g.decidedAt == clock(0)
  {
    hide *;
    RunIsSound(w, run);
    DecideIs(w, run, decision, reviewer, note, fault, clock);
    if Decide(w, run, decision, reviewer, note, fault, clock).Ok? {
      var who, why := Strip(w.language.isSpace, reviewer), Strip(w.language.isSpace, note);
      DecideSound(w, run, decision, reviewer, note, fault, clock);
      RefusalNone(w, run, decision, reviewer);
      GateUndecided(w, run);
      if decision == Approved {
        ApprovalStands(w, run, who, why, clock);
      } else {
        RejectionStands(w, run, who, why, clock);
      }
    }
  }

  lemma {:induction false} RunIsSound(w: World, run: Run)
    requires RunInv(w, run)
    ensures Sound(run) && WellFormed(run)
  {
    hide Holds, OncePerId, Decided, Released, AtGate, AtStage;
  }

  /** A decision that succeeds, by its parts. */
  lemma {:induction false} DecideIs(w: World, run: Run, decision: Decision, reviewer: string, note: string, fault: Fault,
                                    clock: Clock)
    requires WellFormed(run)
    ensures var r := Decide(w, run, decision, reviewer, note, fault, clock);
            var who, why := Strip(w.language.isSpace, reviewer), Strip(w.language.isSpace, note);
            var presented := Presented(w, run, decision, who);
            r.Ok? ==>
              && Refusal(w, run, decision, reviewer) == None
              && WellFormed(presented)
              && r.value == if decision == Approved
                 then Approve(w, presented, NewGreenlight(w, presented, Approved, who, why, clock(0)), clock)
                 else Reject(presented, NewGreenlight(w, presented, Refused, who, why, clock(0)), clock)
  {
    hide Refusal, Approve, Reject, NewGreenlight, Strip, ComplianceArtifact;
  }

  lemma {:induction false} ApprovalStands(w: World, run: Run, who: string, why: string, clock: Clock)
    requires WellFormed(run) && AtGate(w, run) && GateOpens(w, run.brief) && who != ""
    requires Political(run.brief) ==> Strip(w.language.isSpace, run.brief.legalReviewedBy) != who
    ensures var presented := Presented(w, run, Approved, who);
            var g := NewGreenlight(w, presented, Approved, who, why, clock(0));
            var after := Approve(w, presented, g, clock);
            && (Sound(after) ==> RunInv(w, after))
            && after.status == Completed && after.brief == run.brief && after.runId == run.runId
            && after.greenlight == Some(g) && g.decision == Approved && g.reviewer == who && g.note == why
            && g.decidedAt == clock(0)
  {
    hide AtGate, Released, Approve, Sound, StationsDone, Presented, GateOpens, ComplianceArtifact, Strip;
    PresentedStays(w, run, Approved, who);
    var presented := Presented(w, run, Approved, who);
    var g := NewGreenlight(w, presented, Approved, who, why, clock(0));
    ApproveKeeps(w, presented, g, clock);
    ApproveParts(w, presented, g, clock);
  }

  lemma {:induction false} RejectionStands(w: World, run: Run, who: string, why: string, clock: Clock)
    requires WellFormed(run) && AtGate(w, run) && GateOpens(w, run.brief) && who != ""
    ensures var g := NewGreenlight(w, run, Refused, who, why, clock(0));
            var after := Reject(run, g, clock);
            && Presented(w, run, Refused, who) == run
            && (Sound(after) ==> RunInv(w, after))
            && after.status == Rejected && after.brief == run.brief && after.runId == run.runId
            && after.greenlight == Some(g) && g.decision == Refused && g.reviewer == who && g.note == why
            && g.decidedAt == clock(0)
  {
    hide AtGate, Decided, Sound, StationsDone, GateOpens;
    RejectKeeps(w, run, NewGreenlight(w, run, Refused, who, why, clock(0)), clock);
  }

  lemma {:induction false} GateUndecided(w: World, run: Run)
    requires AtGate(w, run)
    ensures run.greenlight == None && run.status == AwaitingGreenlight
  {
  }

  lemma {:induction false} RevokeKeeps(w: World, run: Run, reviewer: string, reason: string, clock: Clock)
    requires RunInv(w, run) && Orchestrator.Revoke(w, run, reviewer, reason, clock).Ok?
    ensures var after := Orchestrator.Revoke(w, run, reviewer, reason, clock).value;
            && RunInv(w, after) && after.status == RunStatus.Revoked
            && after.brief == run.brief && after.runId == run.runId && after.artifacts == run.artifacts
            && after.greenlight.value.revokedBy == Strip(w.language.isSpace, reviewer) != ""
            && after.greenlight.value.reason == Strip(w.language.isSpace, reason) != ""
  {
    hide Sound, Strip, ArtifactsAt, GateOpens, AtGate, AtStage;
    RevokeSound(w, run, reviewer, reason, clock);
    var after := Orchestrator.Revoke(w, run, reviewer, reason, clock).value;
    var g := run.greenlight.value;
    assert ComplianceArtifact(w, after, g.reviewer) == ComplianceArtifact(w, run, g.reviewer);
  }

  // ---------------------------------------------------------------- attachments

  lemma {:induction false} AttachKeeps(w: World, run: Run, a: Artifact)
    requires RunInv(w, run) && run.status == AwaitingGreenlight && IsAttachment(a)
    requires forall k | 0 <= k < |a.evidenceIds| :: Holds(run.evidence, a.evidenceIds[k])
    ensures RunInv(w, AddArtifact(run, a))
  {
    hide Sound, ArtifactsAt, EvidenceAt, TraceAt, Timeless, GateOpens, Holds, Decided, Released;
    assert Sound(AddArtifact(run, a)) by { ArtifactIsSound(run, a); }
    AddKeepsStations(w, run, a);
  }

  lemma {:induction false} ArtifactIsSound(run: Run, a: Artifact)
    requires Sound(run) && forall k | 0 <= k < |a.evidenceIds| :: Holds(run.evidence, a.evidenceIds[k])
    ensures Sound(AddArtifact(run, a))
  {
    ArtifactSound(run, a);
  }

  /** A lease or its end only touches the execution record. */
  lemma {:induction false} ExecutionKeeps(w: World, run: Run, execution: Execution)
    requires RunInv(w, run)
    ensures RunInv(w, run.(execution := execution))
  {
    hide ArtifactsAt, AgentsAt, EvidenceAt, TraceAt, Timeless, GateOpens, Holds;
    var after := run.(execution := execution);
    if run.greenlight.Some? {
      var g := run.greenlight.value;
      assert ComplianceArtifact(w, after, g.reviewer) == ComplianceArtifact(w, run, g.reviewer);
    }
  }
}
