/** How a run may differ from an earlier state of itself. */
module RunGrowth {
  import opened Prelude
  import opened Models
  import opened Campaign
  import opened Runs
  import opened Orchestrator
  import opened RunInvariant

  predicate Frozen(status: RunStatus) {
    status == Rejected || status == RunStatus.Revoked || status == Failed
  }

  function Rank(status: RunStatus): nat {
    match status
    case Queued => 0
    case Running => 1
    case AwaitingGreenlight => 2
    case Completed => 3
    case _ => 4
  }

  /** A decision stays what it is; an active one may be revoked once, which raises its fence. */
  predicate Follows(g: Greenlight, h: Greenlight) {
    || h == g
    || (Active(g) && h.revokedAt.Some? && h.fence > g.fence
        && h == g.(fence := h.fence, revokedAt := h.revokedAt, revokedBy := h.revokedBy, reason := h.reason))
  }

  ghost predicate Grows(a: Run, b: Run) {
    && b.runId == a.runId && b.brief == a.brief && b.startedAt == a.startedAt
    && a.artifacts <= b.artifacts && a.trace <= b.trace && a.evidence <= b.evidence
    && a.execution.fence <= b.execution.fence
    && Rank(a.status) <= Rank(b.status)
    && (a.greenlight.Some? ==> b.greenlight.Some? && Follows(a.greenlight.value, b.greenlight.value))
    && (Frozen(a.status) ==> b == a)
  }

  lemma {:induction false} GrowsTransitive(a: Run, b: Run, c: Run)
    requires Grows(a, b) && Grows(b, c)
    ensures Grows(a, c)
  {
  }

  lemma {:induction false} MergeExtends(evidence: seq<Evidence>, items: seq<Evidence>)
    ensures evidence <= Merge(evidence, items)
    decreases |items|
  {
    hide Holds;
    if items != [] {
      MergeExtends(evidence, items[..|items| - 1]);
    }
  }

  lemma {:induction false} CompleteGrows(w: World, run: Run, role: Role, payload: Payload, evidence: seq<Evidence>, at: int)
    requires WellFormed(run) && !Frozen(run.status)
    ensures Grows(run, Complete(w, run, role, payload, evidence, at))
    ensures Complete(w, run, role, payload, evidence, at).execution == run.execution
  {
    hide Merge, EvidenceIds;
    MergeExtends(run.evidence, evidence);
  }

  lemma {:induction false} AwaitGrows(run: Run, at: int)
    requires WellFormed(run) && Busy(run.status)
    ensures Grows(run, Await(run, at).run)
    ensures Await(run, at).run.execution.fence == run.execution.fence
    ensures Await(run, at).run.execution.attempts == run.execution.attempts
  {
    hide Latest, ReportAllows;
  }

  lemma {:induction false} AdvanceGrows(w: World, run: Run, fault: Fault, clock: Clock)
    requires WellFormed(run)
    ensures var after := Advance(w, run, fault, clock).run;
            && Grows(run, after)
            && after.execution.fence == run.execution.fence && after.execution.attempts == run.execution.attempts
  {
    hide Execute, Await, NextOpen;
    var r := Dequeued(run);
    var i := NextOpen(r.agents, 0);
    if r.status == Running {
      if i == EXECUTABLE {
        AwaitGrows(r, clock(0));
      } else if r.agents[i].status == Processing {
        ExecuteGrows(w, r.(execution := r.execution.(nextStation := Station(i))), i, fault, clock);
      }
    }
  }

  lemma {:induction false} ExecuteGrows(w: World, run: Run, i: nat, fault: Fault, clock: Clock)
    requires WellFormed(run) && i < EXECUTABLE && run.status == Running
    ensures var after := Execute(w, run, i, fault, clock).run;
            && Grows(run, after)
            && after.execution.fence == run.execution.fence && after.execution.attempts == run.execution.attempts
  {
    hide Complete, Await, Work;
    var work := Work(w, run.brief, run.runId, run.artifacts, Station(i));
    if fault != BeforeWork && work.Some? {
      var evidence := w.evidence(Station(i), run.brief);
      CompleteGrows(w, run, Station(i), work.value, evidence, clock(0));
      var done := Complete(w, run, Station(i), work.value, evidence, clock(0));
      CompleteAgents(w, run, Station(i), work.value, evidence, clock(0));
      AwaitGrows(done.(execution := done.execution.(nextStation := Station(i + 1))), clock(1));
    }
  }

  lemma {:induction false} DecideGrows(w: World, run: Run, decision: Decision, reviewer: string, note: string,
                                       fault: Fault, clock: Clock)
    requires WellFormed(run) && run.greenlight == None && Decide(w, run, decision, reviewer, note, fault, clock).Ok?
    ensures Grows(run, Decide(w, run, decision, reviewer, note, fault, clock).value)
    ensures Decide(w, run, decision, reviewer, note, fault, clock).value.execution.fence == run.execution.fence
    ensures Decide(w, run, decision, reviewer, note, fault, clock).value.execution.attempts == run.execution.attempts
  {
    hide Complete, Strip, NewGreenlight, ComplianceArtifact, Latest;
    var who, why := Strip(w.language.isSpace, reviewer), Strip(w.language.isSpace, note);
    var presented := Presented(w, run, decision, who);
    assert Grows(run, presented);
    var g := NewGreenlight(w, presented, decision, who, why, clock(0));
    if decision == Approved {
      var recorded := Event(Update(presented.(greenlight := Some(g)), Publisher, Processing, 50),
                            Publisher, GreenlightApproved, Processing, clock(1), [], []);
      CompleteGrows(w, recorded, Publisher, w.package(presented.runId, presented.artifacts),
                    w.packageEvidence(presented.runId, presented.artifacts), clock(2));
    }
  }

  lemma {:induction false} RevokeGrows(w: World, run: Run, reviewer: string, reason: string, clock: Clock)
    requires WellFormed(run) && Orchestrator.Revoke(w, run, reviewer, reason, clock).Ok?
    ensures Grows(run, Orchestrator.Revoke(w, run, reviewer, reason, clock).value)
  {
    hide Strip;
  }
}
