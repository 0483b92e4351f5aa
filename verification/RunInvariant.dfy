/**
 What is true of a run in every state it can be stored in, and how a stored run may change: the two relations
 that every operation on a run keeps.
 */
module RunInvariant {
  import opened Prelude
  import opened Models
  import opened Campaign
  import opened Runs
  import opened Orchestrator
  import opened RunShape
  import opened RunProgress

  // ---------------------------------------------------------------- bookkeeping

  /** Trace events are numbered from one without gaps, and all evidence an artifact names is in the run, once. */
  ghost predicate Sound(run: Run) {
    && WellFormed(run)
    && (forall i | 0 <= i < |run.trace| :: run.trace[i].sequence == i + 1)
    && (forall i, k | 0 <= i < |run.artifacts| && 0 <= k < |run.artifacts[i].evidenceIds| ::
          Holds(run.evidence, run.artifacts[i].evidenceIds[k]))
    && OncePerId(run.evidence)
  }

  ghost predicate OncePerId(evidence: seq<Evidence>) {
    forall i, j | 0 <= i < j < |evidence| :: evidence[i].id != evidence[j].id
  }

  lemma {:induction false} MergeHolds(evidence: seq<Evidence>, items: seq<Evidence>)
    requires OncePerId(evidence)
    ensures evidence <= Merge(evidence, items) && OncePerId(Merge(evidence, items))
    ensures forall i | 0 <= i < |items| :: Holds(Merge(evidence, items), items[i].id)
    decreases |items|
  {
    if items != [] {
      var n := |items| - 1;
      var before, after := Merge(evidence, items[..n]), Merge(evidence, items);
      MergeHolds(evidence, items[..n]);
      if Holds(before, items[n].id) {
        assert after == before;
      } else {
        assert after == before + [items[n]] && after[|before|].id == items[n].id;
      }
      forall i | 0 <= i < |items| ensures Holds(after, items[i].id) {
        if i < n {
          assert items[..n][i] == items[i];
          HoldsLonger(before, after, items[i].id);
        }
      }
    }
  }

  lemma {:induction false} HoldsLonger(evidence: seq<Evidence>, longer: seq<Evidence>, id: string)
    requires Holds(evidence, id) && evidence <= longer
    ensures Holds(longer, id)
  {
    var i :| 0 <= i < |evidence| && evidence[i].id == id;
    assert longer[i].id == id;
  }

  lemma {:induction false} EventSound(run: Run, role: Role, action: TraceAction, status: AgentStatus, at: int,
                                      artifactIds: seq<string>, evidenceIds: seq<string>)
    requires Sound(run)
    ensures Sound(Event(run, role, action, status, at, artifactIds, evidenceIds))
  {
    hide Holds;
  }

  /** Adding an artifact whose evidence is already held. */
  lemma {:induction false} ArtifactSound(run: Run, a: Artifact)
    requires Sound(run) && forall k | 0 <= k < |a.evidenceIds| :: Holds(run.evidence, a.evidenceIds[k])
    ensures Sound(AddArtifact(run, a))
  {
    hide Holds;
    var after := AddArtifact(run, a);
    forall i, k | 0 <= i < |after.artifacts| && 0 <= k < |after.artifacts[i].evidenceIds|
      ensures Holds(after.evidence, after.artifacts[i].evidenceIds[k])
    {
      if i < |run.artifacts| {
        assert after.artifacts[i] == run.artifacts[i];
      }
    }
  }

  lemma {:induction false} MergeSound(run: Run, items: seq<Evidence>)
    requires Sound(run)
    ensures Sound(run.(evidence := Merge(run.evidence, items)))
    ensures forall k | 0 <= k < |EvidenceIds(items)| :: Holds(Merge(run.evidence, items), EvidenceIds(items)[k])
  {
    hide Holds, Merge;
    MergeHolds(run.evidence, items);
    forall i, k | 0 <= i < |run.artifacts| && 0 <= k < |run.artifacts[i].evidenceIds|
      ensures Holds(Merge(run.evidence, items), run.artifacts[i].evidenceIds[k])
    {
      HoldsLonger(run.evidence, Merge(run.evidence, items), run.artifacts[i].evidenceIds[k]);
    }
  }

  lemma {:induction false} CompleteSound(w: World, run: Run, role: Role, payload: Payload, evidence: seq<Evidence>, at: int)
    requires Sound(run)
    ensures Sound(Complete(w, run, role, payload, evidence, at))
  {
    hide Holds, Merge, OncePerId;
    var id := w.artifactId(run.runId, role, KindOf(role), payload);
    var artifact := Artifact(id, KindOf(role), role, payload, EvidenceIds(evidence));
    var merged := run.(evidence := Merge(run.evidence, evidence));
    MergeSound(run, evidence);
    ArtifactSound(merged, artifact);
    var updated := Update(AddArtifact(merged, artifact), role, Ready, 100);
    assert Sound(updated);
    EventSound(updated, role, ArtifactReady, Ready, at, [id], EvidenceIds(evidence));
  }

  lemma {:induction false} AwaitSound(run: Run, at: int)
    requires Sound(run)
    ensures Sound(Await(run, at).run)
  {
    hide Holds, OncePerId, Latest, ReportAllows;
  }

  lemma {:induction false} AdvanceSound(w: World, run: Run, fault: Fault, clock: Clock)
    requires Sound(run)
    ensures Sound(Advance(w, run, fault, clock).run)
  {
    hide Holds, OncePerId, Complete, Await, Work, NextOpen;
    var r := Dequeued(run);
    var i := NextOpen(r.agents, 0);
    if r.status == Running {
      if i == EXECUTABLE {
        AwaitSound(r, clock(0));
      } else if r.agents[i].status == Processing {
        var at := r.(execution := r.execution.(nextStation := Station(i)));
        var work := Work(w, at.brief, at.runId, at.artifacts, Station(i));
        if fault != BeforeWork && work.Some? {
          var evidence := w.evidence(Station(i), at.brief);
          CompleteSound(w, at, Station(i), work.value, evidence, clock(0));
          var done := Complete(w, at, Station(i), work.value, evidence, clock(0));
          AwaitSound(done.(execution := done.execution.(nextStation := Station(i + 1))), clock(1));
        }
      }
    }
  }

  lemma {:induction false} DecideSound(w: World, run: Run, decision: Decision, reviewer: string, note: string,
                                       fault: Fault, clock: Clock)
    requires Sound(run) && Decide(w, run, decision, reviewer, note, fault, clock).Ok?
    ensures Sound(Decide(w, run, decision, reviewer, note, fault, clock).value)
  {
    hide Holds, OncePerId, Complete, Refusal, Strip, NewGreenlight;
    var who, why := Strip(w.language.isSpace, reviewer), Strip(w.language.isSpace, note);
    var presented := Presented(w, run, decision, who);
    if decision == Approved && Political(run.brief) {
      ArtifactSound(run, ComplianceArtifact(w, run, who));
    }
    assert Sound(presented);
    var g := NewGreenlight(w, presented, decision, who, why, clock(0));
    if decision == Approved {
      var recorded := Event(Update(presented.(greenlight := Some(g)), Publisher, Processing, 50),
                            Publisher, GreenlightApproved, Processing, clock(1), [], []);
      assert Sound(recorded);
      CompleteSound(w, recorded, Publisher, w.package(presented.runId, presented.artifacts),
                    w.packageEvidence(presented.runId, presented.artifacts), clock(2));
    }
  }

  lemma {:induction false} RevokeSound(w: World, run: Run, reviewer: string, reason: string, clock: Clock)
    requires Sound(run) && Orchestrator.Revoke(w, run, reviewer, reason, clock).Ok?
    ensures Sound(Orchestrator.Revoke(w, run, reviewer, reason, clock).value)
  {
    hide Holds, OncePerId, Strip;
  }
}
