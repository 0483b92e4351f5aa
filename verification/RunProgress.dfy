/**
 How a run moves through its stations: each fault-free advance is exactly one of fourteen transitions, the last
 of which reaches the Greenlight gate, and a raising station leaves the contents at one of these stages.
 */
module RunProgress {
  import opened Prelude
  import opened Models
  import opened Campaign
  import opened Runs
  import opened Orchestrator
  import opened RunShape

  lemma {:induction false} CreatedAtStageZero(w: World, brief: Brief, asynchronous: bool, now: int)
    ensures InProgress(w, Create(w, brief, asynchronous, now), 0)
  {
    var run := Create(w, brief, asynchronous, now);
    assert run.agents == AgentsAt(w, brief, 0);
    assert run.artifacts == ArtifactsAt(w, brief, 0);
    assert Timeless(run.trace) == TraceAt(w, brief, 0);
  }

  lemma {:induction false} OpenStation(w: World, brief: Brief, p: nat)
    requires p < TRANSITIONS
    ensures NextOpen(AgentsAt(w, brief, p), 0) == p / 2
    ensures AgentsAt(w, brief, p)[p / 2].status == if p % 2 == 0 then Standby else Processing
  {
    hide NextOpen, StationArtifact;
    var agents := AgentsAt(w, brief, p);
    var k := NextOpen(agents, 0);
    assert forall j | 0 <= j < EXECUTABLE :: agents[j] == AgentAt(w, brief, p, j);
    assert agents[p / 2].status != Ready && k <= p / 2;
    assert forall j | 0 <= j < p / 2 :: agents[j].status == Ready;
  }

  lemma {:induction false} TimelessAppend(trace: seq<TraceEvent>, e: TraceEvent)
    ensures Timeless(trace + [e]) == Timeless(trace) + [e.(timestamp := 0)]
  {
  }

  lemma {:induction false} TraceGrows(w: World, brief: Brief, p: nat)
    requires p < TRANSITIONS
    ensures TraceAt(w, brief, p + 1) == TraceAt(w, brief, p) + [EventAt(w, brief, p)]
  {
    hide EventAt;
  }

  lemma {:induction false} TraceLength(w: World, brief: Brief, trace: seq<TraceEvent>, p: nat)
    requires p <= TRANSITIONS && Timeless(trace) == TraceAt(w, brief, p)
    ensures |trace| == p
  {
    hide EventAt;
    assert |Timeless(trace)| == |TraceAt(w, brief, p)|;
  }

  lemma {:induction false} BeginStage(w: World, run: Run, p: nat, at: int)
    requires AtStage(w, run, p) && p < TRANSITIONS && p % 2 == 0
    ensures AtStage(w, Begin(run, p / 2, at), p + 1)
  {
    hide StationArtifact, EvidenceAt, ArtifactsAt, TraceAt, Timeless;
    var i := p / 2;
    var begun := Begin(run, i, at);
    assert Position(Station(i)) == i;
    TimelessAppend(run.trace, begun.trace[|run.trace|]);
    TraceLength(w, run.brief, run.trace, p);
    TraceGrows(w, run.brief, p);
    assert begun.agents == AgentsAt(w, run.brief, p + 1) by {
      assert run.agents[i] == AgentAt(w, run.brief, p, i);
    }
    assert (p + 1) / 2 == p / 2;
  }

  lemma {:induction false} WorkAtStage(w: World, run: Run, i: nat)
    requires i < EXECUTABLE && AtStage(w, run, 2 * i + 1)
    ensures Work(w, run.brief, run.runId, run.artifacts, Station(i)) == Some(StationPayload(w, run.brief, i))
  {
    hide AgentsAt, EvidenceAt, TraceAt, ClaimLedger, Campaign.CopyDeck, CritiqueOf, Latest;
    assert run.artifacts == ArtifactsAt(w, run.brief, i);
    assert run.artifacts[..i] == run.artifacts;
    if i > 1 {
      StationArtifactFound(w, run.brief, run.artifacts, i, 1);
    }
    if i > 4 {
      StationArtifactFound(w, run.brief, run.artifacts, i, 4);
    }
  }

  lemma {:induction false} CompleteParts(w: World, run: Run, i: nat, payload: Payload, evidence: seq<Evidence>, at: int)
    requires WellFormed(run) && i < STATIONS
    ensures var role := Station(i);
            var id := w.artifactId(run.runId, role, KindOf(role), payload);
            var done := Complete(w, run, role, payload, evidence, at);
            && done.agents == run.agents[i := AgentState(Ready, 100, run.agents[i].artifactIds + [id])]
            && done == run.(agents := done.agents,
                            artifacts := run.artifacts + [Artifact(id, KindOf(role), role, payload, EvidenceIds(evidence))],
                            evidence := Merge(run.evidence, evidence),
                            trace := run.trace + [TraceEvent(|run.trace| + 1, at, role, ArtifactReady, Ready, [id],
                                                             EvidenceIds(evidence))])
  {
    hide Merge, EvidenceIds;
    assert Position(Station(i)) == i;
  }

  lemma {:induction false} CompleteStage(w: World, run: Run, i: nat, at: int)
    requires i < EXECUTABLE && AtStage(w, run, 2 * i + 1)
    ensures AtStage(w, Complete(w, run, Station(i), StationPayload(w, run.brief, i),
                                w.evidence(Station(i), run.brief), at), 2 * i + 2)
  {
    hide StationPayload, Merge, Complete;
    var brief, p := run.brief, 2 * i + 1;
    var done := Complete(w, run, Station(i), StationPayload(w, brief, i), w.evidence(Station(i), brief), at);
    CompleteParts(w, run, i, StationPayload(w, brief, i), w.evidence(Station(i), brief), at);
    assert p / 2 == i && (p + 1) / 2 == i + 1;
    CompleteTrace(w, run, i, done, at);
    assert done.artifacts == ArtifactsAt(w, brief, i + 1);
    assert done.agents == AgentsAt(w, brief, p + 1) by {
      hide AtStage;
      CompleteAgentStates(w, brief, i);
      assert run.agents == AgentsAt(w, brief, p);
    }
  }

  lemma {:induction false} CompleteAgentStates(w: World, brief: Brief, i: nat)
    requires i < EXECUTABLE
    ensures AgentsAt(w, brief, 2 * i + 2)
            == AgentsAt(w, brief, 2 * i + 1)[i := AgentState(Ready, 100, [] + [StationArtifact(w, brief, i).id])]
    ensures AgentsAt(w, brief, 2 * i + 1)[i].artifactIds == []
  {
    hide StationArtifact;
    var before, after := AgentsAt(w, brief, 2 * i + 1), AgentsAt(w, brief, 2 * i + 2);
    forall j | 0 <= j < STATIONS && j != i ensures after[j] == before[j] {
      assert before[j] == AgentAt(w, brief, 2 * i + 1, j) && after[j] == AgentAt(w, brief, 2 * i + 2, j);
    }
    var id := StationArtifact(w, brief, i).id;
    assert [] + [id] == [id];
    assert after == before[i := AgentState(Ready, 100, [id])];
  }

  lemma {:induction false} CompleteTrace(w: World, run: Run, i: nat, done: Run, at: int)
    requires i < EXECUTABLE && Timeless(run.trace) == TraceAt(w, run.brief, 2 * i + 1)
    requires var a := StationArtifact(w, run.brief, i);
             done.trace == run.trace + [TraceEvent(|run.trace| + 1, at, Station(i), ArtifactReady, Ready, [a.id], a.evidenceIds)]
    ensures Timeless(done.trace) == TraceAt(w, run.brief, 2 * i + 2)
  {
    hide StationArtifact, TraceAt, Timeless;
    var p := 2 * i + 1;
    TraceLength(w, run.brief, run.trace, p);
    TimelessAppend(run.trace, done.trace[p]);
    TraceGrows(w, run.brief, p);
    assert p / 2 == i && p % 2 == 1;
  }

  lemma {:induction false} ReportAtGate(w: World, brief: Brief, artifacts: seq<Artifact>)
    requires |artifacts| >= EXECUTABLE && artifacts[..EXECUTABLE] == ArtifactsAt(w, brief, EXECUTABLE)
    requires forall j | EXECUTABLE <= j < |artifacts| :: artifacts[j].kind != RiskReport
    ensures Latest(artifacts, RiskReport) == Some(StationArtifact(w, brief, 6))
    ensures ReportAllows(brief, StationArtifact(w, brief, 6).payload) == GateOpens(w, brief)
    ensures StationArtifact(w, brief, 6).payload == Report(Verdict(w, brief))
  {
    hide Verdict, Latest;
    StationArtifactFound(w, brief, artifacts, EXECUTABLE, 6);
  }

  lemma {:induction false} AwaitParts(run: Run, at: int, report: Artifact)
    requires WellFormed(run) && run.status != AwaitingGreenlight && Latest(run.artifacts, RiskReport) == Some(report)
    ensures var o := Await(run, at);
            var allows := ReportAllows(run.brief, report.payload);
            var status := if allows then WaitingGreenlight else Attention;
            && o.error == None
            && o.run == run.(
                 status := AwaitingGreenlight, execution := o.run.execution,
                 agents := run.agents[EXECUTABLE := run.agents[EXECUTABLE].(status := status, progress := 0)],
                 trace := run.trace + [TraceEvent(|run.trace| + 1, at, Publisher,
                                                  if allows then ApprovalGate else RevisionRequired, status, [], [])])
  {
    hide Latest, ReportAllows;
  }

  lemma {:induction false} AwaitStage(w: World, run: Run, at: int)
    requires AtStage(w, run, TRANSITIONS) && run.status != AwaitingGreenlight
    ensures var o := Await(run, at); o.error == None && o.run.brief == run.brief && FreshAtGate(w, o.run)
  {
    hide Latest, EvidenceAt, GateOpens, ReportAllows, StationPayload, StationArtifact, TraceAt, Timeless, Await;
    var brief, o := run.brief, Await(run, at);
    assert run.artifacts[..EXECUTABLE] == run.artifacts;
    ReportAtGate(w, brief, run.artifacts);
    TraceLength(w, brief, run.trace, TRANSITIONS);
    AwaitParts(run, at, StationArtifact(w, brief, 6));
    TimelessAppend(run.trace, o.run.trace[TRANSITIONS]);
    forall i | 0 <= i < STATIONS ensures run.agents[i] == AgentAt(w, brief, TRANSITIONS, i) {}
  }

  /** One advance of a run in progress. It raises exactly when a station at work does, and keeps the run at a stage. */
  lemma {:induction false} AdvanceStage(w: World, run: Run, p: nat, fault: Fault, clock: Clock)
    requires InProgress(w, run, p)
    ensures var o := Advance(w, run, fault, clock);
            && o.run.brief == run.brief
            && (o.error == None ==> if p + 1 < TRANSITIONS then InProgress(w, o.run, p + 1) else FreshAtGate(w, o.run))
            && (o.error != None <==> p % 2 == 1 && fault != NoFault)
            && (o.error != None ==> o.error == Some(HandlerFailed) && (AtStage(w, o.run, p) || AtStage(w, o.run, p + 1)))
  {
    hide AgentsAt, ArtifactsAt, EvidenceAt, TraceAt, Timeless, FreshAtGate, Execute, NextOpen;
    var r := Dequeued(run);
    OpenStation(w, run.brief, p);
    var at := r.(execution := r.execution.(nextStation := Station(p / 2)));
    if p % 2 == 0 {
      BeginStage(w, at, p, clock(0));
    } else {
      ExecuteStage(w, at, p / 2, fault, clock);
    }
  }

  lemma {:induction false} ExecuteStage(w: World, run: Run, i: nat, fault: Fault, clock: Clock)
    requires i < EXECUTABLE && AtStage(w, run, 2 * i + 1) && run.status == Running
    ensures var o := Execute(w, run, i, fault, clock);
            && o.run.brief == run.brief
            && (o.error == None ==>
                  if i < EXECUTABLE - 1 then InProgress(w, o.run, 2 * i + 2) else FreshAtGate(w, o.run))
            && (o.error != None <==> fault != NoFault)
            && (o.error != None ==>
                  o.error == Some(HandlerFailed) && (AtStage(w, o.run, 2 * i + 1) || AtStage(w, o.run, 2 * i + 2)))
  {
    hide AgentsAt, ArtifactsAt, EvidenceAt, TraceAt, Timeless, FreshAtGate, Work, Complete, Await, StationPayload;
    var brief := run.brief;
    WorkAtStage(w, run, i);
    CompleteStage(w, run, i, clock(0));
    var done := Complete(w, run, Station(i), StationPayload(w, brief, i), w.evidence(Station(i), brief), clock(0));
    CompleteParts(w, run, i, StationPayload(w, brief, i), w.evidence(Station(i), brief), clock(0));
    if i == EXECUTABLE - 1 {
      AwaitStage(w, done.(execution := done.execution.(nextStation := Station(i + 1))), clock(1));
    }
  }

  // ---------------------------------------------------------------- whole executions

  /** Without faults, `n` advances from a created run are `n` transitions, and the fourteenth reaches the gate. */
  lemma {:induction false} AdvancesStage(w: World, run: Run, faults: nat -> Fault, clocks: nat -> Clock, n: nat)
    requires InProgress(w, run, 0) && n <= TRANSITIONS && forall k | 0 <= k < n :: faults(k) == NoFault
    ensures var o := Advances(w, run, faults, clocks, n);
            o.error == None && o.run.brief == run.brief
            && if n < TRANSITIONS then InProgress(w, o.run, n) else FreshAtGate(w, o.run)
    decreases n
  {
    hide Advance, AgentsAt, ArtifactsAt, EvidenceAt, TraceAt, Timeless, FreshAtGate;
    if n > 0 {
      AdvancesStage(w, run, faults, clocks, n - 1);
      AdvanceStage(w, Advances(w, run, faults, clocks, n - 1).run, n - 1, faults(n - 1), clocks(n - 1));
    }
  }

  /** Two runs that differ only in times and in how they were executed. */
  ghost predicate SameUpToTimes(a: Run, b: Run) {
    && a.runId == b.runId && a.brief == b.brief && a.status == b.status
    && a.agents == b.agents && a.artifacts == b.artifacts && a.evidence == b.evidence
    && Timeless(a.trace) == Timeless(b.trace)
    && a.greenlight == b.greenlight && a.completedAt == b.completedAt
  }

  /**
   `start` terminates at the gate, and a run that was created for asynchronous execution reaches the same run by
   fourteen advances, whatever the clocks said.
   */
  lemma {:induction false} SynchronousEqualsAsynchronous(w: World, brief: Brief, faults: nat -> Fault,
                                                         clocks: nat -> Clock, others: nat -> Clock, a: int, b: int)
    requires forall k: nat :: faults(k) == NoFault
    ensures var inline := Advances(w, Create(w, brief, false, a), faults, clocks, MAX_ADVANCES);
            var queued := Advances(w, Create(w, brief, true, b), faults, others, TRANSITIONS);
            && inline.error == None && queued.error == None
            && inline.run.status == AwaitingGreenlight
            && SameUpToTimes(inline.run, queued.run)
  {
    hide Advance, EvidenceAt, TraceAt, StationArtifact, GateOpens, AgentAt, ArtifactsAt;
    CreatedAtStageZero(w, brief, false, a);
    CreatedAtStageZero(w, brief, true, b);
    AdvancesStage(w, Create(w, brief, false, a), faults, clocks, TRANSITIONS);
    AdvancesStage(w, Create(w, brief, true, b), faults, others, TRANSITIONS);
    AdvancesStop(w, Create(w, brief, false, a), faults, clocks, TRANSITIONS, MAX_ADVANCES);
    GateIsCanonical(w, Advances(w, Create(w, brief, false, a), faults, clocks, TRANSITIONS).run,
                    Advances(w, Create(w, brief, true, b), faults, others, TRANSITIONS).run);
  }

  lemma {:induction false} GateIsCanonical(w: World, a: Run, b: Run)
    requires FreshAtGate(w, a) && FreshAtGate(w, b) && a.brief == b.brief
    ensures SameUpToTimes(a, b)
  {
    hide EvidenceAt, TraceAt, StationArtifact, GateOpens, AgentAt, Timeless;
    assert a.artifacts == a.artifacts[..EXECUTABLE] && b.artifacts == b.artifacts[..EXECUTABLE];
    assert a.agents == b.agents by {
      forall i | 0 <= i < STATIONS ensures a.agents[i] == b.agents[i] {}
    }
  }
}
