/**
 What a run looks like at every moment before its decision. Up to timestamps, everything in it is determined by
 its brief and by how many of the fourteen station transitions have happened.
 */
module RunShape {
  import opened Prelude
  import opened Models
  import opened Campaign
  import opened Runs
  import opened Orchestrator

  const TRANSITIONS: nat := 2 * EXECUTABLE

  // ---------------------------------------------------------------- the canonical contents

  function Ledger(w: World, brief: Brief): seq<LedgerEntry> {
    ClaimLedger(w.language, brief, w.runId(brief))
  }

  function Verdict(w: World, brief: Brief): Critique {
    CritiqueOf(w.language, brief, Ledger(w, brief), Campaign.CopyDeck(w.language, brief, Ledger(w, brief)))
  }

  function StationPayload(w: World, brief: Brief, i: nat): Payload
    requires i < EXECUTABLE
  {
    match Station(i)
    case Research => Dossier(Ledger(w, brief))
    case Writer => Deck(Campaign.CopyDeck(w.language, brief, Ledger(w, brief)))
    case Risk => Report(Verdict(w, brief))
    case role => w.plainPayload(KindOf(role), brief)
  }

  function StationArtifact(w: World, brief: Brief, i: nat): (a: Artifact)
    requires i < EXECUTABLE
    ensures a.kind == KindOf(Station(i)) && a.createdBy == Station(i) && a.payload == StationPayload(w, brief, i)
    ensures a.evidenceIds == EvidenceIds(w.evidence(Station(i), brief))
  {
    var role, payload := Station(i), StationPayload(w, brief, i);
    Artifact(w.artifactId(w.runId(brief), role, KindOf(role), payload), KindOf(role), role, payload,
             EvidenceIds(w.evidence(role, brief)))
  }

  function ArtifactsAt(w: World, brief: Brief, k: nat): seq<Artifact>
    requires k <= EXECUTABLE
  {
    seq(k, i requires 0 <= i < k => StationArtifact(w, brief, i))
  }

  function EvidenceAt(w: World, brief: Brief, k: nat): seq<Evidence>
    requires k <= EXECUTABLE
  {
    if k == 0 then [] else Merge(EvidenceAt(w, brief, k - 1), w.evidence(Station(k - 1), brief))
  }

  /** A station that is done, at work, or still to come after `p` transitions. */
  function AgentAt(w: World, brief: Brief, p: nat, i: nat): AgentState
    requires p <= TRANSITIONS && i < STATIONS
  {
    if 2 * i + 1 < p then AgentState(Ready, 100, [StationArtifact(w, brief, i).id])
    else if 2 * i + 1 == p then AgentState(Processing, 10, [])
    else AgentState(Standby, 0, [])
  }

  function AgentsAt(w: World, brief: Brief, p: nat): seq<AgentState>
    requires p <= TRANSITIONS
  {
    seq(STATIONS, i requires 0 <= i < STATIONS => AgentAt(w, brief, p, i))
  }

  function EventAt(w: World, brief: Brief, p: nat): TraceEvent
    requires p < TRANSITIONS
  {
    var role := Station(p / 2);
    if p % 2 == 0 then TraceEvent(p + 1, 0, role, AgentStarted, Processing, [], [])
    else
      TraceEvent(p + 1, 0, role, ArtifactReady, Ready, [StationArtifact(w, brief, p / 2).id],
                 StationArtifact(w, brief, p / 2).evidenceIds)
  }

  function TraceAt(w: World, brief: Brief, p: nat): seq<TraceEvent>
    requires p <= TRANSITIONS
  {
    seq(p, j requires 0 <= j < p => EventAt(w, brief, j))
  }

  function Timeless(trace: seq<TraceEvent>): seq<TraceEvent> {
    seq(|trace|, i requires 0 <= i < |trace| => trace[i].(timestamp := 0))
  }

  /** The contents after `p` transitions, whatever the status says. */
  ghost predicate AtStage(w: World, run: Run, p: nat) {
    && p <= TRANSITIONS
    && run.runId == w.runId(run.brief)
    && WellFormed(run) && run.agents == AgentsAt(w, run.brief, p)
    && run.artifacts == ArtifactsAt(w, run.brief, p / 2)
    && run.evidence == EvidenceAt(w, run.brief, p / 2)
    && Timeless(run.trace) == TraceAt(w, run.brief, p)
    && run.greenlight == None && run.completedAt == None
  }

  ghost predicate InProgress(w: World, run: Run, p: nat) {
    AtStage(w, run, p) && p < TRANSITIONS && Busy(run.status) && (run.status == Queued ==> p == 0)
  }

  /** Whether the canonical risk report of a brief opens the Greenlight gate. */
  predicate GateOpens(w: World, brief: Brief) {
    GateOpen(brief, Verdict(w, brief))
  }

  function GateEvent(w: World, brief: Brief): TraceEvent {
    if GateOpens(w, brief) then
      TraceEvent(TRANSITIONS + 1, 0, Publisher, ApprovalGate, WaitingGreenlight, [], [])
    else TraceEvent(TRANSITIONS + 1, 0, Publisher, RevisionRequired, Attention, [], [])
  }

  predicate IsAttachment(a: Artifact) {
    a.kind == PublicationMedia || a.kind == ModelCompletion
  }

  /** What stays as the stations left it while artifacts may be attached. */
  ghost predicate StationsDone(w: World, run: Run) {
    && run.runId == w.runId(run.brief)
    && |run.agents| == STATIONS
    && (forall i | 0 <= i < EXECUTABLE :: run.agents[i].status == Ready && run.agents[i].progress == 100)
    && |run.artifacts| >= EXECUTABLE
    && run.artifacts[..EXECUTABLE] == ArtifactsAt(w, run.brief, EXECUTABLE)
  }

  /** A run that waits for its decision. */
  ghost predicate AtGate(w: World, run: Run) {
    && StationsDone(w, run)
    && run.status == AwaitingGreenlight && run.greenlight == None && run.completedAt == None
    && run.agents[EXECUTABLE].status == (if GateOpens(w, run.brief) then WaitingGreenlight else Attention)
    && (forall j | EXECUTABLE <= j < |run.artifacts| :: IsAttachment(run.artifacts[j]))
    && run.evidence == EvidenceAt(w, run.brief, EXECUTABLE)
    && Timeless(run.trace) == TraceAt(w, run.brief, TRANSITIONS) + [GateEvent(w, run.brief)]
  }

  /** A waiting run to which nothing was attached yet. */
  ghost predicate FreshAtGate(w: World, run: Run) {
    AtGate(w, run) && |run.artifacts| == EXECUTABLE
    && (forall i | 0 <= i < EXECUTABLE :: run.agents[i] == AgentAt(w, run.brief, TRANSITIONS, i))
    && run.agents[EXECUTABLE] == AgentState(if GateOpens(w, run.brief) then WaitingGreenlight else Attention, 0, [])
  }

  // ---------------------------------------------------------------- finding artifacts

  lemma {:induction false} KindsDiffer(i: nat, j: nat)
    requires i < EXECUTABLE && j < EXECUTABLE && KindOf(Station(i)) == KindOf(Station(j))
    ensures i == j
  {
  }

  /** Among station artifacts followed by attachments, each station's artifact is the last and first of its kind. */
  lemma {:induction false} StationArtifactFound(w: World, brief: Brief, artifacts: seq<Artifact>, k: nat, i: nat)
    requires i < k <= EXECUTABLE && k <= |artifacts|
    requires artifacts[..k] == ArtifactsAt(w, brief, k)
    requires forall j | k <= j < |artifacts| :: artifacts[j].kind != KindOf(Station(i))
    ensures Latest(artifacts, KindOf(Station(i))) == Some(StationArtifact(w, brief, i))
    decreases |artifacts|
  {
    hide StationPayload, KindOf, Station;
    var n := |artifacts| - 1;
    if n >= k {
      assert artifacts[..n][..k] == artifacts[..k];
      StationArtifactFound(w, brief, artifacts[..n], k, i);
    } else {
      assert artifacts == artifacts[..k];
      assert artifacts[n] == StationArtifact(w, brief, n);
      if i < n {
        assert artifacts[n].kind != KindOf(Station(i)) by {
          if KindOf(Station(n)) == KindOf(Station(i)) {
            KindsDiffer(n, i);
          }
        }
        assert artifacts[..n] == ArtifactsAt(w, brief, n);
        StationArtifactFound(w, brief, artifacts[..n], n, i);
      }
    }
  }
}
