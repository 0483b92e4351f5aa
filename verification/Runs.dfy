/**
 Runs and what they are made of (`models.py`). A run is kept in memory as an `ExecutionRun` object and stored
 as its document; the functions here say what each in-memory update does to the document.
 */
module Runs {
  import opened Prelude
  import opened Models
  import opened Campaign

  datatype Role = Ceo | Research | Strategist | Growth | Writer | Media | Risk | Publisher

  const STATIONS: nat := 8
  const EXECUTABLE: nat := 7

  /** `AGENT_SEQUENCE`. */
  function Station(i: nat): Role
    requires i < STATIONS
  {
    match i
    case 0 => Ceo
    case 1 => Research
    case 2 => Strategist
    case 3 => Growth
    case 4 => Writer
    case 5 => Media
    case 6 => Risk
    case _ => Publisher
  }

  function Position(role: Role): (i: nat)
    ensures i < STATIONS && Station(i) == role
  {
    match role
    case Ceo => 0
    case Research => 1
    case Strategist => 2
    case Growth => 3
    case Writer => 4
    case Media => 5
    case Risk => 6
    case Publisher => 7
  }

  datatype AgentStatus = Standby | Processing | Ready | WaitingGreenlight | Blocked | Attention

  datatype RunStatus = Queued | Running | AwaitingGreenlight | Completed | Rejected | Revoked | Failed

  datatype Decision = Approved | Refused

  datatype Kind =
    | MissionCharter | ResearchDossier | ChannelStrategy | GrowthForecast | CopyDeck | MediaPlan | RiskReport
    | CampaignPackage | PublicationMedia | ModelCompletion | ComplianceRecord

  datatype ClaimHash = ClaimHash(claim: string, source: string, locator: string)

  datatype Payload =
    | Dossier(ledger: seq<LedgerEntry>)
    | Deck(variants: seq<Variant>)
    | Report(critique: Critique)
    | Compliance(jurisdiction: string, mode: string, disclosureHash: string, legalReviewer: string,
                 approver: string, claimHashes: seq<ClaimHash>)
    | MediaRecord(channel: string, mediaId: string, url: string, sha256: string)
    | Completion(effectId: string, sourceId: string, output: string)
    | Plain(text: string)

  datatype Artifact = Artifact(
    id: string,
    kind: Kind,
    createdBy: Role,
    payload: Payload,
    evidenceIds: seq<string>)

  datatype Evidence = Evidence(id: string, summary: string)

  datatype AgentState = AgentState(status: AgentStatus, progress: int, artifactIds: seq<string>)

  datatype TraceAction =
    | AgentStarted | ArtifactReady | RevisionRequired | ApprovalGate
    | GreenlightApproved | GreenlightRejected | GreenlightRevoked

  datatype TraceEvent = TraceEvent(
    sequence: nat,
    timestamp: int,
    role: Role,
    action: TraceAction,
    status: AgentStatus,
    artifactIds: seq<string>,
    evidenceIds: seq<string>)

  datatype Greenlight = Greenlight(
    id: string,
    runId: string,
    decision: Decision,
    reviewer: string,
    note: string,
    decidedAt: int,
    approvedIds: seq<string>,
    approvedHashes: seq<string>,
    channels: seq<string>,
    budgetCents: int,
    fence: int,
    revokedAt: Option<int>,
    revokedBy: string,
    reason: string)

  predicate Active(g: Greenlight) {
    g.decision == Approved && g.revokedAt == None
  }

  datatype ExecutionState = Inline | InQueue | Leased | UnderWay | AtGreenlight | Done | Broken

  datatype Execution = Execution(
    state: ExecutionState,
    nextStation: Role,
    leaseOwner: string,
    leaseExpires: Option<int>,
    fence: nat,
    attempts: nat,
    checkpointedAt: Option<int>,
    failed: bool)

  datatype Run = Run(
    runId: string,
    brief: Brief,
    status: RunStatus,
    startedAt: int,
    agents: seq<AgentState>,
    artifacts: seq<Artifact>,
    evidence: seq<Evidence>,
    trace: seq<TraceEvent>,
    greenlight: Option<Greenlight>,
    completedAt: Option<int>,
    execution: Execution)

  predicate WellFormed(run: Run) {
    |run.agents| == STATIONS
  }

  // ---------------------------------------------------------------- updates of a document

  function Update(run: Run, role: Role, status: AgentStatus, progress: int): Run
    requires WellFormed(run)
  {
    run.(agents := run.agents[Position(role) := run.agents[Position(role)].(status := status, progress := progress)])
  }

  function AddArtifact(run: Run, artifact: Artifact): Run
    requires WellFormed(run)
  {
    var i := Position(artifact.createdBy);
    run.(artifacts := run.artifacts + [artifact],
         agents := run.agents[i := run.agents[i].(artifactIds := run.agents[i].artifactIds + [artifact.id])])
  }

  /** `run.artifact(kind)`: the last one of its kind. */
  function Latest(artifacts: seq<Artifact>, kind: Kind): Option<Artifact> {
    if artifacts == [] then None
    else if artifacts[|artifacts| - 1].kind == kind then Some(artifacts[|artifacts| - 1])
    else Latest(artifacts[..|artifacts| - 1], kind)
  }

  /** `next(item for item in artifacts if item.kind == kind)`. */
  function First(artifacts: seq<Artifact>, kind: Kind): Option<Artifact> {
    if artifacts == [] then None
    else if artifacts[0].kind == kind then Some(artifacts[0])
    else First(artifacts[1..], kind)
  }

  predicate Holds(evidence: seq<Evidence>, id: string) {
    exists i | 0 <= i < |evidence| :: evidence[i].id == id
  }

  /** Evidence is kept once per id. */
  function Merge(evidence: seq<Evidence>, items: seq<Evidence>): seq<Evidence> {
    if items == [] then evidence
    else
      var before := Merge(evidence, items[..|items| - 1]);
      if Holds(before, items[|items| - 1].id) then before else before + [items[|items| - 1]]
  }

  function EvidenceIds(items: seq<Evidence>): seq<string> {
    seq(|items|, i requires 0 <= i < |items| => items[i].id)
  }

  function Event(run: Run, role: Role, action: TraceAction, status: AgentStatus, at: int,
                 artifactIds: seq<string>, evidenceIds: seq<string>): Run
  {
    run.(trace := run.trace + [TraceEvent(|run.trace| + 1, at, role, action, status, artifactIds, evidenceIds)])
  }

  // ---------------------------------------------------------------- the object

  class ExecutionRun {
    const runId: string
    const brief: Brief
    const startedAt: int
    var status: RunStatus
    var agents: seq<AgentState>
    var artifacts: seq<Artifact>
    var evidence: seq<Evidence>
    var trace: seq<TraceEvent>
    var greenlight: Option<Greenlight>
    var completedAt: Option<int>
    var execution: Execution

    /** Takes a run over from its document. */
    constructor (document: Run)
      ensures Document() == document
    {
      runId, brief, startedAt := document.runId, document.brief, document.startedAt;
      status, agents, artifacts := document.status, document.agents, document.artifacts;
      evidence, trace, greenlight := document.evidence, document.trace, document.greenlight;
      completedAt, execution := document.completedAt, document.execution;
    }

    function Document(): Run
      reads this
    {
      Run(runId, brief, status, startedAt, agents, artifacts, evidence, trace, greenlight, completedAt, execution)
    }

    method UpdateAgent(role: Role, newStatus: AgentStatus, progress: int)
      requires WellFormed(Document())
      modifies this
      ensures Document() == Update(old(Document()), role, newStatus, progress)
    {
      var i := Position(role);
      agents := agents[i := agents[i].(status := newStatus, progress := progress)];
    }

    method Attach(artifact: Artifact)
      requires WellFormed(Document())
      modifies this
      ensures Document() == AddArtifact(old(Document()), artifact)
    {
      var i := Position(artifact.createdBy);
      artifacts := artifacts + [artifact];
      agents := agents[i := agents[i].(artifactIds := agents[i].artifactIds + [artifact.id])];
    }

    method MergeEvidence(items: seq<Evidence>)
      modifies this
      ensures Document() == old(Document()).(evidence := Merge(old(evidence), items))
    {
      hide Holds;
      for i := 0 to |items|
        invariant Document() == old(Document()).(evidence := Merge(old(evidence), items[..i]))
      {
        assert items[..i + 1][..i] == items[..i];
        if !Holds(evidence, items[i].id) {
          evidence := evidence + [items[i]];
        }
      }
      assert items[..|items|] == items;
    }

    method Append(role: Role, action: TraceAction, status: AgentStatus, at: int,
                  artifactIds: seq<string>, evidenceIds: seq<string>)
      modifies this
      ensures Document() == Event(old(Document()), role, action, status, at, artifactIds, evidenceIds)
    {
      trace := trace + [TraceEvent(|trace| + 1, at, role, action, status, artifactIds, evidenceIds)];
    }

    method FindLatest(kind: Kind) returns (found: Option<Artifact>)
      ensures found == Latest(artifacts, kind)
    {
      assert artifacts[..|artifacts|] == artifacts;
      var i := |artifacts|;
      while i > 0
        invariant 0 <= i <= |artifacts|
        invariant Latest(artifacts, kind) == Latest(artifacts[..i], kind)
      {
        i := i - 1;
        assert artifacts[..i + 1][..i] == artifacts[..i];
        if artifacts[i].kind == kind {
          return Some(artifacts[i]);
        }
      }
      found := None;
    }
  }
}
