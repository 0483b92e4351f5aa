/**
 The sequential eight-station runtime (`orchestrator.py`): seven stations work one after the other, then the run
 waits for a Greenlight decision, and only an approved run is packaged. The functions say what each operation
 does to a run; the class performs the operations in place on the runs it holds in memory.
 */
module Orchestrator {
  import opened Prelude
  import opened Models
  import opened Campaign
  import opened Runs

  /** Readings of the clock within one operation, in order. */
  type Clock = nat -> int

  /** A station's work or the memory write after it may raise. */
  datatype Fault = NoFault | BeforeWork | AfterWork

  /** Digests, tools and the texts that no property depends on. */
  datatype World = World(
    language: Language,
    runId: Brief -> string,
    artifactId: (string, Role, Kind, Payload) -> string,
    complianceId: (string, Payload) -> string,
    envelopeHash: Artifact -> string,
    greenlightId: (string, Decision, string, string, int, seq<string>, seq<string>) -> string,
    sha256: string -> string,
    claimHash: (string, string, string, string, string) -> string,
    evidence: (Role, Brief) -> seq<Evidence>,
    plainPayload: (Kind, Brief) -> Payload,
    package: (string, seq<Artifact>) -> Payload,
    packageEvidence: (string, seq<Artifact>) -> seq<Evidence>)

  datatype RunError =
    | RunExists | RunNotFound | InvalidStation | MissingArtifact | HandlerFailed
    | NotAwaiting | RiskNotPassed | NotEligible | EmptyReviewer | EmptyReason | SameReviewer | NotActive

  /** An operation may change the run and still raise. */
  datatype Outcome = Outcome(run: Run, error: Option<RunError>)

  predicate Busy(status: RunStatus) {
    status == Queued || status == Running
  }

  function Create(w: World, brief: Brief, asynchronous: bool, now: int): Run {
    Run(w.runId(brief), brief, if asynchronous then Queued else Running, now,
        seq(STATIONS, _ => AgentState(Standby, 0, [])), [], [], [], None, None,
        Execution(if asynchronous then InQueue else Inline, Ceo, "", None, 0, 0, Some(now), false))
  }

  // ---------------------------------------------------------------- the stations

  function KindOf(role: Role): Kind {
    match role
    case Ceo => MissionCharter
    case Research => ResearchDossier
    case Strategist => ChannelStrategy
    case Growth => GrowthForecast
    case Writer => Kind.CopyDeck
    case Media => MediaPlan
    case Risk => RiskReport
    case Publisher => CampaignPackage
  }

  /** The ledger in a dossier, as `payload.get("claim_ledger", [])` reads it. */
  function LedgerIn(p: Payload): seq<LedgerEntry> {
    if p.Dossier? then p.ledger else []
  }

  function VariantsIn(p: Payload): seq<Variant> {
    if p.Deck? then p.variants else []
  }

  /** The payload a station produces; none when an artifact it reads is missing. */
  function Work(w: World, brief: Brief, runId: string, artifacts: seq<Artifact>, role: Role): Option<Payload> {
    match role
    case Research => Some(Dossier(ClaimLedger(w.language, brief, runId)))
    case Writer =>
      var research := Latest(artifacts, ResearchDossier);
      if research == None then None
      else Some(Deck(Campaign.CopyDeck(w.language, brief, LedgerIn(research.value.payload))))
    case Risk =>
      var research := Latest(artifacts, ResearchDossier);
      var writer := Latest(artifacts, Kind.CopyDeck);
      if research == None || writer == None then None
      else Some(Report(CritiqueOf(w.language, brief, LedgerIn(research.value.payload),
                                  VariantsIn(writer.value.payload))))
    case _ => Some(w.plainPayload(KindOf(role), brief))
  }

  function Complete(w: World, run: Run, role: Role, payload: Payload, evidence: seq<Evidence>, at: int): Run
    requires WellFormed(run)
  {
    var id := w.artifactId(run.runId, role, KindOf(role), payload);
    var artifact := Artifact(id, KindOf(role), role, payload, EvidenceIds(evidence));
    Event(Update(AddArtifact(run.(evidence := Merge(run.evidence, evidence)), artifact), role, Ready, 100),
          role, ArtifactReady, Ready, at, [id], EvidenceIds(evidence))
  }

  predicate ReportPassed(p: Payload) {
    p.Report? && p.critique.passed
  }

  predicate ReportEligible(p: Payload) {
    p.Report? && p.critique.eligible
  }

  predicate ReportAllows(brief: Brief, p: Payload) {
    ReportPassed(p) && (Political(brief) ==> ReportEligible(p))
  }

  /** `_await_greenlight`. */
  function Await(run: Run, at: int): (o: Outcome)
    requires WellFormed(run)
    ensures WellFormed(o.run)
  {
    if run.status == AwaitingGreenlight then Outcome(run, None)
    else
      var report := Latest(run.artifacts, RiskReport);
      if report == None then Outcome(run, Some(MissingArtifact))
      else
        var allows := ReportAllows(run.brief, report.value.payload);
        var status := if allows then WaitingGreenlight else Attention;
        var waiting := Update(run, Publisher, status, 0)
                       .(status := AwaitingGreenlight,
                         execution := run.execution.(state := AtGreenlight, nextStation := Publisher));
        Outcome(Event(waiting, Publisher, if allows then ApprovalGate else RevisionRequired, status, at, [], []), None)
  }

  /** The first station that is not ready. */
  function NextOpen(agents: seq<AgentState>, i: nat): (k: nat)
    requires |agents| == STATIONS && i <= EXECUTABLE
    ensures i <= k <= EXECUTABLE
    ensures forall j | i <= j < k :: agents[j].status == Ready
    ensures k < EXECUTABLE ==> agents[k].status != Ready
    decreases EXECUTABLE - i
  {
    if i == EXECUTABLE || agents[i].status != Ready then i else NextOpen(agents, i + 1)
  }

  function Execute(w: World, run: Run, i: nat, fault: Fault, clock: Clock): (o: Outcome)
    requires WellFormed(run) && i < EXECUTABLE
    ensures WellFormed(o.run)
  {
    var role := Station(i);
    if fault == BeforeWork then Outcome(run, Some(HandlerFailed))
    else
      match Work(w, run.brief, run.runId, run.artifacts, role)
      case None => Outcome(run, Some(MissingArtifact))
      case Some(payload) =>
        var done := Complete(w, run, role, payload, w.evidence(role, run.brief), clock(0));
        if fault == AfterWork then Outcome(done, Some(HandlerFailed))
        else
          var next := done.(execution := done.execution.(nextStation := Station(i + 1)));
          if role == Risk then Await(next, clock(1)) else Outcome(next, None)
  }

  function Begin(run: Run, i: nat, at: int): Run
    requires WellFormed(run) && i < EXECUTABLE
  {
    Event(Update(run, Station(i), Processing, 10), Station(i), AgentStarted, Processing, at, [], [])
  }

  function Dequeued(run: Run): Run {
    if run.status == Queued then run.(status := Running, execution := run.execution.(state := UnderWay)) else run
  }

  function Advance(w: World, run: Run, fault: Fault, clock: Clock): (o: Outcome)
    requires WellFormed(run)
    ensures WellFormed(o.run)
  {
    var r := Dequeued(run);
    if r.status != Running then Outcome(r, None)
    else
      var i := NextOpen(r.agents, 0);
      if i == EXECUTABLE then Await(r, clock(0))
      else
        var at := r.(execution := r.execution.(nextStation := Station(i)));
        match r.agents[i].status
        case Standby => Outcome(Begin(at, i, clock(0)), None)
        case Processing => Execute(w, at, i, fault, clock)
        case _ => Outcome(at, Some(InvalidStation))
  }

  // ---------------------------------------------------------------- termination of `start`

  function Weight(status: AgentStatus): nat {
    match status
    case Standby => 2
    case Processing => 1
    case _ => 0
  }

  /** Twice the stations that have not begun plus those at work. */
  function Load(agents: seq<AgentState>): nat
    requires |agents| == STATIONS
  {
    Weight(agents[0].status) + Weight(agents[1].status) + Weight(agents[2].status) + Weight(agents[3].status)
    + Weight(agents[4].status) + Weight(agents[5].status) + Weight(agents[6].status)
  }

  /** A load only depends on how the seven stations stand. */
  lemma {:induction false} LoadAfter(before: seq<AgentState>, after: seq<AgentState>, i: nat)
    requires |before| == |after| == STATIONS && i < EXECUTABLE
    requires forall j | 0 <= j < EXECUTABLE && j != i :: after[j].status == before[j].status
    ensures Load(after) == Load(before) - Weight(before[i].status) + Weight(after[i].status)
  {
  }

  lemma {:induction false} CompleteAgents(w: World, run: Run, role: Role, payload: Payload, evidence: seq<Evidence>, at: int)
    requires WellFormed(run)
    ensures var done := Complete(w, run, role, payload, evidence, at);
            && WellFormed(done) && done.status == run.status
            && forall j | 0 <= j < STATIONS ::
                 done.agents[j].status == if j == Position(role) then Ready else run.agents[j].status
  {
    hide Merge, EvidenceIds;
  }

  lemma {:induction false} AwaitAgents(run: Run, at: int)
    requires WellFormed(run)
    ensures var after := Await(run, at);
            && WellFormed(after.run)
            && (after.error == None ==> !Busy(after.run.status))
            && forall j | 0 <= j < EXECUTABLE :: after.run.agents[j].status == run.agents[j].status
  {
    hide Latest, ReportAllows;
  }

  lemma {:induction false} ExecuteProgresses(w: World, run: Run, i: nat, fault: Fault, clock: Clock)
    requires WellFormed(run) && i < EXECUTABLE && run.agents[i].status == Processing
    ensures var after := Execute(w, run, i, fault, clock);
            && WellFormed(after.run)
            && (after.error == None ==>
                  !Busy(after.run.status) || Load(after.run.agents) == Load(run.agents) - 1)
  {
    hide Complete, Await, Work, Load;
    var work := Work(w, run.brief, run.runId, run.artifacts, Station(i));
    if work.Some? {
      var evidence := w.evidence(Station(i), run.brief);
      var done := Complete(w, run, Station(i), work.value, evidence, clock(0));
      CompleteAgents(w, run, Station(i), work.value, evidence, clock(0));
      assert Position(Station(i)) == i;
      LoadAfter(run.agents, done.agents, i);
      AwaitAgents(done.(execution := done.execution.(nextStation := Station(i + 1))), clock(1));
    }
  }

  lemma {:induction false} AdvanceProgresses(w: World, run: Run, fault: Fault, clock: Clock)
    requires WellFormed(run)
    ensures var after := Advance(w, run, fault, clock);
            && WellFormed(after.run)
            && (Busy(run.status) && after.error == None ==>
                  !Busy(after.run.status) || Load(after.run.agents) == Load(run.agents) - 1)
  {
    hide Await, Execute, NextOpen, Load;
    var r := Dequeued(run);
    var i := NextOpen(r.agents, 0);
    if i == EXECUTABLE {
      AwaitAgents(r, clock(0));
    } else {
      var at := r.(execution := r.execution.(nextStation := Station(i)));
      if r.agents[i].status == Processing {
        ExecuteProgresses(w, at, i, fault, clock);
      } else if r.agents[i].status == Standby {
        assert Position(Station(i)) == i;
        LoadAfter(r.agents, Begin(at, i, clock(0)).agents, i);
      }
    }
  }

  /** At most `n` advances from a run, stopping when it is no longer busy or when a station raises. */
  function Advances(w: World, run: Run, faults: nat -> Fault, clocks: nat -> Clock, n: nat): (o: Outcome)
    requires WellFormed(run)
    ensures WellFormed(o.run)
  {
    if n == 0 then Outcome(run, None)
    else
      var before := Advances(w, run, faults, clocks, n - 1);
      if before.error != None || !Busy(before.run.status) then before
      else Advance(w, before.run, faults(n - 1), clocks(n - 1))
  }

  /** Enough advances for any run: one for each unit of load, and one more to reach the gate. */
  const MAX_ADVANCES: nat := 2 * EXECUTABLE + 1

  lemma {:induction false} AdvancesStop(w: World, run: Run, faults: nat -> Fault, clocks: nat -> Clock, m: nat, n: nat)
    requires WellFormed(run) && m <= n
    requires var o := Advances(w, run, faults, clocks, m); o.error != None || !Busy(o.run.status)
    ensures Advances(w, run, faults, clocks, n) == Advances(w, run, faults, clocks, m)
    decreases n
  {
    hide Advance;
    if m < n {
      AdvancesStop(w, run, faults, clocks, m, n - 1);
    }
  }

  // ---------------------------------------------------------------- decisions

  function ClaimHashes(w: World, claims: seq<Claim>): seq<ClaimHash> {
    var s := c => Strip(w.language.isSpace, c);
    seq(|claims|, i requires 0 <= i < |claims| =>
      ClaimHash(w.claimHash(s(claims[i].statement), s(claims[i].source), s(claims[i].locator),
                            claims[i].verificationStatus, s(claims[i].reviewedBy)),
                w.sha256(s(claims[i].source)), w.sha256(s(claims[i].locator))))
  }

  function ComplianceArtifact(w: World, run: Run, approver: string): Artifact {
    var s := c => Strip(w.language.isSpace, c);
    var payload := Compliance(s(run.brief.jurisdiction), run.brief.publicationMode, w.sha256(s(run.brief.disclosure)),
                              s(run.brief.legalReviewedBy), approver, ClaimHashes(w, run.brief.claims));
    Artifact(w.complianceId(run.runId, payload), ComplianceRecord, Risk, payload, [])
  }

  function ArtifactIds(artifacts: seq<Artifact>): seq<string> {
    seq(|artifacts|, i requires 0 <= i < |artifacts| => artifacts[i].id)
  }

  function ArtifactHashes(w: World, artifacts: seq<Artifact>): seq<string> {
    seq(|artifacts|, i requires 0 <= i < |artifacts| => w.envelopeHash(artifacts[i]))
  }

  /** The approval or rejection of everything the run holds at this moment. */
  function NewGreenlight(w: World, run: Run, decision: Decision, reviewer: string, note: string, at: int): Greenlight {
    Greenlight(w.greenlightId(run.runId, decision, reviewer, note, at, ArtifactIds(run.artifacts),
                              ArtifactHashes(w, run.artifacts)), run.runId, decision, reviewer,
               note, at, ArtifactIds(run.artifacts), ArtifactHashes(w, run.artifacts), run.brief.platforms,
               run.brief.budgetCents, 1, None, "", "")
  }

  function Refusal(w: World, run: Run, decision: Decision, reviewer: string): Option<RunError> {
    if run.status != AwaitingGreenlight then Some(NotAwaiting)
    else
      match Latest(run.artifacts, RiskReport)
      case None => Some(MissingArtifact)
      case Some(report) =>
        if !ReportPassed(report.payload) then Some(RiskNotPassed)
        else if Political(run.brief) && !ReportEligible(report.payload) then Some(NotEligible)
        else if Strip(w.language.isSpace, reviewer) == "" then Some(EmptyReviewer)
        else if decision == Approved && Political(run.brief)
                && Strip(w.language.isSpace, run.brief.legalReviewedBy) == Strip(w.language.isSpace, reviewer)
        then Some(SameReviewer)
        else None
  }

  /** The run a decision is taken on: an approved political run gets its compliance record first. */
  function Presented(w: World, run: Run, decision: Decision, reviewer: string): Run
    requires WellFormed(run)
  {
    if decision == Approved && Political(run.brief) then AddArtifact(run, ComplianceArtifact(w, run, reviewer)) else run
  }

  function Reject(run: Run, g: Greenlight, clock: Clock): Run
    requires WellFormed(run)
  {
    Event(Update(run.(greenlight := Some(g), status := Rejected, completedAt := Some(g.decidedAt),
                      execution := run.execution.(state := Done)), Publisher, Blocked, 0),
          Publisher, GreenlightRejected, Blocked, clock(1), [], [])
  }

  function Approve(w: World, run: Run, g: Greenlight, clock: Clock): Run
    requires WellFormed(run)
  {
    var recorded := Event(Update(run.(greenlight := Some(g)), Publisher, Processing, 50),
                          Publisher, GreenlightApproved, Processing, clock(1), [], []);
    var packaged := Complete(w, recorded, Publisher, w.package(run.runId, run.artifacts),
                             w.packageEvidence(run.runId, run.artifacts), clock(2));
    packaged.(status := Completed, completedAt := Some(clock(3)),
              execution := packaged.execution.(state := Done, nextStation := Publisher))
  }

  function Decide(w: World, run: Run, decision: Decision, reviewer: string, note: string, fault: Fault, clock: Clock)
    : Result<Run, RunError>
    requires WellFormed(run)
  {
    var refusal := Refusal(w, run, decision, reviewer);
    if refusal.Some? then Err(refusal.value)
    else
      var who, why := Strip(w.language.isSpace, reviewer), Strip(w.language.isSpace, note);
      var presented := Presented(w, run, decision, who);
      var g := NewGreenlight(w, presented, decision, who, why, clock(0));
      if decision == Refused then Ok(Reject(presented, g, clock))
      else if fault != NoFault then Err(HandlerFailed)
      else Ok(Approve(w, presented, g, clock))
  }

  function Revoke(w: World, run: Run, reviewer: string, reason: string, clock: Clock): Result<Run, RunError>
    requires WellFormed(run)
  {
    var who, why := Strip(w.language.isSpace, reviewer), Strip(w.language.isSpace, reason);
    if run.status != Completed || run.greenlight == None || !Active(run.greenlight.value) then Err(NotActive)
    else if who == "" then Err(EmptyReviewer)
    else if why == "" then Err(EmptyReason)
    else
      var g := run.greenlight.value;
      var fenced := g.(fence := g.fence + 1, revokedAt := Some(clock(0)), revokedBy := who, reason := why);
      Ok(Event(Update(run.(greenlight := Some(fenced), status := RunStatus.Revoked,
                           execution := run.execution.(state := Done)), Publisher, Blocked, 100),
               Publisher, GreenlightRevoked, Blocked, clock(1), [], []))
  }
}
