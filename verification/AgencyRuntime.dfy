/** The orchestrator as it runs: the operations of `Orchestrator`, performed on the run objects held in memory. */
module AgencyRuntime {
  import opened Prelude
  import opened Models
  import opened Campaign
  import opened Runs
  import opened Orchestrator

  method CompleteAgent(w: World, run: ExecutionRun, role: Role, payload: Payload, evidence: seq<Evidence>, at: int)
    requires WellFormed(run.Document())
    modifies run
    ensures run.Document() == Complete(w, old(run.Document()), role, payload, evidence, at)
  {
    hide Merge, EvidenceIds;
    var id := w.artifactId(run.runId, role, KindOf(role), payload);
    run.MergeEvidence(evidence);
    run.Attach(Artifact(id, KindOf(role), role, payload, EvidenceIds(evidence)));
    run.UpdateAgent(role, Ready, 100);
    run.Append(role, ArtifactReady, Ready, at, [id], EvidenceIds(evidence));
  }

  method AwaitGreenlight(run: ExecutionRun, at: int) returns (error: Option<RunError>)
    requires WellFormed(run.Document())
    modifies run
    ensures Outcome(run.Document(), error) == Await(old(run.Document()), at)
  {
    hide Latest;
    if run.status == AwaitingGreenlight {
      return None;
    }
    var report := run.FindLatest(RiskReport);
    if report == None {
      return Some(MissingArtifact);
    }
    var allows := ReportAllows(run.brief, report.value.payload);
    var status := if allows then WaitingGreenlight else Attention;
    run.UpdateAgent(Publisher, status, 0);
    run.status := AwaitingGreenlight;
    run.execution := run.execution.(state := AtGreenlight, nextStation := Publisher);
    run.Append(Publisher, if allows then ApprovalGate else RevisionRequired, status, at, [], []);
    error := None;
  }

  /** What the handler of a station computes, reading earlier artifacts of the run. */
  method RunStation(w: World, run: ExecutionRun, role: Role) returns (payload: Option<Payload>)
    requires WellFormed(run.Document())
    ensures payload == Work(w, run.brief, run.runId, run.artifacts, role)
  {
    hide Latest, ClaimLedger, Campaign.CopyDeck, CritiqueOf;
    match role {
      case Research =>
        payload := Some(Dossier(ClaimLedger(w.language, run.brief, run.runId)));
      case Writer =>
        var research := run.FindLatest(ResearchDossier);
        if research == None {
          return None;
        }
        var variants := CopyPayload(w.language, run.brief, LedgerIn(research.value.payload));
        payload := Some(Deck(variants));
      case Risk =>
        var research := run.FindLatest(ResearchDossier);
        var writer := run.FindLatest(Kind.CopyDeck);
        if research == None || writer == None {
          return None;
        }
        var critique := CritiquePayload(w.language, run.brief, LedgerIn(research.value.payload),
                                        VariantsIn(writer.value.payload));
        payload := Some(Report(critique));
      case _ =>
        payload := Some(w.plainPayload(KindOf(role), run.brief));
    }
  }

  method ExecuteRole(w: World, run: ExecutionRun, i: nat, fault: Fault, clock: Clock) returns (error: Option<RunError>)
    requires WellFormed(run.Document()) && i < EXECUTABLE
    modifies run
    ensures Outcome(run.Document(), error) == Execute(w, old(run.Document()), i, fault, clock)
  {
    hide Work, Complete, Await;
    var role := Station(i);
    if fault == BeforeWork {
      return Some(HandlerFailed);
    }
    var payload := RunStation(w, run, role);
    if payload == None {
      return Some(MissingArtifact);
    }
    ghost var before := run.Document();
    CompleteAgent(w, run, role, payload.value, w.evidence(role, run.brief), clock(0));
    CompleteAgents(w, before, role, payload.value, w.evidence(role, run.brief), clock(0));
    if fault == AfterWork {
      return Some(HandlerFailed);
    }
    run.execution := run.execution.(nextStation := Station(i + 1));
    if role == Risk {
      error := AwaitGreenlight(run, clock(1));
    } else {
      error := None;
    }
  }

  method AdvanceRun(w: World, run: ExecutionRun, fault: Fault, clock: Clock) returns (error: Option<RunError>)
    requires WellFormed(run.Document())
    modifies run
    ensures Outcome(run.Document(), error) == Advance(w, old(run.Document()), fault, clock)
  {
    hide Execute, Await;
    if run.status == Queued {
      run.status := Running;
      run.execution := run.execution.(state := UnderWay);
    }
    if run.status != Running {
      return None;
    }
    var i := 0;
    while i < EXECUTABLE && run.agents[i].status == Ready
      invariant 0 <= i <= EXECUTABLE && NextOpen(run.agents, 0) == NextOpen(run.agents, i)
    {
      i := i + 1;
    }
    if i == EXECUTABLE {
      error := AwaitGreenlight(run, clock(0));
      return;
    }
    run.execution := run.execution.(nextStation := Station(i));
    match run.agents[i].status {
      case Standby =>
        run.UpdateAgent(Station(i), Processing, 10);
        run.Append(Station(i), AgentStarted, Processing, clock(0), [], []);
        error := None;
      case Processing =>
        error := ExecuteRole(w, run, i, fault, clock);
      case _ =>
        error := Some(InvalidStation);
    }
  }

  /** A refused decision leaves the run alone; when packaging raises, the object is in no state worth keeping. */
  method DecideRun(w: World, run: ExecutionRun, decision: Decision, reviewer: string, note: string, fault: Fault,
                   clock: Clock)
    returns (error: Option<RunError>)
    requires WellFormed(run.Document())
    modifies run
    ensures match Decide(w, old(run.Document()), decision, reviewer, note, fault, clock)
            case Ok(after) => error == None && run.Document() == after
            case Err(e) => error == Some(e) && (e != HandlerFailed ==> run.Document() == old(run.Document()))
  {
    hide Complete, Latest, ComplianceArtifact, NewGreenlight, Strip;
    var report := run.FindLatest(RiskReport);
    if run.status != AwaitingGreenlight {
      return Some(NotAwaiting);
    }
    if report == None {
      return Some(MissingArtifact);
    }
    error := Refusal(w, run.Document(), decision, reviewer);
    if error != None {
      return;
    }
    var who, why := Strip(w.language.isSpace, reviewer), Strip(w.language.isSpace, note);
    if decision == Approved && Political(run.brief) {
      run.Attach(ComplianceArtifact(w, run.Document(), who));
    }
    var g := NewGreenlight(w, run.Document(), decision, who, why, clock(0));
    assert g.decidedAt == clock(0) by { DecisionTime(w, run.Document(), decision, who, why, clock(0)); }
    run.greenlight := Some(g);
    if decision == Refused {
      run.status := Rejected;
      run.completedAt := Some(clock(0));
      run.execution := run.execution.(state := Done);
      run.UpdateAgent(Publisher, Blocked, 0);
      run.Append(Publisher, GreenlightRejected, Blocked, clock(1), [], []);
    } else {
      error := Package(w, run, fault, clock);
    }
  }

  lemma {:induction false} DecisionTime(w: World, run: Run, decision: Decision, reviewer: string, note: string, at: int)
    ensures NewGreenlight(w, run, decision, reviewer, note, at).decidedAt == at
  {
  }

  /** The publisher's work on a run that has just been approved. */
  method Package(w: World, run: ExecutionRun, fault: Fault, clock: Clock) returns (error: Option<RunError>)
    requires WellFormed(run.Document()) && run.greenlight.Some?
    modifies run
    ensures fault != NoFault ==> error == Some(HandlerFailed)
    ensures fault == NoFault ==>
      error == None && run.Document() == Approve(w, old(run.Document()), old(run.greenlight.value), clock)
  {
    hide Complete;
    ghost var before := run.Document();
    run.UpdateAgent(Publisher, Processing, 50);
    run.Append(Publisher, GreenlightApproved, Processing, clock(1), [], []);
    if fault != NoFault {
      return Some(HandlerFailed);
    }
    CompleteAgent(w, run, Publisher, w.package(run.runId, run.artifacts), w.packageEvidence(run.runId, run.artifacts),
                  clock(2));
    run.status := Completed;
    run.completedAt := Some(clock(3));
    run.execution := run.execution.(state := Done, nextStation := Publisher);
    error := None;
  }

  method RevokeRun(w: World, run: ExecutionRun, reviewer: string, reason: string, clock: Clock)
    returns (error: Option<RunError>)
    requires WellFormed(run.Document())
    modifies run
    ensures match Orchestrator.Revoke(w, old(run.Document()), reviewer, reason, clock)
            case Ok(after) => error == None && run.Document() == after
            case Err(e) => error == Some(e) && run.Document() == old(run.Document())
  {
    hide Strip;
    if run.status != Completed || run.greenlight == None || !Active(run.greenlight.value) {
      return Some(NotActive);
    }
    var who, why := Strip(w.language.isSpace, reviewer), Strip(w.language.isSpace, reason);
    if who == "" {
      return Some(EmptyReviewer);
    }
    if why == "" {
      return Some(EmptyReason);
    }
    var g := run.greenlight.value;
    run.greenlight := Some(g.(fence := g.fence + 1, revokedAt := Some(clock(0)), revokedBy := who, reason := why));
    run.status := RunStatus.Revoked;
    run.execution := run.execution.(state := Done);
    run.UpdateAgent(Publisher, Blocked, 100);
    run.Append(Publisher, TraceAction.GreenlightRevoked, Blocked, clock(1), [], []);
    error := None;
  }

  /** The loop of `start`. */
  method Finish(w: World, run: ExecutionRun, faults: nat -> Fault, clocks: nat -> Clock) returns (error: Option<RunError>)
    requires WellFormed(run.Document()) && Load(run.agents) == 2 * EXECUTABLE && run.status == Running
    modifies run
    ensures Outcome(run.Document(), error)
            == Advances(w, old(run.Document()), faults, clocks, MAX_ADVANCES)
  {
    hide Advance, Load;
    error := None;
    ghost var first := run.Document();
    ghost var last := first;
    var step := 0;
    while Busy(run.status) && error == None
      invariant last == run.Document() && WellFormed(last)
      invariant Outcome(last, error) == Advances(w, first, faults, clocks, step)
      invariant error == None && Busy(last.status) ==> Load(last.agents) + step == 2 * EXECUTABLE
      invariant step <= MAX_ADVANCES
      decreases MAX_ADVANCES - step
    {
      AdvanceProgresses(w, last, faults(step), clocks(step));
      error := AdvanceRun(w, run, faults(step), clocks(step));
      last := run.Document();
      step := step + 1;
    }
    AdvancesStop(w, first, faults, clocks, step, MAX_ADVANCES);
  }

  class AgencyOrchestrator {
    const w: World
    var runs: map<string, ExecutionRun>

    constructor (world: World)
      ensures w == world && runs == map[]
    {
      w := world;
      runs := map[];
    }

    method CreateRun(brief: Brief, asynchronous: bool, now: int) returns (r: Result<ExecutionRun, RunError>)
      modifies this
      ensures w.runId(brief) in old(runs) ==> r == Err(RunExists) && runs == old(runs)
      ensures w.runId(brief) !in old(runs) ==>
        && r.Ok? && fresh(r.value) && r.value.Document() == Create(w, brief, asynchronous, now)
        && runs == old(runs)[w.runId(brief) := r.value]
    {
      var id := w.runId(brief);
      if id in runs {
        return Err(RunExists);
      }
      var run := new ExecutionRun(Create(w, brief, asynchronous, now));
      runs := runs[id := run];
      r := Ok(run);
    }

    /** A run whose station raises stays in memory, where it blocks another creation of the same run. */
    method StartRun(brief: Brief, now: int, faults: nat -> Fault, clocks: nat -> Clock)
      returns (r: Result<ExecutionRun, RunError>)
      modifies this
      ensures w.runId(brief) in old(runs) ==> r == Err(RunExists) && runs == old(runs)
      ensures w.runId(brief) !in old(runs) ==>
        && w.runId(brief) in runs && fresh(runs[w.runId(brief)])
        && runs == old(runs)[w.runId(brief) := runs[w.runId(brief)]]
        && var end := Advances(w, Create(w, brief, false, now), faults, clocks, MAX_ADVANCES);
           && runs[w.runId(brief)].Document() == end.run
           && (r == match end.error case None => Ok(runs[w.runId(brief)]) case Some(e) => Err(e))
    {
      r := CreateRun(brief, false, now);
      if r.Ok? {
        var error := Finish(w, r.value, faults, clocks);
        if error != None {
          r := Err(error.value);
        }
      }
    }
  }
}
