/**
 Model effects and runs together. A caller may only prepare an effect while its run waits for a decision, an approval
 reads the run's effects and commits later, and what is attached to a run is the output of a succeeded effect. The
 paid calls themselves know nothing of the run, so they go on whatever becomes of it.
 */
module EffectsAndRuns {
  import opened Prelude
  import opened Models
  import opened Campaign
  import opened Runs
  import opened Orchestrator
  import opened RunGrowth
  import opened RunShape
  import opened RunInvariant
  import opened RunStates
  import opened RunStore
  import opened Service
  import opened ServiceInvariant
  import opened ServiceHistory
  import Effects = ModelEffectStore
  import Protocol = ModelEffect

  /** The rows of a run's effects as somebody read them. */
  datatype Listing = Listing(tenant: string, runId: string, table: Effects.Table)

  datatype Combined = Combined(effects: Protocol.System, service: State, listings: map<nat, Listing>)

  datatype Move =
    | EffectMove(e: Protocol.Action)
    | List(reader: nat, tenant: string, runId: string)
    | Approve(reader: nat, c: Caller, note: string, fault: Fault, clock: Clock)
    | Attach(action: string, effectId: string, role: Role)
    | ServiceMove(a: Action)

  ghost predicate OfRun(table: Effects.Table, id: string, tenant: string, runId: string) {
    id in table && table[id].tenantId == tenant && table[id].runId == runId
  }

  ghost function Statuses(table: Effects.Table, ids: set<string>): seq<Effect>
    requires ids <= table.Keys
    decreases |ids|
  {
    if ids == {} then []
    else var id :| id in ids; [Effect(id, table[id].status)] + Statuses(table, ids - {id})
  }

  ghost function RunIds(l: Listing): set<string> {
    set id | id in l.table && OfRun(l.table, id, l.tenant, l.runId)
  }

  /** `list_for_run`, in some order. */
  ghost function Listed(l: Listing): seq<Effect> {
    Statuses(l.table, RunIds(l))
  }

  predicate AwaitsDecision(st: State, key: Key) {
    key in st.store.runs && st.store.runs[key].status == AwaitingGreenlight
  }

  /** The approval command that a reader of the effects sends. */
  ghost function Approval(x: Combined, m: Move): Action
    requires m.Approve? && m.reader in x.listings
  {
    var l := x.listings[m.reader];
    Judge(m.c.(tenant := l.tenant), l.runId, Approved, m.note, Listed(l), m.fault, m.clock)
  }

  /** The attachment of the output of a succeeded effect to its run. */
  ghost function Attachment(table: Effects.Table, m: Move): Action
    requires m.Attach? && m.effectId in table
  {
    var row := table[m.effectId];
    SupplyResult(row.tenantId, row.runId, m.action, EffectResult(m.effectId, m.role, row.sourceArtifactId, row.outputText))
  }

  /** What a move means to the service, if anything. */
  ghost function ForService(x: Combined, m: Move): seq<Action> {
    match m
    case EffectMove(_) => []
    case List(_, _, _) => []
    case Approve(reader, _, _, _, _) => if reader in x.listings then [Approval(x, m)] else []
    case Attach(_, effectId, _) =>
      if effectId in x.effects.table && x.effects.table[effectId].status == Effects.Succeeded
      then [Attachment(x.effects.table, m)] else []
    case ServiceMove(a) => if (a.Judge? && a.decision == Approved) || a.SupplyResult? then [] else [a]
  }

  /** What it means to the effects: a command is only prepared for a run that waits for its decision. */
  ghost function ForEffects(x: Combined, m: Move): seq<Protocol.Action> {
    match m
    case EffectMove(e) =>
      if e.Begin? && !AwaitsDecision(x.service, Key(e.command.tenantId, e.command.runId)) then [] else [e]
    case _ => []
  }

  ghost function Next(w: World, ids: Ids, d: Protocol.Derivation, x: Combined, m: Move): Combined {
    hide *;
    var s, e := ForService(x, m), ForEffects(x, m);
    Combined(if e == [] then x.effects else Protocol.Step(d, x.effects, e[0]),
             if s == [] then x.service else Step(w, ids, x.service, s[0]).state,
             if m.List? then x.listings[m.reader := Listing(m.tenant, m.runId, x.effects.table)] else x.listings)
  }

  ghost function Moved(w: World, ids: Ids, d: Protocol.Derivation, x: Combined, moves: seq<Move>): Combined {
    if moves == [] then x
    else Next(w, ids, d, Moved(w, ids, d, x, moves[..|moves| - 1]), moves[|moves| - 1])
  }

  function Beginning(): Combined {
    Combined(Protocol.Initial, Service.Initial(), map[])
  }

  // ---------------------------------------------------------------- both halves are histories of their own

  ghost function ServicePart(w: World, ids: Ids, d: Protocol.Derivation, x: Combined, moves: seq<Move>): seq<Action> {
    if moves == [] then []
    else ServicePart(w, ids, d, x, moves[..|moves| - 1])
         + ForService(Moved(w, ids, d, x, moves[..|moves| - 1]), moves[|moves| - 1])
  }

  ghost function EffectPart(w: World, ids: Ids, d: Protocol.Derivation, x: Combined, moves: seq<Move>)
    : seq<Protocol.Action>
  {
    if moves == [] then []
    else EffectPart(w, ids, d, x, moves[..|moves| - 1])
         + ForEffects(Moved(w, ids, d, x, moves[..|moves| - 1]), moves[|moves| - 1])
  }

  lemma {:induction false} AfterOne(w: World, ids: Ids, st: State, actions: seq<Action>, a: Action)
    ensures After(w, ids, st, actions + [a]) == Step(w, ids, After(w, ids, st, actions), a).state
  {
    hide Step;
    assert (actions + [a])[..|actions|] == actions;
  }

  lemma {:induction false} PartsMove(w: World, ids: Ids, d: Protocol.Derivation, x: Combined, moves: seq<Move>)
    ensures var now := Moved(w, ids, d, x, moves);
            && now.service == After(w, ids, x.service, ServicePart(w, ids, d, x, moves))
            && now.effects == Protocol.Run(d, x.effects, EffectPart(w, ids, d, x, moves))
    decreases |moves|
  {
    hide ForService, ForEffects, Step, Protocol.Step;
    if moves != [] {
      var n := |moves| - 1;
      var before := Moved(w, ids, d, x, moves[..n]);
      PartsMove(w, ids, d, x, moves[..n]);
      var ss, es := ServicePart(w, ids, d, x, moves[..n]), EffectPart(w, ids, d, x, moves[..n]);
      var s, e := ForService(before, moves[n]), ForEffects(before, moves[n]);
      AtMostOne(before, moves[n]);
      if s == [] {
        assert ss + s == ss;
      } else {
        assert s == [s[0]];
        AfterOne(w, ids, x.service, ss, s[0]);
      }
      if e == [] {
        assert es + e == es;
      } else {
        assert e == [e[0]];
        Protocol.RunSnoc(d, x.effects, es, e[0]);
      }
    }
  }

  lemma {:induction false} AtMostOne(x: Combined, m: Move)
    ensures |ForService(x, m)| <= 1 && |ForEffects(x, m)| <= 1
  {
  }

  /** The invariants of both halves, and readers have read earlier states of the table. */
  ghost predicate CombinedInv(w: World, ids: Ids, d: Protocol.Derivation, x: Combined) {
    && StoreInv(w, ids, x.service) && Protocol.Inv(d, x.effects)
    && forall r | r in x.listings :: Effects.Evolves(x.listings[r].table, x.effects.table)
  }

  lemma {:induction false} MovesKeep(w: World, ids: Ids, d: Protocol.Derivation, x: Combined, moves: seq<Move>)
    requires IdsDistinct(ids) && CombinedInv(w, ids, d, x)
    ensures var now := Moved(w, ids, d, x, moves);
            && CombinedInv(w, ids, d, now)
            && StoreGrows(x.service.store, now.service.store)
            && Effects.Evolves(x.effects.table, now.effects.table)
    decreases |moves|
  {
    hide StoreInv, StoreGrows, Protocol.Inv, IdsDistinct, ForService, ForEffects, Step, Protocol.Step, Effects.RowEvolves;
    if moves == [] {
      Unchanged(w, ids, x.service, x.service.remembered);
      Effects.EvolvesReflexive(x.effects.table);
    } else {
      var n := |moves| - 1;
      var before, now := Moved(w, ids, d, x, moves[..n]), Moved(w, ids, d, x, moves);
      MovesKeep(w, ids, d, x, moves[..n]);
      MoveKeeps(w, ids, d, before, moves[n]);
      StoreGrowsTransitive(x.service.store, before.service.store, now.service.store);
      Effects.EvolvesTransitive(x.effects.table, before.effects.table, now.effects.table);
    }
  }

  lemma {:induction false} MoveKeeps(w: World, ids: Ids, d: Protocol.Derivation, x: Combined, m: Move)
    requires IdsDistinct(ids) && CombinedInv(w, ids, d, x)
    ensures var now := Next(w, ids, d, x, m);
            && CombinedInv(w, ids, d, now)
            && StoreGrows(x.service.store, now.service.store)
            && Effects.Evolves(x.effects.table, now.effects.table)
  {
    hide StoreInv, StoreGrows, Protocol.Inv, IdsDistinct, ForService, ForEffects, Step, Protocol.Step, Effects.Evolves;
    var now := Next(w, ids, d, x, m);
    var s, e := ForService(x, m), ForEffects(x, m);
    Unchanged(w, ids, x.service, x.service.remembered);
    Effects.EvolvesReflexive(x.effects.table);
    if s != [] {
      StepKeeps(w, ids, x.service, s[0]);
    }
    if e != [] {
      Protocol.StepInv(d, x.effects, e[0]);
    }
    forall r | r in now.listings ensures Effects.Evolves(now.listings[r].table, now.effects.table) {
      if r in x.listings {
        Effects.EvolvesTransitive(x.listings[r].table, x.effects.table, now.effects.table);
      }
    }
  }

  lemma {:induction false} Reached(w: World, ids: Ids, d: Protocol.Derivation, moves: seq<Move>)
    requires IdsDistinct(ids)
    ensures CombinedInv(w, ids, d, Moved(w, ids, d, Beginning(), moves))
  {
    hide IdsDistinct, Step, Protocol.Step;
    assert CombinedInv(w, ids, d, Beginning()) by { StartKeepsBoth(w, ids, d); }
    MovesKeep(w, ids, d, Beginning(), moves);
  }

  lemma {:induction false} StartKeepsBoth(w: World, ids: Ids, d: Protocol.Derivation)
    ensures CombinedInv(w, ids, d, Beginning())
  {
    assert After(w, ids, Service.Initial(), []) == Service.Initial();
  }

  // ---------------------------------------------------------------- approvals

  lemma {:induction false} StatusesHave(table: Effects.Table, ids: set<string>, id: string)
    requires ids <= table.Keys && id in ids
    ensures exists i | 0 <= i < |Statuses(table, ids)| :: Statuses(table, ids)[i] == Effect(id, table[id].status)
    decreases |ids|
  {
    var k: string :| k in ids && Statuses(table, ids) == [Effect(k, table[k].status)] + Statuses(table, ids - {k});
    var rest := Statuses(table, ids - {k});
    if k == id {
      assert Statuses(table, ids)[0] == Effect(id, table[id].status);
    } else {
      StatusesHave(table, ids - {k}, id);
      var i :| 0 <= i < |rest| && rest[i] == Effect(id, table[id].status);
      assert Statuses(table, ids)[i + 1] == rest[i];
    }
  }

  lemma {:induction false} ListedHas(l: Listing, id: string)
    requires OfRun(l.table, id, l.tenant, l.runId)
    ensures exists i | 0 <= i < |Listed(l)| :: Listed(l)[i] == Effect(id, l.table[id].status)
  {
    StatusesHave(l.table, RunIds(l), id);
    var i :| 0 <= i < |Statuses(l.table, RunIds(l))|
             && Statuses(l.table, RunIds(l))[i] == Effect(id, l.table[id].status);
    assert Listed(l)[i] == Effect(id, l.table[id].status);
  }

  /**
   A fresh approval, and every later state: each effect of the run that the approval read is settled, has the very
   row that was read, and its output is in the approved envelope if it succeeded.
   */
  lemma {:induction false} ApprovalCoversEffects(w: World, ids: Ids, d: Protocol.Derivation, moves: seq<Move>, m: Move,
                                                 later: seq<Move>, id: string)
    requires IdsDistinct(ids) && m.Approve?
    ensures var x := Moved(w, ids, d, Beginning(), moves);
            m.reader in x.listings ==>
              var l := x.listings[m.reader];
              var reply := Step(w, ids, x.service, Approval(x, m)).reply;
              var now := Moved(w, ids, d, Next(w, ids, d, x, m), later);
              reply.Ok? && !reply.value.replayed && OfRun(l.table, id, l.tenant, l.runId) ==>
                && Effects.Terminal(l.table[id].status)
                && id in now.effects.table && now.effects.table[id] == l.table[id]
                && reply.value.run.greenlight.Some?
                && (l.table[id].status == Effects.Succeeded ==>
                      ids.completion(id) in reply.value.run.greenlight.value.approvedIds)
  {
    hide StoreInv, StoreGrows, Protocol.Inv, IdsDistinct, Step, Protocol.Step, Listed, Next;
    var x := Moved(w, ids, d, Beginning(), moves);
    Reached(w, ids, d, moves);
    if m.reader in x.listings {
      var l, a := x.listings[m.reader], Approval(x, m);
      var reply := Step(w, ids, x.service, a).reply;
      if reply.Ok? && !reply.value.replayed && OfRun(l.table, id, l.tenant, l.runId) {
        ServiceHistory.ApprovalCoversEffects(w, ids, x.service, a);
        ListedHas(l, id);
        var i :| 0 <= i < |a.effects| && a.effects[i] == Effect(id, l.table[id].status);
        assert !a.effects[i].status.Pending? && !a.effects[i].status.Unknown?;
        MoveKeeps(w, ids, d, x, m);
        MovesKeep(w, ids, d, Next(w, ids, d, x, m), later);
        var now := Moved(w, ids, d, Next(w, ids, d, x, m), later);
        SettledStays(l.table, x.effects.table, Next(w, ids, d, x, m).effects.table, now.effects.table, id);
      }
    }
  }

  lemma {:induction false} SettledStays(a: Effects.Table, b: Effects.Table, c: Effects.Table, e: Effects.Table, id: string)
    requires Effects.Evolves(a, b) && Effects.Evolves(b, c) && Effects.Evolves(c, e)
    requires id in a && Effects.Terminal(a[id].status)
    ensures id in e && e[id] == a[id]
  {
  }

  // ---------------------------------------------------------------- effects that come too late

  /** A decided run keeps its artifacts for good. */
  lemma {:induction false} DecidedArtifactsStay(w: World, ids: Ids, a: State, b: State, key: Key)
    requires StoreInv(w, ids, a) && StoreInv(w, ids, b) && StoreGrows(a.store, b.store)
    ensures key in a.store.runs && a.store.runs[key].greenlight.Some? ==>
              && key in b.store.runs && b.store.runs[key].greenlight.Some?
              && b.store.runs[key].artifacts == a.store.runs[key].artifacts
              && b.store.runs[key].status != AwaitingGreenlight
  {
    hide StoreInv, StoreGrows, RowOk;
    if key in a.store.runs && a.store.runs[key].greenlight.Some? {
      RowHolds(w, ids, a, key);
      RowHolds(w, ids, b, key);
      RowsGrow(a.store, b.store, key);
      SameArtifacts(w, key, a.store.runs[key], b.store.runs[key]);
    }
  }

  lemma {:induction false} SameArtifacts(w: World, key: Key, a: Run, b: Run)
    requires RowOk(w, key, a) && RowOk(w, key, b) && Grows(a, b) && a.greenlight.Some?
    ensures b.greenlight.Some? && b.artifacts == a.artifacts && b.status != AwaitingGreenlight
  {
    hide RunInv, ValidBrief;
    DecisionInEnvelope(w, a);
    DecisionInEnvelope(w, b);
    if a.status != Rejected {
      EnvelopeLength(w, a);
      EnvelopeLength(w, b);
    }
  }

  lemma {:induction false} EnvelopeLength(w: World, run: Run)
    requires RunInv(w, run)
    ensures run.status == Completed || run.status == RunStatus.Revoked ==>
      run.greenlight.Some? && |run.artifacts| == |run.greenlight.value.approvedIds| + 1
    ensures run.status == Rejected ==> run.greenlight.Some? && run.greenlight.value.decision == Refused
    ensures run.status == Completed || run.status == RunStatus.Revoked ==> run.greenlight.value.decision == Approved
  {
    hide Sound, StationsDone, Orchestrator.ComplianceArtifact, Strip, Enveloped;
  }

  lemma {:induction false} StepIsAttach(w: World, ids: Ids, st: State, tenant: string, runId: string, action: string,
                                        e: EffectResult)
    ensures Step(w, ids, st, SupplyResult(tenant, runId, action, e)) == AttachResult(ids, st, tenant, runId, action, e)
  {
    hide AttachResult;
  }

  lemma {:induction false} RefusedOutright(ids: Ids, st: State, tenant: string, runId: string, action: string,
                                           e: EffectResult)
    requires Key(tenant, runId) in st.store.runs && WellFormed(st.store.runs[Key(tenant, runId)])
    requires st.store.runs[Key(tenant, runId)].status != AwaitingGreenlight
    ensures AttachResult(ids, st, tenant, runId, action, e) == Answer(st, Err(Raised(NotAwaiting)))
  {
    hide WithId, Find;
  }

  lemma {:induction false} AttachRefused(w: World, ids: Ids, st: State, tenant: string, runId: string, action: string,
                                         e: EffectResult)
    requires StoreInv(w, ids, st)
    requires Key(tenant, runId) in st.store.runs && st.store.runs[Key(tenant, runId)].status != AwaitingGreenlight
    ensures Step(w, ids, st, SupplyResult(tenant, runId, action, e)) == Answer(st, Err(Raised(NotAwaiting)))
  {
    hide *;
    RowHolds(w, ids, st, Key(tenant, runId));
    RowIsWell(w, Key(tenant, runId), st.store.runs[Key(tenant, runId)]);
    RefusedOutright(ids, st, tenant, runId, action, e);
    StepIsAttach(w, ids, st, tenant, runId, action, e);
  }

  lemma {:induction false} RowIsWell(w: World, key: Key, run: Run)
    requires RowOk(w, key, run)
    ensures WellFormed(run)
  {
    hide RunInv, ValidBrief;
    RowIsSound(w, run);
  }

  /**
   Once a run is decided, in every later state: its artifacts are the same, no result can be attached to it, and
   nobody can prepare another effect for it.
   */
  lemma {:induction false} DecidedRunTakesNoEffects(w: World, ids: Ids, d: Protocol.Derivation, moves: seq<Move>,
                                                    later: seq<Move>, key: Key, m: Move)
    requires IdsDistinct(ids)
    ensures var x := Moved(w, ids, d, Beginning(), moves);
            var now := Moved(w, ids, d, x, later);
            key in x.service.store.runs && x.service.store.runs[key].greenlight.Some? ==>
              && key in now.service.store.runs
              && now.service.store.runs[key].artifacts == x.service.store.runs[key].artifacts
              && (m.Attach? && m.effectId in now.effects.table
                  && OfRun(now.effects.table, m.effectId, key.tenant, key.runId) ==>
                    Step(w, ids, now.service, Attachment(now.effects.table, m))
                    == Answer(now.service, Err(Raised(NotAwaiting))))
              && (m.EffectMove? && m.e.Begin? && Key(m.e.command.tenantId, m.e.command.runId) == key ==>
                    Next(w, ids, d, now, m) == now)
  {
    hide StoreInv, StoreGrows, Protocol.Inv, IdsDistinct, Step, Protocol.Step;
    var x := Moved(w, ids, d, Beginning(), moves);
    Reached(w, ids, d, moves);
    MovesKeep(w, ids, d, x, later);
    var now := Moved(w, ids, d, x, later);
    if key in x.service.store.runs && x.service.store.runs[key].greenlight.Some? {
      DecidedArtifactsStay(w, ids, x.service, now.service, key);
      if m.Attach? && m.effectId in now.effects.table && OfRun(now.effects.table, m.effectId, key.tenant, key.runId) {
        var a := Attachment(now.effects.table, m);
        AttachRefused(w, ids, now.service, key.tenant, key.runId, a.action, a.result);
      }
    }
  }
}
