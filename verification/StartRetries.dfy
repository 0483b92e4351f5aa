/**
 Starting a brief again after a start that stored nothing: the orchestrator still remembers the run, so the service
 refuses the brief until the process restarts.
 */
module StartRetries {
  import opened Prelude
  import opened Models
  import opened Campaign
  import opened Runs
  import opened Orchestrator
  import opened RunShape
  import opened RunProgress
  import opened RunStore
  import opened Service
  import opened ServiceInvariant
  import opened ServiceHistory

  function KeyOf(w: World, a: Action): Key
    requires a.Start?
  {
    Key(a.c.tenant, w.runId(a.brief))
  }

  function EventOf(ids: Ids, a: Action): string
    requires a.Start?
  {
    ids.command(a.c.tenant, StartOperation(), a.c.key)
  }

  /** A start that gets as far as its run: a valid brief under a key that has no receipt. */
  ghost predicate Unanswered(w: World, ids: Ids, st: State, a: Action) {
    a.Start? && ValidBrief(w.language.isSpace, a.brief) && Find(st.store, a.c.tenant, EventOf(ids, a)) == None
  }

  /** The orchestrator remembers a run that is not stored. */
  predicate Blocked(st: State, key: Key) {
    key in st.remembered && key !in st.store.runs
  }

  /** One of the first `n` advances works at a station that raises; beginning a station never does. */
  ghost predicate Raises(faults: nat -> Fault, n: nat) {
    exists k: nat :: k < n && k % 2 == 1 && faults(k) != NoFault
  }

  lemma {:induction false} RaisesSnoc(faults: nat -> Fault, n: nat)
    ensures Raises(faults, n + 1) <==> Raises(faults, n) || (n % 2 == 1 && faults(n) != NoFault)
  {
  }

  lemma {:induction false} AdvancesRaise(w: World, run: Run, faults: nat -> Fault, clocks: nat -> Clock, n: nat)
    requires InProgress(w, run, 0) && n <= TRANSITIONS
    ensures var o := Advances(w, run, faults, clocks, n);
            && (o.error != None <==> Raises(faults, n))
            && (o.error != None ==> o.error == Some(HandlerFailed))
            && (o.error == None ==> if n < TRANSITIONS then InProgress(w, o.run, n) else FreshAtGate(w, o.run))
    decreases n
  {
    hide Advance, AgentsAt, ArtifactsAt, EvidenceAt, TraceAt, Timeless, FreshAtGate, Raises;
    if n == 0 {
      assert !Raises(faults, 0) by { NothingRaises(faults); }
    } else {
      RaisesSnoc(faults, n - 1);
      AdvancesRaise(w, run, faults, clocks, n - 1);
      var before := Advances(w, run, faults, clocks, n - 1);
      if before.error == None {
        AdvanceStage(w, before.run, n - 1, faults(n - 1), clocks(n - 1));
      }
    }
  }

  lemma {:induction false} NothingRaises(faults: nat -> Fault)
    ensures !Raises(faults, 0)
  {
  }

  lemma {:induction false} CreatedIsWell(w: World, brief: Brief, now: int)
    ensures WellFormed(Create(w, brief, false, now))
  {
  }

  /** `start` on a new run raises exactly when one of the stations it reaches does. */
  lemma {:induction false} InlineStartRaisesIff(w: World, brief: Brief, now: int, faults: nat -> Fault,
                                                clocks: nat -> Clock)
    ensures var o := Advances(w, Create(w, brief, false, now), faults, clocks, MAX_ADVANCES);
            && (o.error == Some(HandlerFailed) <==> Raises(faults, TRANSITIONS))
            && (o.error == None <==> !Raises(faults, TRANSITIONS))
  {
    hide Advance, AtStage, FreshAtGate, Raises;
    var run := Create(w, brief, false, now);
    CreatedAtStageZero(w, brief, false, now);
    AdvancesRaise(w, run, faults, clocks, TRANSITIONS);
    var o := Advances(w, run, faults, clocks, TRANSITIONS);
    if o.error == None {
      GateLoad(w, o.run);
    }
    AdvancesStop(w, run, faults, clocks, TRANSITIONS, MAX_ADVANCES);
  }

  /** Why a start of a run that is neither stored nor remembered stores nothing. */
  ghost predicate Fails(ids: Ids, st: State, a: Action)
    requires a.Start?
  {
    (!a.asynchronous && Raises(a.faults, TRANSITIONS)) || EventOf(ids, a) in st.store.audit
  }

  /**
   A start of a new run fails exactly when a station it reaches raises or its event id is taken by another tenant.
   It then stores nothing but is remembered; otherwise it stores the run.
   */
  lemma {:induction false} NewStartFailsIff(w: World, ids: Ids, st: State, a: Action)
    requires Unanswered(w, ids, st, a) && KeyOf(w, a) !in st.store.runs && KeyOf(w, a) !in st.remembered
    ensures var answer := Step(w, ids, st, a);
            && (answer.reply.Err? <==> Fails(ids, st, a))
            && (answer.reply == Err(Raised(HandlerFailed)) <==> !a.asynchronous && Raises(a.faults, TRANSITIONS))
            && answer.state.remembered == st.remembered + {KeyOf(w, a)}
            && (Fails(ids, st, a) ==> answer.state.store == st.store)
            && (!Fails(ids, st, a) ==> KeyOf(w, a) in answer.state.store.runs)
  {
    hide ValidBrief, Advances, Create, Raises;
    if !a.asynchronous {
      assert WellFormed(Create(w, a.brief, false, a.now)) by { CreatedIsWell(w, a.brief, a.now); }
      InlineStartRaisesIff(w, a.brief, a.now, a.faults, a.clocks);
      AdvancesKeepId(w, a.brief, a.faults, a.clocks, a.now, MAX_ADVANCES);
    } else {
      CreatedId(w, a.brief, true, a.now);
    }
  }

  /** A start under a fresh key is refused as existing exactly when its run is remembered but not stored. */
  lemma {:induction false} RefusedAsExistingIff(w: World, ids: Ids, st: State, a: Action)
    requires Unanswered(w, ids, st, a)
    ensures Step(w, ids, st, a).reply == Err(Raised(RunExists)) <==> Blocked(st, KeyOf(w, a))
    ensures Blocked(st, KeyOf(w, a)) ==> Step(w, ids, st, a).state == st
  {
    hide ValidBrief, Advances, Create, Raises;
    assert WellFormed(Create(w, a.brief, false, a.now)) by { CreatedIsWell(w, a.brief, a.now); }
    InlineStartRaisesIff(w, a.brief, a.now, a.faults, a.clocks);
  }

  /** A start of this run that gets as far as the run and stores nothing. */
  ghost predicate FailedNow(w: World, ids: Ids, st: State, a: Action, key: Key) {
    && Unanswered(w, ids, st, a) && KeyOf(w, a) == key && key !in st.store.runs && key !in st.remembered
    && Fails(ids, st, a)
  }

  /** At position `i` there was one, and the process has not restarted since. */
  ghost predicate FailedAt(w: World, ids: Ids, actions: seq<Action>, i: nat, key: Key) {
    && i < |actions| && Restart !in actions[i + 1..]
    && FailedNow(w, ids, After(w, ids, Initial(), actions[..i]), actions[i], key)
  }

  ghost predicate FailedBefore(w: World, ids: Ids, actions: seq<Action>, key: Key) {
    exists i: nat :: FailedAt(w, ids, actions, i, key)
  }

  /** What one step does to the state of being blocked. */
  lemma {:induction false} StepBlocks(w: World, ids: Ids, st: State, a: Action, key: Key)
    requires StoreInv(w, ids, st) && IdsDistinct(ids)
    ensures Blocked(Step(w, ids, st, a).state, key)
            <==> || (a != Restart && Blocked(st, key))
                 || FailedNow(w, ids, st, a, key)
  {
    hide Step, StoreInv, IdsDistinct, ValidBrief, Raises, Find;
    var next := Step(w, ids, st, a).state;
    StepKeeps(w, ids, st, a);
    if a == Restart {
      RestartForgets(w, ids, st);
    } else if Blocked(st, key) {
      StepKeepsBlocked(w, ids, st, a, key);
    } else if key !in st.store.runs {
      if a.Start? && KeyOf(w, a) == key && Unanswered(w, ids, st, a) {
        NewStartFailsIff(w, ids, st, a);
      } else {
        OthersRemember(w, ids, st, a, key);
      }
    } else {
      assert key in next.store.runs by { StoredStays(st.store, next.store, key); }
    }
  }

  lemma {:induction false} StoredStays(a: Store, b: Store, key: Key)
    requires StoreGrows(a, b) && key in a.runs
    ensures key in b.runs
  {
  }

  lemma {:induction false} RestartForgets(w: World, ids: Ids, st: State)
    ensures Step(w, ids, st, Restart).state.remembered == {}
  {
  }

  /** Only a start that gets as far as its run is remembered. */
  lemma {:induction false} OthersRemember(w: World, ids: Ids, st: State, a: Action, key: Key)
    requires !(Unanswered(w, ids, st, a) && KeyOf(w, a) == key)
    ensures key in Step(w, ids, st, a).state.remembered ==> key in st.remembered
  {
    hide ValidBrief, Decide, Orchestrator.Revoke, Advances, Create, EffectsObjection, AddArtifact, MediaOf, WithId,
         Checkpointed, LeasedByOther, SaveRow, Append, CreateRow;
  }

  /**
   In every reachable state, a run is remembered but not stored exactly when an earlier start of it, since the last
   restart, stored nothing.
   */
  lemma {:induction false} BlockedIffFailedBefore(w: World, ids: Ids, actions: seq<Action>, key: Key)
    requires IdsDistinct(ids)
    ensures Blocked(After(w, ids, Initial(), actions), key) <==> FailedBefore(w, ids, actions, key)
    decreases |actions|
  {
    hide Step, StoreInv, IdsDistinct, Unanswered, Fails, FailedAt;
    if actions == [] {
      assert !FailedBefore(w, ids, actions, key) by { NeverFailed(w, ids, key); }
    } else {
      var n := |actions| - 1;
      var init := actions[..n];
      BlockedIffFailedBefore(w, ids, init, key);
      Reachable(w, ids, init);
      StepBlocks(w, ids, After(w, ids, Initial(), init), actions[n], key);
      forall i: nat ensures FailedAt(w, ids, actions, i, key)
        <==> (actions[n] != Restart && FailedAt(w, ids, init, i, key))
             || (i == n && FailedNow(w, ids, After(w, ids, Initial(), init), actions[n], key))
      {
        FailedAtSnoc(w, ids, actions, i, key);
      }
      if FailedNow(w, ids, After(w, ids, Initial(), init), actions[n], key) {
        assert FailedAt(w, ids, actions, n, key);
      }
      if actions[n] != Restart && FailedBefore(w, ids, init, key) {
        var i: nat :| FailedAt(w, ids, init, i, key);
        assert FailedAt(w, ids, actions, i, key);
      }
    }
  }

  lemma {:induction false} NeverFailed(w: World, ids: Ids, key: Key)
    ensures !FailedBefore(w, ids, [], key)
  {
  }

  lemma {:induction false} FailedAtSnoc(w: World, ids: Ids, actions: seq<Action>, i: nat, key: Key)
    requires actions != []
    ensures var n := |actions| - 1;
            FailedAt(w, ids, actions, i, key)
            <==> (actions[n] != Restart && FailedAt(w, ids, actions[..n], i, key))
                 || (i == n && FailedNow(w, ids, After(w, ids, Initial(), actions[..n]), actions[n], key))
  {
    hide Unanswered, Fails, After;
    var n := |actions| - 1;
    if i < n {
      assert actions[..n][..i] == actions[..i];
      assert actions[i + 1..] == actions[..n][i + 1..] + [actions[n]];
    } else if i == n {
      assert actions[n + 1..] == [];
    }
  }

  /** So after such a start, no command with a fresh key can start the brief again before a restart. */
  lemma {:induction false} RaisedStartBlocksRetries(w: World, ids: Ids, actions: seq<Action>, again: Action)
    requires IdsDistinct(ids)
    ensures var st := After(w, ids, Initial(), actions);
            Unanswered(w, ids, st, again) ==>
              (Step(w, ids, st, again) == Answer(st, Err(Raised(RunExists)))
               <==> FailedBefore(w, ids, actions, KeyOf(w, again)))
  {
    hide Step, IdsDistinct, Unanswered, FailedBefore;
    var st := After(w, ids, Initial(), actions);
    if Unanswered(w, ids, st, again) {
      assert again.Start? by { UnansweredIsStart(w, ids, st, again); }
      BlockedIffFailedBefore(w, ids, actions, KeyOf(w, again));
      RefusedAsExistingIff(w, ids, st, again);
    }
  }

  lemma {:induction false} UnansweredIsStart(w: World, ids: Ids, st: State, a: Action)
    requires Unanswered(w, ids, st, a)
    ensures a.Start?
  {
  }

  /** The handler of the first station raises. */
  function FirstStationRaises(k: nat): Fault {
    if k == 1 then BeforeWork else NoFault
  }

  /** It happens: a first start whose first station raises, and a second one that could succeed and is refused. */
  lemma {:induction false} RetryIsRefused(w: World, ids: Ids, first: Caller, second: Caller, brief: Brief,
                                          clocks: nat -> Clock, now: int)
    requires ValidBrief(w.language.isSpace, brief) && first.tenant == second.tenant
    ensures var failed := Step(w, ids, Initial(), Start(first, brief, false, FirstStationRaises, clocks, now));
            var retry := Start(second, brief, false, _ => NoFault, clocks, now);
            && failed.reply == Err(Raised(HandlerFailed)) && failed.state.store == Initial().store
            && Step(w, ids, failed.state, retry) == Answer(failed.state, Err(Raised(RunExists)))
            && Step(w, ids, Initial(), retry).reply.Ok?
  {
    hide Step, ValidBrief;
    var a := Start(first, brief, false, FirstStationRaises, clocks, now);
    var b := Start(second, brief, false, _ => NoFault, clocks, now);
    assert FirstStationRaises(1) != NoFault && 1 % 2 == 1;
    assert Raises(a.faults, TRANSITIONS) && !Raises(b.faults, TRANSITIONS);
    NewStartFailsIff(w, ids, Initial(), a);
    NewStartFailsIff(w, ids, Initial(), b);
    RefusedAsExistingIff(w, ids, Step(w, ids, Initial(), a).state, b);
  }
}
