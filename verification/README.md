# Governed agency runtime: model and proofs

A Dafny model of the durable protocols of the agency runtime, with proofs of what they keep over every history,
interleaving and crash. `dafny verify dfyconfig.toml` checks the project.

Every component is written twice: as functions on values, about which the main results are proved, and, where the
program works in place, as classes and loops that are proved to compute those functions.

* **Paid model effects.** `ModelEffectStore` is the table of intents and its guarded updates, `ModelEffect` the
  program `execute` run by any number of callers, cut by crashes and by commits whose answer is lost, and
  `ModelEffectPostgres` the same reservation as a transaction of several steps under advisory locks;
  `ModelEffectPostgresRuns` shows that the program over such transactions is the program over atomic reservations, and
  `ModelEffectLost` says when a pending effect can still be settled and `CallersFinish` how a caller ends. The provider
  is an oracle. The main result is that a tenant never pays twice under one idempotency key or one binding.
* **Audit ledger.** `AuditIntegrity` says what a hash chain is; `AuditStore`, `AuditBackup` and `AuditMigration` are
  the four loops that append to, verify, repair and move it; `AuditPaging` reads it while it grows. Nothing is assumed
  of the hash: tamper evidence computes a collision when two ledgers differ.
* **Runs.** `Runs`, `Orchestrator` and `AgencyRuntime` are the run object, its transitions and the orchestrator;
  `RunShape` and `RunProgress` show that a run before its decision is determined by its brief and the number of
  transitions done; `RunInvariant`, `RunGrowth` and `RunStates` say which states exist and how a run may change.
  `RunStore` and `Service` are the stored rows and the commands, `LiveService` the service object; `ServiceInvariant`
  and `ServiceHistory` hold the results over whole histories, `StartRetries` those about failed starts, and
  `Publication` what leaves the system. `EffectsAndRuns` puts effects and runs together, and
  `EffectOutputs` and `LateEffects` say which outputs get into runs. Between a
  worker's lease and its checkpoint any other command may happen; only the execution lock of the run is exclusive.
* **Rate limits.** `RateLimits` and `RateLimitPruning` (sliding window of failures), `RequestQuota` (fixed windows)
  and `RateLimitMigration`. Times are whole seconds.
* **Task graph.** `TaskGraph` is the three-colour depth-first check.
* **Campaign.** `Models`, `TextSearch` and `Campaign` are the brief, the writer and the critic; `CampaignAgreement`
  reduces the critic's verdict on the writer's copy to a condition on the brief, and `ServiceHistory` carries it to
  every Greenlight ever stored.

## What turned out differently from what one would expect

* The per-tenant verifier refuses some ledgers that the one-pass verifier accepts: it also builds a checkpoint, which
  needs a named tenant and a last event with an id (`AuditBackup.PerTenantAcceptsIff`, with a witness beside it).
* A verifying ledger does not always migrate: a timestamp that is not in the target's form changes the hash
  (`AuditMigration.VerifiedLedgerMigratesIff`, with a witness in `AuditMigration.ForeignTimestampIsRefused`).
* A pending effect can be settled through the public interface exactly as long as its caller goes on
  (`ModelEffectLost.CanBeSettledIffHeld`). That ends with a crash, but also, with nobody crashing and the provider
  perhaps paid, with an error of the gateway that is no provider error or a last write that does not commit
  (`ModelEffectLost.LostExactlyByGivingUp`): reconciliation demands an unknown row, and nothing makes it one any more.
* After a start that stored nothing, because a station raised or its event id was taken, the brief cannot be started
  under another key before the process restarts (`StartRetries.BlockedIffFailedBefore`,
  `StartRetries.RefusedAsExistingIff`, with a witness in `StartRetries.RetryIsRefused`).
* The output of a paid effect can get into its run exactly while the run waits for its decision
  (`LateEffects.GetsInIffAwaiting`). A decision does not wait for callers under way, whose effects are then paid in
  vain (`LateEffects.LateEffectIsPaidInVain`, with histories for both decisions in
  `LateEffects.DecisionCatchesCaller`).
* The chain verifier reads rows and head at two moments; an append of the tenant in between makes it refuse a sound
  ledger, and nothing makes it accept an unsound one (`AuditStore.TornReadIff`, `AuditStore.TornReadRefuses`).
* The quota's waiting time is one second longer than necessary; the failure limiter's is exact
  (`RequestQuota.ReportedWaitIsOneTooLong`, `RateLimits.RetryAfterIsExact`).
* The quota's bound is twice the allowance minus one, and it is reached for every limit and every window of at least
  two seconds (`RequestQuota.AdmissionsBounded`, `RequestQuota.BoundIsReached`).
* Pruning is invisible exactly while no accepted call has pruned beyond a recording that a later decision looks back to
  (`RateLimitPruning.PruningInvisibleIff`); that is so while cutoffs do not move back, and fails in
  `RateLimits.ShorterWindowForgets`. The failure limiter does not refuse a repeated bucket, and exactly such calls can
  exceed a limit (`RateLimitPruning.CanOvershootIff`).
* After migration a failure exactly one window old no longer counts (`RateLimitMigration.MigratedBlocksIff`,
  `RateLimitMigration.BoundaryFailureIsForgotten`).
* The backfill protects a ledger only as long as a tenant keeps its head (`AuditStore.BackfillRespectsKeptHead`,
  `AuditStore.BackfillAcceptsRewriting`).

## Hypotheses

Digests and identifiers are function parameters. Where a result needs them not to collide, it says so:
`Injective(d.effectId)` for the primary key of effects, `IdsDistinct(ids)` for checkpoint events against other events,
`LowerIsSane` for lower-casing that leaves lower-case ASCII letters alone. The bounds of the two rate limiters speak of
histories with one window length and a clock that does not run backwards (`Regular`, `CutoffsRise`).

## Model

| member | source | states |
|---|---|---|
| ModelEffectStore.ReserveKeeps | backend/agency_runtime/model_effect_store.py:125-185 | A reservation that may be executed inserted exactly its own row; every other outcome leaves the table alone and hands back the stored row of the same binding. The second conflict branch (different binding found under the binding key) is never taken, and both unique keys survive. |
| ModelEffectStore.FreshInsertNeverViolatesKeys | backend/agency_runtime/model_effect_store.py:170-185 | With effect ids derived injectively from tenant and key, inserting a row that matched nothing violates no key, the primary key included. |
| ModelEffectStore.TransitionKeeps | backend/agency_runtime/model_effect_store.py:315-373 | The guarded update keeps the table consistent and lets rows only evolve: settled rows are frozen, an unknown row can only become succeeded, and only revocation moves a fence. |
| ModelEffectStore.ReconcileKeeps | backend/agency_runtime/model_effect_store.py:236-282 | Reconciliation keeps the table consistent, and a successful one leaves a succeeded row whose digest is that of its text. |
| ModelEffectStore.ReconcileIdempotent | backend/agency_runtime/model_effect_store.py:236-282 | Reconciling again with the same text and receipt changes nothing more. |
| ModelEffectStore.RevokeKeeps | backend/agency_runtime/model_effect_store.py:284-298 | Revocation keeps the table consistent, adds and removes no row, and leaves nothing revocable behind for its run. |
| ModelEffectStore.SQLiteModelEffectStore.Reserve | backend/agency_runtime/model_effect_store.py:125-185 | The method is one step of the specified reservation on the stored rows. |
| ModelEffectStore.SQLiteModelEffectStore.ApplyTransition | backend/agency_runtime/model_effect_store.py:315-373 | The method changes the rows exactly as the specified transition, or not at all when it is refused. |
| ModelEffectStore.SQLiteModelEffectStore.Reconcile | backend/agency_runtime/model_effect_store.py:236-282 | The method performs exactly the specified reconciliation. |
| ModelEffectStore.SQLiteModelEffectStore.Revoke | backend/agency_runtime/model_effect_store.py:284-298 | The method revokes exactly the pending rows of the run and raises their fence. |
| ModelEffect.StepInv | backend/agency_runtime/model_effect.py:131-197 | Every action of every caller, every crash, every commit that was lost or whose answer was lost, and every foreign store call keeps the protocol invariant and lets rows only evolve. |
| ModelEffect.AtMostOneCall | backend/agency_runtime/model_effect.py:131-186 | Over all interleavings and crashes, two provider calls of one tenant never share an idempotency digest and never share a binding digest. |
| ModelEffect.SettledRowsFrozen | backend/agency_runtime/model_effect_store.py:201-298 | A succeeded, failed or revoked row is the same in every later state. |
| ModelEffect.ReturnedIsDurable | backend/agency_runtime/model_effect.py:150-186 | When `execute` returns, whatever was interleaved, the durable row is succeeded, equals the returned result, and its digest is the digest of its text. |
| ModelEffect.UnknownIsRecorded | backend/agency_runtime/model_effect.py:188-197 | A caller that reports an unknown outcome has not left its row pending. |
| ModelEffect.FreshResultPaidOnce | backend/agency_runtime/model_effect.py:131-186 | A result that was not replayed belongs to exactly one provider call. |
| ModelEffect.RevokedCallerNeverReturns | backend/agency_runtime/model_effect_store.py:315-373 | Once its row was revoked, a caller still holding the old fence can never complete the row nor return a result, whatever follows. |
| ModelEffect.ReserveNeverBreaksKeys | backend/agency_runtime/model_effect_store.py:125-185 | In no reachable state does a reservation meet a key violation or the second conflict branch. |
| ModelEffectLost.CanBeSettledIffHeld | backend/agency_runtime/model_effect.py:131-197 | In every reachable state a pending row can still leave its pending state through the public interface if and only if a caller holds it between its reservation and its last step; otherwise it stays the same through any further use. |
| ModelEffectLost.LostExactlyByGivingUp | backend/agency_runtime/model_effect.py:147-197 | A held pending row is lost by exactly three kinds of step of its holder: a crash, an error out of the gateway that is no provider error, and a last write that does not commit. |
| ModelEffectLost.CrashLosesRow | backend/agency_runtime/model_effect.py:145-152 | For every acceptable command, a crash right after the reservation leaves such a row, unpaid. |
| ModelEffectLost.EscapedErrorLosesPaidRow | backend/agency_runtime/model_effect.py:152-156 | For every acceptable command, an escaped error leaves such a row without any crash, after the provider was called. |
| ModelEffect.LostReservationStaysPending | backend/agency_runtime/model_effect.py:131-186 | A pending row that nobody holds stays exactly as it is through any further use of the interface. |
| ModelEffect.AloneMeans | backend/agency_runtime/model_effect.py:131-197 | The undisturbed run of the protocol steps of one call has the table, outcome and provider call that the sequential reading of the program gives. |
| ModelEffect.ModelEffectAuthority.Execute | backend/agency_runtime/model_effect.py:131-186 | The method, step by step on the store object, ends with exactly the table and outcome of that protocol run. |
| ModelEffectPostgres.FinishIsAtomicReserve | backend/agency_runtime/model_effect_postgres.py:30-99 | The step that ends a reserving transaction answers and changes the table exactly as the atomic reservation would at that moment, although other transactions ran between its locks, its select and its insert. |
| ModelEffectPostgres.GrantedOncePerKey | backend/agency_runtime/model_effect_postgres.py:30-99 | Two transactions of one tenant that were both allowed to call the provider differ in both keys, whatever lock numbers collide. |
| ModelEffectPostgresRuns.ExecutionIsRun | backend/agency_runtime/model_effect_postgres.py:30-99 | Every execution of the program over the PostgreSQL store, with reservations as transactions of several steps, reaches the protocol state of a run with atomic reservations. |
| ModelEffectPostgresRuns.AtMostOneCallOnPostgres | backend/agency_runtime/model_effect.py:131-186 | So over that store, too, two provider calls of one tenant never share an idempotency digest nor a binding digest. |
| ModelEffectPostgresRuns.ReturnedIsDurableOnPostgres | backend/agency_runtime/model_effect.py:150-186 | And a returned result is the succeeded durable row there. |
| AuditIntegrity.LinkedInLedger | backend/agency_runtime/persistence.py:582-637 | A tenant's rows form a verifying chain in isolation exactly when each of them fits in its place of the interleaved ledger. |
| AuditIntegrity.TallyStep | scripts/manage-runtime-backup.py:149-179 | One iteration of a one-pass loop: what its dictionaries expect of the next row is what the chain of that row's tenant demands, and they describe one event more afterwards. |
| AuditIntegrity.SameHeadSameChain | backend/agency_runtime/audit_integrity.py:86-114 | Two linked chains with one head hash are the same chain, or comparing them backwards computes two distinct documents with one hash, or a document hashing to the genesis value. |
| AuditIntegrity.TamperEvidence | backend/agency_runtime/persistence.py:582-637 | Two verifying ledgers of a tenant with the same count and head agree event by event, or two distinct documents with one hash are computed from them. |
| AuditStore.AppendKeepsChains | backend/agency_runtime/persistence.py:339-402 | An append succeeds exactly for a new event id, extends its tenant's chain by one, leaves every other tenant's alone, and all of them still verify. |
| AuditStore.AppendedKeepsChains | backend/agency_runtime/persistence.py:339-402 | After any history of appends for any mix of tenants every chain verifies and earlier events are a prefix. |
| AuditStore.CheckpointDescribesPrefix | backend/agency_runtime/persistence.py:339-402 | A checkpoint taken earlier still gives the count, last event and digest of a prefix of the later ledger. |
| AuditStore.AuditTables.AppendAudit | backend/agency_runtime/persistence.py:339-402 | Event and head are written together exactly as specified, or nothing is. |
| AuditStore.FollowChain | backend/agency_runtime/persistence.py:596-618 | The verifier's loop accepts exactly the linked lists of rows and ends with their digest. |
| AuditStore.AuditTables.VerifyAuditChain | backend/agency_runtime/persistence.py:582-637 | On one state of the tables: accepts exactly the tenants whose chain verifies, who are named, and whose last event has an identity, and then reports its checkpoint. |
| AuditStore.VerifyRead | backend/agency_runtime/persistence.py:582-637 | On rows and head that were read at two moments: accepts exactly linked rows that the head describes, of a named tenant, with an identified last event. |
| AuditStore.TornReadIff | backend/agency_runtime/persistence.py:582-621 | With appends between reading rows and head, it accepts exactly if it would have accepted at the first moment and the tenant got no event in between: never falsely, and a false refusal only then. |
| AuditStore.TornReadRefuses | backend/agency_runtime/persistence.py:582-621 | It happens for any two events of a named tenant: accepted before and after the second append, refused when read around it. |
| AuditStore.AuditTables.EnsureAuditChain | backend/agency_runtime/persistence.py:222-303 | Accepts exactly when every hashed row and every stored head is what the contents demand; then only blank hashes and missing heads are written and every chain verifies; otherwise nothing changes. |
| AuditStore.BackfillOfValidChangesNothing | backend/agency_runtime/persistence.py:222-303 | On a ledger that verifies the pass is accepted and changes nothing, so a second pass changes nothing either. |
| AuditStore.BackfillRespectsKeptHead | backend/agency_runtime/persistence.py:222-303 | Blanking hashes does not hide an edited event while the head is kept: an accepted ledger has the events the head was written for, or a hash collision is computed. |
| AuditStore.BackfillAcceptsRewriting | backend/agency_runtime/persistence.py:222-303 | With the hashes blanked and the head dropped, every rewriting of a tenant's events is accepted. |
| AuditBackup.VerifyAuditRows | scripts/manage-runtime-backup.py:149-179 | The one-pass loop over all tenants accepts exactly the ledgers in which every tenant's chain verifies, with heads for exactly the tenants that have events. |
| AuditBackup.InterleavingIrrelevant | scripts/manage-runtime-backup.py:149-179 | What the loop checks position by position over the whole ledger holds for one interleaving of the tenants' events exactly if it holds for another. |
| AuditBackup.PerTenantAcceptsIff | backend/agency_runtime/persistence.py:582-637 | Verifying tenant by tenant accepts exactly what the one-pass verifier accepts and can be checkpointed (named tenant, identified last event). |
| AuditBackup.UnidentifiedEventTellsThemApart | backend/agency_runtime/audit_integrity.py:36-60 | A ledger on which the two verifiers differ: its only event has an empty id. |
| AuditMigration.MigrateAudit | scripts/migrate-sqlite-to-postgresql.py:126-225 | Succeeds exactly for migratable ledgers; the target then has the same events with normalized timestamps, keeps every stored hash, and verifies. |
| AuditMigration.VerifiedLedgerMigratesIff | scripts/migrate-sqlite-to-postgresql.py:126-225 | A verifying ledger migrates exactly when every event keeps its hash under its normalized timestamp. |
| AuditMigration.ForeignTimestampIsRefused | scripts/migrate-sqlite-to-postgresql.py:126-225 | A verifying ledger that is refused: its only event hashes differently with its timestamp in normal form. |
| AuditPaging.PageThenRest | backend/agency_runtime/api.py:4093-4105 | A page is followed by exactly the events after its cursor, and without `has_more` by none. |
| AuditPaging.PagesAreExact | backend/agency_runtime/api.py:4093-4105 | However appends of any tenant fall between page reads, the pages are the tenant's events after the start up to the cursor, once and in order; when the last page says there is no more, they are all of them. |
| AuditPaging.ReadToEnd | backend/agency_runtime/persistence.py:559-580 | Once appends stop, following the cursor ends and has collected exactly the tenant's events after the start. |
| AuditPaging.PagesOverAppends | backend/agency_runtime/api.py:4093-4105 | The same over any history of appends by any tenants, each page read seeing the ledger after some number of them. |
| AuditPaging.AppendsOrdered | backend/agency_runtime/persistence.py:339-402 | Along a history of appends sequence numbers rise. |
| Runs.ExecutionRun.MergeEvidence | backend/agency_runtime/orchestrator.py:688-690 | The in-place loop keeps evidence once per id, as the document function says. |
| Runs.ExecutionRun.FindLatest | backend/agency_runtime/models.py:282-286 | The backward search finds the last artifact of a kind. |
| AgencyRuntime.CompleteAgent | backend/agency_runtime/orchestrator.py:670-702 | The in-place updates of a finished station have the specified effect on the document. |
| AgencyRuntime.AdvanceRun | backend/agency_runtime/orchestrator.py:97-128 | One advance of a run object, raising or not, is the specified transition of its document. |
| AgencyRuntime.DecideRun | backend/agency_runtime/orchestrator.py:258-425 | A decision on a run object: refused in exactly the specified cases and without a trace, otherwise the specified document. |
| AgencyRuntime.RevokeRun | backend/agency_runtime/orchestrator.py:208-245 | A revocation of a run object likewise. |
| AgencyRuntime.AgencyOrchestrator.StartRun | backend/agency_runtime/orchestrator.py:71-95 | The loop of `start` terminates with the run after at most fifteen advances, and a run whose station raised stays in memory. |
| Orchestrator.AdvanceProgresses | backend/agency_runtime/orchestrator.py:97-128 | An advance of a busy run that does not raise lowers the stations' load by one or ends the busy phase. |
| RunProgress.AdvanceStage | backend/agency_runtime/orchestrator.py:97-128 | A fault-free advance of a run at stage p leads to stage p+1, and from stage 13 to the gate; only a raising handler can fail, so no artifact is ever missing and no station state is invalid, and the contents stay at stage p or p+1. |
| RunProgress.SynchronousEqualsAsynchronous | backend/agency_runtime/orchestrator.py:71-128 | `start` ends at the gate, and creation for asynchronous execution followed by fourteen advances reaches the same run up to times and execution record. |
| RunProgress.GateIsCanonical | backend/agency_runtime/orchestrator.py:154-190 | Two runs of one brief at the gate without attachments are equal up to times. |
| RunInvariant.AdvanceSound | backend/agency_runtime/orchestrator.py:670-725 | An advance keeps trace events numbered 1..n and every artifact's evidence in the run, once per id. |
| RunInvariant.DecideSound | backend/agency_runtime/orchestrator.py:258-425 | So does a decision. |
| RunStates.AdvanceKeeps | backend/agency_runtime/orchestrator.py:97-128 | From every state a busy run can be stored in, an advance leads to such a state again; if it raises, it is a handler and the failed run is proper too. |
| RunStates.DecidableIff | backend/agency_runtime/orchestrator.py:258-290 | A stored run can be decided exactly when it waits, its canonical report opens the gate, a reviewer is named, and for the approval of a political run is not its legal reviewer. |
| RunStates.DecideKeeps | backend/agency_runtime/orchestrator.py:258-425 | A decision puts the run into a proper decided state: envelope equal to a prefix of its artifacts, compliance record last for political approvals, package outside. |
| RunStates.RevokeKeeps | backend/agency_runtime/orchestrator.py:208-245 | Revocation keeps decision and envelope and raises the fence from one to two. |
| RunStates.AttachKeeps | backend/agency_runtime/api.py:1735-1763 | Attaching media or a model completion keeps a waiting run proper: nothing the stations made changes. |
| RunGrowth.AdvanceGrows | backend/agency_runtime/orchestrator.py:97-128 | An advance only appends to artifacts, evidence and trace, and touches neither fence nor attempts. |
| RunGrowth.DecideGrows | backend/agency_runtime/orchestrator.py:258-425 | A decision only appends, and adds the first and only Greenlight. |
| RunGrowth.RevokeGrows | backend/agency_runtime/orchestrator.py:208-245 | A revocation keeps everything but the revocation fields and the higher fence. |
| RunStore.SQLiteRunStore.Create | backend/agency_runtime/persistence.py:410-447 | Row and receipt appear together or not at all, with the specified error. |
| RunStore.SQLiteRunStore.Save | backend/agency_runtime/persistence.py:449-510 | Compare-and-swap on the status, with the event in the same transaction; any refusal leaves both tables as they were. |
| LiveService.RuntimeService.Start | backend/agency_runtime/api.py:768-858 | The method is the specified start command on the store. |
| LiveService.RuntimeService.Decide | backend/agency_runtime/api.py:1236-1308 | The method is the specified decision command on the store. |
| LiveService.RuntimeService.RevokeGreenlight | backend/agency_runtime/api.py:1310-1369 | The method is the specified revocation command on the store. |
| LiveService.RuntimeService.AttachPublicationMedia | backend/agency_runtime/api.py:961-1192 | The method is the specified attachment of media on the store. |
| LiveService.RuntimeService.AttachModelEffectResult | backend/agency_runtime/api.py:1653-1763 | The method is the specified attachment of a model result on the store. |
| LiveService.RuntimeService.ExecuteOne | backend/agency_runtime/api.py:865-955 | The worker's pass is a lease and a checkpoint of the first run it can lease, and it reports exactly whether there was one. |
| ServiceInvariant.StepKeeps | backend/agency_runtime/api.py:768-955 | Every command, lease, checkpoint, crash and restart keeps every stored run proper, every lease holder's row in place, and fences not yet worked on free of checkpoint events; rows only grow and no event is lost. |
| ServiceInvariant.HistoryKeeps | backend/agency_runtime/api.py:768-955 | The same over whole histories. |
| ServiceInvariant.CheckpointNeverConflicts | backend/agency_runtime/api.py:914-953 | A worker's second save always succeeds, whatever happened since its lease, under an event id never used before. |
| ServiceHistory.CommandIsAtomic | backend/agency_runtime/api.py:768-858 | A command that succeeds leaves its response as its receipt; one that fails leaves the store as it was. |
| ServiceHistory.RetryReturnsFirstResponse | backend/agency_runtime/api.py:720-858 | A retry of a successful command after any history returns the first response and changes nothing. |
| ServiceHistory.KeyReuseIsRefused | backend/agency_runtime/api.py:733-756 | A command that asks for something else under a key used successfully before is a conflict after any history and changes nothing, or two distinct requests with one fingerprint are at hand. |
| StartRetries.InlineStartRaisesIff | backend/agency_runtime/orchestrator.py:71-128 | A synchronous start of a new run raises exactly when a station it reaches raises. |
| StartRetries.NewStartFailsIff | backend/agency_runtime/api.py:768-858 | A start of a run that is neither stored nor remembered stores nothing exactly when a station it reaches raises or its event id is taken, and is remembered all the same. |
| StartRetries.RefusedAsExistingIff | backend/agency_runtime/orchestrator.py:71-89 | A start under a fresh key is refused as existing exactly when its run is remembered but not stored. |
| StartRetries.BlockedIffFailedBefore | backend/agency_runtime/orchestrator.py:71-89 | In every reachable state a run is remembered but not stored exactly when an earlier start of it, since the last restart, stored nothing. |
| StartRetries.RaisedStartBlocksRetries | backend/agency_runtime/api.py:768-858 | So a start under a fresh key is refused as existing exactly after such a start. |
| StartRetries.RetryIsRefused | backend/agency_runtime/api.py:768-858 | It happens to every valid brief: the first station raises once, and the second start, which would succeed in a fresh process, is refused. |
| ServiceHistory.DecisionStands | backend/agency_runtime/api.py:1236-1369 | A recorded decision is the run's only one: later states carry it with the same envelope, which still matches a prefix of the artifacts, and a fence that never falls. |
| ServiceHistory.DecisionInEnvelope | backend/agency_runtime/orchestrator.py:326-425 | A stored run has a Greenlight exactly in the three decided states, and its fence is two after revocation and one before. |
| ServiceHistory.RevocationIsFinal | backend/agency_runtime/api.py:1371-1403 | After a revocation the row never changes and no token is authorized again. |
| ServiceHistory.AuthorizedIff | backend/agency_runtime/api.py:1371-1403 | Authorized are exactly the tokens of a completed run with fence one that name its whole artifact list but the package. |
| EffectsAndRuns.ApprovalCoversEffects | backend/agency_runtime/api.py:1765-1784 | Over combined histories of effects and runs: every effect of the run that a fresh approval read is settled then and the same in every later state, and the output of a succeeded one is in the approved envelope. |
| EffectsAndRuns.DecidedRunTakesNoEffects | backend/agency_runtime/api.py:1600-1602 | Once a run is decided, in every later state its artifacts are the same, no result can be attached to it, and no further effect can be prepared for it. |
| LateEffects.ResultAttachesIff | backend/agency_runtime/api.py:1697-1763 | A result that no artifact of the run stands for yet is attached exactly if the run waits for its decision, the source artifact is in the run and the attachment is not recorded. |
| LateEffects.RunsAreKnown | backend/agency_runtime/api.py:1600-1602 | In every reachable combined state the run of each effect is stored and past its stations. |
| LateEffects.GetsInIffAwaiting | backend/agency_runtime/api.py:1697-1763 | Over combined histories: the output of a succeeded effect that is not attached yet, whose source is in the run and whose attachment is not recorded, can still get into its run by some later moves if and only if the run waits for its decision. |
| CallersFinish.CallerFinishes | backend/agency_runtime/model_effect.py:131-186 | A caller that is prepared, has reserved or has its answer ends, if nothing goes wrong any more, with the recorded answer; the provider is called once unless it was called already. |
| LateEffects.LateEffectIsPaidInVain | backend/agency_runtime/api.py:1699-1704 | Whoever is under way for a run, prepared, reserved or answered, when the run is approved or rejected, still ends so, and the run never holds the answer in any later state. |
| LateEffects.DecisionCatchesCaller | backend/agency_runtime/api.py:1600-1602 | It happens, for every brief with an open gate, every acceptable command and both decisions: a history in which the decision is a first and successful one and catches the caller prepared, reserved or answered. |
| LateEffects.CommercialGateOpens | backend/agency_runtime/campaign_intelligence.py:207-335 | The gate is open for every brief that is not political. |
| EffectOutputs.OnlyAttachmentsAdd | backend/agency_runtime/api.py:1653-1763 | No command, worker step or decision but the attachment of a result adds a model output to any run. |
| EffectOutputs.EveryOutputWasPaid | backend/agency_runtime/api.py:1653-1763 | In every reachable combined state each model output in a run is the recorded answer of a succeeded effect of that run. |
| ServiceHistory.GreenlightNeedsPublishableBrief | backend/agency_runtime/orchestrator.py:154-190 | In every reachable store, a run with any Greenlight came through an open gate, and a political one from a publishable brief. |
| ServiceHistory.GateMeansPublishable | backend/agency_runtime/orchestrator.py:154-190 | The gate of a run opens exactly for briefs that are not political or are publishable. |
| ServiceHistory.CompletedPoliticalRun | backend/agency_runtime/orchestrator.py:282-345 | A completed political run has an eligible report, an approver other than the legal reviewer, and its compliance record as the last item of the approved envelope. |
| ServiceHistory.BusyRunShape | backend/agency_runtime/orchestrator.py:97-128 | In every reachable store a busy run is exactly the stage its trace length says, stations READY*, PROCESSING?, STANDBY*, with load fourteen minus that, and its fence counts its leases. |
| ServiceHistory.CrashLosesOnlyTheStep | backend/agency_runtime/api.py:885-903 | A worker that dies after its lease changes nothing but the execution record and uses up one fence; the same worker can take the run again at once, any other exactly from the end of the lease. |
| ServiceHistory.CheckpointProgress | backend/agency_runtime/api.py:905-953 | A completed checkpoint fails the run only for a raising station, and otherwise lowers the load by exactly one, reaching the gate at zero. |
| ServiceHistory.WorkersEndWhereStartEnds | backend/agency_runtime/api.py:865-955 | The checkpoint that reaches the gate, after any leases, expiries and crashes, leaves the run that a synchronous start of the brief produces. |
| Publication.PublishedTextIsApproved | backend/agency_runtime/api.py:1405-1576 | Whatever is prepared from a reachable store carries the text the writer made of the brief for an authorized channel, from the deck at its place in the approved envelope, under the active fence. |
| Publication.PublishedImageIsApproved | backend/agency_runtime/api.py:1484-1533 | An image prepared from a reachable store is the approved artifact of its position, or two different artifacts have one envelope hash. |
| Publication.ComplianceAlwaysValid | backend/agency_runtime/api.py:1405-1559 | A preparation from a reachable store never fails for lack of eligibility, nor for the compliance record unless two artifacts of the run have one id. |
| Publication.CompliancePassesIff | backend/agency_runtime/api.py:1535-1559 | The compliance check of a released political run passes exactly if the approved artifact found under the record's id has the record's hash. |
| RateLimits.FailureLimiter.Enforce | backend/agency_runtime/persistence.py:844-876 | The decision is the specified one; pruning is undone when the request is refused. |
| RateLimits.FailureLimiter.Record | backend/agency_runtime/persistence.py:878-917 | All named buckets are recorded when none is blocked, otherwise nothing changes. |
| RateLimitPruning.PruningInvisibleIff | backend/agency_runtime/persistence.py:858-890 | The decisions that look back to a cutoff are those on everything ever recorded, retry time included, if and only if no accepted recording at or after the cutoff was followed by an accepted call whose cutoff lies beyond it. |
| RateLimits.PruningNeverChangesADecision | backend/agency_runtime/persistence.py:858-890 | In particular, while cutoffs do not move back, the table decides like the complete history. |
| RateLimits.ShorterWindowForgets | backend/agency_runtime/persistence.py:858-861 | A call with a shorter window in between prunes what a longer window still counts. |
| RateLimits.FailuresBounded | backend/agency_runtime/persistence.py:878-917 | Any closed interval of one window's length holds at most the allowance of recorded failures of a bucket. |
| RateLimitPruning.OvershootsIff | backend/agency_runtime/persistence.py:911-917 | An accepted recording leaves a bucket above a limit exactly if its count and its repetitions in the call together exceed it. |
| RateLimitPruning.CanOvershootIff | backend/agency_runtime/persistence.py:911-917 | With one limit per bucket, a call can record more than a limit allows, on some table, if and only if it names a bucket twice. |
| RateLimits.RepeatedBucketOvershoots | backend/agency_runtime/persistence.py:911-917 | On the empty table already: one bucket named twice with limit one. |
| RateLimits.RetryAfterIsLeastIff | backend/agency_runtime/persistence.py:872-876 | The reported wait is too long by nothing, and long enough exactly when the failures after the oldest one are below the limit. |
| RateLimits.RetryAfterIsExact | backend/agency_runtime/persistence.py:872-876 | Over a regular history that condition holds, so the reported wait is the least one that helps. |
| RateLimits.ToldWaitIsExact | backend/agency_runtime/persistence.py:844-876 | The wait that the check on the pruned table returns is the one until which every request is refused and from which every request passes, while nothing more is recorded. |
| RequestQuota.RequestLimiter.Consume | backend/agency_runtime/persistence.py:927-990 | The method decides and charges as specified. |
| RequestQuota.AdmittedIff | backend/agency_runtime/persistence.py:934-971 | A request is admitted exactly when it is valid and no named bucket has used up an open window. |
| RequestQuota.ChargesAllOrNone | backend/agency_runtime/persistence.py:946-990 | An admitted request adds one to each named bucket and to no other open window; a refused one changes nothing. |
| RequestQuota.CounterIsExact | backend/agency_runtime/persistence.py:946-990 | After any regular history a counter is the number of admissions since its window opened, between one and the allowance. |
| RequestQuota.WindowsApart | backend/agency_runtime/persistence.py:963-965 | Successive windows of a bucket start at least one window length apart. |
| RequestQuota.AdmissionsBounded | backend/agency_runtime/persistence.py:927-990 | Any half-open interval of one window's length admits fewer than twice the allowance. |
| RequestQuota.BoundIsReached | backend/agency_runtime/persistence.py:927-990 | For every limit and every window of at least two seconds there is a history that reaches twice the limit minus one. |
| RequestQuota.ReportedWaitIsOneTooLong | backend/agency_runtime/persistence.py:966-971 | A used-up bucket is open again after the reported wait, and already one second earlier, but no sooner. |
| RateLimitMigration.MigrateRateLimits | scripts/migrate-sqlite-to-postgresql.py:294-316 | One window per bucket, from its oldest failure, with all its failures counted. |
| RateLimitMigration.MigratedBlocksIff | scripts/migrate-sqlite-to-postgresql.py:294-316 | The migrated window refuses exactly when the source log would and no failure of the bucket is a full window old. |
| RateLimitMigration.BoundaryFailureIsForgotten | scripts/migrate-sqlite-to-postgresql.py:294-316 | A single failure exactly one window old: the source refuses the bucket, what it migrates to does not. |
| TaskGraph.Traversal.Visit | scripts/validate-program-state.py:236-246 | The recursive visit terminates; it returns with the node finished after its dependencies, or reports a path that ends in a cycle. |
| TaskGraph.ValidateTaskGraph | scripts/validate-program-state.py:206-249 | Accepts exactly the well-formed acyclic graphs, finishing order topological; a reported path has a suffix that is a cycle of the graph. |
| TaskGraph.TopologicalIsAcyclic | scripts/validate-program-state.py:233-249 | A graph with a topological order has no cycle, of whatever length. |
| Campaign.CopyPayload | backend/agency_runtime/campaign_intelligence.py:86-161 | The loop over platforms builds the specified variants, a repeated platform keeping its place. |
| Campaign.CritiquePayload | backend/agency_runtime/campaign_intelligence.py:207-335 | The report names the same checks in the same order whatever the copy; publication is eligible exactly if every political check passes, and the overall verdict always agrees with that. |
| CampaignAgreement.EveryPlatformHasCopy | backend/agency_runtime/campaign_intelligence.py:105-134 | The deck has a variant for every platform of the brief and for no other. |
| CampaignAgreement.RenderedCopyIsVisible | backend/agency_runtime/campaign_intelligence.py:232-269 | On rendered copy, source visibility, disclosure and office alignment always pass, and the mapped ids are the supported ones. |
| CampaignAgreement.EvidenceVerifiedIff | backend/agency_runtime/campaign_intelligence.py:279-286 | The evidence check passes exactly when every claim is verified and no two share an id. |
| CampaignAgreement.EligibleIff | backend/agency_runtime/campaign_intelligence.py:207-321 | The critic finds rendered political copy eligible exactly when the locale is Spanish, all claims are verified under distinct ids, legal review is approved, and the text screens pass. |
| CampaignAgreement.GateOpensIff | backend/agency_runtime/campaign_intelligence.py:207-335 | For every valid brief the Greenlight gate opens unless the brief is political and fails that condition. |
| TextSearch.LowerContains | backend/agency_runtime/campaign_intelligence.py:232-269 | A substring stays one when both sides are lower-cased character by character. |

## Left out

- SQL, connections, driver errors and JSON: tables are maps, transactions are atomic, a stored document is the run itself.
- SHA-256, HMAC signing of checkpoints and base64url: digests are parameters, signing is not part of this model.
- Several API processes over one PostgreSQL database: commands of the service are atomic here. Only the reservation of model effects and the two saves of a worker are interleaved with others.
- Order of sorted bucket lists and of sorted graph nodes: lists are taken in the order in which they are looked at; it decides which bucket's wait or which cycle is reported, not whether.
- Recursion depth of the graph visit, and the checks of blockers after it.
- Titles and detail texts of artifacts, agents and trace events; payloads of stations that no other code reads are parameters.
- Memory observations written after each station: only that writing them may raise is modelled.
- Clock readings are arbitrary; wall-clock parsing and time zones are not modelled.
- `find_text_risks` and `unsupported_numeric_tokens`: predicates given as parameters. Lower-casing works character by character, so the context rule for a final sigma is not covered.
- Order of copy variants after a round trip through a document with sorted keys: all variants of a political brief have the same text.
- Fields of a media record beyond channel, identity, address and digest; the media store, OAuth and social stores are seen only through what they return.
- `AgencyRuntime.AgencyOrchestrator.StartRun`: looking up and restoring runs by id in the orchestrator's dictionary is not modelled beyond the set of ids it remembers, since the service restores a run from its stored document before every operation.
- `LiveService.RuntimeService.AttachPublicationMedia`: identifiers, address and digest of the media and the reservation's answer are parameters, because the media store and the signing of addresses are not part of this model.
- `LiveService.RuntimeService.AttachModelEffectResult`: takes the effect result as a parameter; `EffectsAndRuns` attaches only what the effect table holds as succeeded.
- `LateEffects.LateEffectIsPaidInVain`: an effect may be prepared for any waiting run; that its source artifact belongs to the station is not checked there.
- `AgencyRuntime.DecideRun`: says nothing about the run object when packaging raises, because the service discards it.
- `LiveService.RuntimeService.ExecuteOne`: the method is a worker that survives; a crash between its two transactions is an action of `Service`.
- HTTP routing, sessions, cookies, credentials, metrics, backup file handling, rendering and the remaining validators.
