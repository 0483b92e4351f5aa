/**
 The model-effect authority (`model_effect.py`) as a protocol over the durable table.

 `ModelEffectAuthority.execute` is a small program run by any number of callers. Each of its steps is one
 action below, actions of different callers interleave freely, a crash can stop a caller between any two
 of them, and anybody may invoke the other store operations at any time with any arguments. The provider
 is an oracle: its reply is part of the action.
 */
module ModelEffect {
  import opened Prelude
  import opened ModelEffectStore

  datatype Command = Command(
    tenantId: string,
    runId: string,
    station: string,
    sourceArtifactId: string,
    sourceArtifactHash: string,
    instruction: string,
    maxCostMicros: int,
    idempotencyKey: string)

  datatype Descriptor = Descriptor(
    providerId: string,
    model: string,
    endpointHost: string,
    requestSha256: string,
    maxOutputTokens: int)

  datatype Binding = Binding(
    tenantId: string,
    runId: string,
    station: string,
    sourceArtifactId: string,
    sourceArtifactHash: string,
    instructionHash: string,
    providerId: string,
    model: string,
    endpointHost: string,
    requestSha256: string,
    maxOutputTokens: int,
    maxCostMicros: int)

  /** The digests and identifiers the authority derives, all abstract. */
  datatype Derivation = Derivation(
    store: Env,
    isSpace: char -> bool,
    bindingDigest: Binding -> Sha256,
    effectId: (string, string) -> string)

  datatype ProviderReceipt = ProviderReceipt(
    providerId: string,
    model: string,
    providerRequestId: string,
    inputTokens: int,
    outputTokens: int,
    totalTokens: int,
    requestSha256: string,
    outputSha256: string)

  /** What `gateway.complete` does: raise a provider error, answer, or raise anything else. */
  datatype Reply = ProviderError | Answer(text: string, receipt: ProviderReceipt) | Escaped

  datatype EffectResult = EffectResult(
    effectId: string,
    tenantId: string,
    runId: string,
    station: string,
    sourceArtifactId: string,
    sourceArtifactHash: string,
    providerId: string,
    model: string,
    status: Status,
    fence: int,
    outputText: string,
    outputSha256: string,
    receipt: Receipt,
    replayed: bool)

  function FromIntent(row: Intent, replayed: bool): EffectResult {
    EffectResult(row.effectId, row.tenantId, row.runId, row.station, row.sourceArtifactId,
                 row.sourceArtifactHash, row.providerId, row.model, row.status, row.fence,
                 row.outputText, row.outputSha256, row.receipt, replayed)
  }

  // ---------------------------------------------------------------- building the intent

  predicate IsIdentity(value: string) { 1 <= |value| <= 256 }

  predicate IsCommand(d: Derivation, command: Command) {
    && IsIdentity(command.tenantId) && IsIdentity(command.runId) && IsIdentity(command.station)
    && IsIdentity(command.sourceArtifactId)
    && IsSha256(command.sourceArtifactHash)
    && Strip(d.isSpace, command.instruction) != ""
    && Utf8Length(Strip(d.isSpace, command.instruction)) <= 4096
    && 0 <= command.maxCostMicros <= MAX_COST_MICROS
    && 8 <= |command.idempotencyKey| <= 200
  }

  function BindingOf(d: Derivation, command: Command, descriptor: Descriptor): Binding {
    Binding(command.tenantId, command.runId, command.station, command.sourceArtifactId,
            command.sourceArtifactHash, d.store.sha256(Strip(d.isSpace, command.instruction)),
            descriptor.providerId, descriptor.model, descriptor.endpointHost, descriptor.requestSha256,
            descriptor.maxOutputTokens, command.maxCostMicros)
  }

  function BuildIntent(d: Derivation, command: Command, descriptor: Descriptor, now: string): Intent {
    var binding := BindingOf(d, command, descriptor);
    var idempotencyDigest := d.store.sha256(command.idempotencyKey);
    Intent(d.effectId(command.tenantId, idempotencyDigest), command.tenantId, command.runId, command.station,
           command.sourceArtifactId, command.sourceArtifactHash, binding.instructionHash,
           descriptor.providerId, descriptor.model, descriptor.endpointHost, descriptor.requestSha256,
           descriptor.maxOutputTokens, command.maxCostMicros, idempotencyDigest, d.bindingDigest(binding),
           Pending, 1, "", "", map[], "", now, now, None, None)
  }

  /** The answer is accepted only when its receipt repeats the descriptor and the digest of the text. */
  predicate ReceiptAccepted(d: Derivation, descriptor: Descriptor, text: string, receipt: ProviderReceipt) {
    && receipt.providerId == descriptor.providerId
    && receipt.model == descriptor.model
    && receipt.requestSha256 == descriptor.requestSha256
    && receipt.outputSha256 == d.store.sha256(text)
  }

  function DurableReceipt(intent: Intent, receipt: ProviderReceipt): Receipt {
    map["provider_id" := Text(receipt.providerId),
        "model" := Text(receipt.model),
        "provider_request_id" := Text(receipt.providerRequestId),
        "input_tokens" := Number(receipt.inputTokens),
        "output_tokens" := Number(receipt.outputTokens),
        "total_tokens" := Number(receipt.totalTokens),
        "request_sha256" := Text(receipt.requestSha256),
        "output_sha256" := Text(receipt.outputSha256),
        "effect_binding_digest" := Text(intent.bindingDigest),
        "execution_fencing_token" := Number(intent.fence),
        "max_cost_micros" := Number(intent.maxCostMicros)]
  }

  // ---------------------------------------------------------------- the system

  /** Where one caller of `execute` stands. The second group is final. */
  datatype Caller =
    | Prepared(intent: Intent, descriptor: Descriptor)
    | Executable(intent: Intent, descriptor: Descriptor)
    | Completing(intent: Intent, text: string, receipt: Receipt)
    | Reading(intent: Intent)
    | Marking(intent: Intent, reason: string)
    | Returned(result: EffectResult)
    | Blocked(status: Status)
    | OutcomeUnknown(intent: Intent)
    | Raised
    | Crashed

  /** One request to the paid provider. */
  datatype Call = Call(tenantId: string, effectId: string, idempotencyDigest: string, bindingDigest: string)

  datatype System = System(table: Table, callers: map<nat, Caller>, calls: seq<Call>)

  const Initial := System(map[], map[], [])

  /** A transaction that raises in the driver may or may not have been committed. */
  datatype Fault = NoFault | LostBeforeCommit | LostAfterCommit

  datatype StoreCall =
    | DoComplete(now: string, tenantId: string, effectId: string, fence: int, text: string, receipt: Receipt)
    | DoMarkUnknown(now: string, tenantId: string, effectId: string, fence: int, reason: string)
    | DoMarkFailed(now: string, tenantId: string, effectId: string, fence: int, reason: string)
    | DoReconcile(now: string, tenantId: string, effectId: string, text: string, receipt: Receipt)
    | DoRevoke(now: string, tenantId: string, runId: string, reason: string)

  datatype Action =
    | Begin(caller: nat, command: Command, enabled: bool, descriptor: Option<Descriptor>, now: string)
    | Reserve(caller: nat)
    | CallProvider(caller: nat, reply: Reply)
    | CommitResult(caller: nat, now: string, fault: Fault)
    | ReadBack(caller: nat, lost: bool)
    | RecordUnknown(caller: nat, now: string, fault: Fault)
    | Crash(caller: nat)
    | Other(call: StoreCall)

  function Move(s: System, caller: nat, to: Caller): System {
    s.(callers := s.callers[caller := to])
  }

  function AfterCommit(table: Table, r: Result<Table, StoreError>, fault: Fault): Table {
    if r.Ok? && fault != LostBeforeCommit then r.value else table
  }

  function Perform(env: Env, table: Table, call: StoreCall): Table {
    var r := match call
      case DoComplete(now, t, e, f, text, receipt) => Complete(env, table, now, t, e, f, text, receipt)
      case DoMarkUnknown(now, t, e, f, reason) => MarkUnknown(env, table, now, t, e, f, reason)
      case DoMarkFailed(now, t, e, f, reason) => MarkFailed(env, table, now, t, e, f, reason)
      case DoReconcile(now, t, e, text, receipt) => ReconcileSuccess(env, table, now, t, e, text, receipt)
      case DoRevoke(now, t, run, reason) => RevokeUnused(table, now, t, run, reason);
    AfterCommit(table, r, NoFault)
  }

  function BeginStep(d: Derivation, s: System, a: Action): System
    requires a.Begin?
  {
    if a.caller in s.callers then s
    else if !a.enabled || !IsCommand(d, a.command) || a.descriptor.None? then Move(s, a.caller, Raised)
    else Move(s, a.caller, Prepared(BuildIntent(d, a.command, a.descriptor.value, a.now), a.descriptor.value))
  }

  /** The caller after its reservation was answered. */
  function AfterReservation(r: Result<Reservation, StoreError>, descriptor: Descriptor): Caller {
    match r
    case Err(_) => Raised
    case Ok(Reservation(row, executable, replayed)) =>
      if executable then Executable(row, descriptor)
      else if replayed then Returned(FromIntent(row, true))
      else Blocked(row.status)
  }

  ghost function ReserveAction(d: Derivation, s: System, caller: nat): System
    requires caller in s.callers && s.callers[caller].Prepared?
  {
    var Prepared(intent, descriptor) := s.callers[caller];
    var (after, r) := ReserveStep(d.store, s.table, intent);
    Move(s.(table := after), caller, AfterReservation(r, descriptor))
  }

  /** Where the provider's reply sends the caller. */
  function AfterReply(d: Derivation, intent: Intent, descriptor: Descriptor, reply: Reply): Caller {
    match reply
    case ProviderError => Marking(intent, "provider_outcome_unknown")
    case Escaped => Raised
    case Answer(text, receipt) =>
      if ReceiptAccepted(d, descriptor, text, receipt)
      then Completing(intent, text, DurableReceipt(intent, receipt))
      else Marking(intent, "provider_receipt_invalid")
  }

  function CallOf(intent: Intent): Call {
    Call(intent.tenantId, intent.effectId, intent.idempotencyDigest, intent.bindingDigest)
  }

  function CallAction(d: Derivation, s: System, caller: nat, reply: Reply): System
    requires caller in s.callers && s.callers[caller].Executable?
  {
    var Executable(intent, descriptor) := s.callers[caller];
    Move(s.(calls := s.calls + [CallOf(intent)]), caller, AfterReply(d, intent, descriptor, reply))
  }

  function CommitAction(d: Derivation, s: System, caller: nat, now: string, fault: Fault): System
    requires caller in s.callers && s.callers[caller].Completing?
  {
    var Completing(intent, text, receipt) := s.callers[caller];
    var r := Complete(d.store, s.table, now, intent.tenantId, intent.effectId, intent.fence, text, receipt);
    Move(s.(table := AfterCommit(s.table, r, fault)), caller,
         if r.Ok? && fault == NoFault then Reading(intent)
         else Marking(intent, "result_persistence_uncertain"))
  }

  function ReadAction(s: System, caller: nat, lost: bool): System
    requires caller in s.callers && s.callers[caller].Reading?
  {
    var intent := s.callers[caller].intent;
    var r := Get(s.table, intent.tenantId, intent.effectId);
    Move(s, caller, if r.Ok? && !lost then Returned(FromIntent(r.value, false))
                    else Marking(intent, "result_persistence_uncertain"))
  }

  function RecordAction(d: Derivation, s: System, caller: nat, now: string, fault: Fault): System
    requires caller in s.callers && s.callers[caller].Marking?
  {
    var Marking(intent, reason) := s.callers[caller];
    var r := MarkUnknown(d.store, s.table, now, intent.tenantId, intent.effectId, intent.fence, reason);
    Move(s.(table := AfterCommit(s.table, r, fault)), caller,
         if fault == NoFault && (r.Ok? || r.error == WrongState) then OutcomeUnknown(intent) else Raised)
  }

  predicate Active(caller: Caller) {
    caller.Prepared? || caller.Executable? || caller.Completing? || caller.Reading? || caller.Marking?
  }

  /** One step of the whole system; an action whose caller is not at that point does nothing. */
  ghost function Step(d: Derivation, s: System, a: Action): System {
    match a
    case Begin(_, _, _, _, _) => BeginStep(d, s, a)
    case Reserve(c) => if c in s.callers && s.callers[c].Prepared? then ReserveAction(d, s, c) else s
    case CallProvider(c, reply) =>
      if c in s.callers && s.callers[c].Executable? then CallAction(d, s, c, reply) else s
    case CommitResult(c, now, fault) =>
      if c in s.callers && s.callers[c].Completing? then CommitAction(d, s, c, now, fault) else s
    case ReadBack(c, lost) =>
      if c in s.callers && s.callers[c].Reading? then ReadAction(s, c, lost) else s
    case RecordUnknown(c, now, fault) =>
      if c in s.callers && s.callers[c].Marking? then RecordAction(d, s, c, now, fault) else s
    case Crash(c) => if c in s.callers && Active(s.callers[c]) then Move(s, c, Crashed) else s
    case Other(call) => s.(table := Perform(d.store, s.table, call))
  }

  ghost function Run(d: Derivation, s: System, actions: seq<Action>): System
    decreases |actions|
  {
    if actions == [] then s
    else Step(d, Run(d, s, actions[..|actions| - 1]), actions[|actions| - 1])
  }

  // ---------------------------------------------------------------- the invariant

  /** The row a caller inserted is still there and has only evolved. */
  ghost predicate Owns(table: Table, intent: Intent) {
    && intent.status == Pending
    && intent.effectId in table
    && RowEvolves(intent, table[intent.effectId])
  }

  ghost predicate Called(s: System, effectId: string) {
    exists i | 0 <= i < |s.calls| :: s.calls[i].effectId == effectId
  }

  ghost predicate CallRecorded(table: Table, call: Call) {
    && call.effectId in table
    && table[call.effectId].tenantId == call.tenantId
    && table[call.effectId].idempotencyDigest == call.idempotencyDigest
    && table[call.effectId].bindingDigest == call.bindingDigest
  }

  ghost predicate CallerConsistent(s: System, caller: Caller) {
    match caller
    case Prepared(_, _) | Blocked(_) | Raised | Crashed => true
    case Executable(intent, _) => Owns(s.table, intent) && !Called(s, intent.effectId)
    case Completing(intent, _, _) => Owns(s.table, intent) && Called(s, intent.effectId)
    case Marking(intent, _) => Owns(s.table, intent) && Called(s, intent.effectId)
    case Reading(intent) =>
      Owns(s.table, intent) && Called(s, intent.effectId) && s.table[intent.effectId].status == Succeeded
    case OutcomeUnknown(intent) =>
      Owns(s.table, intent) && Called(s, intent.effectId) && s.table[intent.effectId].status != Pending
    case Returned(result) =>
      && result.effectId in s.table
      && s.table[result.effectId].status == Succeeded
      && result == FromIntent(s.table[result.effectId], result.replayed)
      && (!result.replayed ==> Called(s, result.effectId))
  }

  ghost predicate Inv(d: Derivation, s: System) {
    && TableConsistent(d.store, s.table)
    && (forall i | 0 <= i < |s.calls| :: CallRecorded(s.table, s.calls[i]))
    && (forall i, j | 0 <= i < j < |s.calls| :: s.calls[i].effectId != s.calls[j].effectId)
    && (forall c | c in s.callers :: CallerConsistent(s, s.callers[c]))
    && (forall b, c | b in s.callers && c in s.callers && b != c
          && s.callers[b].Executable? && s.callers[c].Executable? ::
          s.callers[b].intent.effectId != s.callers[c].intent.effectId)
  }

  lemma RowEvolvesTransitive(a: Intent, b: Intent, c: Intent)
    requires RowEvolves(a, b) && RowEvolves(b, c)
    ensures RowEvolves(a, c)
    ensures b.status == Succeeded ==> c == b
    ensures b.status != Pending ==> c.status != Pending
  {
  }

  lemma CallerSurvives(s: System, after: Table, caller: Caller)
    requires Evolves(s.table, after) && CallerConsistent(s, caller)
    ensures CallerConsistent(s.(table := after), caller)
  {
    assert forall id :: Called(s.(table := after), id) <==> Called(s, id);
    hide RowEvolves, FromIntent;
    match caller
    case Executable(intent, _) =>
      RowEvolvesTransitive(intent, s.table[intent.effectId], after[intent.effectId]);
    case Completing(intent, _, _) =>
      RowEvolvesTransitive(intent, s.table[intent.effectId], after[intent.effectId]);
    case Marking(intent, _) =>
      RowEvolvesTransitive(intent, s.table[intent.effectId], after[intent.effectId]);
    case Reading(intent) =>
      RowEvolvesTransitive(intent, s.table[intent.effectId], after[intent.effectId]);
    case OutcomeUnknown(intent) =>
      RowEvolvesTransitive(intent, s.table[intent.effectId], after[intent.effectId]);
    case Returned(result) =>
      RowStays(s.table[result.effectId], after[result.effectId]);
    case _ =>
  }

  lemma RowStays(before: Intent, after: Intent)
    requires RowEvolves(before, after) && Terminal(before.status)
    ensures after == before
  {
  }

  lemma TableChangeKeeps(d: Derivation, s: System, after: Table)
    requires Inv(d, s) && TableConsistent(d.store, after) && Evolves(s.table, after)
    ensures Inv(d, s.(table := after))
  {
    forall i | 0 <= i < |s.calls| ensures CallRecorded(after, s.calls[i]) {
      assert CallRecorded(s.table, s.calls[i]);
    }
    forall c | c in s.callers ensures CallerConsistent(s.(table := after), s.callers[c]) {
      CallerSurvives(s, after, s.callers[c]);
    }
  }

  lemma MoveKeeps(d: Derivation, s: System, caller: nat, to: Caller)
    requires Inv(d, s) && CallerConsistent(s, to)
    requires to.Executable? ==>
               forall c | c in s.callers && c != caller && s.callers[c].Executable? ::
                 s.callers[c].intent.effectId != to.intent.effectId
    ensures Inv(d, Move(s, caller, to))
  {
    var after := Move(s, caller, to);
    assert forall id :: Called(after, id) <==> Called(s, id);
    forall c | c in after.callers ensures CallerConsistent(after, after.callers[c]) {
      assert c == caller || CallerConsistent(s, s.callers[c]);
      assert after.table == s.table && after.calls == s.calls;
      assert CallerConsistent(s, after.callers[c]) <==> CallerConsistent(after, after.callers[c]);
    }
  }

  lemma ReserveInv(d: Derivation, s: System, caller: nat)
    requires Inv(d, s) && caller in s.callers && s.callers[caller].Prepared?
    ensures Inv(d, ReserveAction(d, s, caller)) && Evolves(s.table, ReserveAction(d, s, caller).table)
  {
    var Prepared(intent, descriptor) := s.callers[caller];
    var (after, r) := ReserveStep(d.store, s.table, intent);
    ReserveKeeps(d.store, s.table, intent);
    TableChangeKeeps(d, s, after);
    var s' := s.(table := after);
    if r.Ok? {
      if r.value.executable {
        assert intent.effectId !in s.table;
        forall i | 0 <= i < |s.calls| ensures s.calls[i].effectId != intent.effectId {
          assert CallRecorded(s.table, s.calls[i]);
        }
        forall c | c in s.callers && s.callers[c].Executable?
          ensures s.callers[c].intent.effectId != intent.effectId
        {
          assert CallerConsistent(s, s.callers[c]);
        }
        assert CallerConsistent(s', Executable(r.value.intent, descriptor));
        MoveKeeps(d, s', caller, Executable(r.value.intent, descriptor));
      } else if r.value.replayed {
        MoveKeeps(d, s', caller, Returned(FromIntent(r.value.intent, true)));
      } else {
        MoveKeeps(d, s', caller, Blocked(r.value.intent.status));
      }
    } else {
      MoveKeeps(d, s, caller, Raised);
    }
  }

  lemma AppendCallKeeps(d: Derivation, s: System, call: Call)
    requires Inv(d, s) && CallRecorded(s.table, call) && !Called(s, call.effectId)
    requires forall c | c in s.callers && s.callers[c].Executable? ::
               s.callers[c].intent.effectId != call.effectId
    ensures Inv(d, s.(calls := s.calls + [call]))
  {
    var after := s.(calls := s.calls + [call]);
    forall id ensures Called(after, id) <==> Called(s, id) || id == call.effectId {
      assert after.calls[|s.calls|] == call;
      assert forall i | 0 <= i < |s.calls| :: after.calls[i] == s.calls[i];
    }
    forall i, j | 0 <= i < j < |after.calls| ensures after.calls[i].effectId != after.calls[j].effectId {
      assert after.calls[i] == s.calls[i];
    }
    forall c | c in after.callers ensures CallerConsistent(after, after.callers[c]) {
      assert CallerConsistent(s, s.callers[c]);
    }
  }

  /** Only a caller whose insert was fresh calls the provider, so no second call can name the same row. */
  lemma PaidInv(d: Derivation, s: System, caller: nat)
    requires Inv(d, s) && caller in s.callers && s.callers[caller].Executable?
    ensures var intent := s.callers[caller].intent;
            var paid := Move(s, caller, Raised).(calls := s.calls + [CallOf(intent)]);
            Inv(d, paid) && Owns(paid.table, intent) && Called(paid, intent.effectId)
  {
    var intent := s.callers[caller].intent;
    assert CallerConsistent(s, s.callers[caller]);
    var idle := Move(s, caller, Raised);
    MoveKeeps(d, s, caller, Raised);
    assert !Called(idle, intent.effectId) by {
      assert !Called(s, intent.effectId);
    }
    AppendCallKeeps(d, idle, CallOf(intent));
    var paid := idle.(calls := s.calls + [CallOf(intent)]);
    assert paid.calls[|s.calls|] == CallOf(intent);
  }

  lemma CallInv(d: Derivation, s: System, caller: nat, reply: Reply)
    requires Inv(d, s) && caller in s.callers && s.callers[caller].Executable?
    ensures Inv(d, CallAction(d, s, caller, reply))
  {
    hide *;
    var k := s.callers[caller];
    PaidInv(d, s, caller);
    var paid := Move(s, caller, Raised).(calls := s.calls + [CallOf(k.intent)]);
    var to := AfterReply(d, k.intent, k.descriptor, reply);
    RepliedConsistent(d, paid, k.intent, k.descriptor, reply);
    MoveKeeps(d, paid, caller, to);
    CallActionIs(d, s, caller, reply);
  }

  lemma RepliedConsistent(d: Derivation, paid: System, intent: Intent, descriptor: Descriptor, reply: Reply)
    requires Owns(paid.table, intent) && Called(paid, intent.effectId)
    ensures var to := AfterReply(d, intent, descriptor, reply); CallerConsistent(paid, to) && !to.Executable?
  {
    hide Owns, Called, ReceiptAccepted, DurableReceipt;
  }

  lemma CallActionIs(d: Derivation, s: System, caller: nat, reply: Reply)
    requires caller in s.callers && s.callers[caller].Executable?
    ensures var k := s.callers[caller];
            Move(Move(s, caller, Raised).(calls := s.calls + [CallOf(k.intent)]), caller,
                 AfterReply(d, k.intent, k.descriptor, reply))
            == CallAction(d, s, caller, reply)
  {
    hide AfterReply;
  }

  lemma CommitInv(d: Derivation, s: System, caller: nat, now: string, fault: Fault)
    requires Inv(d, s) && caller in s.callers && s.callers[caller].Completing?
    ensures Inv(d, CommitAction(d, s, caller, now, fault))
    ensures Evolves(s.table, CommitAction(d, s, caller, now, fault).table)
  {
    var Completing(intent, text, receipt) := s.callers[caller];
    assert CallerConsistent(s, s.callers[caller]);
    var r := Complete(d.store, s.table, now, intent.tenantId, intent.effectId, intent.fence, text, receipt);
    TransitionKeeps(d.store, s.table, now, intent.tenantId, intent.effectId, intent.fence,
                    CompletionChange(d.store, text, receipt));
    EvolvesReflexive(s.table);
    var after := AfterCommit(s.table, r, fault);
    TableChangeKeeps(d, s, after);
    CallerSurvives(s, after, s.callers[caller]);
    MoveKeeps(d, s.(table := after), caller,
              if r.Ok? && fault == NoFault then Reading(intent)
              else Marking(intent, "result_persistence_uncertain"));
  }

  lemma ReadInv(d: Derivation, s: System, caller: nat, lost: bool)
    requires Inv(d, s) && caller in s.callers && s.callers[caller].Reading?
    ensures Inv(d, ReadAction(s, caller, lost))
  {
    assert CallerConsistent(s, s.callers[caller]);
    var intent := s.callers[caller].intent;
    var r := Get(s.table, intent.tenantId, intent.effectId);
    assert s.table[intent.effectId].effectId == intent.effectId;
    MoveKeeps(d, s, caller, if r.Ok? && !lost then Returned(FromIntent(r.value, false))
                            else Marking(intent, "result_persistence_uncertain"));
  }

  lemma RecordInv(d: Derivation, s: System, caller: nat, now: string, fault: Fault)
    requires Inv(d, s) && caller in s.callers && s.callers[caller].Marking?
    ensures Inv(d, RecordAction(d, s, caller, now, fault))
    ensures Evolves(s.table, RecordAction(d, s, caller, now, fault).table)
  {
    var Marking(intent, reason) := s.callers[caller];
    assert CallerConsistent(s, s.callers[caller]);
    var r := MarkUnknown(d.store, s.table, now, intent.tenantId, intent.effectId, intent.fence, reason);
    TransitionKeeps(d.store, s.table, now, intent.tenantId, intent.effectId, intent.fence,
                    OutcomeChange(Unknown, reason));
    EvolvesReflexive(s.table);
    var after := AfterCommit(s.table, r, fault);
    TableChangeKeeps(d, s, after);
    CallerSurvives(s, after, s.callers[caller]);
    MoveKeeps(d, s.(table := after), caller,
              if fault == NoFault && (r.Ok? || r.error == WrongState) then OutcomeUnknown(intent) else Raised);
  }

  lemma PerformKeeps(env: Env, table: Table, call: StoreCall)
    requires TableConsistent(env, table)
    ensures TableConsistent(env, Perform(env, table, call)) && Evolves(table, Perform(env, table, call))
  {
    EvolvesReflexive(table);
    match call
    case DoComplete(now, t, e, f, text, receipt) =>
      TransitionKeeps(env, table, now, t, e, f, CompletionChange(env, text, receipt));
    case DoMarkUnknown(now, t, e, f, reason) => TransitionKeeps(env, table, now, t, e, f, OutcomeChange(Unknown, reason));
    case DoMarkFailed(now, t, e, f, reason) => TransitionKeeps(env, table, now, t, e, f, OutcomeChange(Failed, reason));
    case DoReconcile(now, t, e, text, receipt) => ReconcileKeeps(env, table, now, t, e, text, receipt);
    case DoRevoke(now, t, run, reason) => RevokeKeeps(env, table, now, t, run, reason);
  }

  /** Every action keeps the invariant and lets every row only evolve. */
  lemma StepInv(d: Derivation, s: System, a: Action)
    requires Inv(d, s)
    ensures Inv(d, Step(d, s, a)) && Evolves(s.table, Step(d, s, a).table)
  {
    EvolvesReflexive(s.table);
    match a
    case Begin(c, command, enabled, descriptor, now) =>
      if c !in s.callers {
        MoveKeeps(d, s, c, if !enabled || !IsCommand(d, command) || descriptor.None? then Raised
                           else Prepared(BuildIntent(d, command, descriptor.value, now), descriptor.value));
      }
    case Reserve(c) => if c in s.callers && s.callers[c].Prepared? { ReserveInv(d, s, c); }
    case CallProvider(c, reply) => if c in s.callers && s.callers[c].Executable? { CallInv(d, s, c, reply); }
    case CommitResult(c, now, fault) =>
      if c in s.callers && s.callers[c].Completing? { CommitInv(d, s, c, now, fault); }
    case ReadBack(c, lost) => if c in s.callers && s.callers[c].Reading? { ReadInv(d, s, c, lost); }
    case RecordUnknown(c, now, fault) =>
      if c in s.callers && s.callers[c].Marking? { RecordInv(d, s, c, now, fault); }
    case Crash(c) => if c in s.callers && Active(s.callers[c]) { MoveKeeps(d, s, c, Crashed); }
    case Other(call) =>
      PerformKeeps(d.store, s.table, call);
      TableChangeKeeps(d, s, Perform(d.store, s.table, call));
  }

  lemma {:induction false} RunInv(d: Derivation, s: System, actions: seq<Action>)
    requires Inv(d, s)
    ensures Inv(d, Run(d, s, actions)) && Evolves(s.table, Run(d, s, actions).table)
    decreases |actions|
  {
    if actions == [] {
      EvolvesReflexive(s.table);
    } else {
      var before := Run(d, s, actions[..|actions| - 1]);
      RunInv(d, s, actions[..|actions| - 1]);
      StepInv(d, before, actions[|actions| - 1]);
      EvolvesTransitive(s.table, before.table, Run(d, s, actions).table);
    }
  }

  // ---------------------------------------------------------------- main results

  /**
   At most one paid call: whatever the interleaving, crashes and lost commits, two calls of one tenant
   never share an idempotency key and never share a binding.
   */
  lemma AtMostOneCall(d: Derivation, actions: seq<Action>, i: nat, j: nat)
    requires i < j < |Run(d, Initial, actions).calls|
    ensures var calls := Run(d, Initial, actions).calls;
            calls[i].tenantId == calls[j].tenantId ==>
              && calls[i].idempotencyDigest != calls[j].idempotencyDigest
              && calls[i].bindingDigest != calls[j].bindingDigest
  {
    var s := Run(d, Initial, actions);
    RunInv(d, Initial, actions);
    assert CallRecorded(s.table, s.calls[i]) && CallRecorded(s.table, s.calls[j]);
    var a, b := s.calls[i].effectId, s.calls[j].effectId;
    assert !SameIdempotency(s.table[a], s.table[b]) && !SameBinding(s.table[a], s.table[b]);
  }

  /** A settled row is never written again, by anybody. */
  lemma SettledRowsFrozen(d: Derivation, earlier: seq<Action>, later: seq<Action>, effectId: string)
    requires effectId in Run(d, Initial, earlier).table
    requires Terminal(Run(d, Initial, earlier).table[effectId].status)
    ensures effectId in Run(d, Run(d, Initial, earlier), later).table
    ensures Run(d, Run(d, Initial, earlier), later).table[effectId] == Run(d, Initial, earlier).table[effectId]
  {
    RunInv(d, Initial, earlier);
    RunInv(d, Run(d, Initial, earlier), later);
  }

  /** When `execute` returns, the durable row is succeeded, is what was returned, and its digest is right. */
  lemma ReturnedIsDurable(d: Derivation, actions: seq<Action>, caller: nat)
    requires var s := Run(d, Initial, actions); caller in s.callers && s.callers[caller].Returned?
    ensures var s := Run(d, Initial, actions);
            var result := s.callers[caller].result;
            && result.effectId in s.table
            && s.table[result.effectId].status == Succeeded
            && result == FromIntent(s.table[result.effectId], result.replayed)
            && result.outputSha256 == d.store.sha256(result.outputText)
  {
    var s := Run(d, Initial, actions);
    RunInv(d, Initial, actions);
    assert CallerConsistent(s, s.callers[caller]);
    assert RowConsistent(d.store, s.table[s.callers[caller].result.effectId]);
  }

  /** A caller told that the outcome is unknown never leaves its row pending. */
  lemma UnknownIsRecorded(d: Derivation, actions: seq<Action>, caller: nat)
    requires var s := Run(d, Initial, actions); caller in s.callers && s.callers[caller].OutcomeUnknown?
    ensures var s := Run(d, Initial, actions);
            var id := s.callers[caller].intent.effectId;
            id in s.table && s.table[id].status != Pending
  {
    var s := Run(d, Initial, actions);
    RunInv(d, Initial, actions);
    assert CallerConsistent(s, s.callers[caller]);
  }

  /** A fresh result was paid for exactly once; a replayed one by the same row's single call or none. */
  lemma FreshResultPaidOnce(d: Derivation, actions: seq<Action>, caller: nat)
    requires var s := Run(d, Initial, actions);
             caller in s.callers && s.callers[caller].Returned? && !s.callers[caller].result.replayed
    ensures var s := Run(d, Initial, actions);
            var id := s.callers[caller].result.effectId;
            exists i | 0 <= i < |s.calls| :: s.calls[i].effectId == id &&
              forall j | 0 <= j < |s.calls| && j != i :: s.calls[j].effectId != id
  {
    var s := Run(d, Initial, actions);
    RunInv(d, Initial, actions);
    assert CallerConsistent(s, s.callers[caller]);
    var i :| 0 <= i < |s.calls| && s.calls[i].effectId == s.callers[caller].result.effectId;
    forall j | 0 <= j < |s.calls| && j != i ensures s.calls[j].effectId != s.calls[i].effectId {
      if j < i { assert s.calls[j].effectId != s.calls[i].effectId; }
    }
  }

  /** The caller still works with the fence it reserved, but its row has been revoked. */
  ghost predicate Fenced(s: System, caller: nat) {
    && caller in s.callers
    && var c := s.callers[caller];
       || c.OutcomeUnknown? || c.Raised? || c.Crashed?
       || ((c.Executable? || c.Completing? || c.Marking?)
           && c.intent.effectId in s.table && s.table[c.intent.effectId].status == Revoked)
  }

  /** Once its row is revoked, a caller's completion never takes effect: it can only fail. */
  lemma {:induction false} RevokedCallerNeverReturns(d: Derivation, s: System, actions: seq<Action>, caller: nat)
    requires Inv(d, s) && Fenced(s, caller)
    ensures Fenced(Run(d, s, actions), caller)
    decreases |actions|
  {
    if actions != [] {
      var init := actions[..|actions| - 1];
      var before, a := Run(d, s, init), actions[|actions| - 1];
      RevokedCallerNeverReturns(d, s, init, caller);
      RunInv(d, s, init);
      StepInv(d, before, a);
      FencedStep(d, before, a, caller);
    }
  }

  predicate ActsFor(a: Action, caller: nat) {
    !a.Other? && a.caller == caller
  }

  /** An action moves no caller but its own. */
  lemma OthersStay(d: Derivation, s: System, a: Action, c: nat)
    requires !ActsFor(a, c)
    ensures c in Step(d, s, a).callers <==> c in s.callers
    ensures c in s.callers ==> Step(d, s, a).callers[c] == s.callers[c]
  {
  }

  /** A guarded update touches one row and needs it pending. */
  lemma TransitionIsLocal(env: Env, table: Table, now: string, tenantId: string, effectId: string, fence: int,
                          change: Change, fault: Fault)
    ensures var r := Transition(env, table, now, tenantId, effectId, fence, change);
            && (effectId in table && table[effectId].status != Pending ==> r.Err?)
            && (forall id | id in table && id != effectId ::
                  id in AfterCommit(table, r, fault) && AfterCommit(table, r, fault)[id] == table[id])
  {
  }

  lemma FencedMove(d: Derivation, s: System, a: Action, caller: nat)
    requires Inv(d, s) && Fenced(s, caller) && ActsFor(a, caller)
    ensures caller in Step(d, s, a).callers
    ensures var c, k := s.callers[caller], Step(d, s, a).callers[caller];
            || k.OutcomeUnknown? || k.Raised? || k.Crashed?
            || ((k.Executable? || k.Completing? || k.Marking?)
                && (c.Executable? || c.Completing? || c.Marking?) && k.intent == c.intent)
  {
    var c := s.callers[caller];
    match a
    case CallProvider(_, reply) =>
    case CommitResult(_, now, fault) =>
      if c.Completing? {
        TransitionIsLocal(d.store, s.table, now, c.intent.tenantId, c.intent.effectId, c.intent.fence,
                          CompletionChange(d.store, c.text, c.receipt), fault);
        assert Step(d, s, a) == CommitAction(d, s, caller, now, fault);
      }
    case RecordUnknown(_, now, fault) =>
    case Crash(_) =>
    case _ =>
  }

  lemma FencedStep(d: Derivation, s: System, a: Action, caller: nat)
    requires Inv(d, s) && Fenced(s, caller)
    requires Evolves(s.table, Step(d, s, a).table)
    ensures Fenced(Step(d, s, a), caller)
  {
    var c := s.callers[caller];
    if c.Executable? || c.Completing? || c.Marking? {
      assert RowEvolves(s.table[c.intent.effectId], Step(d, s, a).table[c.intent.effectId]);
    }
    if ActsFor(a, caller) {
      FencedMove(d, s, a, caller);
    } else {
      OthersStay(d, s, a, caller);
    }
  }

  // ---------------------------------------------------------------- primary keys

  ghost predicate Injective(f: (string, string) -> string) {
    forall t, k, u, l :: f(t, k) == f(u, l) ==> t == u && k == l
  }

  ghost predicate DerivedKeys(d: Derivation, s: System) {
    && (forall id | id in s.table :: id == d.effectId(s.table[id].tenantId, s.table[id].idempotencyDigest))
    && (forall c | c in s.callers && s.callers[c].Prepared? ::
          var i := s.callers[c].intent; i.effectId == d.effectId(i.tenantId, i.idempotencyDigest))
  }

  lemma DerivedKeysStep(d: Derivation, s: System, a: Action)
    requires Inv(d, s) && DerivedKeys(d, s)
    ensures DerivedKeys(d, Step(d, s, a))
  {
    var after := Step(d, s, a);
    StepInv(d, s, a);
    forall id | id in after.table
      ensures id == d.effectId(after.table[id].tenantId, after.table[id].idempotencyDigest)
    {
      if id in s.table {
        assert RowEvolves(s.table[id], after.table[id]);
      } else {
        TableGrowsByReserve(d, s, a, id);
      }
    }
    forall c | c in after.callers && after.callers[c].Prepared?
      ensures var i := after.callers[c].intent; i.effectId == d.effectId(i.tenantId, i.idempotencyDigest)
    {
      PreparedIsBuilt(d, s, a, c);
    }
  }

  lemma PreparedIsBuilt(d: Derivation, s: System, a: Action, c: nat)
    requires c in Step(d, s, a).callers && Step(d, s, a).callers[c].Prepared?
    ensures (c in s.callers && s.callers[c] == Step(d, s, a).callers[c])
            || (a.Begin? && a.descriptor.Some?
                && Step(d, s, a).callers[c].intent == BuildIntent(d, a.command, a.descriptor.value, a.now))
  {
    if !ActsFor(a, c) {
      OthersStay(d, s, a, c);
    }
  }

  lemma TableGrowsByReserve(d: Derivation, s: System, a: Action, id: string)
    requires Inv(d, s) && id !in s.table && id in Step(d, s, a).table
    ensures a.Reserve? && a.caller in s.callers && s.callers[a.caller].Prepared?
    ensures Step(d, s, a).table[id] == s.callers[a.caller].intent && s.callers[a.caller].intent.effectId == id
  {
    hide BuildIntent, IsCommand, FromIntent, TableConsistent, ReceiptAccepted, DurableReceipt, IsChange, Assign,
         Reconciled, RevokedRow, IsOutput, IsReceipt, IsIdentifier;
    if a.Other? {
      match a.call
      case DoRevoke(now, t, run, reason) => RevokeKeeps(d.store, s.table, now, t, run, reason);
      case _ =>
    } else if a.Reserve? && a.caller in s.callers && s.callers[a.caller].Prepared? {
      ReserveKeeps(d.store, s.table, s.callers[a.caller].intent);
    }
  }

  lemma {:induction false} DerivedKeysRun(d: Derivation, actions: seq<Action>)
    ensures DerivedKeys(d, Run(d, Initial, actions))
    decreases |actions|
  {
    if actions != [] {
      var init := actions[..|actions| - 1];
      DerivedKeysRun(d, init);
      RunInv(d, Initial, init);
      DerivedKeysStep(d, Run(d, Initial, init), actions[|actions| - 1]);
    }
  }

  /** In no reachable state does a reservation break a unique key or take the second conflict branch. */
  lemma ReserveNeverBreaksKeys(d: Derivation, actions: seq<Action>, caller: nat)
    requires Injective(d.effectId)
    requires var s := Run(d, Initial, actions); caller in s.callers && s.callers[caller].Prepared?
    ensures var s := Run(d, Initial, actions);
            var r := ReserveStep(d.store, s.table, s.callers[caller].intent).1;
            r != Err(UniqueViolation) && r != Err(BindingConflict)
  {
    var s := Run(d, Initial, actions);
    RunInv(d, Initial, actions);
    DerivedKeysRun(d, actions);
    ReserveKeeps(d.store, s.table, s.callers[caller].intent);
    FreshInsertNeverViolatesKeys(d.store, s.table, s.callers[caller].intent, d.effectId);
  }

  // ---------------------------------------------------------------- lost reservations

  /** The row is pending and no caller that could settle it is left. */
  ghost predicate Lost(s: System, effectId: string) {
    && effectId in s.table && s.table[effectId].status == Pending
    && forall c | c in s.callers ::
         var k := s.callers[c];
         (k.Executable? || k.Completing? || k.Marking?) ==> k.intent.effectId != effectId
  }

  /** What the HTTP interface lets its users do: execute, crash and reconcile. */
  predicate PublicAction(a: Action) {
    a.Other? ==> a.call.DoReconcile?
  }

  lemma LostStep(d: Derivation, s: System, a: Action, effectId: string)
    requires Inv(d, s) && Lost(s, effectId) && PublicAction(a)
    ensures Lost(Step(d, s, a), effectId) && Step(d, s, a).table[effectId] == s.table[effectId]
  {
    var after := Step(d, s, a);
    LostRowUntouched(d, s, a, effectId);
    forall c | c in after.callers
      ensures var k := after.callers[c];
              (k.Executable? || k.Completing? || k.Marking?) ==> k.intent.effectId != effectId
    {
      if !ActsFor(a, c) {
        OthersStay(d, s, a, c);
      } else {
        LostCallerElsewhere(d, s, a, c, effectId);
      }
    }
  }

  lemma LostRowUntouched(d: Derivation, s: System, a: Action, effectId: string)
    requires Inv(d, s) && Lost(s, effectId) && PublicAction(a)
    ensures effectId in Step(d, s, a).table && Step(d, s, a).table[effectId] == s.table[effectId]
  {
    match a
    case Reserve(c) =>
      if c in s.callers && s.callers[c].Prepared? {
        ReserveKeeps(d.store, s.table, s.callers[c].intent);
      }
    case CommitResult(c, now, fault) =>
      if c in s.callers && s.callers[c].Completing? {
        var Completing(i, text, receipt) := s.callers[c];
        TransitionIsLocal(d.store, s.table, now, i.tenantId, i.effectId, i.fence,
                          CompletionChange(d.store, text, receipt), fault);
      }
    case RecordUnknown(c, now, fault) =>
      if c in s.callers && s.callers[c].Marking? {
        var Marking(i, reason) := s.callers[c];
        TransitionIsLocal(d.store, s.table, now, i.tenantId, i.effectId, i.fence, OutcomeChange(Unknown, reason),
                          fault);
      }
    case _ =>
  }

  lemma LostCallerElsewhere(d: Derivation, s: System, a: Action, c: nat, effectId: string)
    requires Inv(d, s) && Lost(s, effectId) && ActsFor(a, c) && c in Step(d, s, a).callers
    ensures var k := Step(d, s, a).callers[c];
            (k.Executable? || k.Completing? || k.Marking?) ==> k.intent.effectId != effectId
  {
    hide RowEvolves, ReceiptAccepted, DurableReceipt, Complete, MarkUnknown, BuildIntent, IsCommand, FromIntent,
         TableConsistent;
    if c in s.callers {
      var k := s.callers[c];
      assert CallerConsistent(s, k);
      if a.Reserve? && k.Prepared? {
        ReserveKeeps(d.store, s.table, k.intent);
        assert Step(d, s, a) == ReserveAction(d, s, c);
      } else if a.CallProvider? && k.Executable? {
        assert Step(d, s, a) == CallAction(d, s, c, a.reply);
      } else if a.CommitResult? && k.Completing? {
        assert Step(d, s, a) == CommitAction(d, s, c, a.now, a.fault);
      } else if a.ReadBack? && k.Reading? {
        assert Step(d, s, a) == ReadAction(s, c, a.lost);
        assert s.table[k.intent.effectId].status == Succeeded;
      } else if a.RecordUnknown? && k.Marking? {
        assert Step(d, s, a) == RecordAction(d, s, c, a.now, a.fault);
      } else if a.Crash? && Active(k) {
        assert Step(d, s, a) == Move(s, c, Crashed);
      } else {
        assert Step(d, s, a) == s;
      }
    } else {
      assert a.Begin? ==> Step(d, s, a).callers[c].Raised? || Step(d, s, a).callers[c].Prepared?;
      assert !a.Begin? ==> Step(d, s, a) == s;
    }
  }

  /**
   Once nobody holds it, a pending row can be settled neither by retries nor by reconciliation: reconciling
   demands an unknown row, and no request of the interface makes it one.
   */
  lemma {:induction false} LostReservationStaysPending(d: Derivation, s: System, actions: seq<Action>, effectId: string)
    requires Inv(d, s) && Lost(s, effectId)
    requires forall i | 0 <= i < |actions| :: PublicAction(actions[i])
    ensures Lost(Run(d, s, actions), effectId)
    ensures Run(d, s, actions).table[effectId] == s.table[effectId]
    decreases |actions|
  {
    if actions != [] {
      var init := actions[..|actions| - 1];
      LostReservationStaysPending(d, s, init, effectId);
      RunInv(d, s, init);
      LostStep(d, Run(d, s, init), actions[|actions| - 1], effectId);
    }
  }

  // ---------------------------------------------------------------- one caller's program

  /** The actions of one undisturbed call of `execute`, in program order. */
  function Program(command: Command, enabled: bool, descriptor: Option<Descriptor>, reply: Reply,
                   now: string): seq<Action>
  {
    [Begin(0, command, enabled, descriptor, now), Reserve(0), CallProvider(0, reply),
     CommitResult(0, now, NoFault), ReadBack(0, false), RecordUnknown(0, now, NoFault)]
  }

  lemma RunSnoc(d: Derivation, s: System, actions: seq<Action>, a: Action)
    ensures Run(d, s, actions + [a]) == Step(d, Run(d, s, actions), a)
  {
    assert (actions + [a])[..|actions|] == actions;
  }

  ghost function Alone(d: Derivation, s: System, p: seq<Action>): System
    requires |p| == 6
  {
    Finish(d, Step(d, Step(d, Step(d, s, p[0]), p[1]), p[2]), p)
  }

  ghost function Finish(d: Derivation, s: System, p: seq<Action>): System
    requires |p| == 6
  {
    Step(d, Step(d, Step(d, s, p[3]), p[4]), p[5])
  }

  lemma AloneIsRun(d: Derivation, s: System, p: seq<Action>)
    requires |p| == 6
    ensures Alone(d, s, p) == Run(d, s, p)
  {
    assert p[..0] == [] && p[..6] == p;
    forall k | 0 <= k < 6 ensures Run(d, s, p[..k + 1]) == Step(d, Run(d, s, p[..k]), p[k]) {
      assert p[..k + 1] == p[..k] + [p[k]];
      RunSnoc(d, s, p[..k], p[k]);
    }
    assert p[..0 + 1] == p[..1] && p[..1 + 1] == p[..2] && p[..2 + 1] == p[..3];
    assert p[..3 + 1] == p[..4] && p[..4 + 1] == p[..5] && p[..5 + 1] == p[..6];
  }

  /** What the table and the caller become once the provider has replied. */
  function Settled(d: Derivation, table: Table, caller: Caller, now: string): (Table, Caller) {
    match caller
    case Completing(intent, text, receipt) =>
      var r := Complete(d.store, table, now, intent.tenantId, intent.effectId, intent.fence, text, receipt);
      if r.Ok? then (r.value, Returned(FromIntent(r.value[intent.effectId], false)))
      else Recorded(d, table, intent, "result_persistence_uncertain", now)
    case Marking(intent, reason) => Recorded(d, table, intent, reason, now)
    case _ => (table, caller)
  }

  function Recorded(d: Derivation, table: Table, intent: Intent, reason: string, now: string): (Table, Caller) {
    var r := MarkUnknown(d.store, table, now, intent.tenantId, intent.effectId, intent.fence, reason);
    (AfterCommit(table, r, NoFault), if r.Ok? || r.error == WrongState then OutcomeUnknown(intent) else Raised)
  }

  lemma FinishSettles(d: Derivation, s: System, p: seq<Action>, now: string)
    requires 0 in s.callers
    requires |p| == 6
    requires p[3..] == [CommitResult(0, now, NoFault), ReadBack(0, false), RecordUnknown(0, now, NoFault)]
    requires var c := s.callers[0];
             c.Completing? || c.Marking? || c.Returned? || c.Blocked? || c.Raised?
    ensures var (table, caller) := Settled(d, s.table, s.callers[0], now);
            Finish(d, s, p) == System(table, s.callers[0 := caller], s.calls)
  {
    hide MarkUnknown, FromIntent;
    assert p[3] == p[3..][0] && p[4] == p[3..][1] && p[5] == p[3..][2];
    assert s.callers == s.callers[0 := s.callers[0]];
    var s1 := Step(d, s, p[3]);
    var s2 := Step(d, s1, p[4]);
    match s.callers[0]
    case Completing(intent, text, receipt) =>
      var r := Complete(d.store, s.table, now, intent.tenantId, intent.effectId, intent.fence, text, receipt);
      if r.Ok? {
        assert s1.callers[0] == Reading(intent) && s1.table == r.value;
        assert s2 == ReadAction(s1, 0, false);
      } else {
        assert s1.callers[0] == Marking(intent, "result_persistence_uncertain") && s1.table == s.table;
        assert s2 == s1;
        assert Finish(d, s, p) == RecordAction(d, s1, 0, now, NoFault);
      }
    case Marking(intent, reason) =>
      assert s2 == s1 == s;
      assert Finish(d, s, p) == RecordAction(d, s, 0, now, NoFault);
    case _ =>
  }

  /** Table, caller and whether the provider was asked, up to its reply. */
  ghost function Opened(d: Derivation, table: Table, command: Command, enabled: bool,
                        descriptor: Option<Descriptor>, reply: Reply, now: string): (Table, Caller, bool)
  {
    if !enabled || !IsCommand(d, command) || descriptor.None? then (table, Raised, false)
    else
      var intent := BuildIntent(d, command, descriptor.value, now);
      var (after, r) := ReserveStep(d.store, table, intent);
      if r.Err? then (after, Raised, false)
      else if r.value.executable then (after, AfterReply(d, intent, descriptor.value, reply), true)
      else if r.value.replayed then (after, Returned(FromIntent(r.value.intent, true)), false)
      else (after, Blocked(r.value.intent.status), false)
  }

  function CallsOf(d: Derivation, command: Command, descriptor: Option<Descriptor>, now: string,
                   called: bool): seq<Call>
  {
    if called && descriptor.Some? then [CallOf(BuildIntent(d, command, descriptor.value, now))] else []
  }

  predicate Replied(caller: Caller, called: bool) {
    if called then caller.Completing? || caller.Marking? || caller.Raised?
    else caller.Returned? || caller.Blocked? || caller.Raised?
  }

  lemma ReserveAlone(d: Derivation, table: Table, intent: Intent, descriptor: Descriptor)
    requires TableConsistent(d.store, table)
    ensures var (after, r) := ReserveStep(d.store, table, intent);
            Step(d, System(table, map[0 := Prepared(intent, descriptor)], []), Reserve(0))
            == System(after, map[0 := AfterReservation(r, descriptor)], [])
  {
    hide TableConsistent, AfterReservation, ReserveStep;
    assert forall x: Caller, y: Caller :: map[0 := x][0 := y] == map[0 := y];
  }

  lemma CallAlone(d: Derivation, table: Table, caller: Caller, reply: Reply)
    ensures Step(d, System(table, map[0 := caller], []), CallProvider(0, reply))
            == if caller.Executable?
               then System(table, map[0 := AfterReply(d, caller.intent, caller.descriptor, reply)], [CallOf(caller.intent)])
               else System(table, map[0 := caller], [])
  {
  }

  lemma OpeningSteps(d: Derivation, table: Table, command: Command, enabled: bool,
                     descriptor: Option<Descriptor>, reply: Reply, now: string)
    requires TableConsistent(d.store, table)
    ensures var p := Program(command, enabled, descriptor, reply, now);
            var (after, caller, called) := Opened(d, table, command, enabled, descriptor, reply, now);
            && Step(d, Step(d, Step(d, System(table, map[], []), p[0]), p[1]), p[2])
               == System(after, map[0 := caller], CallsOf(d, command, descriptor, now, called))
            && Replied(caller, called)
            && (called ==> enabled && descriptor.Some?)
  {
    hide BuildIntent, IsCommand, TableConsistent, ReceiptAccepted, DurableReceipt;
    if enabled && IsCommand(d, command) && descriptor.Some? {
      var intent := BuildIntent(d, command, descriptor.value, now);
      ReserveKeeps(d.store, table, intent);
      var (after, r) := ReserveStep(d.store, table, intent);
      ReserveAlone(d, table, intent, descriptor.value);
      CallAlone(d, after, AfterReservation(r, descriptor.value), reply);
      assert Step(d, System(table, map[], []), Begin(0, command, enabled, descriptor, now))
             == System(table, map[0 := Prepared(intent, descriptor.value)], []);
    }
  }

  /** Running alone, `execute` is opening and settling. */
  lemma AloneMeans(d: Derivation, table: Table, command: Command, enabled: bool,
                   descriptor: Option<Descriptor>, reply: Reply, now: string)
    requires TableConsistent(d.store, table)
    ensures var end := Run(d, System(table, map[], []), Program(command, enabled, descriptor, reply, now));
            var (reserved, caller, called) := Opened(d, table, command, enabled, descriptor, reply, now);
            var (settled, outcome) := Settled(d, reserved, caller, now);
            end == System(settled, map[0 := outcome], CallsOf(d, command, descriptor, now, called))
  {
    hide *;
    var p := Program(command, enabled, descriptor, reply, now);
    ProgramIs(d, System(table, map[], []), command, enabled, descriptor, reply, now);
    AloneIsRun(d, System(table, map[], []), p);
    OpeningSteps(d, table, command, enabled, descriptor, reply, now);
    var (reserved, caller, called) := Opened(d, table, command, enabled, descriptor, reply, now);
    RepliedIs(caller, called);
    FinishSettles(d, System(reserved, map[0 := caller], CallsOf(d, command, descriptor, now, called)), p, now);
    assert forall x: Caller, y: Caller :: map[0 := x][0 := y] == map[0 := y];
  }

  lemma RepliedIs(caller: Caller, called: bool)
    requires Replied(caller, called)
    ensures caller.Completing? || caller.Marking? || caller.Returned? || caller.Blocked? || caller.Raised?
  {
  }

  lemma ProgramIs(d: Derivation, s: System, command: Command, enabled: bool, descriptor: Option<Descriptor>,
                  reply: Reply, now: string)
    ensures var p := Program(command, enabled, descriptor, reply, now);
            && |p| == 6
            && p[3..] == [CommitResult(0, now, NoFault), ReadBack(0, false), RecordUnknown(0, now, NoFault)]
            && Alone(d, s, p) == Finish(d, Step(d, Step(d, Step(d, s, p[0]), p[1]), p[2]), p)
  {
    hide Step, Finish;
  }

  /** The authority object over the SQLite store. */
  class ModelEffectAuthority {
    const d: Derivation
    const store: SQLiteModelEffectStore
    const enabled: bool

    constructor (d: Derivation, store: SQLiteModelEffectStore, enabled: bool)
      requires store.env == d.store
      ensures this.d == d && this.store == store && this.enabled == enabled
    {
      this.d := d;
      this.store := store;
      this.enabled := enabled;
    }

    /** Complete or record the unknown outcome; every store error on the way is swallowed into the latter. */
    method Settle(caller: Caller, now: string) returns (outcome: Caller)
      requires store.env == d.store && store.Valid()
      requires caller.Completing? || caller.Marking? || caller.Raised?
      modifies store
      ensures store.Valid()
      ensures (store.rows, outcome) == Settled(d, old(store.rows), caller, now)
    {
      if caller.Raised? {
        return Raised;
      }
      var reason;
      if caller.Completing? {
        var completed := store.CompleteEffect(now, caller.intent.tenantId, caller.intent.effectId,
                                              caller.intent.fence, caller.text, caller.receipt);
        if completed.Ok? {
          return Returned(FromIntent(completed.value, false));
        }
        reason := "result_persistence_uncertain";
      } else {
        reason := caller.reason;
      }
      var marked := store.MarkUnknownEffect(now, caller.intent.tenantId, caller.intent.effectId,
                                            caller.intent.fence, reason);
      outcome := if marked.Ok? || marked.error == WrongState then OutcomeUnknown(caller.intent) else Raised;
    }

    /** `called` reports whether the provider was asked; the reply is the oracle's. */
    method Execute(command: Command, descriptor: Option<Descriptor>, reply: Reply, now: string)
      returns (outcome: Caller, called: bool)
      requires store.env == d.store && store.Valid()
      modifies store
      ensures store.Valid()
      ensures var end := Run(d, System(old(store.rows), map[], []),
                             Program(command, enabled, descriptor, reply, now));
              && store.rows == end.table
              && end.callers == map[0 := outcome]
              && (called <==> |end.calls| == 1) && (!called <==> end.calls == [])
    {
      AloneMeans(d, store.rows, command, enabled, descriptor, reply, now);
      OpeningSteps(d, store.rows, command, enabled, descriptor, reply, now);
      if !enabled || !IsCommand(d, command) || descriptor.None? {
        return Raised, false;
      }
      var intent := BuildIntent(d, command, descriptor.value, now);
      var reservation := store.Reserve(intent);
      if reservation.Err? {
        return Raised, false;
      }
      if !reservation.value.executable {
        outcome := if reservation.value.replayed then Returned(FromIntent(reservation.value.intent, true))
                   else Blocked(reservation.value.intent.status);
        return outcome, false;
      }
      outcome := Settle(AfterReply(d, intent, descriptor.value, reply), now);
      called := true;
    }
  }
}
