// The effect protocol as steps of the database: for every operation the ordered
// list of conditions that make it fail, and the database it leaves when none does.
//
// A failing operation rolls its transaction back, so it leaves the database as it
// was; only a capsule failure seen before the transaction opens is still logged.

module EffectProtocol {
  import opened Tables
  import opened CapsuleStore

  /* ---------- shared guards ---------- */

  /** The row that `... released_at IS NULL AND expires_at > now` selects. */
  predicate ActiveLease(db: Db, runId: Id, holderId: Id, version: nat, now: nat) {
    && runId in db.leases
    && db.leases[runId].holderId == holderId
    && db.leases[runId].version == version
    && !db.leases[runId].released
    && now < db.leases[runId].expiresAt
  }

  function Fail<T>(db: Db, e: Error): Step<T> { Step(Err(e), db) }

  /** A capsule failure outside a transaction is persisted before the throw. */
  function FailLogged<T>(db: Db, e: Error, effectId: Id, attemptNo: int): Step<T> {
    Step(Err(e), db.(failures := db.failures + [CapsuleFailure(effectId, attemptNo)]))
  }

  /* ---------- step 1: prepare ---------- */

  /** What the caller's postPrepareBody does inside the transaction. */
  datatype Hook = NoHook | RegisterTool | HookThrows

  datatype PrepareInput = PrepareInput(
    runId: Id, ownerFrameId: Id, adapterKind: Text, payload: Text, payloadFingerprint: Digest,
    approvalId: Option<Id>, idempotencyKey: Text, scopeHash: Text, routeId: Id,
    policyVersionHash: Text, pinned: Text, hook: Hook, newEffectId: Id)

  datatype Prepared = Prepared(effectId: Id, attemptNo: int, keyHash: Digest)

  function CommandOf(i: PrepareInput): Command {
    Command(i.payload, i.idempotencyKey, i.payloadFingerprint, i.routeId, i.policyVersionHash,
            i.adapterKind, i.pinned)
  }

  /** The effect that already carries this key under this owner frame. */
  function Existing(db: Db, i: PrepareInput): Option<Id> {
    var h := OfKey(i.idempotencyKey);
    if h in db.keyIndex && db.keyIndex[h] in db.effects
      && db.effects[db.keyIndex[h]].ownerFrameId == i.ownerFrameId
    then Some(db.keyIndex[h]) else None
  }

  predicate UnboundApproval(db: Db, i: PrepareInput, a: Id) {
    && a in db.approvals
    && db.approvals[a].runId == i.runId
    && db.approvals[a].workspaceId == WorkspaceOf(db, i.runId)
    && db.approvals[a].decision == Approved
    && db.approvals[a].effectId == None
    && db.approvals[a].effectRevision == None
  }

  function PrepareError(db: Db, i: PrepareInput): Option<Error> {
    if i.ownerFrameId !in db.frames then Some(FrameNotFound)
    else if db.frames[i.ownerFrameId].runId != i.runId then Some(EffectOwnerMismatch)
    else match Existing(db, i)
      case Some(e) =>
        if db.effects[e].payloadFingerprint != i.payloadFingerprint then Some(EffectPayloadFingerprintChanged)
        else if db.effects[e].capsuleFingerprint != Some(OfCommand(CommandOf(i))) then
          Some(EffectPayloadFingerprintChanged)
        else if CallbackKey(e, 1) !in db.capsules then Some(CapsuleInvalid)
        else if i.hook.HookThrows? then Some(HookFailed)
        else None
      case None =>
        if i.newEffectId in db.effects then Some(ConstraintViolation)
        else if i.approvalId.Some? && !UnboundApproval(db, i, i.approvalId.value) then Some(ApprovalRequired)
        else if CallbackKey(i.newEffectId, 1) in db.capsules then Some(CapsuleInvalid)
        else if OfKey(i.idempotencyKey) in db.keyIndex then Some(ConstraintViolation)
        else if i.hook.HookThrows? then Some(HookFailed)
        else None
  }

  function NewEffect(i: PrepareInput): Effect {
    Effect(i.runId, i.ownerFrameId, i.adapterKind, i.payloadFingerprint, Some(OfCommand(CommandOf(i))),
           OfKey(i.idempotencyKey), Planned, 1, {}, [], Some(i.routeId), Some(i.policyVersionHash),
           Some(i.scopeHash), i.approvalId, Some(1), None)
  }

  function NewCallbackCapsule(db: Db, i: PrepareInput): Capsule {
    Capsule(WorkspaceOf(db, i.runId), i.runId, None, i.adapterKind, OfCommand(CommandOf(i)),
            db.clock + SEVEN_DAYS_MS, SealedCommand(CommandOf(i)), OfCommand(CommandOf(i)))
  }

  function BindApproval(approvals: map<Id, Approval>, a: Option<Id>, e: Id): map<Id, Approval> {
    if a.Some? && a.value in approvals
    then approvals[a.value := approvals[a.value].(effectId := Some(e), effectRevision := Some(1))]
    else approvals
  }

  function RunHook(tools: set<Id>, hook: Hook, e: Id): set<Id> {
    if hook.RegisterTool? then tools + {e} else tools
  }

  function PreparePost(db: Db, i: PrepareInput): (after: Db)
    ensures RuntimeUntouched(db, after) && ReviewUntouched(db, after)
  {
    var h := OfKey(i.idempotencyKey);
    var events := Log(db, i.runId, EffectPrepared(i.ownerFrameId, h));
    match Existing(db, i)
    case Some(e) => db.(tools := RunHook(db.tools, i.hook, e), events := events)
    case None =>
      var e := i.newEffectId;
      db.(effects := db.effects[e := NewEffect(i)],
          approvals := BindApproval(db.approvals, i.approvalId, e),
          capsules := db.capsules[CallbackKey(e, 1) := NewCallbackCapsule(db, i)],
          keyIndex := db.keyIndex[h := e],
          edges := AppendEdge(db.edges, Edge(i.ownerFrameId, OwnsEffect, e), i.runId),
          tools := RunHook(db.tools, i.hook, e),
          events := events)
  }

  function PrepareOutput(db: Db, i: PrepareInput): Prepared {
    Prepared(match Existing(db, i) case Some(e) => e case None => i.newEffectId, 1, OfKey(i.idempotencyKey))
  }

  function Prepare(db: Db, i: PrepareInput): Step<Prepared> {
    match PrepareError(db, i)
    case Some(e) => Fail(db, e)
    case None => Step(Ok(PrepareOutput(db, i)), PreparePost(db, i))
  }

  /* ---------- step 2: pre-callback CAS ---------- */

  datatype CasInput = CasInput(
    effectId: Id, expectedRevision: nat, attemptNo: int, leaseHolder: Id,
    approvalId: Option<Id>, retry: bool, expectedLeaseVersion: Option<nat>)

  datatype CasOutput = CasOutput(
    effectId: Id, attemptNo: int, revision: nat, leaseVersion: nat, command: Command)

  function ExpectedState(i: CasInput): EffectState { if i.retry then Unknown else Planned }

  /** The attempt whose capsule is the authority source of the callback. */
  function SourceAttempt(db: Db, i: CasInput): Option<int> {
    if CallbackKey(i.effectId, i.attemptNo) in db.capsules then Some(i.attemptNo)
    else if i.retry && CallbackKey(i.effectId, i.attemptNo - 1) in db.capsules then Some(i.attemptNo - 1)
    else None
  }

  /** The attempt that a failure to open is logged for: the capsule's own, or the wanted
      one if there is no capsule. */
  function TriedAttempt(db: Db, i: CasInput): int {
    if SourceAttempt(db, i).Some? then SourceAttempt(db, i).value else i.attemptNo
  }

  function ExpectedFingerprint(e: Effect): Digest {
    if e.capsuleFingerprint.Some? then e.capsuleFingerprint.value else e.payloadFingerprint
  }

  predicate RouteRequiresApproval(db: Db, routeId: Option<Id>) {
    routeId.Some? && routeId.value in db.routes && db.routes[routeId.value]
  }

  predicate RequiresApproval(db: Db, e: Effect) {
    e.approvalId.Some? || RouteRequiresApproval(db, e.routeId)
  }

  /** The row checks of consumeApprovalForCallback, before the counter moves. */
  predicate ApprovalCovers(db: Db, effectId: Id, e: Effect, retry: bool, a: Id) {
    && a in db.approvals
    && var row := db.approvals[a];
      && row.runId == e.runId
      && row.workspaceId == WorkspaceOf(db, e.runId)
      && row.scopeHash.Some? && row.scopeHash.value != "" && row.scopeHash == e.scopeHash
      && row.payloadFingerprint == Some(e.payloadFingerprint)
      && row.policyVersionHash.Some? && row.policyVersionHash.value != ""
      && row.policyVersionHash == e.policyVersionHash
      && row.effectId == Some(effectId)
      && (row.expiresAt.Some? ==> db.clock < row.expiresAt.value)
      && row.decision == Approved
      && (if retry then row.approvalType == RecoveryRetry
          else row.approvalType == Egress || row.approvalType == ToolInvocation)
      && row.usesConsumed < row.useLimit
  }

  /** The approval gate of the callback transaction. */
  function ApprovalError(db: Db, e: Effect, i: CasInput): Option<Error> {
    if RequiresApproval(db, e) && i.approvalId.None? then Some(ApprovalRequired)
    else if !i.retry && e.approvalId.Some? && i.approvalId != e.approvalId then Some(ApprovalRequired)
    else if i.retry && e.approvalId.Some? && i.approvalId == e.approvalId then Some(ApprovalRequired)
    else if i.approvalId.None? then None
    else if !ApprovalCovers(db, i.effectId, e, i.retry, i.approvalId.value) then Some(ApprovalRequired)
    else if AttemptKey(i.effectId, i.attemptNo) in db.bindings then Some(ConstraintViolation)
    else if ConsumptionKey(i.approvalId.value, i.effectId, i.attemptNo) in db.consumptions then
      Some(ConstraintViolation)
    else None
  }

  function LeaseVersionFor(db: Db, i: CasInput, runId: Id): nat
    requires runId in db.leases
  {
    if i.expectedLeaseVersion.Some? then i.expectedLeaseVersion.value else db.leases[runId].version
  }

  /** Why the pre-read would refuse because of the effect row itself. */
  function CasRowError(db: Db, i: CasInput): Option<Error> {
    if i.effectId !in db.effects then Some(EffectNotFound)
    else if db.effects[i.effectId].revision != i.expectedRevision then Some(RevisionConflict)
    else if db.effects[i.effectId].state != ExpectedState(i) then Some(EffectInvalidTransition)
    else if !i.retry && i.attemptNo != 1 then Some(InvalidArgument)
    else if i.retry && i.attemptNo <= 1 then Some(InvalidArgument)
    else None
  }

  /** The callback command, authenticated from its source capsule. */
  function CasCommand(db: Db, i: CasInput): Result<Command>
    requires i.effectId in db.effects
  {
    match SourceAttempt(db, i)
    case None => Err(CapsuleInvalid)
    case Some(n) =>
      OpenVerifiedCallback(db.capsules, i.effectId, n, ExpectedFingerprint(db.effects[i.effectId]), db.clock)
  }

  function CasLeaseError(db: Db, i: CasInput): Option<Error>
    requires i.effectId in db.effects
  {
    var runId := db.effects[i.effectId].runId;
    if runId !in db.leases then Some(LeaseNotHeld)
    else if !ActiveLease(db, runId, i.leaseHolder, LeaseVersionFor(db, i, runId), db.clock) then Some(LeaseNotHeld)
    else None
  }

  function CasCapsules(db: Db, i: CasInput): map<CapsuleKey, Capsule> {
    var source := CallbackKey(i.effectId, i.attemptNo - 1);
    if CallbackKey(i.effectId, i.attemptNo) in db.capsules || source !in db.capsules then db.capsules
    else db.capsules[CallbackKey(i.effectId, i.attemptNo) := db.capsules[source]]
  }

  function ConsumeOne(approvals: map<Id, Approval>, a: Option<Id>): map<Id, Approval> {
    if a.Some? && a.value in approvals
    then approvals[a.value := approvals[a.value].(usesConsumed := approvals[a.value].usesConsumed + 1)]
    else approvals
  }

  function CasEffect(e: Effect, i: CasInput): Effect {
    e.(state := InFlight, revision := e.revision + 1,
       approvalId := if i.approvalId.Some? then i.approvalId else e.approvalId,
       callbackAttempt := Some(i.attemptNo))
  }

  /** The intent itself: event, capsule of the attempt, effect row. */
  function IntentPost(db: Db, i: CasInput): (after: Db)
    requires i.effectId in db.effects
    ensures RuntimeUntouched(db, after) && after.tools == db.tools && ReviewUntouched(db, after)
    ensures OneStep(db.effects, after.effects, i.effectId, InFlight)
  {
    var e := db.effects[i.effectId];
    db.(effects := db.effects[i.effectId := CasEffect(e, i)],
        capsules := CasCapsules(db, i),
        events := Log(db, e.runId, CallbackIntent(i.effectId, i.attemptNo, i.approvalId)))
  }

  /** The approval authority that the attempt uses up. */
  function ConsumePost(db: Db, i: CasInput, a: Id, runId: Id): Db
    requires a in db.approvals
  {
    var revision := db.approvals[a].revision;
    db.(approvals := ConsumeOne(db.approvals, Some(a)),
        bindings := db.bindings[AttemptKey(i.effectId, i.attemptNo) :=
          Binding(a, revision, if i.retry then RetryBinding else InitialBinding)],
        consumptions := db.consumptions[ConsumptionKey(a, i.effectId, i.attemptNo) := revision],
        edges := AppendEdge(db.edges, Edge(i.effectId, BoundToApproval, a), runId))
  }

  function CasPost(db: Db, i: CasInput): (after: Db)
    requires i.effectId in db.effects
    requires i.approvalId.Some? ==> i.approvalId.value in db.approvals
    ensures RuntimeUntouched(db, after) && after.tools == db.tools && ReviewUntouched(db, after)
    ensures OneStep(db.effects, after.effects, i.effectId, InFlight)
  {
    if i.approvalId.None? then IntentPost(db, i)
    else ConsumePost(IntentPost(db, i), i, i.approvalId.value, db.effects[i.effectId].runId)
  }

  /** The ledger tables after an intent. */
  lemma CasTables(db: Db, i: CasInput)
    requires i.effectId in db.effects && (i.approvalId.Some? ==> i.approvalId.value in db.approvals)
    ensures var after, e := CasPost(db, i), i.effectId;
      && after.effects == db.effects[e := CasEffect(db.effects[e], i)]
      && after.events == db.events + [Event(db.effects[e].runId, CallbackIntent(e, i.attemptNo, i.approvalId))]
      && after.capsules == CasCapsules(db, i) && after.receipts == db.receipts
  {
    hide CasEffect, CasCapsules, ConsumeOne, AppendEdge;
    if i.approvalId.Some? {
    } else {
    }
  }

  /** The authority tables after an intent. */
  lemma CasAuthority(db: Db, i: CasInput)
    requires i.effectId in db.effects && (i.approvalId.Some? ==> i.approvalId.value in db.approvals)
    ensures var after := CasPost(db, i);
      if i.approvalId.None? then AuthorityUntouched(db, after)
      else
        var a := i.approvalId.value;
        && after.approvals == ConsumeOne(db.approvals, Some(a))
        && after.bindings == db.bindings[AttemptKey(i.effectId, i.attemptNo) :=
             Binding(a, db.approvals[a].revision, if i.retry then RetryBinding else InitialBinding)]
        && after.consumptions == db.consumptions[ConsumptionKey(a, i.effectId, i.attemptNo) := db.approvals[a].revision]
  {
    hide CasEffect, CasCapsules, ConsumeOne, AppendEdge;
    if i.approvalId.Some? {
    } else {
    }
  }

  /** The complete guard of the callback intent. */
  predicate CasGuard(db: Db, i: CasInput) {
    && CasRowError(db, i).None?
    && CasCommand(db, i).Ok?
    && CasLeaseError(db, i).None?
    && ApprovalError(db, db.effects[i.effectId], i).None?
  }

  /** An intent that names an approval is covered by that approval. */
  lemma ApprovalAdmits(db: Db, i: CasInput)
    requires CasGuard(db, i) && i.approvalId.Some?
    ensures i.effectId in db.effects && i.approvalId.value in db.approvals
    ensures ApprovalCovers(db, i.effectId, db.effects[i.effectId], i.retry, i.approvalId.value)
  {
    hide CasCommand, CasLeaseError, WorkspaceOf;
  }

  function CasToInFlight(db: Db, i: CasInput): Step<CasOutput> {
    if CasRowError(db, i).Some? then Fail(db, CasRowError(db, i).value)
    else if CasCommand(db, i).Err? then FailLogged(db, CasCommand(db, i).error, i.effectId, TriedAttempt(db, i))
    else if CasLeaseError(db, i).Some? then Fail(db, CasLeaseError(db, i).value)
    else
      var e := db.effects[i.effectId];
      if ApprovalError(db, e, i).Some? then Fail(db, ApprovalError(db, e, i).value)
      else Step(Ok(CasOutput(i.effectId, i.attemptNo, e.revision + 1, LeaseVersionFor(db, i, e.runId),
                             CasCommand(db, i).value)),
                CasPost(db, i))
  }

  /* ---------- step 3a: receipt ---------- */

  datatype ReceiptInput = ReceiptInput(
    effectId: Id, attemptNo: int, requestId: Option<Text>, requestHash: Option<Text>, result: Text,
    status: ApplicationStatus, providerStatus: Option<Text>, newReceiptId: Id)

  function BodyOf(i: ReceiptInput): ResultBody {
    ResultBody(i.attemptNo, i.status, i.providerStatus, i.requestId, i.requestHash, i.result)
  }

  /** UNIQUE(effect_id, attempt_no) on effect_receipts. */
  predicate ReceiptExists(receipts: map<Id, Receipt>, effectId: Id, attemptNo: int) {
    exists r :: r in receipts && receipts[r].effectId == effectId && receipts[r].attemptNo == attemptNo
  }

  function ReceiptError(db: Db, i: ReceiptInput): Option<Error> {
    if i.status == OutcomeNotKnown then Some(EffectOutcomeUnknown)
    else if i.status == NotApplied then Some(EffectInvalidTransition)
    else if i.effectId !in db.effects then Some(EffectNotFound)
    else if db.effects[i.effectId].state != InFlight then Some(EffectInvalidTransition)
    else if i.attemptNo <= 0 then Some(InvalidArgument)
    else if ResultKey(i.effectId, i.attemptNo) in db.capsules then Some(CapsuleInvalid)
    else if i.newReceiptId in db.receipts || ReceiptExists(db.receipts, i.effectId, i.attemptNo) then Some(ReceiptDuplicate)
    else None
  }

  function ReceiptHashOf(effectId: Id, r: Receipt): Digest {
    OfReceipt(effectId, r.attemptNo, r.requestHash, r.responseHash, r.status, r.providerStatus)
  }

  function NewReceipt(i: ReceiptInput): Receipt {
    var response := OfResult(BodyOf(i));
    Receipt(i.effectId, i.attemptNo, i.requestId, i.requestHash, Some(response),
            Some(ResultKey(i.effectId, i.attemptNo)), Some(response), i.providerStatus, i.status,
            OfReceipt(i.effectId, i.attemptNo, i.requestHash, Some(response), i.status, i.providerStatus))
  }

  function NewResultCapsule(db: Db, e: Effect, i: ReceiptInput): Capsule {
    Capsule(WorkspaceOf(db, e.runId), e.runId, Some(i.newReceiptId), e.adapterKind, OfResult(BodyOf(i)),
            db.clock + SEVEN_DAYS_MS, SealedResult(BodyOf(i)), OfResult(BodyOf(i)))
  }

  function ReceiptPost(db: Db, i: ReceiptInput): (after: Db)
    requires i.effectId in db.effects
    ensures RuntimeUntouched(db, after) && after.tools == db.tools && ReviewUntouched(db, after)
    ensures OneStep(db.effects, after.effects, i.effectId, Received)
    ensures AuthorityUntouched(db, after)
  {
    var e := db.effects[i.effectId];
    db.(effects := db.effects[i.effectId :=
          e.(state := Received, revision := e.revision + 1, receiptId := Some(i.newReceiptId))],
        capsules := db.capsules[ResultKey(i.effectId, i.attemptNo) := NewResultCapsule(db, e, i)],
        receipts := db.receipts[i.newReceiptId := NewReceipt(i)],
        edges := AppendEdge(db.edges, Edge(i.effectId, Relation.HasReceipt, i.newReceiptId), e.runId),
        events := Log(db, e.runId, EffectReceived(i.effectId, i.attemptNo)))
  }

  function RecordReceipt(db: Db, i: ReceiptInput): Step<Id> {
    match ReceiptError(db, i)
    case Some(e) => Fail(db, e)
    case None => Step(Ok(i.newReceiptId), ReceiptPost(db, i))
  }

  /* ---------- step 3c: unknown outcome ---------- */

  /** `resolvedOutcome` is accepted and logged but decides nothing. */
  datatype UnknownInput = UnknownInput(effectId: Id, attemptNo: int, resolvedOutcome: Option<ApplicationStatus>)

  function UnknownError(db: Db, i: UnknownInput): Option<Error> {
    if i.effectId !in db.effects then Some(EffectNotFound)
    else if db.effects[i.effectId].state != InFlight then Some(EffectInvalidTransition)
    else if i.attemptNo <= 0 then Some(InvalidArgument)
    else None
  }

  function UnknownPost(db: Db, i: UnknownInput): (after: Db)
    requires i.effectId in db.effects
    ensures RuntimeUntouched(db, after) && after.tools == db.tools && ReviewUntouched(db, after)
    ensures OneStep(db.effects, after.effects, i.effectId, Unknown)
    ensures AuthorityUntouched(db, after) && after.capsules == db.capsules
  {
    var e := db.effects[i.effectId];
    db.(effects := db.effects[i.effectId := e.(state := Unknown, revision := e.revision + 1)],
        edges := AppendEdge(db.edges, Edge(i.effectId, HasIncident, i.attemptNo), e.runId),
        failures := db.failures + [CapsuleFailure(i.effectId, i.attemptNo)],
        events := Log(db, e.runId, EffectUnknownState(i.effectId, i.attemptNo)))
  }

  function RecordUnknownOutcome(db: Db, i: UnknownInput): Step<EffectState> {
    match UnknownError(db, i)
    case Some(e) => Fail(db, e)
    case None => Step(Ok(Unknown), UnknownPost(db, i))
  }

  /* ---------- cancel before send ---------- */

  function CancelError(db: Db, effectId: Id, expectedRevision: nat): Option<Error> {
    if effectId !in db.effects then Some(EffectNotFound)
    else if db.effects[effectId].state != Planned then Some(EffectInvalidTransition)
    else if db.effects[effectId].revision != expectedRevision then Some(RevisionConflict)
    else None
  }

  function CancelPost(db: Db, effectId: Id): (after: Db)
    requires effectId in db.effects
    ensures RuntimeUntouched(db, after) && after.tools == db.tools && ReviewUntouched(db, after)
    ensures OneStep(db.effects, after.effects, effectId, CancelledBeforeSend)
    ensures AuthorityUntouched(db, after) && after.capsules == db.capsules
  {
    var e := db.effects[effectId];
    db.(effects := db.effects[effectId := e.(state := CancelledBeforeSend, revision := e.revision + 1)],
        edges := AppendEdge(db.edges, Edge(effectId, HasCancellation, effectId), e.runId),
        events := Log(db, e.runId, EffectCancelled(effectId)))
  }

  function CancelBeforeSend(db: Db, effectId: Id, expectedRevision: nat): Step<EffectState> {
    match CancelError(db, effectId, expectedRevision)
    case Some(e) => Fail(db, e)
    case None => Step(Ok(CancelledBeforeSend), CancelPost(db, effectId))
  }

  /* ---------- step 4: commit ---------- */

  datatype CommitInput = CommitInput(
    effectId: Id, expectedRevision: nat, attemptNo: int, receiptId: Id,
    leaseHolder: Id, expectedLeaseVersion: nat, newFindingId: Id)

  /** verifyAuthoritativeResultCapsule, up to and including opening the capsule. */
  function OpenAuthoritativeResult(db: Db, effectId: Id, e: Effect, receiptId: Id, attemptNo: int): Result<Sealed> {
    if e.receiptId != Some(receiptId) then Err(ReceiptNotFound)
    else if receiptId !in db.receipts || db.receipts[receiptId].effectId != effectId
      || db.receipts[receiptId].attemptNo != attemptNo then Err(ReceiptNotFound)
    else
      var r := db.receipts[receiptId];
      if r.status != Applied then Err(EffectInvalidTransition)
      else if r.responseHash.None? || r.receiptHash != ReceiptHashOf(effectId, r) then Err(CapsuleInvalid)
      else match OpenResultForReceipt(db.capsules, WorkspaceOf(db, e.runId), effectId, receiptId, attemptNo,
                                      r.capsule, r.capsuleHash, db.clock)
        case Err(err) => Err(err)
        case Ok(body) =>
          if !(&& r.capsule.Some? && r.capsule.value in db.capsules
               && db.capsules[r.capsule.value].fingerprint == r.responseHash.value
               && DigestOf(body) == r.responseHash.value
               && body.SealedResult?
               && body.body.attemptNo == attemptNo
               && body.body.status == Applied
               && body.body.providerStatus == r.providerStatus
               && body.body.requestId == r.requestId
               && body.body.requestHash == r.requestHash) then Err(CapsuleInvalid)
          else Ok(body)
  }

  /** Capsule-opening failures are logged; the other refusals are not. */
  predicate LogsCapsuleFailure(db: Db, effectId: Id, e: Effect, receiptId: Id, attemptNo: int) {
    && e.receiptId == Some(receiptId)
    && receiptId in db.receipts && db.receipts[receiptId].effectId == effectId
    && db.receipts[receiptId].attemptNo == attemptNo
    && var r := db.receipts[receiptId];
      && r.status == Applied && r.responseHash.Some? && r.receiptHash == ReceiptHashOf(effectId, r)
      && OpenResultForReceipt(db.capsules, WorkspaceOf(db, e.runId), effectId, receiptId, attemptNo,
                              r.capsule, r.capsuleHash, db.clock).Err?
  }

  function CommitRowError(db: Db, i: CommitInput): Option<Error> {
    if i.effectId !in db.effects then Some(EffectNotFound)
    else if i.effectId in db.tools then Some(EffectInvalidTransition)
    else if db.effects[i.effectId].state != Received then Some(EffectInvalidTransition)
    else if db.effects[i.effectId].revision != i.expectedRevision then Some(RevisionConflict)
    else if !ActiveLease(db, db.effects[i.effectId].runId, i.leaseHolder, i.expectedLeaseVersion, db.clock) then
      Some(LeaseNotHeld)
    else None
  }

  function CommitPost(db: Db, i: CommitInput): (after: Db)
    requires i.effectId in db.effects
    ensures RuntimeUntouched(db, after) && after.tools == db.tools
    ensures OneStep(db.effects, after.effects, i.effectId, Committed)
    ensures AuthorityUntouched(db, after) && after.capsules == db.capsules
  {
    var e := db.effects[i.effectId];
    db.(effects := db.effects[i.effectId := e.(state := Committed, revision := e.revision + 1)],
        findings := db.findings[i.newFindingId := Finding(i.effectId, i.receiptId, Accepted)],
        edges := AppendEdge(db.edges, Edge(i.effectId, HasFinding, i.newFindingId), e.runId),
        events := Log(db, e.runId, EffectCommitted(i.effectId, i.receiptId)))
  }

  /** The complete guard of the terminal commit. */
  predicate CommitGuard(db: Db, i: CommitInput) {
    && CommitRowError(db, i).None?
    && OpenAuthoritativeResult(db, i.effectId, db.effects[i.effectId], i.receiptId, i.attemptNo).Ok?
    && i.newFindingId !in db.findings
  }

  /** The guard of the commit's transaction on its own: everything but the tool row,
      which only the pre-read looks for. */
  predicate LateCommitGuard(db: Db, i: CommitInput) {
    && i.effectId in db.effects
    && db.effects[i.effectId].state == Received
    && db.effects[i.effectId].revision == i.expectedRevision
    && ActiveLease(db, db.effects[i.effectId].runId, i.leaseHolder, i.expectedLeaseVersion, db.clock)
    && OpenAuthoritativeResult(db, i.effectId, db.effects[i.effectId], i.receiptId, i.attemptNo).Ok?
    && i.newFindingId !in db.findings
  }

  lemma CommitGuardSplits(db: Db, i: CommitInput)
    ensures CommitGuard(db, i) <==> LateCommitGuard(db, i) && i.effectId !in db.tools
  {
    hide OpenAuthoritativeResult, ActiveLease;
  }

  /** The transaction of a commit whose pre-read passed at some earlier moment. */
  function LateCommit(db: Db, i: CommitInput): Db { if LateCommitGuard(db, i) then CommitPost(db, i) else db }

  function CommitToTerminal(db: Db, i: CommitInput): Step<nat> {
    if CommitRowError(db, i).Some? then Fail(db, CommitRowError(db, i).value)
    else
      var e := db.effects[i.effectId];
      var body := OpenAuthoritativeResult(db, i.effectId, e, i.receiptId, i.attemptNo);
      if body.Err? then
        if LogsCapsuleFailure(db, i.effectId, e, i.receiptId, i.attemptNo)
        then FailLogged(db, body.error, i.effectId, i.attemptNo)
        else Fail(db, body.error)
      else if i.newFindingId in db.findings then Fail(db, ConstraintViolation)
      else Step(Ok(e.revision + 1), CommitPost(db, i))
  }
}
