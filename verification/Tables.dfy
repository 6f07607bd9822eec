// The rows and tables of the durable effect kernel, as values.
//
// Every row id, run id and holder id is an opaque `Id`; the random ids that the
// services draw are inputs of the operations, so a collision is a possible
// outcome (a primary-key violation) and not an assumption.

module Tables {

  type Id = nat
  type Text = string

  datatype Option<+T> = None | Some(value: T)

  datatype Result<+T> = Ok(value: T) | Err(error: Error)

  /** The error codes of the services. `ConstraintViolation` stands for a raw
      SQLite error that a service lets through unchanged; `HookFailed` for an
      exception thrown by a caller-supplied hook inside a transaction. */
  datatype Error =
    | InvalidArgument
    | FrameNotFound
    | FrameInvalidTransition
    | EffectNotFound
    | EffectInvalidTransition
    | EffectOwnerMismatch
    | EffectIdempotencyReused
    | EffectPayloadFingerprintChanged
    | EffectOutcomeUnknown
    | RevisionConflict
    | CapsuleInvalid
    | CapsuleExpired
    | LeaseNotHeld
    | LeaseVersionConflict
    | LeaseTakenOver
    | ApprovalRequired
    | PermissionDenied
    | SecretAccessDenied
    | ReceiptDuplicate
    | ReceiptNotFound
    | RepairNotFound
    | RepairInvalid
    | RepairSiblingOverreach
    | RepairSubtreeRevisionDrift
    | RepairDependencyReversed
    | ConstraintViolation
    | HookFailed

  /* ---------- digests ---------- */

  /** The complete callback command that `prepare` seals. `pinned` carries the
      remaining sealed fields (classification, redaction rule, capabilities). */
  datatype Command = Command(
    payload: Text, idempotencyKey: Text, egressFingerprint: Digest, routeId: Id,
    policyVersionHash: Text, adapterKind: Text, pinned: Text)

  /** The structured adapter outcome that a result capsule seals. */
  datatype ResultBody = ResultBody(
    attemptNo: int, status: ApplicationStatus, providerStatus: Option<Text>,
    requestId: Option<Text>, requestHash: Option<Text>, result: Text)

  /** A symbolic SHA-256 digest: it remembers what was hashed. `Opaque` is a
      digest that a caller supplies as text. */
  datatype Digest =
    | OfKey(key: Text)
    | OfCommand(command: Command)
    | OfResult(body: ResultBody)
    | OfReceipt(effectId: Id, attemptNo: int, requestHash: Option<Text>,
                responseHash: Option<Digest>, status: ApplicationStatus, providerStatus: Option<Text>)
    | Opaque(text: Text)

  /* ---------- frames ---------- */

  datatype FrameStatus = FPending | FRunning | FAwaitingApproval | FCompleted | FFailed | FCancelled

  datatype Frame = Frame(
    runId: Id, parent: Option<Id>, status: FrameStatus, path: seq<Id>, subtreeRevision: nat)

  /* ---------- effects ---------- */

  datatype EffectState =
    | Planned | InFlight | Unknown | Received | AwaitingCallbackVerification
    | Committed | Quarantined | Compensating | Compensated | Failed | CancelledBeforeSend

  datatype RepairAction = Retry | Compensate | Preserve | Amend | Reconcile | Escalate

  datatype Effect = Effect(
    runId: Id, ownerFrameId: Id, adapterKind: Text,
    payloadFingerprint: Digest, capsuleFingerprint: Option<Digest>,
    keyHash: Digest, state: EffectState, revision: nat,
    repairActions: set<RepairAction>, dependencies: seq<Id>,
    routeId: Option<Id>, policyVersionHash: Option<Text>, scopeHash: Option<Text>,
    approvalId: Option<Id>, callbackAttempt: Option<int>, receiptId: Option<Id>)

  /* ---------- capsules ---------- */

  datatype CapsuleKind = Callback | ResultCapsule

  /** UNIQUE(effect_id, capsule_kind, attempt_no). The key doubles as the
      content-addressed `ref`: authenticated encryption with a random nonce
      gives every sealed row a ref of its own. */
  datatype CapsuleKey = CapsuleKey(effectId: Id, kind: CapsuleKind, attemptNo: int)

  datatype Sealed = SealedCommand(command: Command) | SealedResult(body: ResultBody)

  datatype Capsule = Capsule(
    workspaceId: Id, runId: Id, receiptId: Option<Id>, adapterKind: Text,
    fingerprint: Digest, expiresAt: nat, body: Sealed, hash: Digest)

  datatype CapsuleFailure = CapsuleFailure(effectId: Id, attemptNo: int)

  /* ---------- receipts and ingress ---------- */

  datatype ApplicationStatus = NotApplied | Applied | OutcomeNotKnown

  datatype Receipt = Receipt(
    effectId: Id, attemptNo: int, requestId: Option<Text>, requestHash: Option<Text>,
    responseHash: Option<Digest>, capsule: Option<CapsuleKey>, capsuleHash: Option<Digest>,
    providerStatus: Option<Text>, status: ApplicationStatus, receiptHash: Digest)

  datatype IngressOutcome = Accepted | QuarantinedOutcome | Rejected

  datatype Finding = Finding(effectId: Id, receiptId: Id, outcome: IngressOutcome)

  datatype ReviewDecision = ReviewDecision(
    findingId: Id, receiptId: Id, effectId: Id, outcome: IngressOutcome, payloadDigest: Digest)

  /* ---------- approvals ---------- */

  datatype ApprovalType = Egress | ToolInvocation | RecoveryRetry | RepairCrossFrame

  datatype Decision = Pending | Approved | Denied | Revoked

  datatype CrossFrameScope = CrossFrameScope(
    runId: Id, targetFrameId: Id, effectId: Id, effectRevision: nat)

  datatype Approval = Approval(
    runId: Id, workspaceId: Id, approvalType: ApprovalType, decision: Decision,
    expiresAt: Option<nat>, scopeHash: Option<Text>, payloadFingerprint: Option<Digest>,
    policyVersionHash: Option<Text>, revision: nat, useLimit: nat, usesConsumed: nat,
    effectId: Option<Id>, effectRevision: Option<nat>, scope: Option<CrossFrameScope>)

  datatype BindingKind = InitialBinding | RetryBinding

  datatype AttemptKey = AttemptKey(effectId: Id, attemptNo: int)

  datatype Binding = Binding(approvalId: Id, approvalRevision: nat, kind: BindingKind)

  datatype ConsumptionKey = ConsumptionKey(approvalId: Id, effectId: Id, attemptNo: int)

  /* ---------- leases, repairs, edges, events ---------- */

  datatype Lease = Lease(holderId: Id, version: nat, expiresAt: nat, released: bool)

  datatype RepairStatus = Open | AcceptedRepair | RejectedRepair | CommittedRepair | Aborted

  datatype RepairStep = RepairStep(effectId: Id, expectedRevision: nat, action: RepairAction)

  datatype Repair = Repair(
    runId: Id, targetFrameId: Id, subtreeRevision: nat, authorized: map<Id, nat>,
    crossFrame: map<Id, Id>, plan: seq<RepairStep>, status: RepairStatus)

  datatype Relation =
    | OwnsEffect | HasRepair | HasReceipt | BoundToApproval | HasIncident | HasCancellation
    | HasFinding | HasReviewFinding | HasReviewDecision | RecoveryApprovalRequested

  /** UNIQUE(from_kind, from_id, relation, to_kind, to_id); the relation fixes
      both kinds. */
  datatype Edge = Edge(fromId: Id, relation: Relation, toId: int)

  datatype EventKind =
    | FrameCreated(frameId: Id, parent: Option<Id>)
    | FrameTransitioned(frameId: Id, next: FrameStatus)
    | EffectPlanned(effectId: Id)
    | EffectPrepared(ownerFrameId: Id, keyHash: Digest)
    | CallbackIntent(effectId: Id, attemptNo: int, approval: Option<Id>)
    | EffectReceived(effectId: Id, attemptNo: int)
    | EffectUnknownState(effectId: Id, attemptNo: int)
    | EffectCancelled(effectId: Id)
    | EffectCommitted(effectId: Id, receiptId: Id)
    | IngressFinalized(effectId: Id, outcome: IngressOutcome)
    | EffectTransitioned(effectId: Id, from: EffectState, to: EffectState)
    | LeaseAcquired(holderId: Id)
    | LeaseRenewed(holderId: Id)
    | LeaseReleased(holderId: Id)
    | ApprovalRequested(approvalId: Id)
    | ApprovalDecided(approvalId: Id)
    | RepairCreated(repairId: Id)
    | RepairStatusChanged(repairId: Id, previous: RepairStatus, status: RepairStatus)

  datatype Event = Event(runId: Id, kind: EventKind)

  /* ---------- the database ---------- */

  datatype Db = Db(
    clock: nat,
    workspaces: map<Id, Id>,               // agent_runs.workspace_id
    routes: map<Id, bool>,                 // route_decisions.requires_user_approval
    frames: map<Id, Frame>,
    effects: map<Id, Effect>,
    keyIndex: map<Digest, Id>,             // uniq_effects_idem_hash
    capsules: map<CapsuleKey, Capsule>,
    receipts: map<Id, Receipt>,
    findings: map<Id, Finding>,
    decisions: map<Id, ReviewDecision>,
    approvals: map<Id, Approval>,
    bindings: map<AttemptKey, Binding>,
    consumptions: map<ConsumptionKey, nat>,
    leases: map<Id, Lease>,
    repairs: map<Id, Repair>,
    tools: set<Id>,                        // tool_invocations.effect_id
    edges: map<Edge, Id>,                  // edge -> run_id
    failures: seq<CapsuleFailure>,
    events: seq<Event>)

  const EmptyDb := Db(0, map[], map[], map[], map[], map[], map[], map[], map[], map[], map[], map[], map[],
                      map[], map[], {}, map[], [], [])

  /** What an operation answers, and the database it leaves behind. */
  datatype Step<+T> = Step(result: Result<T>, db: Db)

  const DefaultWorkspace: Id := 0

  /** effect-protocol-service.ts resolveWorkspaceId. */
  function WorkspaceOf(db: Db, runId: Id): Id {
    if runId in db.workspaces then db.workspaces[runId] else DefaultWorkspace
  }

  /** appendEdge: an identical edge that already exists is left alone. */
  function AppendEdge(edges: map<Edge, Id>, e: Edge, runId: Id): map<Edge, Id> {
    if e in edges then edges else edges[e := runId]
  }

  function Log(db: Db, runId: Id, kind: EventKind): seq<Event> {
    db.events + [Event(runId, kind)]
  }

  /** The runtime tables that no operation on the effect ledger writes. */
  predicate RuntimeUntouched(a: Db, b: Db) {
    b.clock == a.clock && b.workspaces == a.workspaces && b.routes == a.routes && b.frames == a.frames
    && b.leases == a.leases && b.repairs == a.repairs
  }

  /** The tables of approval authority, which only prepare and callback intents write. */
  predicate AuthorityUntouched(a: Db, b: Db) {
    b.approvals == a.approvals && b.bindings == a.bindings && b.consumptions == a.consumptions
  }

  /** Exactly the row of effect e moves on, to state s, by one revision. */
  predicate OneStep(a: map<Id, Effect>, b: map<Id, Effect>, e: Id, s: EffectState) {
    && e in a && e in b && b == a[e := b[e]]
    && b[e].state == s && b[e].revision == a[e].revision + 1
  }

  /** The tables that only ending an effect writes. */
  predicate ReviewUntouched(a: Db, b: Db) { b.findings == a.findings && b.decisions == a.decisions }
}
