// Repair transactions: the verifier that admits a plan against a snapshot of the
// world, and the status machine that re-verifies it before the commit.

module RepairPlans {
  import opened Tables
  import opened EffectProtocol
  import opened DurableRuntime

  /** One verification request. `evidence` is the set of effects whose sealed
      callback and policy evidence currently authenticates. */
  datatype Request = Request(
    runId: Id, targetFrameId: Id, subtreeRevision: nat, authorized: map<Id, nat>,
    requestLocal: set<Id>, crossFrame: map<Id, Id>, plan: seq<RepairStep>, evidence: set<Id>)

  /** Same frame, or an ancestor on the stored path. */
  predicate InSubtree(frames: map<Id, Frame>, candidate: Id, target: Id) {
    candidate == target || (candidate in frames && target in frames[candidate].path)
  }

  predicate ActionAllowedInState(a: RepairAction, s: EffectState) {
    match a
    case Retry => s == Planned || s == Unknown || s == Failed
    case Compensate => s == Committed
    case Amend => s == Planned || s == Unknown
    case Reconcile => s == InFlight || s == Unknown || s == Received
    case Preserve => s != Compensated && s != CancelledBeforeSend
    case Escalate => true
  }

  /** verifyCrossFrameApproval */
  predicate CrossFrameApproved(db: Db, q: Request, effectId: Id, e: Effect, expected: nat) {
    && effectId in q.crossFrame
    && q.crossFrame[effectId] in db.approvals
    && var a := db.approvals[q.crossFrame[effectId]];
      && a.decision == Approved
      && a.approvalType == RepairCrossFrame
      && (a.expiresAt.Some? ==> db.clock < a.expiresAt.value)
      && a.runId == q.runId
      && a.effectId == Some(effectId)
      && a.effectRevision == Some(expected)
      && a.payloadFingerprint == Some(e.payloadFingerprint)
      && a.scopeHash == e.scopeHash
      && a.policyVersionHash == e.policyVersionHash
      && a.scope == Some(CrossFrameScope(q.runId, q.targetFrameId, effectId, expected))
  }

  function CrossFrameError(db: Db, q: Request, effectId: Id, e: Effect, expected: nat): Option<Error> {
    if effectId in q.requestLocal then Some(RepairInvalid)
    else if effectId !in q.crossFrame then Some(RepairSiblingOverreach)
    else if !CrossFrameApproved(db, q, effectId, e, expected) then Some(RepairInvalid)
    else None
  }

  /** What is wrong with step k on its own, given the steps before it. */
  function StepError(db: Db, q: Request, k: nat): Option<Error>
    requires k < |q.plan|
  {
    var s := q.plan[k];
    if exists j :: 0 <= j < k && q.plan[j].effectId == s.effectId then Some(RepairInvalid)
    else if s.effectId !in db.effects then Some(EffectNotFound)
    else
      var e := db.effects[s.effectId];
      if e.runId != q.runId then Some(EffectOwnerMismatch)
      else if !InSubtree(db.frames, e.ownerFrameId, q.targetFrameId)
        && CrossFrameError(db, q, s.effectId, e, s.expectedRevision).Some? then
        CrossFrameError(db, q, s.effectId, e, s.expectedRevision)
      else if s.effectId !in q.authorized || q.authorized[s.effectId] != s.expectedRevision
        || e.revision != s.expectedRevision then Some(RepairInvalid)
      else if s.action !in e.repairActions || !ActionAllowedInState(s.action, e.state) then Some(RepairInvalid)
      else if s.effectId !in q.evidence then Some(RepairInvalid)
      else None
  }

  /** The first failing step at or after k. */
  function FirstStepError(db: Db, q: Request, k: nat): Option<Error>
    requires k <= |q.plan|
    decreases |q.plan| - k
  {
    if k == |q.plan| then None
    else if StepError(db, q, k).Some? then StepError(db, q, k)
    else FirstStepError(db, q, k + 1)
  }

  /** What is wrong with dependency d of step k. */
  function DependencyError(q: Request, k: nat, d: Id): Option<Error>
    requires k < |q.plan|
  {
    if forall j :: 0 <= j < |q.plan| ==> q.plan[j].effectId != d then Some(RepairInvalid)
    else if forall j :: 0 <= j < k ==> q.plan[j].effectId != d then Some(RepairDependencyReversed)
    else None
  }

  function FirstDependencyError(q: Request, k: nat, deps: seq<Id>): Option<Error>
    requires k < |q.plan|
  {
    if deps == [] then None
    else if DependencyError(q, k, deps[0]).Some? then DependencyError(q, k, deps[0])
    else FirstDependencyError(q, k, deps[1..])
  }

  function Dependencies(db: Db, effectId: Id): seq<Id> {
    if effectId in db.effects then db.effects[effectId].dependencies else []
  }

  function FirstOrderError(db: Db, q: Request, k: nat): Option<Error>
    requires k <= |q.plan|
    decreases |q.plan| - k
  {
    if k == |q.plan| then None
    else
      var err := FirstDependencyError(q, k, Dependencies(db, q.plan[k].effectId));
      if err.Some? then err else FirstOrderError(db, q, k + 1)
  }

  /** verifyRepairInvariants */
  function RepairError(db: Db, q: Request): Option<Error> {
    if q.targetFrameId !in db.frames then Some(FrameNotFound)
    else if db.frames[q.targetFrameId].subtreeRevision != q.subtreeRevision then Some(RepairSubtreeRevisionDrift)
    else if FirstStepError(db, q, 0).Some? then FirstStepError(db, q, 0)
    else FirstOrderError(db, q, 0)
  }

  /* ---------- transactions ---------- */

  function CrossFrameFor(q: Request): map<Id, Id> {
    map e | e in q.crossFrame && (exists k :: 0 <= k < |q.plan| && q.plan[k].effectId == e) :: q.crossFrame[e]
  }

  function CreateError(db: Db, q: Request, newId: Id): Option<Error> {
    if q.targetFrameId !in db.frames then Some(FrameNotFound)
    else if db.frames[q.targetFrameId].runId != q.runId then Some(InvalidArgument)
    else if RepairError(db, q).Some? then RepairError(db, q)
    else if newId in db.repairs then Some(ConstraintViolation)
    else None
  }

  function CreatePost(db: Db, q: Request, newId: Id): Db {
    var row := Repair(q.runId, q.targetFrameId, q.subtreeRevision, q.authorized, CrossFrameFor(q), q.plan, Open);
    db.(repairs := db.repairs[newId := row],
        edges := AppendEdge(db.edges, Edge(q.targetFrameId, HasRepair, newId), q.runId),
        events := Log(db, q.runId, RepairCreated(newId)))
  }

  function CreateRepair(db: Db, q: Request, newId: Id): Step<Id> {
    match CreateError(db, q, newId)
    case Some(e) => Fail(db, e)
    case None => Step(Ok(newId), CreatePost(db, q, newId))
  }

  /** The creation's transaction on its own: the plan was verified at an earlier moment
      and is not verified again. */
  predicate LateCreateGuard(db: Db, q: Request, newId: Id) {
    && q.targetFrameId in db.frames && db.frames[q.targetFrameId].runId == q.runId
    && newId !in db.repairs
  }

  function LateCreate(db: Db, q: Request, newId: Id): Db {
    if LateCreateGuard(db, q, newId) then CreatePost(db, q, newId) else db
  }

  datatype CommitAuthority = CommitAuthority(holderId: Id, leaseVersion: nat)

  datatype StatusInput = StatusInput(
    repairId: Id, next: RepairStatus, authority: Option<CommitAuthority>, evidence: set<Id>)

  /** The stored repair, read back as a verification request. */
  function StoredRequest(r: Repair, evidence: set<Id>): Request {
    Request(r.runId, r.targetFrameId, r.subtreeRevision, r.authorized, {}, r.crossFrame, r.plan, evidence)
  }

  function StatusError(db: Db, i: StatusInput): Option<Error> {
    if i.repairId !in db.repairs then Some(RepairNotFound)
    else
      var r := db.repairs[i.repairId];
      if i.next !in RepairTransitions(r.status) then Some(RepairInvalid)
      else if i.next != CommittedRepair then None
      else if RepairError(db, StoredRequest(r, i.evidence)).Some? then RepairError(db, StoredRequest(r, i.evidence))
      else if i.authority.None? then Some(LeaseNotHeld)
      else if !ActiveLease(db, r.runId, i.authority.value.holderId, i.authority.value.leaseVersion, db.clock) then
        Some(LeaseNotHeld)
      else None
  }

  function StatusPost(db: Db, i: StatusInput): Db
    requires i.repairId in db.repairs
  {
    var r := db.repairs[i.repairId];
    db.(repairs := db.repairs[i.repairId := r.(status := i.next)],
        events := Log(db, r.runId, RepairStatusChanged(i.repairId, r.status, i.next)))
  }

  function SetRepairStatus(db: Db, i: StatusInput): Step<RepairStatus> {
    match StatusError(db, i)
    case Some(e) => Fail(db, e)
    case None => Step(Ok(i.next), StatusPost(db, i))
  }
}
