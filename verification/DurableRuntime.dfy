// The durable runtime kernel as steps of the database: frames, planned effects,
// the generic effect transition, recovery leases, repairs, approval rows.

module DurableRuntime {
  import opened Tables
  import opened EffectProtocol

  /* ---------- transition tables (durable-runtime-types.ts) ---------- */

  function FrameTransitions(s: FrameStatus): set<FrameStatus> {
    match s
    case FPending => {FRunning, FAwaitingApproval, FCancelled, FFailed}
    case FRunning => {FAwaitingApproval, FCompleted, FFailed, FCancelled}
    case FAwaitingApproval => {FRunning, FCompleted, FFailed, FCancelled}
    case FCompleted => {}
    case FFailed => {}
    case FCancelled => {}
  }

  function EffectTransitions(s: EffectState): set<EffectState> {
    match s
    case Planned => {InFlight, CancelledBeforeSend, Failed}
    case InFlight => {Received, AwaitingCallbackVerification, Unknown, Failed}
    case Received => {AwaitingCallbackVerification, Committed, Quarantined, Failed}
    case AwaitingCallbackVerification => {Committed, Quarantined, Failed}
    case Unknown => {Received, Committed, Quarantined, Failed, InFlight}
    case Committed => {Compensating}
    case Compensating => {Compensated, Failed, Unknown}
    case Quarantined => {}
    case Compensated => {}
    case Failed => {}
    case CancelledBeforeSend => {}
  }

  function RepairTransitions(s: RepairStatus): set<RepairStatus> {
    match s
    case Open => {AcceptedRepair, RejectedRepair, Aborted}
    case AcceptedRepair => {CommittedRepair, Aborted, RejectedRepair}
    case RejectedRepair => {}
    case CommittedRepair => {}
    case Aborted => {}
  }

  /* ---------- frames ---------- */

  /** Foreign key to the run, primary key, and one root per run
      (uniq_root_frame_per_run). */
  function RootError(db: Db, runId: Id, newId: Id): Option<Error> {
    if runId !in db.workspaces || newId in db.frames
      || (exists f :: f in db.frames && db.frames[f].runId == runId && db.frames[f].parent == None)
    then Some(ConstraintViolation) else None
  }

  function RootPost(db: Db, runId: Id, newId: Id): Db {
    db.(frames := db.frames[newId := Frame(runId, None, FPending, [], 1)],
        events := Log(db, runId, FrameCreated(newId, None)))
  }

  function CreateRootFrame(db: Db, runId: Id, newId: Id): Step<Id> {
    match RootError(db, runId, newId)
    case Some(e) => Fail(db, e)
    case None => Step(Ok(newId), RootPost(db, runId, newId))
  }

  function ChildError(db: Db, runId: Id, parent: Id, newId: Id): Option<Error> {
    if parent !in db.frames then Some(FrameNotFound)
    else if db.frames[parent].runId != runId then Some(EffectOwnerMismatch)
    else if newId in db.frames then Some(ConstraintViolation)
    else None
  }

  function ChildPost(db: Db, runId: Id, parent: Id, newId: Id): Db
    requires parent in db.frames
  {
    var p := db.frames[parent];
    db.(frames := db.frames[newId := Frame(runId, Some(parent), FPending, p.path + [parent], 1)]
                           [parent := p.(subtreeRevision := p.subtreeRevision + 1)],
        events := Log(db, runId, FrameCreated(newId, Some(parent))))
  }

  function CreateChildFrame(db: Db, runId: Id, parent: Id, newId: Id): Step<Id> {
    match ChildError(db, runId, parent, newId)
    case Some(e) => Fail(db, e)
    case None => Step(Ok(newId), ChildPost(db, runId, parent, newId))
  }

  function FrameError(db: Db, f: Id, expected: Option<FrameStatus>, next: FrameStatus): Option<Error> {
    if f !in db.frames then Some(FrameNotFound)
    else if next !in FrameTransitions(db.frames[f].status) then Some(FrameInvalidTransition)
    else if expected.Some? && expected.value != db.frames[f].status then Some(RevisionConflict)
    else None
  }

  function FramePost(db: Db, f: Id, next: FrameStatus): Db
    requires f in db.frames
  {
    var row := db.frames[f];
    db.(frames := db.frames[f := row.(status := next, subtreeRevision := row.subtreeRevision + 1)],
        events := Log(db, row.runId, FrameTransitioned(f, next)))
  }

  function TransitionFrame(db: Db, f: Id, expected: Option<FrameStatus>, next: FrameStatus): Step<Id> {
    match FrameError(db, f, expected, next)
    case Some(e) => Fail(db, e)
    case None => Step(Ok(f), FramePost(db, f, next))
  }

  /* ---------- planned effects and the generic transition ---------- */

  datatype PlanInput = PlanInput(
    runId: Id, ownerFrameId: Id, adapterKind: Text, payloadFingerprint: Digest, keyHash: Digest,
    repairActions: set<RepairAction>, dependencies: seq<Id>, routeId: Option<Id>, newEffectId: Id)

  function PlanError(db: Db, i: PlanInput): Option<Error> {
    if i.ownerFrameId !in db.frames then Some(FrameNotFound)
    else if db.frames[i.ownerFrameId].runId != i.runId then Some(EffectOwnerMismatch)
    else if i.keyHash in db.keyIndex && db.keyIndex[i.keyHash] in db.effects
      && db.effects[db.keyIndex[i.keyHash]].ownerFrameId != i.ownerFrameId then Some(EffectIdempotencyReused)
    else if i.keyHash in db.keyIndex && db.keyIndex[i.keyHash] in db.effects
      && db.effects[db.keyIndex[i.keyHash]].payloadFingerprint != i.payloadFingerprint then
      Some(EffectPayloadFingerprintChanged)
    else if i.newEffectId in db.effects || i.keyHash in db.keyIndex then Some(EffectIdempotencyReused)
    else None
  }

  function PlannedEffect(i: PlanInput): Effect {
    Effect(i.runId, i.ownerFrameId, i.adapterKind, i.payloadFingerprint, None, i.keyHash, Planned, 1,
           i.repairActions, i.dependencies, i.routeId, None, None, None, None, None)
  }

  function PlanPost(db: Db, i: PlanInput): (after: Db)
    ensures RuntimeUntouched(db, after) && after.tools == db.tools && ReviewUntouched(db, after)
    ensures AuthorityUntouched(db, after) && after.capsules == db.capsules
  {
    db.(effects := db.effects[i.newEffectId := PlannedEffect(i)],
        keyIndex := db.keyIndex[i.keyHash := i.newEffectId],
        edges := AppendEdge(db.edges, Edge(i.ownerFrameId, OwnsEffect, i.newEffectId), i.runId),
        events := Log(db, i.runId, EffectPlanned(i.newEffectId)))
  }

  function PlanEffect(db: Db, i: PlanInput): Step<Id> {
    match PlanError(db, i)
    case Some(e) => Fail(db, e)
    case None => Step(Ok(i.newEffectId), PlanPost(db, i))
  }

  /** transitionEffect: every edge of the table except callback intents; the
      state CHECK of the schema refuses `awaiting_callback_verification`. */
  function TransitionError(
    db: Db, effectId: Id, expectedRevision: nat, expected: EffectState, next: EffectState): Option<Error>
  {
    if effectId !in db.effects then Some(EffectNotFound)
    else if db.effects[effectId].revision != expectedRevision then Some(RevisionConflict)
    else if db.effects[effectId].state != expected then Some(EffectInvalidTransition)
    else if next !in EffectTransitions(expected) then Some(EffectInvalidTransition)
    else if next == InFlight && (expected == Planned || expected == Unknown) then Some(EffectInvalidTransition)
    else if next == AwaitingCallbackVerification then Some(ConstraintViolation)
    else None
  }

  function TransitionPost(db: Db, effectId: Id, next: EffectState): (after: Db)
    requires effectId in db.effects
    ensures RuntimeUntouched(db, after) && after.tools == db.tools && ReviewUntouched(db, after)
    ensures OneStep(db.effects, after.effects, effectId, next)
    ensures AuthorityUntouched(db, after) && after.capsules == db.capsules
  {
    var e := db.effects[effectId];
    db.(effects := db.effects[effectId := e.(state := next, revision := e.revision + 1)],
        events := Log(db, e.runId, EffectTransitioned(effectId, e.state, next)))
  }

  function TransitionEffect(
    db: Db, effectId: Id, expectedRevision: nat, expected: EffectState, next: EffectState): Step<Id>
  {
    match TransitionError(db, effectId, expectedRevision, expected, next)
    case Some(e) => Fail(db, e)
    case None => Step(Ok(effectId), TransitionPost(db, effectId, next))
  }

  /* ---------- recovery leases ---------- */

  function ExpiryFor(db: Db, ttlMs: int): nat { db.clock + (if ttlMs < 1 then 1 else ttlMs) }

  function WriteLease(db: Db, runId: Id, lease: Lease, kind: EventKind): Db {
    db.(leases := db.leases[runId := lease], events := Log(db, runId, kind))
  }

  predicate LeaseHeld(db: Db, runId: Id) {
    runId in db.leases && !db.leases[runId].released && db.clock < db.leases[runId].expiresAt
  }

  function AcquireError(db: Db, runId: Id, holderId: Id): Option<Error> {
    if LeaseHeld(db, runId) && db.leases[runId].holderId != holderId then Some(LeaseVersionConflict)
    else if runId !in db.leases && runId !in db.workspaces then Some(ConstraintViolation)
    else None
  }

  /** An active lease answers its own holder without a write; a missing one is
      created at version 1; an expired or released one is taken over. */
  function AcquiredLease(db: Db, runId: Id, holderId: Id, ttlMs: int): Lease {
    if runId !in db.leases then Lease(holderId, 1, ExpiryFor(db, ttlMs), false)
    else if LeaseHeld(db, runId) then db.leases[runId]
    else Lease(holderId, db.leases[runId].version + 1, ExpiryFor(db, ttlMs), false)
  }

  function AcquireLease(db: Db, runId: Id, holderId: Id, ttlMs: int): Step<Lease> {
    match AcquireError(db, runId, holderId)
    case Some(e) => Fail(db, e)
    case None =>
      var lease := AcquiredLease(db, runId, holderId, ttlMs);
      Step(Ok(lease), WriteLease(db, runId, lease, LeaseAcquired(holderId)))
  }

  function RenewError(db: Db, runId: Id, holderId: Id, expectedVersion: nat): Option<Error> {
    if runId !in db.leases || db.leases[runId].holderId != holderId then Some(LeaseNotHeld)
    else if db.leases[runId].version != expectedVersion then Some(LeaseVersionConflict)
    else if db.leases[runId].released then Some(LeaseNotHeld)
    else if db.leases[runId].expiresAt <= db.clock then Some(LeaseTakenOver)
    else None
  }

  function RenewedLease(db: Db, runId: Id, expectedVersion: nat, ttlMs: int): Lease
    requires runId in db.leases
  {
    db.leases[runId].(version := expectedVersion + 1, expiresAt := ExpiryFor(db, ttlMs))
  }

  function RenewLease(db: Db, runId: Id, holderId: Id, expectedVersion: nat, ttlMs: int): Step<Lease> {
    match RenewError(db, runId, holderId, expectedVersion)
    case Some(e) => Fail(db, e)
    case None =>
      var lease := RenewedLease(db, runId, expectedVersion, ttlMs);
      Step(Ok(lease), WriteLease(db, runId, lease, LeaseRenewed(holderId)))
  }

  predicate HoldsLeaseRow(db: Db, runId: Id, holderId: Id) {
    runId in db.leases && db.leases[runId].holderId == holderId
  }

  function ReleaseError(db: Db, runId: Id, holderId: Id, expectedVersion: nat): Option<Error> {
    if HoldsLeaseRow(db, runId, holderId) && db.leases[runId].version != expectedVersion
    then Some(LeaseVersionConflict) else None
  }

  /** Releasing somebody else's lease, or none, does nothing and says nothing. */
  function ReleasePost(db: Db, runId: Id, holderId: Id): Db {
    if !HoldsLeaseRow(db, runId, holderId) then db
    else
      var lease := db.leases[runId];
      WriteLease(db, runId, lease.(version := lease.version + 1, released := true), LeaseReleased(holderId))
  }

  function ReleaseLease(db: Db, runId: Id, holderId: Id, expectedVersion: nat): Step<()> {
    match ReleaseError(db, runId, holderId, expectedVersion)
    case Some(e) => Fail(db, e)
    case None => Step(Ok(()), ReleasePost(db, runId, holderId))
  }

  /* ---------- approval rows (run-service.ts, index.ts) ---------- */

  /** A fresh request: pending, unused, revision 1. Only a recovery request is
      bound to an effect from the start. */
  function RequestError(db: Db, newId: Id, row: Approval): Option<Error> {
    if newId in db.approvals then Some(ConstraintViolation)
    else if row.decision != Pending || row.usesConsumed != 0 || row.revision != 1
      || (row.effectId.None? && row.effectRevision.Some?) then Some(InvalidArgument)
    else None
  }

  /** The row, and the event if it is written in the same transaction. */
  function WriteApproval(db: Db, a: Id, row: Approval, note: Option<EventKind>): Db {
    db.(approvals := db.approvals[a := row],
        events := if note.Some? then Log(db, row.runId, note.value) else db.events)
  }

  /** requestRecoveryApproval is one transaction; requestApproval appends its event later. */
  function RequestNote(a: Id, row: Approval): Option<EventKind> {
    if row.approvalType == RecoveryRetry then Some(ApprovalRequested(a)) else None
  }

  function RequestApproval(db: Db, newId: Id, row: Approval): Step<Id> {
    match RequestError(db, newId, row)
    case Some(e) => Fail(db, e)
    case None => Step(Ok(newId), WriteApproval(db, newId, row, RequestNote(newId, row)))
  }

  function Verdict(approve: bool): Decision { if approve then Approved else Denied }

  function DecideError(db: Db, a: Id, approve: bool): Option<Error> {
    if a !in db.approvals then Some(SecretAccessDenied)
    else if db.approvals[a].decision != Pending && db.approvals[a].decision != Verdict(approve) then
      Some(InvalidArgument)
    else None
  }

  /** Replaying the recorded decision is accepted and writes nothing. The event of a
      decision is appended later. */
  function DecidePost(db: Db, a: Id, approve: bool): Db
    requires a in db.approvals
  {
    if db.approvals[a].decision == Verdict(approve) then db
    else WriteApproval(db, a, db.approvals[a].(decision := Verdict(approve)), None)
  }

  function DecideApproval(db: Db, a: Id, approve: bool): Step<Decision> {
    match DecideError(db, a, approve)
    case Some(e) => Fail(db, e)
    case None => Step(Ok(Verdict(approve)), DecidePost(db, a, approve))
  }

  function RevokeError(db: Db, a: Id): Option<Error> {
    if a !in db.approvals then Some(PermissionDenied)
    else if db.approvals[a].decision != Approved then Some(InvalidArgument)
    else None
  }

  function RevokePost(db: Db, a: Id): Db
    requires a in db.approvals
  {
    var row := db.approvals[a];
    WriteApproval(db, a, row.(decision := Revoked, revision := row.revision + 1), Some(ApprovalDecided(a)))
  }

  function RevokeApproval(db: Db, a: Id): Step<Decision> {
    match RevokeError(db, a)
    case Some(e) => Fail(db, e)
    case None => Step(Ok(Revoked), RevokePost(db, a))
  }

  /** The event that requestApproval and submitApprovalDecision append once the row is
      written, in a transaction of its own: a process that dies in between leaves none. */
  function NoteError(db: Db, a: Id, decided: bool): Option<Error> {
    if a !in db.approvals || (decided && db.approvals[a].decision == Pending) then Some(InvalidArgument) else None
  }

  function NotePost(db: Db, a: Id, decided: bool): Db
    requires a in db.approvals
  {
    db.(events := Log(db, db.approvals[a].runId, if decided then ApprovalDecided(a) else ApprovalRequested(a)))
  }

  function NoteApproval(db: Db, a: Id, decided: bool): Step<()> {
    match NoteError(db, a, decided)
    case Some(e) => Fail(db, e)
    case None => Step(Ok(()), NotePost(db, a, decided))
  }
}
