// The audit trail of the kernel: which event each operation leaves, about what and for
// which run, and that the log is the list of what was accepted.

module AuditTrail {
  import opened Tables
  import opened CapsuleStore
  import opened EffectProtocol
  import opened DurableRuntime
  import opened IngressReview
  import R = RepairPlans
  import opened Kernel

  function One(ok: bool, runId: Id, kind: EventKind): seq<Event> { if ok then [Event(runId, kind)] else [] }

  function RunOf(db: Db, e: Id): Id { if e in db.effects then db.effects[e].runId else 0 }

  function FrameTrail(db: Db, op: FrameOp): seq<Event> {
    match op
    case RootOp(r, f) => One(CreateRootFrame(db, r, f).result.Ok?, r, FrameCreated(f, None))
    case ChildOp(r, p, f) => One(CreateChildFrame(db, r, p, f).result.Ok?, r, FrameCreated(f, Some(p)))
    case MoveOp(f, e, n) =>
      One(TransitionFrame(db, f, e, n).result.Ok?, if f in db.frames then db.frames[f].runId else 0, FrameTransitioned(f, n))
  }

  /** Only a recovery request is logged with its row; other requests, and decisions, are
      noted in a transaction of their own. A release by somebody who does not hold the lease
      is accepted without an event. */
  function AuthorityTrail(db: Db, op: AuthorityOp): seq<Event> {
    match op
    case RequestOp(a, row) =>
      One(RequestApproval(db, a, row).result.Ok? && row.approvalType == RecoveryRetry, row.runId, ApprovalRequested(a))
    case DecideOp(_, _) => []
    case NoteOp(a, decided) =>
      One(a in db.approvals && (decided ==> db.approvals[a].decision != Pending),
          if a in db.approvals then db.approvals[a].runId else 0, if decided then ApprovalDecided(a) else ApprovalRequested(a))
    case RevokeOp(a) =>
      One(RevokeApproval(db, a).result.Ok?, if a in db.approvals then db.approvals[a].runId else 0, ApprovalDecided(a))
    case AcquireOp(r, h, ttl) => One(AcquireLease(db, r, h, ttl).result.Ok?, r, LeaseAcquired(h))
    case RenewOp(r, h, v, ttl) => One(RenewLease(db, r, h, v, ttl).result.Ok?, r, LeaseRenewed(h))
    case ReleaseOp(r, h, v) =>
      One(ReleaseLease(db, r, h, v).result.Ok? && r in db.leases && db.leases[r].holderId == h, r, LeaseReleased(h))
  }

  /** The event of an operation that goes through. */
  function Mark(db: Db, op: LedgerOp): Event {
    match op
    case PlanOp(i) => Event(i.runId, EffectPlanned(i.newEffectId))
    case TransitionOp(e, _, s, n) => Event(RunOf(db, e), EffectTransitioned(e, s, n))
    case PrepareOp(i) => Event(i.runId, EffectPrepared(i.ownerFrameId, OfKey(i.idempotencyKey)))
    case CasOp(i) => Event(RunOf(db, i.effectId), CallbackIntent(i.effectId, i.attemptNo, i.approvalId))
    case ReceiptOp(i) => Event(RunOf(db, i.effectId), EffectReceived(i.effectId, i.attemptNo))
    case UnknownOp(i) => Event(RunOf(db, i.effectId), EffectUnknownState(i.effectId, i.attemptNo))
    case CancelOp(e, _) => Event(RunOf(db, e), EffectCancelled(e))
    case CommitOp(i) => Event(RunOf(db, i.effectId), EffectCommitted(i.effectId, i.receiptId))
    case LateCommitOp(i) => Event(RunOf(db, i.effectId), EffectCommitted(i.effectId, i.receiptId))
    case FinalizeOp(i, _) => Event(RunOf(db, i.effectId), IngressFinalized(i.effectId, i.outcome))
  }

  predicate LedgerAccepted(db: Db, op: LedgerOp) {
    match op
    case PlanOp(i) => PlanEffect(db, i).result.Ok?
    case TransitionOp(e, rev, s, n) => TransitionEffect(db, e, rev, s, n).result.Ok?
    case PrepareOp(i) => Prepare(db, i).result.Ok?
    case CasOp(i) => CasToInFlight(db, i).result.Ok?
    case ReceiptOp(i) => RecordReceipt(db, i).result.Ok?
    case UnknownOp(i) => RecordUnknownOutcome(db, i).result.Ok?
    case CancelOp(e, rev) => CancelBeforeSend(db, e, rev).result.Ok?
    case CommitOp(i) => CommitToTerminal(db, i).result.Ok?
    case LateCommitOp(i) => LateCommitGuard(db, i)
    case FinalizeOp(i, t) => FinalizeAt(db, i, t).result.Ok?
  }

  function LedgerTrail(db: Db, op: LedgerOp): seq<Event> { if LedgerAccepted(db, op) then [Mark(db, op)] else [] }

  function RepairTrail(db: Db, op: RepairOp): seq<Event> {
    match op
    case CreateOp(q, r) => One(R.CreateRepair(db, q, r).result.Ok?, q.runId, RepairCreated(r))
    case LateCreateOp(q, r) => One(R.LateCreateGuard(db, q, r), q.runId, RepairCreated(r))
    case StatusOp(i) =>
      if i.repairId !in db.repairs then []
      else
        One(R.SetRepairStatus(db, i).result.Ok?, db.repairs[i.repairId].runId,
            RepairStatusChanged(i.repairId, db.repairs[i.repairId].status, i.next))
  }

  /** The events that an operation leaves: at most one. Time, rows of other services and the
      statements of a rebuild leave none. */
  function Trail(db: Db, op: Op): seq<Event> {
    match op
    case Frames(o) => FrameTrail(db, o)
    case Authority(o) => AuthorityTrail(db, o)
    case Ledger(o) => LedgerTrail(db, o)
    case Repairs(o) => RepairTrail(db, o)
    case _ => []
  }

  lemma EnvLeavesNothing(db: Db, op: EnvOp)
    ensures ApplyEnv(db, op).events == db.events
  {
    hide Insert;
  }

  lemma NothingLeft(events: seq<Event>)
    ensures events + [] == events
  {
  }

  lemma FrameLeaves(db: Db, op: FrameOp)
    ensures ApplyFrame(db, op).events == db.events + FrameTrail(db, op)
  {
    NothingLeft(db.events);
    match op
    case RootOp(r, f) => RootLeaves(db, r, f); hide CreateRootFrame, CreateChildFrame, TransitionFrame;
    case ChildOp(r, p, f) => ChildLeaves(db, r, p, f); hide CreateRootFrame, CreateChildFrame, TransitionFrame;
    case MoveOp(f, e, n) => MoveLeaves(db, f, e, n); hide CreateRootFrame, CreateChildFrame, TransitionFrame;
  }

  /** The step leaves this event if it is accepted, and nothing if it is not. */
  predicate Leaves<T>(db: Db, step: Step<T>, runId: Id, kind: EventKind) {
    step.db.events == if step.result.Ok? then db.events + [Event(runId, kind)] else db.events
  }

  lemma RootLeaves(db: Db, r: Id, f: Id)
    ensures Leaves(db, CreateRootFrame(db, r, f), r, FrameCreated(f, None))
  {
    hide RootError;
  }

  lemma ChildLeaves(db: Db, r: Id, p: Id, f: Id)
    ensures Leaves(db, CreateChildFrame(db, r, p, f), r, FrameCreated(f, Some(p)))
  {
  }

  lemma MoveLeaves(db: Db, f: Id, e: Option<FrameStatus>, n: FrameStatus)
    ensures Leaves(db, TransitionFrame(db, f, e, n), if f in db.frames then db.frames[f].runId else 0, FrameTransitioned(f, n))
  {
    hide FrameTransitions;
  }

  lemma AuthorityLeaves(db: Db, op: AuthorityOp)
    ensures ApplyAuthority(db, op).events == db.events + AuthorityTrail(db, op)
  {
    NothingLeft(db.events);
    match op {
      case RequestOp(a, row) => RequestLeaves(db, a, row);
      case DecideOp(a, yes) => DecideLeaves(db, a, yes);
      case RevokeOp(a) => RevokeLeaves(db, a);
      case NoteOp(a, decided) => NoteLeaves(db, a, decided);
      case AcquireOp(r, h, ttl) => AcquireLeaves(db, r, h, ttl);
      case RenewOp(r, h, v, ttl) => RenewLeaves(db, r, h, v, ttl);
      case ReleaseOp(r, h, v) => ReleaseLeaves(db, r, h, v);
    }
    hide RequestApproval, DecideApproval, RevokeApproval, NoteApproval, AcquireLease, RenewLease, ReleaseLease;
  }

  lemma RequestLeaves(db: Db, a: Id, row: Approval)
    ensures RequestApproval(db, a, row).db.events ==
      if RequestApproval(db, a, row).result.Ok? && row.approvalType == RecoveryRetry
      then db.events + [Event(row.runId, ApprovalRequested(a))] else db.events
  {
    hide RequestError;
  }

  lemma DecideLeaves(db: Db, a: Id, yes: bool)
    ensures DecideApproval(db, a, yes).db.events == db.events
  {
    if DecideError(db, a, yes).None? {
      DecidingLogsNothing(db, a, yes);
    }
    hide DecideError, DecidePost;
  }

  lemma DecidingLogsNothing(db: Db, a: Id, yes: bool)
    requires a in db.approvals
    ensures DecidePost(db, a, yes).events == db.events
  {
  }

  lemma NoteLeaves(db: Db, a: Id, decided: bool)
    ensures NoteApproval(db, a, decided).db.events ==
      if a in db.approvals && (decided ==> db.approvals[a].decision != Pending)
      then db.events + [Event(db.approvals[a].runId, if decided then ApprovalDecided(a) else ApprovalRequested(a))]
      else db.events
  {
  }

  lemma RevokeLeaves(db: Db, a: Id)
    ensures Leaves(db, RevokeApproval(db, a), if a in db.approvals then db.approvals[a].runId else 0, ApprovalDecided(a))
  {
  }

  lemma AcquireLeaves(db: Db, r: Id, h: Id, ttl: int)
    ensures Leaves(db, AcquireLease(db, r, h, ttl), r, LeaseAcquired(h))
  {
    hide AcquireError, AcquiredLease;
  }

  lemma RenewLeaves(db: Db, r: Id, h: Id, v: nat, ttl: int)
    ensures Leaves(db, RenewLease(db, r, h, v, ttl), r, LeaseRenewed(h))
  {
  }

  lemma ReleaseLeaves(db: Db, r: Id, h: Id, v: nat)
    ensures ReleaseLease(db, r, h, v).db.events ==
      if ReleaseLease(db, r, h, v).result.Ok? && r in db.leases && db.leases[r].holderId == h
      then db.events + [Event(r, LeaseReleased(h))] else db.events
  {
  }

  lemma RepairLeaves(db: Db, op: RepairOp)
    ensures ApplyRepair(db, op).events == db.events + RepairTrail(db, op)
  {
    NothingLeft(db.events);
    match op {
      case CreateOp(q, r) => CreateLeaves(db, q, r);
      case LateCreateOp(q, r) => LateCreateLeaves(db, q, r);
      case StatusOp(i) => StatusLeaves(db, i);
    }
    hide R.CreateRepair, R.LateCreate, R.LateCreateGuard, R.SetRepairStatus;
  }

  lemma CreateLeaves(db: Db, q: R.Request, r: Id)
    ensures Leaves(db, R.CreateRepair(db, q, r), q.runId, RepairCreated(r))
  {
    hide R.CreateError, R.CrossFrameFor, AppendEdge;
  }

  lemma LateCreateLeaves(db: Db, q: R.Request, r: Id)
    ensures R.LateCreate(db, q, r).events ==
      if R.LateCreateGuard(db, q, r) then db.events + [Event(q.runId, RepairCreated(r))] else db.events
  {
    hide R.LateCreateGuard, R.CrossFrameFor, AppendEdge;
  }

  lemma StatusLeaves(db: Db, i: R.StatusInput)
    ensures R.SetRepairStatus(db, i).db.events ==
      if R.SetRepairStatus(db, i).result.Ok? && i.repairId in db.repairs
      then db.events + [Event(db.repairs[i.repairId].runId,
                              RepairStatusChanged(i.repairId, db.repairs[i.repairId].status, i.next))]
      else db.events
  {
    hide R.RepairError, RepairTransitions;
  }

  lemma LedgerLeaves(db: Db, op: LedgerOp)
    ensures ApplyLedger(db, op).events == db.events + LedgerTrail(db, op)
  {
    LedgerOpsAreAtomic(db, op);
    AcceptedIsEnabled(db, op);
    NothingLeft(db.events);
    hide ApplyLedger, LedgerOpEnabled, LedgerOpDone, LedgerAccepted, Mark, OnlyFailuresLogged;
    if LedgerOpEnabled(db, op) {
      DoneLeaves(db, op);
    } else {
      RefusedLeaves(db, ApplyLedger(db, op));
    }
  }

  lemma RefusedLeaves(a: Db, b: Db)
    requires OnlyFailuresLogged(a, b)
    ensures b.events == a.events
  {
  }

  lemma AcceptedIsEnabled(db: Db, op: LedgerOp)
    ensures LedgerAccepted(db, op) <==> LedgerOpEnabled(db, op)
  {
    if op.CasOp? {
      CasAnswer(db, op.cas);
      hide CasToInFlight, CasGuard;
    } else if op.CommitOp? {
      CommitAnswer(db, op.commit);
      hide CommitToTerminal, CommitGuard;
    } else if op.FinalizeOp? {
      FinalizeAnswer(db, op.finalize, op.instant);
      hide FinalizeAt, FinalizeError;
    } else {
      hide CasToInFlight, CommitToTerminal, FinalizeAt, CasGuard, CommitGuard, FinalizeError;
      hide PlanError, PlanPost, TransitionError, TransitionPost, PrepareError, PreparePost, PrepareOutput;
      hide ReceiptError, ReceiptPost, UnknownError, UnknownPost, CancelError, CancelPost, LateCommitGuard;
    }
  }

  lemma CasAnswer(db: Db, i: CasInput)
    ensures CasToInFlight(db, i).result.Ok? <==> CasGuard(db, i)
  {
    hide CasRowError, CasCommand, CasLeaseError, ApprovalError, CasPost, LeaseVersionFor;
  }

  lemma CommitAnswer(db: Db, i: CommitInput)
    ensures CommitToTerminal(db, i).result.Ok? <==> CommitGuard(db, i)
  {
    hide CommitRowError, OpenAuthoritativeResult, LogsCapsuleFailure, CommitPost;
  }

  lemma FinalizeAnswer(db: Db, i: FinalizeInput, t: nat)
    ensures FinalizeAt(db, i, t).result.Ok? <==> FinalizeError(db, i, t).None?
  {
    if FinalizeError(db, i, t).None? {
      FinalizeAccepted(db, i, t);
    } else {
      FinalizeRefused(db, i, t);
    }
    hide FinalizeAt, FinalizeError;
  }

  lemma DoneLeaves(db: Db, op: LedgerOp)
    requires LedgerOpEnabled(db, op)
    ensures LedgerOpDone(db, op).events == db.events + [Mark(db, op)]
  {
    hide PlanError, PrepareError, CommitGuard, LateCommitGuard, FinalizeError, AppendEdge, Existing;
    match op
    case PlanOp(i) =>
    case TransitionOp(e, _, _, n) =>
    case PrepareOp(i) => PrepareLeaves(db, i); hide PreparePost;
    case CasOp(i) => CasNeeds(db, i); CasTables(db, i); hide CasPost, CasGuard;
    case ReceiptOp(i) => hide NewReceipt, NewResultCapsule;
    case UnknownOp(i) =>
    case CancelOp(e, _) =>
    case CommitOp(i) =>
    case LateCommitOp(i) =>
    case FinalizeOp(i, _) =>
  }

  lemma PrepareLeaves(db: Db, i: PrepareInput)
    ensures PreparePost(db, i).events == db.events + [Mark(db, PrepareOp(i))]
  {
    hide Existing, NewEffect, NewCallbackCapsule, BindApproval, RunHook, AppendEdge;
    if Existing(db, i).Some? {
    } else {
    }
  }

  lemma CasNeeds(db: Db, i: CasInput)
    requires CasGuard(db, i)
    ensures i.effectId in db.effects && (i.approvalId.Some? ==> i.approvalId.value in db.approvals)
  {
    if i.approvalId.Some? {
      ApprovalAdmits(db, i);
    }
    hide CasCommand, CasLeaseError, ApprovalError;
  }

  lemma StepLeaves(db: Db, op: Op)
    ensures Apply(db, op).events == db.events + Trail(db, op)
  {
    hide ApplyEnv, ApplyFrame, ApplyAuthority, ApplyLedger, ApplyRepair, ApplyIndex;
    hide FrameTrail, AuthorityTrail, LedgerTrail, RepairTrail;
    match op
    case Env(o) => EnvLeavesNothing(db, o);
    case Frames(o) => FrameLeaves(db, o);
    case Authority(o) => AuthorityLeaves(db, o);
    case Ledger(o) => LedgerLeaves(db, o);
    case Repairs(o) => RepairLeaves(db, o);
    case Index(o) => IndexOpsTouchEdges(db, o);
  }

  function Trails(ops: seq<Op>): seq<Event>
    decreases |ops|
  {
    if ops == [] then []
    else Trails(ops[..|ops| - 1]) + Trail(Exec(EmptyDb, ops[..|ops| - 1]), ops[|ops| - 1])
  }

  /** The log of a run is exactly the events of its accepted operations, in order: none is
      missing, none is about anything else, and refusals leave none. */
  lemma {:induction false} LogIsTrail(ops: seq<Op>)
    ensures Exec(EmptyDb, ops).events == Trails(ops)
    decreases |ops|
  {
    hide Apply, Trail;
    if ops != [] {
      LogIsTrail(ops[..|ops| - 1]);
      StepLeaves(Exec(EmptyDb, ops[..|ops| - 1]), ops[|ops| - 1]);
    }
  }

  /* ---------- the capsule-failure log ---------- */

  predicate IsCapsuleError(e: Error) { e == CapsuleInvalid || e == CapsuleExpired }

  predicate CapsuleError<T>(r: Result<T>) { r.Err? && IsCapsuleError(r.error) }

  /** A refused intent is logged as a capsule failure exactly if its error is one, for the
      attempt whose capsule was tried: its own, or for a retry without one the attempt before,
      or its own again if that is missing too. */
  lemma IntentFailures(db: Db, i: CasInput)
    ensures var own, before := CallbackKey(i.effectId, i.attemptNo) in db.capsules,
        CallbackKey(i.effectId, i.attemptNo - 1) in db.capsules;
      CasToInFlight(db, i).db.failures ==
        if CapsuleError(CasToInFlight(db, i).result)
        then db.failures + [CapsuleFailure(i.effectId, if !own && i.retry && before then i.attemptNo - 1 else i.attemptNo)]
        else db.failures
  {
    IntentErrors(db, i);
    if CasGuard(db, i) {
      CasNeeds(db, i);
      IntentLogsNothing(db, i);
    }
    hide CasPost, CasRowError, CasCommand, CasLeaseError, ApprovalError, LeaseVersionFor;
  }

  /** Only the capsule makes an intent fail with a capsule error. */
  lemma IntentErrors(db: Db, i: CasInput)
    ensures CasRowError(db, i).Some? ==> !IsCapsuleError(CasRowError(db, i).value)
    ensures CasRowError(db, i).None? ==> i.effectId in db.effects
    ensures CasRowError(db, i).None? && CasCommand(db, i).Err? ==> IsCapsuleError(CasCommand(db, i).error)
    ensures CasRowError(db, i).None? && CasLeaseError(db, i).Some? ==> !IsCapsuleError(CasLeaseError(db, i).value)
    ensures CasRowError(db, i).None? && ApprovalError(db, db.effects[i.effectId], i).Some? ==>
      !IsCapsuleError(ApprovalError(db, db.effects[i.effectId], i).value)
  {
    hide ActiveLease, RequiresApproval, ApprovalCovers;
  }

  lemma IntentLogsNothing(db: Db, i: CasInput)
    requires i.effectId in db.effects && (i.approvalId.Some? ==> i.approvalId.value in db.approvals)
    ensures CasPost(db, i).failures == db.failures
  {
    hide CasEffect, CasCapsules, ConsumeOne, AppendEdge;
    if i.approvalId.Some? {
    } else {
    }
  }

  /** An unknown outcome is logged as a capsule failure too. */
  lemma UnknownFailures(db: Db, i: UnknownInput)
    ensures RecordUnknownOutcome(db, i).db.failures ==
      if RecordUnknownOutcome(db, i).result.Ok? then db.failures + [CapsuleFailure(i.effectId, i.attemptNo)]
      else db.failures
  {
    hide UnknownError, AppendEdge;
  }

  /** So is a verdict whose result does not open, or is not the reviewed one. */
  lemma VerdictFailures(db: Db, i: FinalizeInput, t: nat)
    ensures FinalizeAt(db, i, t).db.failures ==
      if CapsuleError(FinalizeAt(db, i, t).result) then db.failures + [CapsuleFailure(i.effectId, 0)] else db.failures
  {
    if FinalizeError(db, i, t).None? {
      FinalizeAccepted(db, i, t);
      VerdictLogsNothing(db, i);
      hide FinalizeError, FinalizeAt, FinalizePost;
    } else {
      VerdictRefusal(db, i, t, FinalizeError(db, i, t).value);
      hide FinalizeError, FinalizeAt;
    }
  }

  lemma VerdictRefusal(db: Db, i: FinalizeInput, t: nat, e: Error)
    requires FinalizeError(db, i, t) == Some(e)
    ensures FinalizeAt(db, i, t).result == Err(e)
    ensures FinalizeAt(db, i, t).db.failures ==
      if IsCapsuleError(e) then db.failures + [CapsuleFailure(i.effectId, 0)] else db.failures
  {
    hide FinalizeError;
    match e
    case CapsuleInvalid =>
    case CapsuleExpired =>
    case _ =>
  }

  lemma VerdictLogsNothing(db: Db, i: FinalizeInput)
    requires i.effectId in db.effects && db.effects[i.effectId].receiptId.Some?
    ensures FinalizePost(db, i).failures == db.failures
  {
    hide AppendEdge, StateAfter;
  }
}
