// The kernel as one transition system: an operation of any caller, its effect on
// the database, and runs of operations. A crash is a caller that takes no further
// step, so every finite sequence of operations is a run. Where a method's transaction
// does not repeat a check of its pre-read, the transaction is an operation too, and a
// method that has no transaction is as many operations as it has statements.

module Kernel {
  import opened Tables
  import opened EffectProtocol
  import opened DurableRuntime
  import opened IngressReview
  import R = RepairPlans
  import X = AuditIndex

  datatype EnvOp =
    | Tick(ms: nat)
    | StartRun(runId: Id, workspaceId: Id)
    | StoreRoute(routeId: Id, requiresApproval: bool)

  datatype FrameOp =
    | RootOp(runId: Id, newFrameId: Id)
    | ChildOp(runId: Id, parent: Id, newFrameId: Id)
    | MoveOp(frameId: Id, expectedStatus: Option<FrameStatus>, nextStatus: FrameStatus)

  datatype AuthorityOp =
    | RequestOp(newApprovalId: Id, row: Approval)
    | DecideOp(approvalId: Id, approve: bool)
    | RevokeOp(approvalId: Id)
    | NoteOp(approvalId: Id, decided: bool)
    | AcquireOp(runId: Id, holderId: Id, ttlMs: int)
    | RenewOp(runId: Id, holderId: Id, version: nat, ttlMs: int)
    | ReleaseOp(runId: Id, holderId: Id, version: nat)

  datatype LedgerOp =
    | PlanOp(plan: PlanInput)
    | TransitionOp(effectId: Id, revision: nat, expectedState: EffectState, nextState: EffectState)
    | PrepareOp(prepare: PrepareInput)
    | CasOp(cas: CasInput)
    | ReceiptOp(receipt: ReceiptInput)
    | UnknownOp(unknown: UnknownInput)
    | CancelOp(effectId: Id, revision: nat)
    | CommitOp(commit: CommitInput)
    | LateCommitOp(late: CommitInput)
    | FinalizeOp(finalize: FinalizeInput, instant: nat)

  datatype RepairOp =
    | CreateOp(request: R.Request, newRepairId: Id)
    | LateCreateOp(lateRequest: R.Request, newRepairId: Id)
    | StatusOp(status: R.StatusInput)

  /** rebuildAuditEdgesForRun is no transaction: each of its statements is a step. */
  datatype IndexOp =
    | DropOp(runId: Id)
    | RestoreOp(runId: Id, edge: Edge)

  datatype Op =
    | Env(env: EnvOp)
    | Frames(frame: FrameOp)
    | Authority(authority: AuthorityOp)
    | Ledger(ledger: LedgerOp)
    | Repairs(repair: RepairOp)
    | Index(index: IndexOp)

  /* ---------- what an operation does ---------- */

  /** Rows owned by services outside the kernel: inserted once, never changed. */
  function Insert<V>(m: map<Id, V>, key: Id, v: V): map<Id, V> { if key in m then m else m[key := v] }

  function ApplyEnv(db: Db, op: EnvOp): Db {
    match op
    case Tick(ms) => db.(clock := db.clock + ms)
    case StartRun(r, w) => db.(workspaces := Insert(db.workspaces, r, w))
    case StoreRoute(r, b) => db.(routes := Insert(db.routes, r, b))
  }

  function ApplyFrame(db: Db, op: FrameOp): Db {
    match op
    case RootOp(r, f) => CreateRootFrame(db, r, f).db
    case ChildOp(r, p, f) => CreateChildFrame(db, r, p, f).db
    case MoveOp(f, e, n) => TransitionFrame(db, f, e, n).db
  }

  function ApplyAuthority(db: Db, op: AuthorityOp): Db {
    match op
    case RequestOp(a, row) => RequestApproval(db, a, row).db
    case DecideOp(a, yes) => DecideApproval(db, a, yes).db
    case RevokeOp(a) => RevokeApproval(db, a).db
    case NoteOp(a, decided) => NoteApproval(db, a, decided).db
    case AcquireOp(r, h, ttl) => AcquireLease(db, r, h, ttl).db
    case RenewOp(r, h, v, ttl) => RenewLease(db, r, h, v, ttl).db
    case ReleaseOp(r, h, v) => ReleaseLease(db, r, h, v).db
  }

  function ApplyLedger(db: Db, op: LedgerOp): Db {
    match op
    case PlanOp(i) => PlanEffect(db, i).db
    case TransitionOp(e, rev, s, n) => TransitionEffect(db, e, rev, s, n).db
    case PrepareOp(i) => Prepare(db, i).db
    case CasOp(i) => CasToInFlight(db, i).db
    case ReceiptOp(i) => RecordReceipt(db, i).db
    case UnknownOp(i) => RecordUnknownOutcome(db, i).db
    case CancelOp(e, rev) => CancelBeforeSend(db, e, rev).db
    case CommitOp(i) => CommitToTerminal(db, i).db
    case LateCommitOp(i) => LateCommit(db, i)
    case FinalizeOp(i, t) => FinalizeAt(db, i, t).db
  }

  function ApplyRepair(db: Db, op: RepairOp): Db {
    match op
    case CreateOp(q, r) => R.CreateRepair(db, q, r).db
    case LateCreateOp(q, r) => R.LateCreate(db, q, r)
    case StatusOp(i) => R.SetRepairStatus(db, i).db
  }

  function ApplyIndex(db: Db, op: IndexOp): Db {
    match op
    case DropOp(r) => X.DropEdges(db, r)
    case RestoreOp(r, x) => X.RestoreEdge(db, r, x)
  }

  function Apply(db: Db, op: Op): Db {
    match op
    case Env(o) => ApplyEnv(db, o)
    case Frames(o) => ApplyFrame(db, o)
    case Authority(o) => ApplyAuthority(db, o)
    case Ledger(o) => ApplyLedger(db, o)
    case Repairs(o) => ApplyRepair(db, o)
    case Index(o) => ApplyIndex(db, o)
  }

  /* ---------- all or nothing ---------- */

  predicate FrameOpEnabled(db: Db, op: FrameOp) {
    match op
    case RootOp(r, f) => RootError(db, r, f).None?
    case ChildOp(r, p, f) => ChildError(db, r, p, f).None?
    case MoveOp(f, e, n) => FrameError(db, f, e, n).None?
  }

  function FrameOpDone(db: Db, op: FrameOp): Db
    requires FrameOpEnabled(db, op)
  {
    match op
    case RootOp(r, f) => RootPost(db, r, f)
    case ChildOp(r, p, f) => ChildPost(db, r, p, f)
    case MoveOp(f, _, n) => FramePost(db, f, n)
  }

  predicate AuthorityOpEnabled(db: Db, op: AuthorityOp) {
    match op
    case RequestOp(a, row) => RequestError(db, a, row).None?
    case DecideOp(a, yes) => DecideError(db, a, yes).None?
    case RevokeOp(a) => RevokeError(db, a).None?
    case NoteOp(a, decided) => NoteError(db, a, decided).None?
    case AcquireOp(r, h, _) => AcquireError(db, r, h).None?
    case RenewOp(r, h, v, _) => RenewError(db, r, h, v).None?
    case ReleaseOp(r, h, v) => ReleaseError(db, r, h, v).None?
  }

  function AuthorityOpDone(db: Db, op: AuthorityOp): Db
    requires AuthorityOpEnabled(db, op)
  {
    match op
    case RequestOp(a, row) => WriteApproval(db, a, row, RequestNote(a, row))
    case DecideOp(a, yes) => DecidePost(db, a, yes)
    case RevokeOp(a) => RevokePost(db, a)
    case NoteOp(a, decided) => NotePost(db, a, decided)
    case AcquireOp(r, h, ttl) => WriteLease(db, r, AcquiredLease(db, r, h, ttl), LeaseAcquired(h))
    case RenewOp(r, h, v, ttl) => WriteLease(db, r, RenewedLease(db, r, v, ttl), LeaseRenewed(h))
    case ReleaseOp(r, h, _) => ReleasePost(db, r, h)
  }

  predicate LedgerOpEnabled(db: Db, op: LedgerOp) {
    match op
    case PlanOp(i) => PlanError(db, i).None?
    case TransitionOp(e, rev, s, n) => TransitionError(db, e, rev, s, n).None?
    case PrepareOp(i) => PrepareError(db, i).None?
    case CasOp(i) => CasGuard(db, i)
    case ReceiptOp(i) => ReceiptError(db, i).None?
    case UnknownOp(i) => UnknownError(db, i).None?
    case CancelOp(e, rev) => CancelError(db, e, rev).None?
    case CommitOp(i) => CommitGuard(db, i)
    case LateCommitOp(i) => LateCommitGuard(db, i)
    case FinalizeOp(i, t) => FinalizeError(db, i, t).None?
  }

  function LedgerOpDone(db: Db, op: LedgerOp): Db
    requires LedgerOpEnabled(db, op)
  {
    match op
    case PlanOp(i) => PlanPost(db, i)
    case TransitionOp(e, _, _, n) => TransitionPost(db, e, n)
    case PrepareOp(i) => PreparePost(db, i)
    case CasOp(i) => CasPost(db, i)
    case ReceiptOp(i) => ReceiptPost(db, i)
    case UnknownOp(i) => UnknownPost(db, i)
    case CancelOp(e, _) => CancelPost(db, e)
    case CommitOp(i) => CommitPost(db, i)
    case LateCommitOp(i) => CommitPost(db, i)
    case FinalizeOp(i, _) => FinalizePost(db, i)
  }

  predicate RepairOpEnabled(db: Db, op: RepairOp) {
    match op
    case CreateOp(q, r) => R.CreateError(db, q, r).None?
    case LateCreateOp(q, r) => R.LateCreateGuard(db, q, r)
    case StatusOp(i) => R.StatusError(db, i).None?
  }

  function RepairOpDone(db: Db, op: RepairOp): Db
    requires RepairOpEnabled(db, op)
  {
    match op
    case CreateOp(q, r) => R.CreatePost(db, q, r)
    case LateCreateOp(q, r) => R.CreatePost(db, q, r)
    case StatusOp(i) => R.StatusPost(db, i)
  }

  /** A refused operation can only add one record to the capsule-failure log. */
  ghost predicate OnlyFailuresLogged(a: Db, b: Db) {
    && b == a.(failures := b.failures)
    && a.failures <= b.failures && |b.failures| <= |a.failures| + 1
  }

  lemma FrameOpsAreAtomic(db: Db, op: FrameOp)
    ensures if FrameOpEnabled(db, op) then ApplyFrame(db, op) == FrameOpDone(db, op) else ApplyFrame(db, op) == db
  {
    hide RootError, RootPost, ChildError, ChildPost, FrameError, FramePost;
  }

  lemma AuthorityOpsAreAtomic(db: Db, op: AuthorityOp)
    ensures if AuthorityOpEnabled(db, op) then ApplyAuthority(db, op) == AuthorityOpDone(db, op)
            else ApplyAuthority(db, op) == db
  {
    hide RequestError, DecideError, DecidePost, RevokeError, RevokePost, NoteError, NotePost, WriteApproval;
    hide AcquireError, AcquiredLease, RenewError, RenewedLease, ReleaseError, ReleasePost, WriteLease;
  }

  lemma RepairOpsAreAtomic(db: Db, op: RepairOp)
    ensures if RepairOpEnabled(db, op) then ApplyRepair(db, op) == RepairOpDone(db, op) else ApplyRepair(db, op) == db
  {
    hide R.CreateError, R.CreatePost, R.StatusError, R.StatusPost;
  }

  lemma LoggedFailure(db: Db, f: CapsuleFailure)
    ensures OnlyFailuresLogged(db, db) && OnlyFailuresLogged(db, db.(failures := db.failures + [f]))
  {
  }

  lemma CasAccepted(db: Db, i: CasInput)
    requires CasGuard(db, i)
    ensures CasToInFlight(db, i).db == CasPost(db, i)
  {
    hide CasRowError, CasCommand, CasLeaseError, ApprovalError, CasPost, LeaseVersionFor;
  }

  lemma CasRefused(db: Db, i: CasInput)
    requires !CasGuard(db, i)
    ensures CasToInFlight(db, i).db in {db, db.(failures := db.failures + [CapsuleFailure(i.effectId, TriedAttempt(db, i))])}
  {
    hide CasRowError, CasCommand, CasLeaseError, ApprovalError, CasPost, LeaseVersionFor;
  }

  lemma CommitAccepted(db: Db, i: CommitInput)
    requires CommitGuard(db, i)
    ensures CommitToTerminal(db, i).db == CommitPost(db, i)
  {
    hide CommitRowError, OpenAuthoritativeResult, LogsCapsuleFailure, CommitPost;
  }

  lemma CommitRefused(db: Db, i: CommitInput)
    requires !CommitGuard(db, i)
    ensures CommitToTerminal(db, i).db in {db, db.(failures := db.failures + [CapsuleFailure(i.effectId, i.attemptNo)])}
  {
    hide CommitRowError, OpenAuthoritativeResult, LogsCapsuleFailure, CommitPost;
  }

  lemma FinalizeAccepted(db: Db, i: FinalizeInput, now: nat)
    requires FinalizeError(db, i, now).None?
    ensures i.effectId in db.effects && db.effects[i.effectId].receiptId.Some?
    ensures FinalizeAt(db, i, now) == Step(Ok(StateAfter(i.outcome)), FinalizePost(db, i))
  {
    FinalizeAdmits(db, i, now);
    hide FinalizeError, FinalizePost;
  }

  lemma FinalizeRefused(db: Db, i: FinalizeInput, now: nat)
    requires FinalizeError(db, i, now).Some?
    ensures FinalizeAt(db, i, now).db in {db, db.(failures := db.failures + [CapsuleFailure(i.effectId, 0)])}
    ensures FinalizeAt(db, i, now).result == Err(FinalizeError(db, i, now).value)
  {
    hide FinalizeError, FinalizePost;
  }

  lemma ProtocolOpsAreAtomic(db: Db, op: LedgerOp)
    requires op.CasOp? || op.CommitOp? || op.FinalizeOp?
    ensures if LedgerOpEnabled(db, op) then ApplyLedger(db, op) == LedgerOpDone(db, op)
            else OnlyFailuresLogged(db, ApplyLedger(db, op))
  {
    hide CasGuard, CasPost, CasToInFlight, CommitGuard, CommitPost, CommitToTerminal, FinalizeError, FinalizePost;
    hide FinalizeAt, OnlyFailuresLogged;
    match op
    case CasOp(i) =>
      LoggedFailure(db, CapsuleFailure(i.effectId, TriedAttempt(db, i)));
      if CasGuard(db, i) { CasAccepted(db, i); } else { CasRefused(db, i); }
    case CommitOp(i) =>
      LoggedFailure(db, CapsuleFailure(i.effectId, i.attemptNo));
      if CommitGuard(db, i) { CommitAccepted(db, i); } else { CommitRefused(db, i); }
    case FinalizeOp(i, t) =>
      LoggedFailure(db, CapsuleFailure(i.effectId, 0));
      if FinalizeError(db, i, t).None? { FinalizeAccepted(db, i, t); } else { FinalizeRefused(db, i, t); }
  }

  /** All or nothing: an operation on the ledger has its whole effect or none. */
  lemma LedgerOpsAreAtomic(db: Db, op: LedgerOp)
    ensures if LedgerOpEnabled(db, op) then ApplyLedger(db, op) == LedgerOpDone(db, op)
            else OnlyFailuresLogged(db, ApplyLedger(db, op))
  {
    if op.CasOp? || op.CommitOp? || op.FinalizeOp? {
      hide *;
      ProtocolOpsAreAtomic(db, op);
    } else {
      hide PlanError, PlanPost, TransitionError, TransitionPost, PrepareError, PreparePost, PrepareOutput;
      hide ReceiptError, ReceiptPost, UnknownError, UnknownPost, CancelError, CancelPost;
      hide CasToInFlight, CommitToTerminal, LateCommitGuard, FinalizeAt, CasPost, CommitPost, FinalizePost;
    }
  }

  /* ---------- what the groups leave alone ---------- */

  lemma LedgerOpsKeepRuntime(db: Db, op: LedgerOp)
    ensures RuntimeUntouched(db, ApplyLedger(db, op))
  {
    LedgerOpsAreAtomic(db, op);
    hide ApplyLedger;
    hide PlanError, TransitionError, PrepareError, CasGuard, ReceiptError, UnknownError, CancelError, CommitGuard;
    hide FinalizeError, PlanPost, TransitionPost, PreparePost, CasPost, ReceiptPost, UnknownPost, CancelPost;
    hide CommitPost, FinalizePost;
  }

  lemma IndexOpsTouchEdges(db: Db, op: IndexOp)
    ensures ApplyIndex(db, op) == db.(edges := ApplyIndex(db, op).edges)
  {
    hide X.Expects, X.WithoutRun, AppendEdge;
  }

  /* ---------- runs ---------- */

  /** The database after a run of operations. */
  function Exec(db: Db, ops: seq<Op>): Db
    decreases |ops|
  {
    if ops == [] then db else Apply(Exec(db, ops[..|ops| - 1]), ops[|ops| - 1])
  }

  lemma ExecNone(db: Db)
    ensures Exec(db, []) == db
  {
    hide Apply;
  }

  lemma ExecOne(db: Db, ops: seq<Op>, op: Op)
    ensures Exec(db, ops + [op]) == Apply(Exec(db, ops), op)
  {
    hide Apply;
    assert (ops + [op])[..|ops|] == ops;
  }

  lemma {:induction false} ExecAppend(db: Db, xs: seq<Op>, ys: seq<Op>)
    ensures Exec(db, xs + ys) == Exec(Exec(db, xs), ys)
    decreases |ys|
  {
    hide Apply;
    if ys == [] {
      assert xs + ys == xs;
    } else {
      var n := |ys| - 1;
      ExecAppend(db, xs, ys[..n]);
      assert (xs + ys)[..|xs| + n] == xs + ys[..n];
    }
  }

  /** Without the generic transition: only the protocol moves effects. */
  predicate ProtocolOp(op: Op) { !(op.Ledger? && op.ledger.TransitionOp?) }

  predicate ProtocolRun(ops: seq<Op>) { forall i :: 0 <= i < |ops| ==> ProtocolOp(ops[i]) }
}
