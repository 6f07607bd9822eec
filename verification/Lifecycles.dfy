// The transition tables by what they mean: what a status says about the one before, which
// moves the generic methods accept, and what that makes of whole runs.

module Lifecycles {
  import opened Tables
  import opened EffectProtocol
  import opened DurableRuntime
  import opened IngressReview
  import R = RepairPlans
  import opened Kernel
  import opened Evolution
  import opened Replay
  import opened Forest
  import opened RepairSafety

  /* ---------- frames ---------- */

  predicate Over(s: FrameStatus) { s == FCompleted || s == FFailed || s == FCancelled }

  /** A frame that is not over may go anywhere but back to pending, except that a pending
      one cannot complete. */
  lemma FrameMovesIff(db: Db, f: Id, expected: Option<FrameStatus>, next: FrameStatus)
    ensures TransitionFrame(db, f, expected, next).result.Ok? <==>
      && f in db.frames
      && var s := db.frames[f].status;
      && (expected == None || expected == Some(s))
      && !Over(s) && next != s && next != FPending && !(s == FPending && next == FCompleted)
  {
  }

  /** One step moves a frame only as its own accepted transition says; new ones are pending. */
  predicate FrameMoves(a: map<Id, Frame>, b: map<Id, Frame>, op: Op, f: Id) {
    if f !in a then f in b ==> b[f].status == FPending
    else
      && f in b
      && (b[f].status != a[f].status ==>
            && op.Frames? && op.frame.MoveOp? && op.frame.frameId == f && op.frame.nextStatus == b[f].status
            && !Over(a[f].status) && b[f].status != FPending && !(a[f].status == FPending && b[f].status == FCompleted))
  }

  lemma FrameOpMoves(db: Db, op: FrameOp, f: Id)
    ensures FrameMoves(db.frames, ApplyFrame(db, op).frames, Frames(op), f)
  {
    FrameOpsAreAtomic(db, op);
    if op.RootOp? {
      RootIsFresh(db, op.runId, op.newFrameId);
    }
    hide ApplyFrame, RootError;
  }

  lemma RootIsFresh(db: Db, r: Id, f: Id)
    ensures RootError(db, r, f).None? ==> f !in db.frames
  {
  }

  lemma StepMovesFrame(db: Db, op: Op, f: Id)
    ensures FrameMoves(db.frames, Apply(db, op).frames, op, f)
  {
    hide ApplyEnv, ApplyFrame, ApplyAuthority, ApplyLedger, ApplyRepair, ApplyIndex, FramesUntouched;
    match op {
      case Env(o) => EnvKeepsFrames(db, o);
      case Frames(o) => FrameOpMoves(db, o, f);
      case Authority(o) => AuthorityKeepsFrames(db, o);
      case Ledger(o) => LedgerKeepsFrames(db, o);
      case Repairs(o) => RepairsKeepFrames(db, o);
      case Index(o) => IndexKeepsFrames(db, o);
    }
    if !op.Frames? {
      UntouchedMovesNothing(db, Apply(db, op), op, f);
    }
  }

  lemma UntouchedMovesNothing(a: Db, b: Db, op: Op, f: Id)
    requires FramesUntouched(a, b)
    ensures FrameMoves(a.frames, b.frames, op, f)
  {
  }

  /** A frame that is over stays as it ended, and no frame becomes pending again. */
  lemma {:induction false} FramesEndForGood(db: Db, ops: seq<Op>, f: Id)
    requires f in db.frames
    ensures f in Exec(db, ops).frames
    ensures var s, later := db.frames[f].status, Exec(db, ops).frames[f].status;
      (Over(s) ==> later == s) && (s != FPending ==> later != FPending)
    decreases |ops|
  {
    hide Apply;
    if ops != [] {
      var n := |ops| - 1;
      FramesEndForGood(db, ops[..n], f);
      StepMovesFrame(Exec(db, ops[..n]), ops[n], f);
    }
  }

  predicate AtWork(db: Db, f: Id) {
    f in db.frames && (db.frames[f].status == FRunning || db.frames[f].status == FAwaitingApproval)
  }

  /** A completed frame was running or awaiting approval before. */
  lemma {:induction false} CompletedFramesRan(ops: seq<Op>, f: Id) returns (n: nat)
    requires f in Exec(EmptyDb, ops).frames && Exec(EmptyDb, ops).frames[f].status == FCompleted
    ensures n < |ops| && AtWork(Exec(EmptyDb, ops[..n]), f)
    decreases |ops|
  {
    hide Apply;
    var last := |ops| - 1;
    assert ops != [];
    var before := Exec(EmptyDb, ops[..last]);
    StepMovesFrame(before, ops[last], f);
    if f in before.frames && before.frames[f].status == FCompleted {
      n := CompletedFramesRan(ops[..last], f);
      assert ops[..last][..n] == ops[..n];
    } else {
      n := last;
    }
  }

  /* ---------- effects ---------- */

  /** What the generic transition lets a state follow. Intents are reserved, and nothing is
      ever planned again. */
  predicate Follows(next: EffectState, s: EffectState) {
    match next
    case Planned => false
    case InFlight => false
    case AwaitingCallbackVerification => false
    case Received => s == InFlight || s == Unknown
    case Unknown => s == InFlight || s == Compensating
    case Committed => s == Received || s == Unknown || s == AwaitingCallbackVerification
    case Quarantined => s == Received || s == Unknown || s == AwaitingCallbackVerification
    case Failed => !Terminal(s) && s != Committed
    case CancelledBeforeSend => s == Planned
    case Compensating => s == Committed
    case Compensated => s == Compensating
  }

  lemma EffectMovesIff(db: Db, e: Id, revision: nat, s: EffectState, next: EffectState)
    ensures var r := TransitionEffect(db, e, revision, s, next).result;
      && (r.Ok? <==>
            e in db.effects && db.effects[e].revision == revision && db.effects[e].state == s && Follows(next, s))
      && (r == Err(ConstraintViolation) <==>
            && e in db.effects && db.effects[e].revision == revision && db.effects[e].state == s
            && next == AwaitingCallbackVerification && (s == InFlight || s == Received))
  {
    TableFollows(s, next);
    hide TransitionPost, EffectTransitions, Follows;
  }

  lemma TableFollows(s: EffectState, next: EffectState)
    ensures Follows(next, s) <==>
      next in EffectTransitions(s) && next != InFlight && next != AwaitingCallbackVerification
    ensures InFlight in EffectTransitions(s) <==> s == Planned || s == Unknown
    ensures AwaitingCallbackVerification in EffectTransitions(s) <==> s == InFlight || s == Received
  {
  }

  /* ---------- repairs ---------- */

  predicate Settled(s: RepairStatus) { s == RejectedRepair || s == CommittedRepair || s == Aborted }

  /** A repair is accepted once, committed only after that, and otherwise rejected or
      aborted; a commit needs the lease and the plan verified again. */
  lemma RepairMovesIff(db: Db, i: R.StatusInput)
    ensures R.SetRepairStatus(db, i).result.Ok? <==>
      && i.repairId in db.repairs
      && var r := db.repairs[i.repairId];
      && !Settled(r.status) && i.next != Open && i.next != r.status
      && (i.next == CommittedRepair ==>
            && r.status == AcceptedRepair && i.authority.Some?
            && r.runId in db.leases
            && var lease := db.leases[r.runId];
            && lease.holderId == i.authority.value.holderId && lease.version == i.authority.value.leaseVersion
            && !lease.released && db.clock < lease.expiresAt
            && r.targetFrameId in db.frames && db.frames[r.targetFrameId].subtreeRevision == r.subtreeRevision
            && PlanAdmitted(db, R.StoredRequest(r, i.evidence)))
  {
    if i.repairId in db.repairs {
      RepairVerifiedIff(db, R.StoredRequest(db.repairs[i.repairId], i.evidence));
    }
    hide R.RepairError, R.StatusPost, PlanAdmitted;
  }

  /** A repair is created exactly for an admitted plan on the snapshotted frame of its run. */
  lemma RepairCreatedIff(db: Db, q: R.Request, newId: Id)
    ensures R.CreateRepair(db, q, newId).result.Ok? <==>
      && q.targetFrameId in db.frames && db.frames[q.targetFrameId].runId == q.runId
      && db.frames[q.targetFrameId].subtreeRevision == q.subtreeRevision
      && PlanAdmitted(db, q) && newId !in db.repairs
  {
    RepairVerifiedIff(db, q);
    hide R.RepairError, R.CreatePost, PlanAdmitted;
  }

  /** The row is the request, apart from its status; of the cross-frame approvals it keeps
      those of the plan. */
  ghost predicate Requested(row: Repair, q: R.Request) {
    && row.runId == q.runId && row.targetFrameId == q.targetFrameId
    && row.subtreeRevision == q.subtreeRevision && row.authorized == q.authorized && row.plan == q.plan
    && (forall e :: e in row.crossFrame <==> e in q.crossFrame && exists k :: 0 <= k < |q.plan| && q.plan[k].effectId == e)
    && (forall e :: e in row.crossFrame && e in q.crossFrame ==> row.crossFrame[e] == q.crossFrame[e])
  }

  ghost predicate Creates(op: Op, r: Id, row: Repair) {
    && op.Repairs?
    && ((op.repair.CreateOp? && op.repair.newRepairId == r && Requested(row, op.repair.request))
        || (op.repair.LateCreateOp? && op.repair.newRepairId == r && Requested(row, op.repair.lateRequest)))
  }

  ghost predicate RepairMoves(a: map<Id, Repair>, b: map<Id, Repair>, op: Op, r: Id) {
    if r in a then r in b && b[r] == a[r].(status := b[r].status)
    else r in b ==> Creates(op, r, b[r]) && b[r].status == Open
  }

  lemma CreatePosts(db: Db, q: R.Request, newId: Id)
    ensures var b := R.CreatePost(db, q, newId);
      newId in b.repairs && Requested(b.repairs[newId], q) && b.repairs[newId].status == Open
      && b.repairs == db.repairs[newId := b.repairs[newId]]
  {
    hide AppendEdge;
  }

  lemma RepairOpMoves(db: Db, op: RepairOp, r: Id)
    ensures RepairMoves(db.repairs, ApplyRepair(db, op).repairs, Repairs(op), r)
  {
    RepairOpsAreAtomic(db, op);
    hide ApplyRepair, R.RepairError, R.CreatePost, Requested;
    if RepairOpEnabled(db, op) {
      match op
      case CreateOp(q, n) => CreatePosts(db, q, n);
      case LateCreateOp(q, n) => CreatePosts(db, q, n);
      case StatusOp(i) =>
    }
  }

  lemma StepMovesRepair(db: Db, op: Op, r: Id)
    ensures RepairMoves(db.repairs, Apply(db, op).repairs, op, r)
  {
    hide ApplyEnv, ApplyFrame, ApplyAuthority, ApplyLedger, ApplyRepair, ApplyIndex, Creates;
    match op {
      case Env(o) => EnvKeepsRepairs(db, o);
      case Frames(o) => FramesKeepRepairs(db, o);
      case Authority(o) => AuthorityKeepsRepairs(db, o);
      case Ledger(o) => LedgerOpsKeepRuntime(db, o);
      case Repairs(o) => RepairOpMoves(db, o, r);
      case Index(o) => IndexOpsTouchEdges(db, o);
    }
  }

  lemma EnvKeepsRepairs(db: Db, op: EnvOp)
    ensures ApplyEnv(db, op).repairs == db.repairs
  {
    hide Insert;
  }

  lemma FramesKeepRepairs(db: Db, op: FrameOp)
    ensures ApplyFrame(db, op).repairs == db.repairs
  {
    FrameOpsAreAtomic(db, op);
    hide ApplyFrame, RootError, ChildError, FrameError;
  }

  lemma AuthorityKeepsRepairs(db: Db, op: AuthorityOp)
    ensures ApplyAuthority(db, op).repairs == db.repairs
  {
    AuthorityOpsAreAtomic(db, op);
    hide ApplyAuthority, RequestError, AcquireError, AcquiredLease, RenewedLease;
  }

  predicate CreatedAt(ops: seq<Op>, n: nat, r: Id) {
    n < |ops| && r !in Exec(EmptyDb, ops[..n]).repairs && r in Exec(EmptyDb, ops[..n + 1]).repairs
  }

  /** Every repair row is still what one creation requested, apart from its status. */
  lemma {:induction false} EveryRepairWasRequested(ops: seq<Op>, r: Id) returns (n: nat)
    requires r in Exec(EmptyDb, ops).repairs
    ensures CreatedAt(ops, n, r) && Creates(ops[n], r, Exec(EmptyDb, ops).repairs[r])
    decreases |ops|
  {
    hide Apply;
    var last := |ops| - 1;
    assert ops != [];
    var before := Exec(EmptyDb, ops[..last]);
    StepMovesRepair(before, ops[last], r);
    if r in before.repairs {
      n := EveryRepairWasRequested(ops[..last], r);
      assert ops[..last][..n] == ops[..n] && ops[..last][..n + 1] == ops[..n + 1];
    } else {
      n := last;
      assert ops[..n + 1] == ops;
    }
  }
}
