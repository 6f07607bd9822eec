// What every operation of every caller keeps: how two moments of one run relate.
// Apart from the audit-edge index, which can be rebuilt, no row is deleted; identities
// never change, revisions and versions only grow, and an unchanged revision means an
// unchanged row.

module Evolution {
  import opened Tables
  import opened CapsuleStore
  import opened EffectProtocol
  import opened DurableRuntime
  import opened IngressReview
  import R = RepairPlans
  import opened Kernel

  ghost predicate SubMap<K(!new), V(!new)>(a: map<K, V>, b: map<K, V>) {
    forall k :: k in a ==> k in b && b[k] == a[k]
  }

  /** The columns that no operation writes after the insert. */
  predicate SameIdentity(x: Effect, y: Effect) {
    && x.runId == y.runId && x.ownerFrameId == y.ownerFrameId && x.adapterKind == y.adapterKind
    && x.payloadFingerprint == y.payloadFingerprint && x.capsuleFingerprint == y.capsuleFingerprint
    && x.keyHash == y.keyHash && x.repairActions == y.repairActions && x.dependencies == y.dependencies
    && x.routeId == y.routeId && x.policyVersionHash == y.policyVersionHash && x.scopeHash == y.scopeHash
  }

  predicate Terminal(s: EffectState) {
    s == Quarantined || s == Compensated || s == Failed || s == CancelledBeforeSend
  }

  predicate EffectEvolves(x: Effect, y: Effect) {
    && SameIdentity(x, y)
    && x.revision <= y.revision
    && (x.revision == y.revision ==> x == y)
    && (Terminal(x.state) ==> x == y)
    && (x.approvalId.Some? ==> y.approvalId.Some?)
  }

  ghost predicate EffectsEvolve(a: map<Id, Effect>, b: map<Id, Effect>) {
    forall e :: e in a ==> e in b && EffectEvolves(a[e], b[e])
  }

  predicate FrameEvolves(x: Frame, y: Frame) {
    && x.runId == y.runId && x.parent == y.parent && x.path == y.path
    && x.subtreeRevision <= y.subtreeRevision
    && (x.subtreeRevision == y.subtreeRevision ==> x == y)
  }

  /** An unchanged subtree revision also means no new direct child. */
  ghost predicate FramesEvolve(a: map<Id, Frame>, b: map<Id, Frame>) {
    && (forall f :: f in a ==> f in b && FrameEvolves(a[f], b[f]))
    && (forall c :: c in b && c !in a && b[c].parent.Some? && b[c].parent.value in a ==>
          var p := b[c].parent.value; p in b && a[p].subtreeRevision < b[p].subtreeRevision)
  }

  ghost predicate LeasesEvolve(a: map<Id, Lease>, b: map<Id, Lease>) {
    forall r :: r in a ==>
      r in b && a[r].version <= b[r].version && (a[r].version == b[r].version ==> a[r] == b[r])
  }

  predicate ApprovalEvolves(x: Approval, y: Approval) {
    && x.useLimit == y.useLimit && x.usesConsumed <= y.usesConsumed
    && x.runId == y.runId && x.workspaceId == y.workspaceId
    && (x.effectId.Some? ==> y.effectId == x.effectId)
  }

  ghost predicate ApprovalsEvolve(a: map<Id, Approval>, b: map<Id, Approval>) {
    forall p :: p in a ==> p in b && ApprovalEvolves(a[p], b[p])
  }

  /** A repair row changes only its status, and never once it has ended. */
  predicate RepairEvolves(x: Repair, y: Repair) {
    && y == x.(status := y.status)
    && (RepairTransitions(x.status) == {} ==> x == y)
  }

  ghost predicate RepairsEvolve(a: map<Id, Repair>, b: map<Id, Repair>) {
    forall r :: r in a ==> r in b && RepairEvolves(a[r], b[r])
  }

  ghost predicate Prefix<T>(a: seq<T>, b: seq<T>) { a <= b }

  ghost predicate LedgerEvolves(a: Db, b: Db) {
    && EffectsEvolve(a.effects, b.effects)
    && SubMap(a.keyIndex, b.keyIndex) && SubMap(a.capsules, b.capsules)
    && SubMap(a.receipts, b.receipts) && SubMap(a.findings, b.findings) && SubMap(a.decisions, b.decisions)
    && SubMap(a.bindings, b.bindings) && SubMap(a.consumptions, b.consumptions)
    && a.tools <= b.tools
  }

  ghost predicate RuntimeEvolves(a: Db, b: Db) {
    && a.clock <= b.clock
    && SubMap(a.workspaces, b.workspaces) && SubMap(a.routes, b.routes)
    && FramesEvolve(a.frames, b.frames)
    && ApprovalsEvolve(a.approvals, b.approvals)
    && LeasesEvolve(a.leases, b.leases) && RepairsEvolve(a.repairs, b.repairs)
    && Prefix(a.failures, b.failures) && Prefix(a.events, b.events)
  }

  ghost predicate Evolves(a: Db, b: Db) { LedgerEvolves(a, b) && RuntimeEvolves(a, b) }

  /* ---------- one step ---------- */

  lemma EvolvesReflexive(db: Db)
    ensures Evolves(db, db)
  {
  }

  /** The runtime side of a step on the ledger: events are only added. */
  lemma LedgerStepKeepsRuntime(a: Db, b: Db)
    requires RuntimeUntouched(a, b) && ApprovalsEvolve(a.approvals, b.approvals)
    requires Prefix(a.failures, b.failures) && Prefix(a.events, b.events)
    ensures RuntimeEvolves(a, b)
  {
    hide ApprovalsEvolve, Prefix;
  }

  lemma PrepareAgainEvolves(db: Db, i: PrepareInput)
    requires PrepareError(db, i).None? && Existing(db, i).Some?
    ensures Evolves(db, PreparePost(db, i))
  {
    hide CommandOf;
  }

  lemma BindingEvolves(db: Db, i: PrepareInput)
    requires PrepareError(db, i).None? && Existing(db, i).None?
    ensures ApprovalsEvolve(db.approvals, BindApproval(db.approvals, i.approvalId, i.newEffectId))
  {
  }

  lemma PreparedRowsEvolve(db: Db, i: PrepareInput)
    requires i.newEffectId !in db.effects && CallbackKey(i.newEffectId, 1) !in db.capsules
    requires OfKey(i.idempotencyKey) !in db.keyIndex && Existing(db, i).None?
    ensures LedgerEvolves(db, PreparePost(db, i))
  {
    hide NewCallbackCapsule, NewEffect, BindApproval, AppendEdge, Existing;
  }

  lemma PrepareEvolves(db: Db, i: PrepareInput)
    requires PrepareError(db, i).None?
    ensures Evolves(db, PreparePost(db, i))
  {
    if Existing(db, i).Some? {
      hide *;
      PrepareAgainEvolves(db, i);
    } else {
      assert i.newEffectId !in db.effects && CallbackKey(i.newEffectId, 1) !in db.capsules;
      assert OfKey(i.idempotencyKey) !in db.keyIndex;
      BindingEvolves(db, i);
      hide PrepareError, NewCallbackCapsule, NewEffect, BindApproval, AppendEdge, ApprovalsEvolve, SubMap;
      hide LedgerEvolves, RuntimeEvolves;
      PreparedRowsEvolve(db, i);
      LedgerStepKeepsRuntime(db, PreparePost(db, i));
    }
  }

  lemma IntentEvolves(db: Db, i: CasInput)
    requires CasRowError(db, i).None?
    ensures Evolves(db, IntentPost(db, i))
  {
  }

  lemma ConsumeEvolves(db: Db, i: CasInput, a: Id, runId: Id)
    requires a in db.approvals
    requires AttemptKey(i.effectId, i.attemptNo) !in db.bindings
    requires ConsumptionKey(a, i.effectId, i.attemptNo) !in db.consumptions
    ensures Evolves(db, ConsumePost(db, i, a, runId))
  {
  }

  lemma CasEvolves(db: Db, i: CasInput)
    requires CasGuard(db, i)
    ensures Evolves(db, CasPost(db, i))
  {
    hide Evolves, CasCommand, CasLeaseError;
    IntentEvolves(db, i);
    if i.approvalId.Some? {
      var logged := IntentPost(db, i);
      ConsumeEvolves(logged, i, i.approvalId.value, db.effects[i.effectId].runId);
      EvolvesTransitive(db, logged, CasPost(db, i));
    }
  }

  lemma ReceiptRowsEvolve(db: Db, i: ReceiptInput)
    requires i.effectId in db.effects && db.effects[i.effectId].state == InFlight
    requires ResultKey(i.effectId, i.attemptNo) !in db.capsules && i.newReceiptId !in db.receipts
    ensures LedgerEvolves(db, ReceiptPost(db, i))
  {
    hide NewReceipt, NewResultCapsule, AppendEdge;
  }

  lemma ReceiptEvolves(db: Db, i: ReceiptInput)
    requires ReceiptError(db, i).None?
    ensures Evolves(db, ReceiptPost(db, i))
  {
    ReceiptRowsEvolve(db, i);
    hide ReceiptError, LedgerEvolves, RuntimeEvolves, AppendEdge, SubMap;
    LedgerStepKeepsRuntime(db, ReceiptPost(db, i));
  }

  lemma UnknownEvolves(db: Db, i: UnknownInput)
    requires UnknownError(db, i).None?
    ensures Evolves(db, UnknownPost(db, i))
  {
  }

  lemma CancelEvolves(db: Db, e: Id, rev: nat)
    requires CancelError(db, e, rev).None?
    ensures Evolves(db, CancelPost(db, e))
  {
  }

  lemma CommitEvolves(db: Db, i: CommitInput)
    requires LateCommitGuard(db, i)
    ensures Evolves(db, CommitPost(db, i))
  {
    hide OpenAuthoritativeResult;
  }

  lemma FinalizedRowsEvolve(db: Db, i: FinalizeInput)
    requires i.effectId in db.effects && db.effects[i.effectId].receiptId.Some?
    requires !Terminal(db.effects[i.effectId].state)
    requires i.newFindingId !in db.findings && i.newDecisionId !in db.decisions
    ensures LedgerEvolves(db, FinalizePost(db, i))
  {
    hide AppendEdge;
  }

  lemma FinalizeEvolves(db: Db, i: FinalizeInput, now: nat)
    requires FinalizeError(db, i, now).None?
    ensures i.effectId in db.effects && db.effects[i.effectId].receiptId.Some?
    ensures Evolves(db, FinalizePost(db, i))
  {
    FinalizeAdmits(db, i, now);
    hide FinalizeError, LedgerEvolves, RuntimeEvolves;
    FinalizedRowsEvolve(db, i);
    var e := db.effects[i.effectId];
    hide AppendEdge;
    LedgerStepKeepsRuntime(db, FinalizePost(db, i));
  }

  lemma PlanEvolves(db: Db, i: PlanInput)
    requires PlanError(db, i).None?
    ensures Evolves(db, PlanPost(db, i))
  {
  }

  lemma TransitionEvolves(db: Db, e: Id, rev: nat, s: EffectState, n: EffectState)
    requires TransitionError(db, e, rev, s, n).None?
    ensures Evolves(db, TransitionPost(db, e, n))
  {
  }

  lemma RootEvolves(db: Db, r: Id, f: Id)
    requires RootError(db, r, f).None?
    ensures Evolves(db, RootPost(db, r, f))
  {
  }

  lemma ChildEvolves(db: Db, r: Id, p: Id, f: Id)
    requires ChildError(db, r, p, f).None?
    ensures Evolves(db, ChildPost(db, r, p, f))
  {
  }

  lemma FrameEvolvesPost(db: Db, f: Id, e: Option<FrameStatus>, n: FrameStatus)
    requires FrameError(db, f, e, n).None?
    ensures Evolves(db, FramePost(db, f, n))
  {
  }

  lemma WriteApprovalEvolves(db: Db, a: Id, row: Approval, note: Option<EventKind>)
    requires a in db.approvals ==> ApprovalEvolves(db.approvals[a], row)
    ensures Evolves(db, WriteApproval(db, a, row, note))
  {
  }

  lemma NoteEvolves(db: Db, a: Id, decided: bool)
    requires a in db.approvals
    ensures Evolves(db, NotePost(db, a, decided))
  {
  }

  lemma WriteLeaseEvolves(db: Db, r: Id, lease: Lease, kind: EventKind)
    requires r in db.leases ==> db.leases[r] == lease || db.leases[r].version < lease.version
    ensures Evolves(db, WriteLease(db, r, lease, kind))
  {
  }

  lemma CreateEvolves(db: Db, q: R.Request, r: Id)
    requires r !in db.repairs
    ensures Evolves(db, R.CreatePost(db, q, r))
  {
    hide R.CrossFrameFor;
  }

  lemma StatusEvolves(db: Db, i: R.StatusInput)
    requires i.repairId in db.repairs && i.next in RepairTransitions(db.repairs[i.repairId].status)
    ensures Evolves(db, R.StatusPost(db, i))
  {
  }

  /* ---------- every step, every run ---------- */

  lemma EnvOpEvolves(db: Db, op: EnvOp)
    ensures Evolves(db, ApplyEnv(db, op))
  {
    EvolvesReflexive(db);
    match op {
      case Tick(_) => hide Insert; hide FramesEvolve;
      case StartRun(r, w) =>
        assert SubMap(db.workspaces, Insert(db.workspaces, r, w));
        hide Insert; hide FramesEvolve; hide SubMap;
      case StoreRoute(r, b) =>
        assert SubMap(db.routes, Insert(db.routes, r, b));
        hide Insert; hide FramesEvolve; hide SubMap;
    }
  }

  lemma FrameOpEvolves(db: Db, op: FrameOp)
    ensures Evolves(db, ApplyFrame(db, op))
  {
    FrameOpsAreAtomic(db, op);
    EvolvesReflexive(db);
    hide Evolves, ApplyFrame, RootPost, ChildPost, FramePost, RootError, ChildError, FrameError;
    if FrameOpEnabled(db, op) {
      match op
      case RootOp(r, f) => RootEvolves(db, r, f);
      case ChildOp(r, p, f) => ChildEvolves(db, r, p, f);
      case MoveOp(f, e, n) => FrameEvolvesPost(db, f, e, n);
    }
  }

  lemma AuthorityOpEvolves(db: Db, op: AuthorityOp)
    ensures Evolves(db, ApplyAuthority(db, op))
  {
    AuthorityOpsAreAtomic(db, op);
    EvolvesReflexive(db);
    hide Evolves, ApplyAuthority, WriteApproval, WriteLease;
    if AuthorityOpEnabled(db, op) {
      match op
      case RequestOp(a, row) => WriteApprovalEvolves(db, a, row, RequestNote(a, row));
      case DecideOp(a, yes) =>
        WriteApprovalEvolves(db, a, db.approvals[a].(decision := Verdict(yes)), None);
      case RevokeOp(a) =>
        var row := db.approvals[a];
        WriteApprovalEvolves(db, a, row.(decision := Revoked, revision := row.revision + 1), Some(ApprovalDecided(a)));
      case NoteOp(a, decided) => NoteEvolves(db, a, decided);
      case AcquireOp(r, h, ttl) => WriteLeaseEvolves(db, r, AcquiredLease(db, r, h, ttl), LeaseAcquired(h));
      case RenewOp(r, h, v, ttl) => WriteLeaseEvolves(db, r, RenewedLease(db, r, v, ttl), LeaseRenewed(h));
      case ReleaseOp(r, h, v) =>
        if HoldsLeaseRow(db, r, h) {
          var lease := db.leases[r];
          WriteLeaseEvolves(db, r, lease.(version := lease.version + 1, released := true), LeaseReleased(h));
        }
    }
  }

  lemma LedgerOpEvolves(db: Db, op: LedgerOp)
    ensures Evolves(db, ApplyLedger(db, op))
  {
    LedgerOpsAreAtomic(db, op);
    hide ApplyLedger;
    if !LedgerOpEnabled(db, op) {
      FailuresOnlyEvolve(db, ApplyLedger(db, op));
    } else {
      hide Evolves, PrepareError, PreparePost, CasGuard, CasPost, ReceiptError, ReceiptPost, UnknownError, UnknownPost;
      hide CancelError, CancelPost, CommitGuard, LateCommitGuard, CommitPost, FinalizeError, FinalizePost, PlanError, PlanPost;
      hide TransitionError, TransitionPost, OnlyFailuresLogged;
      match op
      case PlanOp(i) => PlanEvolves(db, i);
      case TransitionOp(e, rev, s, n) => TransitionEvolves(db, e, rev, s, n);
      case PrepareOp(i) => PrepareEvolves(db, i);
      case CasOp(i) => CasEvolves(db, i);
      case ReceiptOp(i) => ReceiptEvolves(db, i);
      case UnknownOp(i) => UnknownEvolves(db, i);
      case CancelOp(e, rev) => CancelEvolves(db, e, rev);
      case CommitOp(i) => CommitGuardSplits(db, i); CommitEvolves(db, i);
      case LateCommitOp(i) => CommitEvolves(db, i);
      case FinalizeOp(i, t) => FinalizeEvolves(db, i, t);
    }
  }

  lemma RepairOpEvolves(db: Db, op: RepairOp)
    ensures Evolves(db, ApplyRepair(db, op))
  {
    RepairOpsAreAtomic(db, op);
    EvolvesReflexive(db);
    hide Evolves, ApplyRepair, R.CreatePost, R.StatusPost, R.RepairError;
    if RepairOpEnabled(db, op) {
      match op
      case CreateOp(q, r) => CreateEvolves(db, q, r);
      case LateCreateOp(q, r) => CreateEvolves(db, q, r);
      case StatusOp(i) => StatusEvolves(db, i);
    }
  }

  lemma IndexOpEvolves(db: Db, op: IndexOp)
    ensures Evolves(db, ApplyIndex(db, op))
  {
    IndexOpsTouchEdges(db, op);
    hide ApplyIndex, FramesEvolve;
    EvolvesReflexive(db);
  }

  lemma StepEvolves(db: Db, op: Op)
    ensures Evolves(db, Apply(db, op))
  {
    hide Evolves, ApplyEnv, ApplyFrame, ApplyAuthority, ApplyLedger, ApplyRepair, ApplyIndex;
    match op
    case Env(o) => EnvOpEvolves(db, o);
    case Frames(o) => FrameOpEvolves(db, o);
    case Authority(o) => AuthorityOpEvolves(db, o);
    case Ledger(o) => LedgerOpEvolves(db, o);
    case Repairs(o) => RepairOpEvolves(db, o);
    case Index(o) => IndexOpEvolves(db, o);
  }

  lemma FailuresOnlyEvolve(a: Db, b: Db)
    requires OnlyFailuresLogged(a, b)
    ensures Evolves(a, b)
  {
  }

  lemma EvolvesTransitive(a: Db, b: Db, c: Db)
    requires Evolves(a, b) && Evolves(b, c)
    ensures Evolves(a, c)
  {
    LedgerTransitive(a, b, c);
    RuntimeTransitive(a, b, c);
    hide LedgerEvolves, RuntimeEvolves;
  }

  lemma LedgerTransitive(a: Db, b: Db, c: Db)
    requires LedgerEvolves(a, b) && LedgerEvolves(b, c)
    ensures LedgerEvolves(a, c)
  {
  }

  lemma RuntimeTransitive(a: Db, b: Db, c: Db)
    requires RuntimeEvolves(a, b) && RuntimeEvolves(b, c)
    ensures RuntimeEvolves(a, c)
  {
    FramesEvolveTransitive(a.frames, b.frames, c.frames);
    hide FramesEvolve;
  }

  lemma FramesEvolveTransitive(a: map<Id, Frame>, b: map<Id, Frame>, c: map<Id, Frame>)
    requires FramesEvolve(a, b) && FramesEvolve(b, c)
    ensures FramesEvolve(a, c)
  {
  }

  /** Any later moment of a run has evolved from any earlier one. */
  lemma {:induction false} RunEvolves(db: Db, ops: seq<Op>)
    ensures Evolves(db, Exec(db, ops))
    decreases |ops|
  {
    hide Apply, Evolves;
    if ops == [] {
      EvolvesReflexive(db);
    } else {
      var rest, last := ops[..|ops| - 1], ops[|ops| - 1];
      RunEvolves(db, rest);
      StepEvolves(Exec(db, rest), last);
      EvolvesTransitive(db, Exec(db, rest), Exec(db, ops));
    }
  }
}
