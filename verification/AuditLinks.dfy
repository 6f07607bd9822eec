// The audit edges that no rebuild derives: approvals used, incidents, cancellations,
// findings and reviews. Each is there exactly if an accepted call left it and the edges of
// its run were not dropped since.

module AuditLinks {
  import opened Tables
  import opened EffectProtocol
  import opened DurableRuntime
  import opened IngressReview
  import R = RepairPlans
  import opened AuditIndex
  import opened AuditEdges
  import opened Kernel
  import opened Evolution
  import opened AuditTrail

  function LedgerLinks(op: LedgerOp): set<Edge> {
    match op
    case CasOp(i) => if i.approvalId.Some? then {Edge(i.effectId, BoundToApproval, i.approvalId.value)} else {}
    case UnknownOp(i) => {Edge(i.effectId, HasIncident, i.attemptNo)}
    case CancelOp(e, _) => {Edge(e, HasCancellation, e)}
    case CommitOp(i) => {Edge(i.effectId, HasFinding, i.newFindingId)}
    case LateCommitOp(i) => {Edge(i.effectId, HasFinding, i.newFindingId)}
    case FinalizeOp(i, _) =>
      {Edge(i.effectId, HasReviewFinding, i.newFindingId), Edge(i.effectId, HasReviewDecision, i.newDecisionId)}
    case _ => {}
  }

  /** The edges that an accepted operation leaves, apart from those the verifier derives. */
  function Links(db: Db, op: Op): set<Edge> {
    if op.Ledger? && LedgerAccepted(db, op.ledger) then LedgerLinks(op.ledger) else {}
  }

  /** The edge is filed under the run of the effect it starts from. */
  predicate Filed(db: Db, x: Edge) {
    x in db.edges ==> x.fromId in db.effects && db.edges[x] == db.effects[x.fromId].runId
  }

  predicate Drops(db: Db, op: Op, x: Edge) {
    x.fromId in db.effects && op == Index(DropOp(db.effects[x.fromId].runId))
  }

  /* ---------- one step ---------- */

  /** Edge x stands, or appears under this run exactly if `added` says so. */
  predicate Gains(a: map<Edge, Id>, b: map<Edge, Id>, x: Edge, added: bool, runId: Id) {
    && (x in b <==> x in a || added)
    && (x in b ==> b[x] == if x in a then a[x] else runId)
  }

  lemma AppendGains(edges: map<Edge, Id>, y: Edge, runId: Id, x: Edge)
    ensures Gains(edges, AppendEdge(edges, y, runId), x, x == y, runId)
  {
  }

  lemma DerivedGains(edges: map<Edge, Id>, y: Edge, r: Id, x: Edge, runId: Id)
    requires Derived(y) && !Derived(x)
    ensures Gains(edges, AppendEdge(edges, y, r), x, false, runId)
  {
  }

  lemma NothingGained(edges: map<Edge, Id>, x: Edge, runId: Id)
    ensures Gains(edges, edges, x, false, runId)
  {
  }

  lemma PrepareEdges(db: Db, i: PrepareInput)
    ensures PreparePost(db, i).edges ==
      if Existing(db, i).Some? then db.edges
      else AppendEdge(db.edges, Edge(i.ownerFrameId, OwnsEffect, i.newEffectId), i.runId)
  {
    hide Existing, NewEffect, NewCallbackCapsule, BindApproval, RunHook, AppendEdge;
    if Existing(db, i).Some? {
    } else {
    }
  }

  lemma PrepareGains(db: Db, i: PrepareInput, x: Edge, runId: Id)
    requires !Derived(x)
    ensures Gains(db.edges, PreparePost(db, i).edges, x, false, runId)
  {
    PrepareEdges(db, i);
    NothingGained(db.edges, x, runId);
    DerivedGains(db.edges, Edge(i.ownerFrameId, OwnsEffect, i.newEffectId), i.runId, x, runId);
    hide *;
  }

  lemma CasEdges(db: Db, i: CasInput)
    requires i.effectId in db.effects && (i.approvalId.Some? ==> i.approvalId.value in db.approvals)
    ensures CasPost(db, i).edges ==
      if i.approvalId.None? then db.edges
      else AppendEdge(db.edges, Edge(i.effectId, BoundToApproval, i.approvalId.value), db.effects[i.effectId].runId)
  {
    hide CasEffect, CasCapsules, ConsumeOne, AppendEdge;
    if i.approvalId.Some? {
    } else {
    }
  }

  lemma CasGains(db: Db, i: CasInput, x: Edge)
    requires CasGuard(db, i)
    ensures i.effectId in db.effects && (i.approvalId.Some? ==> i.approvalId.value in db.approvals)
    ensures Gains(db.edges, CasPost(db, i).edges, x, x in LedgerLinks(CasOp(i)), db.effects[i.effectId].runId)
  {
    CasNeeds(db, i);
    CasEdges(db, i);
    hide CasGuard, CasPost;
  }

  lemma FinalizeGains(db: Db, i: FinalizeInput, x: Edge, t: nat)
    requires i.effectId in db.effects && db.effects[i.effectId].receiptId.Some?
    ensures var run := db.effects[i.effectId].runId;
      Gains(db.edges, FinalizePost(db, i).edges, x, x in LedgerLinks(FinalizeOp(i, t)), run)
  {
  }

  /** The effect that an operation with links is about. */
  function Subject(op: LedgerOp): Option<Id> {
    match op
    case CasOp(i) => Some(i.effectId)
    case UnknownOp(i) => Some(i.effectId)
    case CancelOp(e, _) => Some(e)
    case CommitOp(i) => Some(i.effectId)
    case LateCommitOp(i) => Some(i.effectId)
    case FinalizeOp(i, _) => Some(i.effectId)
    case _ => None
  }

  lemma LinksStartAtSubject(op: LedgerOp, x: Edge)
    requires x in LedgerLinks(op)
    ensures Subject(op) == Some(x.fromId)
  {
  }

  lemma SubjectExists(db: Db, op: LedgerOp)
    requires LedgerOpEnabled(db, op)
    ensures Subject(op).Some? ==> Subject(op).value in db.effects
  {
    hide CasCommand, CasLeaseError, ApprovalError, CommitGuard, OpenAuthoritativeResult, ActiveLease, FinalizeError;
    match op
    case CommitOp(i) => CommitGuardSplits(db, i);
    case FinalizeOp(i, t) => FinalizeAdmits(db, i, t);
    case _ =>
  }

  /** The run that new links of the operation are filed under. */
  function RunFor(db: Db, op: LedgerOp): Id { if Subject(op).Some? then RunOf(db, Subject(op).value) else 0 }

  lemma DoneGains(db: Db, op: LedgerOp, x: Edge)
    requires LedgerOpEnabled(db, op) && !Derived(x)
    ensures Gains(db.edges, LedgerOpDone(db, op).edges, x, x in LedgerLinks(op), RunFor(db, op))
  {
    SubjectExists(db, op);
    var run := RunFor(db, op);
    NothingGained(db.edges, x, run);
    hide PlanError, PrepareError, CommitGuard, LateCommitGuard, FinalizeError, ReceiptError, TransitionError, Gains, AppendEdge;
    match op
    case PlanOp(i) => DerivedGains(db.edges, Edge(i.ownerFrameId, OwnsEffect, i.newEffectId), i.runId, x, run);
    case TransitionOp(_, _, _, _) =>
    case PrepareOp(i) => PrepareGains(db, i, x, run); hide PreparePost;
    case CasOp(i) => CasGains(db, i, x); hide CasPost, CasGuard;
    case ReceiptOp(i) =>
      DerivedGains(db.edges, Edge(i.effectId, Relation.HasReceipt, i.newReceiptId), db.effects[i.effectId].runId, x, run);
    case UnknownOp(i) => AppendGains(db.edges, Edge(i.effectId, HasIncident, i.attemptNo), run, x);
    case CancelOp(e, _) => AppendGains(db.edges, Edge(e, HasCancellation, e), run, x);
    case CommitOp(i) => AppendGains(db.edges, Edge(i.effectId, HasFinding, i.newFindingId), run, x);
    case LateCommitOp(i) => AppendGains(db.edges, Edge(i.effectId, HasFinding, i.newFindingId), run, x);
    case FinalizeOp(i, t) => FinalizeGains(db, i, x, t); hide FinalizePost;
  }

  /** The step leaves its links, drops those of its run if it is the DELETE of a rebuild,
      and changes no other. */
  predicate StepLinks(db: Db, op: Op, b: Db, x: Edge) {
    && Filed(b, x)
    && (x in b.edges <==> (x in db.edges && !Drops(db, op, x)) || x in Links(db, op))
  }

  lemma LedgerStepLinks(db: Db, op: LedgerOp, x: Edge)
    requires !Derived(x) && Filed(db, x)
    ensures StepLinks(db, Ledger(op), Apply(db, Ledger(op)), x)
  {
    LedgerOpsAreAtomic(db, op);
    AcceptedIsEnabled(db, op);
    StepEvolves(db, Ledger(op));
    RunsStand(db, Apply(db, Ledger(op)), x.fromId);
    hide LedgerOpEnabled, LedgerOpDone, LedgerAccepted, LedgerLinks, ApplyLedger, Evolves, Derived;
    if LedgerOpEnabled(db, op) {
      DoneGains(db, op, x);
      if x in LedgerLinks(op) {
        LinksStartAtSubject(op, x);
        SubjectExists(db, op);
      }
    } else {
      RefusedLinks(db, ApplyLedger(db, op));
    }
    hide Subject;
  }

  lemma RefusedLinks(a: Db, b: Db)
    requires OnlyFailuresLogged(a, b)
    ensures b.edges == a.edges && b.effects == a.effects
  {
  }

  lemma RunsStand(a: Db, b: Db, e: Id)
    requires Evolves(a, b)
    ensures e in a.effects ==> e in b.effects && b.effects[e].runId == a.effects[e].runId
  {
    hide FramesEvolve, ApprovalsEvolve, LeasesEvolve, RepairsEvolve;
  }

  lemma SameEdges(db: Db, op: Op, b: Db, x: Edge)
    requires Filed(db, x) && IndexUntouched(db, b) && !op.Ledger? && !op.Index?
    ensures StepLinks(db, op, b, x)
  {
  }

  lemma RepairGains(db: Db, op: RepairOp, x: Edge)
    requires !Derived(x)
    ensures Gains(db.edges, ApplyRepair(db, op).edges, x, false, 0) && ApplyRepair(db, op).effects == db.effects
  {
    RepairOpsAreAtomic(db, op);
    NothingGained(db.edges, x, 0);
    hide ApplyRepair, R.CreateError, R.LateCreateGuard, R.StatusError, R.CrossFrameFor, AppendEdge, Gains;
    if RepairOpEnabled(db, op) {
      match op
      case CreateOp(q, r) => DerivedGains(db.edges, Edge(q.targetFrameId, HasRepair, r), q.runId, x, 0);
      case LateCreateOp(q, r) => DerivedGains(db.edges, Edge(q.targetFrameId, HasRepair, r), q.runId, x, 0);
      case StatusOp(i) =>
    }
  }

  lemma RepairStepLinks(db: Db, op: RepairOp, x: Edge)
    requires !Derived(x) && Filed(db, x)
    ensures StepLinks(db, Repairs(op), Apply(db, Repairs(op)), x)
  {
    RepairGains(db, op, x);
    hide ApplyRepair, Derived;
  }

  lemma IndexStepLinks(db: Db, op: IndexOp, x: Edge)
    requires !Derived(x) && Filed(db, x)
    ensures StepLinks(db, Index(op), Apply(db, Index(op)), x)
  {
    match op
    case DropOp(r) => WithoutRunAt(db.edges, r, x); hide WithoutRun;
    case RestoreOp(r, y) =>
      if Expects(db.effects, db.repairs, db.receipts, r, y) {
        ExpectedIsDerived(db, r, y);
        DerivedGains(db.edges, y, r, x, r);
      }
      hide Expects, AppendEdge;
  }

  lemma OpLinks(db: Db, op: Op, x: Edge)
    requires !Derived(x) && Filed(db, x)
    ensures StepLinks(db, op, Apply(db, op), x)
  {
    hide ApplyEnv, ApplyFrame, ApplyAuthority, ApplyLedger, ApplyRepair, ApplyIndex, StepLinks, Filed, IndexUntouched;
    match op
    case Env(o) => EnvKeepsIndex(db, o); SameEdges(db, op, Apply(db, op), x);
    case Frames(o) => FramesKeepIndex(db, o); SameEdges(db, op, Apply(db, op), x);
    case Authority(o) => AuthorityKeepsIndex(db, o); SameEdges(db, op, Apply(db, op), x);
    case Ledger(o) => LedgerStepLinks(db, o, x);
    case Repairs(o) => RepairStepLinks(db, o, x);
    case Index(o) => IndexStepLinks(db, o, x);
  }

  /* ---------- whole runs ---------- */

  /** Operation n left the edge, and the edges of its run were not dropped since. */
  predicate LinkedSince(ops: seq<Op>, n: nat, x: Edge) {
    && n < |ops| && x in Links(Exec(EmptyDb, ops[..n]), ops[n])
    && x.fromId in Exec(EmptyDb, ops).effects
    && Index(DropOp(Exec(EmptyDb, ops).effects[x.fromId].runId)) !in ops[n..]
  }

  lemma LinkedFromEffect(db: Db, op: Op, x: Edge)
    requires x in Links(db, op)
    ensures op.Ledger? && x.fromId in db.effects
  {
    AcceptedIsEnabled(db, op.ledger);
    LinksStartAtSubject(op.ledger, x);
    SubjectExists(db, op.ledger);
    hide LedgerAccepted, LedgerOpEnabled, LedgerLinks, Subject;
  }

  /** One operation more. */
  lemma LinkedOneMore(rest: seq<Op>, op: Op, n: nat, x: Edge)
    ensures LinkedSince(rest + [op], n, x) <==>
      if n < |rest| then LinkedSince(rest, n, x) && !Drops(Exec(EmptyDb, rest), op, x)
      else n == |rest| && x in Links(Exec(EmptyDb, rest), op)
  {
    hide Exec, Apply, Links, Evolves;
    var ops, before := rest + [op], Exec(EmptyDb, rest);
    ExecOne(EmptyDb, rest, op);
    StepEvolves(before, op);
    RunsStand(before, Apply(before, op), x.fromId);
    if n < |rest| {
      assert ops[..n] == rest[..n];
      assert ops[n..] == rest[n..] + [op];
      if x in Links(Exec(EmptyDb, rest[..n]), rest[n]) {
        LinkedFromEffect(Exec(EmptyDb, rest[..n]), rest[n], x);
        assert rest[..n] + rest[n..] == rest;
        ExecAppend(EmptyDb, rest[..n], rest[n..]);
        RunEvolves(Exec(EmptyDb, rest[..n]), rest[n..]);
        RunsStand(Exec(EmptyDb, rest[..n]), before, x.fromId);
      }
    } else if n == |rest| {
      assert ops[..n] == rest && ops[n..] == [op];
      if x in Links(before, op) {
        LinkedFromEffect(before, op, x);
      }
    }
  }

  ghost predicate Linked(ops: seq<Op>, x: Edge) { exists n: nat :: LinkedSince(ops, n, x) }

  lemma LinkedGrows(rest: seq<Op>, op: Op, x: Edge)
    ensures Linked(rest + [op], x) <==>
      (Linked(rest, x) && !Drops(Exec(EmptyDb, rest), op, x)) || x in Links(Exec(EmptyDb, rest), op)
  {
    hide Exec, Links, Drops, LinkedSince;
    LinkedOneMore(rest, op, |rest|, x);
    if Linked(rest, x) {
      var n: nat :| LinkedSince(rest, n, x);
      LinkedOneMore(rest, op, n, x);
      Bounded(rest, n, x);
    }
    if Linked(rest + [op], x) {
      var n: nat :| LinkedSince(rest + [op], n, x);
      LinkedOneMore(rest, op, n, x);
    }
  }

  lemma Bounded(ops: seq<Op>, n: nat, x: Edge)
    requires LinkedSince(ops, n, x)
    ensures n < |ops|
  {
  }

  lemma NothingLinked(x: Edge)
    ensures Filed(Exec(EmptyDb, []), x) && x !in Exec(EmptyDb, []).edges && !Linked([], x)
  {
    hide Apply, Links;
  }

  lemma LinkedNext(rest: seq<Op>, op: Op, x: Edge)
    requires !Derived(x) && Filed(Exec(EmptyDb, rest), x) && (x in Exec(EmptyDb, rest).edges <==> Linked(rest, x))
    ensures Filed(Exec(EmptyDb, rest + [op]), x)
    ensures x in Exec(EmptyDb, rest + [op]).edges <==> Linked(rest + [op], x)
  {
    hide Exec, Apply, Links, Filed, Drops, Linked, Derived;
    OpLinks(Exec(EmptyDb, rest), op, x);
    ExecOne(EmptyDb, rest, op);
    LinkedGrows(rest, op, x);
  }

  /** The links of the index are exactly what accepted calls left and no rebuild deleted,
      filed under the run of the effect they start from. */
  lemma {:induction false} LinkedIff(ops: seq<Op>, x: Edge)
    requires !Derived(x)
    ensures Filed(Exec(EmptyDb, ops), x)
    ensures x in Exec(EmptyDb, ops).edges <==> Linked(ops, x)
    decreases |ops|
  {
    hide *;
    if ops == [] {
      NothingLinked(x);
    } else {
      var rest, op := ops[..|ops| - 1], ops[|ops| - 1];
      LinkedIff(rest, x);
      LinkedNext(rest, op, x);
      assert ops == rest + [op];
    }
  }
}
