// The audit-edge index over runs. Every transaction files its own edges, but a rebuild
// is a DELETE followed by separate inserts, and it may stop anywhere.

module AuditEdges {
  import opened Tables
  import opened CapsuleStore
  import opened EffectProtocol
  import opened DurableRuntime
  import opened IngressReview
  import R = RepairPlans
  import opened AuditIndex
  import opened Kernel
  import opened Evolution
  import opened Replay

  /** Every derived edge is the edge of a stored row, filed under that row's run. */
  ghost predicate Sound(db: Db) {
    && (forall r :: r in db.receipts ==> db.receipts[r].effectId in db.effects)
    && (forall x :: x in db.edges && Derived(x) ==> Expects(db.effects, db.repairs, db.receipts, db.edges[x], x))
  }

  /** The edge is expected of the run and not filed under it. */
  predicate Lacks(db: Db, runId: Id, x: Edge) {
    Expects(db.effects, db.repairs, db.receipts, runId, x) && !(x in db.edges && db.edges[x] == runId)
  }

  lemma MissingIs(db: Db, runId: Id, x: Edge)
    ensures x in Missing(db, runId) <==> Lacks(db, runId, x)
  {
    ExpectedIs(db.effects, db.repairs, db.receipts, runId, x);
    hide Expected, Expects;
  }

  /** A step after which the index is sound and lacks what it lacked before. */
  ghost predicate KeepsGaps(a: Db, b: Db) { Sound(b) && forall r, x :: Lacks(b, r, x) <==> Lacks(a, r, x) }

  /** Old edges stand, and every new one has one of the given relations. */
  ghost predicate Adds(a: map<Edge, Id>, b: map<Edge, Id>, relations: set<Relation>) {
    && SubMap(a, b)
    && forall x :: x in b && x !in a ==> x.relation in relations
  }

  const OTHER: set<Relation> :=
    {BoundToApproval, HasIncident, HasCancellation, HasFinding, HasReviewFinding, HasReviewDecision,
     RecoveryApprovalRequested}

  ghost predicate SameOwners(a: map<Id, Effect>, b: map<Id, Effect>) {
    && (forall e :: e in a <==> e in b)
    && (forall e :: e in a && e in b ==> a[e].ownerFrameId == b[e].ownerFrameId && a[e].runId == b[e].runId)
  }

  /** A step that creates no effect, no repair and no receipt. */
  ghost predicate NothingIndexed(a: Db, b: Db) {
    && SameOwners(a.effects, b.effects) && b.receipts == a.receipts
    && RepairsEvolve(a.repairs, b.repairs) && b.repairs.Keys == a.repairs.Keys
    && Adds(a.edges, b.edges, OTHER)
  }

  lemma NothingIndexedKeeps(a: Db, b: Db)
    requires Sound(a) && NothingIndexed(a, b)
    ensures KeepsGaps(a, b)
  {
    forall r, x
      ensures Expects(b.effects, b.repairs, b.receipts, r, x) <==> Expects(a.effects, a.repairs, a.receipts, r, x)
    {
    }
    OtherEdges(a.edges, b.edges);
    hide Expects, SameOwners, RepairsEvolve, Adds;
  }

  lemma OtherEdges(a: map<Edge, Id>, b: map<Edge, Id>)
    requires Adds(a, b, OTHER)
    ensures forall x :: x in b && Derived(x) ==> x in a && a[x] == b[x]
    ensures forall x :: x in a ==> x in b && b[x] == a[x]
  {
  }

  lemma AddsOne(edges: map<Edge, Id>, x: Edge, runId: Id, relations: set<Relation>)
    requires x.relation in relations
    ensures Adds(edges, AppendEdge(edges, x, runId), relations)
  {
  }

  lemma NewEffectIndexed(a: Db, b: Db, e: Id)
    requires Sound(a) && e !in a.effects && e in b.effects && b.effects == a.effects[e := b.effects[e]]
    requires b.receipts == a.receipts && b.repairs == a.repairs
    requires b.edges == AppendEdge(a.edges, Edge(b.effects[e].ownerFrameId, OwnsEffect, e), b.effects[e].runId)
    ensures KeepsGaps(a, b)
  {
  }

  lemma PrepareIndexed(db: Db, i: PrepareInput)
    requires PrepareError(db, i).None? && Sound(db)
    ensures KeepsGaps(db, PreparePost(db, i))
  {
    if Existing(db, i).Some? {
      assert NothingIndexed(db, PreparePost(db, i));
      hide PrepareError, PreparePost, Sound, KeepsGaps, NothingIndexed;
      NothingIndexedKeeps(db, PreparePost(db, i));
    } else {
      hide Sound, KeepsGaps, NewCallbackCapsule, BindApproval, AppendEdge;
      NewEffectIndexed(db, PreparePost(db, i), i.newEffectId);
    }
  }

  lemma PlanIndexed(db: Db, i: PlanInput)
    requires PlanError(db, i).None? && Sound(db)
    ensures KeepsGaps(db, PlanPost(db, i))
  {
    hide Sound, KeepsGaps, AppendEdge;
    NewEffectIndexed(db, PlanPost(db, i), i.newEffectId);
  }

  lemma NewReceiptIndexed(a: Db, b: Db, r: Id, row: Receipt)
    requires Sound(a) && r !in a.receipts && row.effectId in a.effects && SameOwners(a.effects, b.effects)
    requires b.receipts == a.receipts[r := row] && b.repairs == a.repairs
    requires b.edges == AppendEdge(a.edges, Edge(row.effectId, Relation.HasReceipt, r), a.effects[row.effectId].runId)
    ensures KeepsGaps(a, b)
  {
    var added, runId := Edge(row.effectId, Relation.HasReceipt, r), a.effects[row.effectId].runId;
    forall q, x
      ensures Expects(b.effects, b.repairs, b.receipts, q, x) <==>
        Expects(a.effects, a.repairs, a.receipts, q, x) || (x == added && q == runId)
    {
    }
    assert added !in a.edges;
    hide Expects, SameOwners;
  }

  lemma ReceiptIndexed(db: Db, i: ReceiptInput)
    requires ReceiptError(db, i).None? && Sound(db)
    ensures KeepsGaps(db, ReceiptPost(db, i))
  {
    hide Sound, KeepsGaps, NewResultCapsule, AppendEdge, ReceiptExists;
    NewReceiptIndexed(db, ReceiptPost(db, i), i.newReceiptId, NewReceipt(i));
  }

  lemma NewRepairIndexed(a: Db, b: Db, r: Id, row: Repair)
    requires Sound(a) && r !in a.repairs && b.effects == a.effects && b.receipts == a.receipts
    requires b.repairs == a.repairs[r := row]
    requires b.edges == AppendEdge(a.edges, Edge(row.targetFrameId, HasRepair, r), row.runId)
    ensures KeepsGaps(a, b)
  {
  }

  lemma CreateIndexed(db: Db, q: R.Request, r: Id)
    requires r !in db.repairs && Sound(db)
    ensures KeepsGaps(db, R.CreatePost(db, q, r))
  {
    hide R.CrossFrameFor, Sound, KeepsGaps, AppendEdge;
    var b := R.CreatePost(db, q, r);
    NewRepairIndexed(db, b, r, b.repairs[r]);
  }

  /* ---------- the steps that index nothing ---------- */

  lemma CasIndexesNothing(db: Db, i: CasInput)
    requires CasGuard(db, i)
    ensures NothingIndexed(db, CasPost(db, i))
  {
    if i.approvalId.Some? {
      ApprovalAdmits(db, i);
      AddsOne(db.edges, Edge(i.effectId, BoundToApproval, i.approvalId.value), db.effects[i.effectId].runId, OTHER);
    }
    hide CasCommand, CasLeaseError, ApprovalError, ConsumeOne, CasCapsules, AppendEdge;
  }

  lemma TransitionIndexesNothing(db: Db, e: Id, rev: nat, s: EffectState, n: EffectState)
    requires TransitionError(db, e, rev, s, n).None?
    ensures NothingIndexed(db, TransitionPost(db, e, n))
  {
  }

  lemma UnknownIndexesNothing(db: Db, i: UnknownInput)
    requires UnknownError(db, i).None?
    ensures NothingIndexed(db, UnknownPost(db, i))
  {
    AddsOne(db.edges, Edge(i.effectId, HasIncident, i.attemptNo), db.effects[i.effectId].runId, OTHER);
    hide AppendEdge, Adds;
  }

  lemma CancelIndexesNothing(db: Db, e: Id, rev: nat)
    requires CancelError(db, e, rev).None?
    ensures NothingIndexed(db, CancelPost(db, e))
  {
    AddsOne(db.edges, Edge(e, HasCancellation, e), db.effects[e].runId, OTHER);
    hide AppendEdge, Adds;
  }

  lemma CommitIndexesNothing(db: Db, i: CommitInput)
    requires LateCommitGuard(db, i)
    ensures NothingIndexed(db, CommitPost(db, i))
  {
    AddsOne(db.edges, Edge(i.effectId, HasFinding, i.newFindingId), db.effects[i.effectId].runId, OTHER);
    hide AppendEdge, Adds, OpenAuthoritativeResult;
  }

  lemma FinalizeIndexesNothing(db: Db, i: FinalizeInput, now: nat)
    requires FinalizeError(db, i, now).None?
    ensures i.effectId in db.effects && db.effects[i.effectId].receiptId.Some?
    ensures NothingIndexed(db, FinalizePost(db, i))
  {
    FinalizeAdmits(db, i, now);
    hide FinalizeError;
    var runId := db.effects[i.effectId].runId;
    var finding := Edge(i.effectId, HasReviewFinding, i.newFindingId);
    AddsOne(db.edges, finding, runId, OTHER);
    AddsOne(AppendEdge(db.edges, finding, runId), Edge(i.effectId, HasReviewDecision, i.newDecisionId), runId, OTHER);
    hide AppendEdge;
  }

  lemma StatusIndexesNothing(db: Db, i: R.StatusInput)
    requires R.StatusError(db, i).None?
    ensures NothingIndexed(db, R.StatusPost(db, i))
  {
    hide R.RepairError;
  }

  ghost predicate IndexUntouched(a: Db, b: Db) {
    b.effects == a.effects && b.receipts == a.receipts && b.repairs == a.repairs && b.edges == a.edges
  }

  lemma UntouchedIndexed(a: Db, b: Db)
    requires IndexUntouched(a, b)
    ensures NothingIndexed(a, b)
  {
  }

  lemma LedgerIndexed(db: Db, op: LedgerOp)
    requires Sound(db)
    ensures KeepsGaps(db, ApplyLedger(db, op))
  {
    LedgerOpsAreAtomic(db, op);
    hide ApplyLedger, Sound, KeepsGaps, NothingIndexed, PrepareError, PreparePost, CasGuard, CasPost, ReceiptError, ReceiptPost;
    hide UnknownError, UnknownPost, CancelError, CancelPost, CommitGuard, LateCommitGuard, CommitPost;
    hide FinalizeError, FinalizePost;
    hide PlanError, PlanPost, TransitionError, TransitionPost;
    if !LedgerOpEnabled(db, op) {
      UntouchedIndexed(db, ApplyLedger(db, op));
      NothingIndexedKeeps(db, ApplyLedger(db, op));
    } else {
      hide OnlyFailuresLogged;
      match op {
        case PlanOp(i) => PlanIndexed(db, i);
        case PrepareOp(i) => PrepareIndexed(db, i);
        case ReceiptOp(i) => ReceiptIndexed(db, i);
        case TransitionOp(e, rev, s, n) => TransitionIndexesNothing(db, e, rev, s, n);
        case CasOp(i) => CasIndexesNothing(db, i);
        case UnknownOp(i) => UnknownIndexesNothing(db, i);
        case CancelOp(e, rev) => CancelIndexesNothing(db, e, rev);
        case CommitOp(i) => CommitGuardSplits(db, i); CommitIndexesNothing(db, i);
        case LateCommitOp(i) => CommitIndexesNothing(db, i);
        case FinalizeOp(i, t) => FinalizeIndexesNothing(db, i, t);
      }
      if !op.PlanOp? && !op.PrepareOp? && !op.ReceiptOp? {
        NothingIndexedKeeps(db, ApplyLedger(db, op));
      }
    }
  }

  lemma EnvKeepsIndex(db: Db, op: EnvOp)
    ensures IndexUntouched(db, ApplyEnv(db, op))
  {
    hide Insert;
  }

  lemma FramesKeepIndex(db: Db, op: FrameOp)
    ensures IndexUntouched(db, ApplyFrame(db, op))
  {
    FrameOpsAreAtomic(db, op);
    hide ApplyFrame, RootError, ChildError, FrameError;
  }

  lemma AuthorityKeepsIndex(db: Db, op: AuthorityOp)
    ensures IndexUntouched(db, ApplyAuthority(db, op))
  {
    AuthorityOpsAreAtomic(db, op);
    hide ApplyAuthority, RequestError, AcquireError, AcquiredLease, RenewedLease;
  }

  lemma RepairIndexed(db: Db, op: RepairOp)
    requires Sound(db)
    ensures KeepsGaps(db, ApplyRepair(db, op))
  {
    RepairOpsAreAtomic(db, op);
    hide ApplyRepair, Sound, KeepsGaps, NothingIndexed, R.StatusPost, R.CreatePost, R.StatusError, R.RepairError;
    if RepairOpEnabled(db, op) {
      match op
      case CreateOp(q, r) => CreateIndexed(db, q, r);
      case LateCreateOp(q, r) => CreateIndexed(db, q, r);
      case StatusOp(i) => StatusIndexesNothing(db, i); NothingIndexedKeeps(db, ApplyRepair(db, op));
    } else {
      UntouchedIndexed(db, db);
      NothingIndexedKeeps(db, db);
    }
  }

  /** Every step but those of a rebuild files the edges of the rows it creates. */
  lemma StepKeepsGaps(db: Db, op: Op)
    requires Sound(db) && !op.Index?
    ensures KeepsGaps(db, Apply(db, op))
  {
    hide Sound, KeepsGaps, NothingIndexed, IndexUntouched;
    hide ApplyEnv, ApplyFrame, ApplyAuthority, ApplyLedger, ApplyRepair, ApplyIndex;
    match op {
      case Env(o) => EnvKeepsIndex(db, o);
      case Frames(o) => FramesKeepIndex(db, o);
      case Authority(o) => AuthorityKeepsIndex(db, o);
      case Ledger(o) => LedgerIndexed(db, o);
      case Repairs(o) => RepairIndexed(db, o);
    }
    if op.Env? || op.Frames? || op.Authority? {
      UntouchedIndexed(db, Apply(db, op));
      NothingIndexedKeeps(db, Apply(db, op));
    }
  }

  /* ---------- the statements of a rebuild ---------- */

  lemma DropIsSound(db: Db, runId: Id)
    requires Sound(db)
    ensures Sound(DropEdges(db, runId))
  {
    forall x | x in WithoutRun(db.edges, runId) ensures x in db.edges && WithoutRun(db.edges, runId)[x] == db.edges[x] {
      WithoutRunAt(db.edges, runId, x);
    }
    hide WithoutRun, Expects;
  }

  /** The DELETE opens every gap of its run, and none elsewhere. */
  lemma DropLacks(db: Db, runId: Id, r: Id, x: Edge)
    ensures Lacks(DropEdges(db, runId), r, x) <==>
      if r == runId then Expects(db.effects, db.repairs, db.receipts, r, x) else Lacks(db, r, x)
  {
    WithoutRunAt(db.edges, runId, x);
    hide WithoutRun, Expects;
  }

  lemma OneRun(db: Db, r: Id, q: Id, x: Edge)
    requires Expects(db.effects, db.repairs, db.receipts, r, x) && Expects(db.effects, db.repairs, db.receipts, q, x)
    ensures r == q
  {
  }

  lemma ExpectedIsDerived(db: Db, runId: Id, x: Edge)
    requires Expects(db.effects, db.repairs, db.receipts, runId, x)
    ensures Derived(x)
  {
  }

  /** The insert files its edge under the run, and touches no other edge. */
  lemma RestoreFiles(db: Db, runId: Id, y: Edge)
    requires Sound(db) && Expects(db.effects, db.repairs, db.receipts, runId, y)
    ensures RestoreEdge(db, runId, y) == db.(edges := db.edges[y := runId])
  {
    ExpectedIsDerived(db, runId, y);
    if y in db.edges {
      OneRun(db, runId, db.edges[y], y);
      assert db.edges[y := runId] == db.edges;
    }
    hide Expects, Sound;
  }

  /** An insert closes one gap. */
  lemma RestoreLacks(db: Db, runId: Id, y: Edge, r: Id, x: Edge)
    requires Sound(db)
    ensures Sound(RestoreEdge(db, runId, y))
    ensures Lacks(RestoreEdge(db, runId, y), r, x) <==> Lacks(db, r, x) && !(r == runId && x == y)
  {
    if Expects(db.effects, db.repairs, db.receipts, runId, y) {
      RestoreFiles(db, runId, y);
      if r != runId && x == y && Expects(db.effects, db.repairs, db.receipts, r, x) {
        OneRun(db, r, runId, x);
      }
      hide Expects, RestoreEdge, Derived;
    } else {
      hide Expects, Sound;
    }
  }

  /* ---------- what is missing after any run ---------- */

  /** The last moment at which the run's edges were dropped, or -1. */
  function LastDrop(ops: seq<Op>, runId: Id): (i: int)
    ensures -1 <= i < |ops|
    ensures i >= 0 ==> ops[i] == Index(DropOp(runId))
    ensures forall j :: i < j < |ops| ==> ops[j] != Index(DropOp(runId))
    decreases |ops|
  {
    if ops == [] then -1
    else if ops[|ops| - 1] == Index(DropOp(runId)) then |ops| - 1
    else LastDrop(ops[..|ops| - 1], runId)
  }

  /** The edge was expected when the run's edges were last dropped, and no insert of a
      rebuild has put it back since. */
  predicate Lost(ops: seq<Op>, runId: Id, x: Edge) {
    var i := LastDrop(ops, runId);
    && i >= 0 && ExpectedThen(ops[..i], runId, x)
    && Index(RestoreOp(runId, x)) !in ops[i + 1..]
  }

  predicate ExpectedThen(ops: seq<Op>, runId: Id, x: Edge) {
    var db := Exec(EmptyDb, ops);
    Expects(db.effects, db.repairs, db.receipts, runId, x)
  }

  lemma {:induction false} ReachableSound(ops: seq<Op>)
    ensures Sound(Exec(EmptyDb, ops))
    decreases |ops|
  {
    hide Apply;
    if ops != [] {
      var n := |ops| - 1;
      ReachableSound(ops[..n]);
      hide Sound;
      StepIsSound(Exec(EmptyDb, ops[..n]), ops[n]);
    }
  }

  lemma StepIsSound(db: Db, op: Op)
    requires Sound(db)
    ensures Sound(Apply(db, op))
  {
    hide Sound, DropEdges, RestoreEdge, ApplyEnv, ApplyFrame, ApplyAuthority, ApplyLedger, ApplyRepair;
    match op
    case Index(DropOp(r)) => DropIsSound(db, r);
    case Index(RestoreOp(r, x)) => RestoreLacks(db, r, x, r, x);
    case _ => StepKeepsGaps(db, op);
  }

  lemma LostAfter(ops: seq<Op>, runId: Id, x: Edge)
    requires ops != []
    ensures var rest, last := ops[..|ops| - 1], ops[|ops| - 1];
      Lost(ops, runId, x) <==>
        if last == Index(DropOp(runId)) then ExpectedThen(rest, runId, x)
        else Lost(rest, runId, x) && last != Index(RestoreOp(runId, x))
  {
    hide ExpectedThen;
    var n := |ops| - 1;
    if ops[n] != Index(DropOp(runId)) {
      var i := LastDrop(ops[..n], runId);
      assert LastDrop(ops, runId) == i;
      if i >= 0 {
        assert ops[..n][..i] == ops[..i] && ops[i + 1..] == ops[..n][i + 1..] + [ops[n]];
      }
    }
  }

  lemma LacksAfter(db: Db, op: Op, r: Id, x: Edge)
    requires Sound(db)
    ensures Lacks(Apply(db, op), r, x) <==>
      if op == Index(DropOp(r)) then Expects(db.effects, db.repairs, db.receipts, r, x)
      else Lacks(db, r, x) && op != Index(RestoreOp(r, x))
  {
    hide Sound, DropEdges, RestoreEdge, Expects, Lacks, ApplyEnv, ApplyFrame, ApplyAuthority, ApplyLedger, ApplyRepair;
    match op
    case Index(DropOp(q)) => DropLacks(db, q, r, x);
    case Index(RestoreOp(q, y)) => RestoreLacks(db, q, y, r, x);
    case _ => StepKeepsGaps(db, op);
  }

  lemma {:induction false} LacksIffLost(ops: seq<Op>, runId: Id, x: Edge)
    ensures Lacks(Exec(EmptyDb, ops), runId, x) <==> Lost(ops, runId, x)
    decreases |ops|
  {
    hide *;
    if ops == [] {
      NothingAtFirst(runId, x);
    } else {
      var n := |ops| - 1;
      LacksIffLost(ops[..n], runId, x);
      LostAfter(ops, runId, x);
      ReachableSound(ops[..n]);
      LacksAfter(Exec(EmptyDb, ops[..n]), ops[n], runId, x);
      ExpectedThenIs(ops[..n], runId, x);
      assert ops == ops[..n] + [ops[n]];
      ExecOne(EmptyDb, ops[..n], ops[n]);
    }
  }

  lemma NothingAtFirst(runId: Id, x: Edge)
    ensures !Lacks(Exec(EmptyDb, []), runId, x) && !Lost([], runId, x)
  {
    ExecNone(EmptyDb);
    hide Exec;
  }

  lemma ExpectedThenIs(ops: seq<Op>, runId: Id, x: Edge)
    ensures var db := Exec(EmptyDb, ops);
      ExpectedThen(ops, runId, x) <==> Expects(db.effects, db.repairs, db.receipts, runId, x)
  {
    hide Exec, Expects;
  }

  /** Whatever callers do, and wherever rebuilds stop: an edge is missing if and only if
      it was lost to a rebuild. */
  lemma MissingIffLost(ops: seq<Op>, runId: Id, x: Edge)
    ensures x in Missing(Exec(EmptyDb, ops), runId) <==> Lost(ops, runId, x)
  {
    hide *;
    MissingIs(Exec(EmptyDb, ops), runId, x);
    LacksIffLost(ops, runId, x);
  }

  /** So nothing is missing if and only if the run's edges were never dropped, or
      everything that was expected at the last drop has been put back since. */
  lemma NothingIsMissingIff(ops: seq<Op>, runId: Id)
    ensures Missing(Exec(EmptyDb, ops), runId) == {} <==>
      var i := LastDrop(ops, runId);
      i < 0 || forall x :: ExpectedThen(ops[..i], runId, x) ==> Index(RestoreOp(runId, x)) in ops[i + 1..]
  {
    hide Missing, Exec, ExpectedThen;
    var missing, i := Missing(Exec(EmptyDb, ops), runId), LastDrop(ops, runId);
    if missing != {} {
      var x :| x in missing;
      MissingIffLost(ops, runId, x);
    } else if i >= 0 {
      forall x | ExpectedThen(ops[..i], runId, x) ensures Index(RestoreOp(runId, x)) in ops[i + 1..] {
        MissingIffLost(ops, runId, x);
      }
    }
  }

  /** What the verifier calls extra are the edges of the other relations, always. */
  lemma ExtraIff(ops: seq<Op>, runId: Id, x: Edge)
    ensures var db := Exec(EmptyDb, ops);
      x in Extra(db, runId) <==> x in db.edges && db.edges[x] == runId && !Derived(x)
  {
    var db := Exec(EmptyDb, ops);
    ReachableSound(ops);
    ExpectedIs(db.effects, db.repairs, db.receipts, runId, x);
    hide Exec, Expected;
  }
}
