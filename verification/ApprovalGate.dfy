// What stands behind an accepted callback intent: an approval row that somebody
// requested on these terms, that was approved, and that was not revoked since.

module ApprovalGate {
  import opened Tables
  import opened CapsuleStore
  import opened EffectProtocol
  import opened DurableRuntime
  import opened IngressReview
  import R = RepairPlans
  import opened Kernel
  import opened Evolution
  import opened Replay
  import opened Forest
  import opened Conservation

  /* ---------- the life of an approval row ---------- */

  function DecisionAfter(d: Decision, op: Op, a: Id): Decision {
    match op
    case Authority(DecideOp(x, yes)) => if x == a && d == Pending then (if yes then Approved else Denied) else d
    case Authority(RevokeOp(x)) => if x == a && d == Approved then Revoked else d
    case _ => d
  }

  /** The terms of a request, which nothing changes afterwards. */
  predicate SameTerms(x: Approval, y: Approval) {
    && y.runId == x.runId && y.workspaceId == x.workspaceId && y.approvalType == x.approvalType
    && y.expiresAt == x.expiresAt && y.scopeHash == x.scopeHash && y.payloadFingerprint == x.payloadFingerprint
    && y.policyVersionHash == x.policyVersionHash && y.useLimit == x.useLimit && y.scope == x.scope
  }

  predicate Requests(op: Op, a: Id, row: Approval) {
    op.Authority? && op.authority.RequestOp? && op.authority.newApprovalId == a && SameTerms(op.authority.row, row)
  }

  /** What is bound to an effect stays bound to it, at the same revision. */
  predicate StaysBound(x: Approval, y: Approval) {
    x.effectId.Some? ==> y.effectId == x.effectId && y.effectRevision == x.effectRevision
  }

  /** One step leaves the terms and the binding of a row alone and moves its decision as its
      own decision or revocation says; a new row is a pending request. */
  predicate RowMoves(x: map<Id, Approval>, y: map<Id, Approval>, op: Op, a: Id) {
    if a in x then
      && a in y && SameTerms(x[a], y[a]) && StaysBound(x[a], y[a])
      && y[a].decision == DecisionAfter(x[a].decision, op, a)
      && y[a].revision == x[a].revision + (if y[a].decision == Revoked && x[a].decision != Revoked then 1 else 0)
    else a in y ==> y[a].decision == Pending && y[a].revision == 1 && Requests(op, a, y[a])
  }

  predicate RowKept(x: map<Id, Approval>, y: map<Id, Approval>, a: Id) {
    && (a in x <==> a in y)
    && (a in x ==>
          && SameTerms(x[a], y[a]) && StaysBound(x[a], y[a])
          && y[a].decision == x[a].decision && y[a].revision == x[a].revision)
  }

  lemma WriteMoves(db: Db, x: Id, row: Approval, note: Option<EventKind>, op: Op, a: Id)
    requires RowMoves(db.approvals, db.approvals[x := row], op, x)
    requires a != x ==> RowMoves(db.approvals, db.approvals, op, a)
    ensures RowMoves(db.approvals, WriteApproval(db, x, row, note).approvals, op, a)
  {
    hide Requests;
  }

  lemma NothingMoves(x: map<Id, Approval>, op: AuthorityOp, a: Id)
    requires op.AcquireOp? || op.RenewOp? || op.ReleaseOp? || op.NoteOp?
    ensures RowMoves(x, x, Authority(op), a)
  {
  }

  lemma AuthorityMoves(db: Db, op: AuthorityOp, a: Id)
    ensures RowMoves(db.approvals, ApplyAuthority(db, op).approvals, Authority(op), a)
  {
    match op {
      case RequestOp(x, row) => RequestMoves(db, x, row, a);
      case DecideOp(x, yes) => DecideMoves(db, x, yes, a);
      case RevokeOp(x) => RevokeMoves(db, x, a);
      case _ =>
        OthersKeepRows(db, op);
        hide ApplyAuthority, RowMoves;
        NothingMoves(db.approvals, op, a);
    }
  }

  lemma RequestMoves(db: Db, x: Id, row: Approval, a: Id)
    ensures RowMoves(db.approvals, ApplyAuthority(db, RequestOp(x, row)).approvals, Authority(RequestOp(x, row)), a)
  {
    hide WriteApproval;
    if RequestError(db, x, row).None? {
      WriteMoves(db, x, row, RequestNote(x, row), Authority(RequestOp(x, row)), a);
    }
  }

  lemma DecideMoves(db: Db, x: Id, yes: bool, a: Id)
    ensures RowMoves(db.approvals, ApplyAuthority(db, DecideOp(x, yes)).approvals, Authority(DecideOp(x, yes)), a)
  {
    hide WriteApproval;
    if DecideError(db, x, yes).None? && db.approvals[x].decision == Pending {
      WriteMoves(db, x, db.approvals[x].(decision := Verdict(yes)), None, Authority(DecideOp(x, yes)), a);
    }
  }

  lemma RevokeMoves(db: Db, x: Id, a: Id)
    ensures RowMoves(db.approvals, ApplyAuthority(db, RevokeOp(x)).approvals, Authority(RevokeOp(x)), a)
  {
    hide WriteApproval;
    if RevokeError(db, x).None? {
      var row := db.approvals[x];
      WriteMoves(db, x, row.(decision := Revoked, revision := row.revision + 1), Some(ApprovalDecided(x)),
                 Authority(RevokeOp(x)), a);
    }
  }

  lemma OthersKeepRows(db: Db, op: AuthorityOp)
    requires op.AcquireOp? || op.RenewOp? || op.ReleaseOp? || op.NoteOp?
    ensures ApplyAuthority(db, op).approvals == db.approvals
  {
    hide AcquireError, AcquiredLease, RenewError, RenewedLease, ReleaseError, HoldsLeaseRow;
    match op
    case AcquireOp(_, _, _) => hide RenewLease, ReleaseLease;
    case RenewOp(_, _, _, _) => hide AcquireLease, ReleaseLease;
    case ReleaseOp(_, _, _) => hide AcquireLease, RenewLease;
    case NoteOp(_, _) => hide AcquireLease, RenewLease, ReleaseLease;
  }

  lemma BindKeepsRow(x: map<Id, Approval>, p: Option<Id>, e: Id, a: Id)
    requires p.Some? && p.value in x ==> x[p.value].effectId == None
    ensures RowKept(x, BindApproval(x, p, e), a)
  {
  }

  lemma PrepareApprovals(db: Db, i: PrepareInput)
    ensures PreparePost(db, i).approvals ==
      BindApproval(db.approvals, if Existing(db, i).Some? then None else i.approvalId, i.newEffectId)
  {
    hide Existing, NewCallbackCapsule, NewEffect, AppendEdge, RunHook;
    if Existing(db, i).Some? {
    } else {
      hide BindApproval;
    }
  }

  lemma BoundToNothing(db: Db, i: PrepareInput)
    requires PrepareError(db, i).None? && Existing(db, i).None? && i.approvalId.Some? && i.approvalId.value in db.approvals
    ensures db.approvals[i.approvalId.value].effectId == None
  {
    hide Existing;
  }

  lemma PrepareKeepsRow(db: Db, i: PrepareInput, a: Id)
    requires PrepareError(db, i).None?
    ensures RowKept(db.approvals, PreparePost(db, i).approvals, a)
  {
    hide *;
    PrepareApprovals(db, i);
    if Existing(db, i).None? && i.approvalId.Some? && i.approvalId.value in db.approvals {
      BoundToNothing(db, i);
    }
    BindKeepsRow(db.approvals, if Existing(db, i).Some? then None else i.approvalId, i.newEffectId, a);
  }

  lemma CasKeepsRow(db: Db, i: CasInput, a: Id)
    requires CasGuard(db, i)
    ensures RowKept(db.approvals, CasPost(db, i).approvals, a)
  {
    if i.approvalId.Some? {
      ApprovalAdmits(db, i);
    }
    CasAuthority(db, i);
    hide CasPost, CasGuard;
  }

  lemma LedgerKeepsRow(db: Db, op: LedgerOp, a: Id)
    ensures RowKept(db.approvals, ApplyLedger(db, op).approvals, a)
  {
    LedgerOpsAreAtomic(db, op);
    hide ApplyLedger, PrepareError, PreparePost, CasGuard, CasPost, ReceiptError, ReceiptPost, UnknownError, UnknownPost;
    hide CancelError, CancelPost, CommitGuard, LateCommitGuard, CommitPost, FinalizeError, FinalizePost, PlanError, PlanPost;
    hide TransitionError, TransitionPost;
    if LedgerOpEnabled(db, op) {
      match op {
        case PrepareOp(i) => PrepareKeepsRow(db, i, a);
        case CasOp(i) => CasKeepsRow(db, i, a);
        case _ =>
      }
    }
  }

  lemma SameApprovals(db: Db, b: Db, op: Op, a: Id)
    requires AuthorityUntouched(db, b) && !op.Authority?
    ensures RowMoves(db.approvals, b.approvals, op, a)
  {
  }

  lemma StepMovesRow(db: Db, op: Op, a: Id)
    ensures RowMoves(db.approvals, Apply(db, op).approvals, op, a)
  {
    hide ApplyEnv, ApplyFrame, ApplyAuthority, ApplyLedger, ApplyRepair, ApplyIndex, AuthorityUntouched;
    match op {
      case Env(o) => EnvKeepsApprovals(db, o);
      case Frames(o) => FramesKeepApprovals(db, o);
      case Authority(o) => AuthorityMoves(db, o, a);
      case Ledger(o) => LedgerKeepsRow(db, o, a);
      case Repairs(o) => RepairsKeepApprovals(db, o);
      case Index(o) => IndexKeepsApprovals(db, o);
    }
    if !op.Authority? && !op.Ledger? {
      SameApprovals(db, Apply(db, op), op, a);
    }
  }

  /* ---------- histories ---------- */

  lemma {:induction false} NoMoveInBetween(db: Db, ops: seq<Op>, a: Id)
    requires a in db.approvals && (db.approvals[a].decision == Denied || db.approvals[a].decision == Revoked)
    ensures var b := Exec(db, ops); a in b.approvals && b.approvals[a].decision == db.approvals[a].decision
    decreases |ops|
  {
    hide Apply, SameTerms, Requests;
    if ops != [] {
      var n := |ops| - 1;
      NoMoveInBetween(db, ops[..n], a);
      StepMovesRow(Exec(db, ops[..n]), ops[n], a);
    }
  }

  /** Operation n is an accepted approval of a. */
  predicate ApprovedAt(ops: seq<Op>, n: nat, a: Id) {
    n < |ops| && ops[n] == Authority(DecideOp(a, true)) && DecideApproval(Exec(EmptyDb, ops[..n]), a, true).result.Ok?
  }

  /** Operation n is an accepted request for a, on the terms of this row. */
  predicate RequestedAt(ops: seq<Op>, n: nat, a: Id, row: Approval) {
    n < |ops| && a !in Exec(EmptyDb, ops[..n]).approvals && a in Exec(EmptyDb, ops[..n + 1]).approvals
    && Requests(ops[n], a, row)
  }

  lemma DecideAcceptedIff(db: Db, a: Id, yes: bool)
    ensures DecideApproval(db, a, yes).result.Ok? <==>
      a in db.approvals && (db.approvals[a].decision == Pending
                            || db.approvals[a].decision == (if yes then Approved else Denied))
  {
    hide WriteApproval;
  }

  lemma {:induction false} ApprovedHasHistory(ops: seq<Op>, a: Id) returns (n: nat)
    requires a in Exec(EmptyDb, ops).approvals && Exec(EmptyDb, ops).approvals[a].decision == Approved
    ensures ApprovedAt(ops, n, a) && Authority(RevokeOp(a)) !in ops[n..]
    decreases |ops|
  {
    hide Apply, SameTerms, Requests, DecideApproval;
    var last := |ops| - 1;
    assert ops != [];
    var before, op := Exec(EmptyDb, ops[..last]), ops[last];
    StepMovesRow(before, op, a);
    DecideAcceptedIff(before, a, true);
    if a in before.approvals && before.approvals[a].decision == Approved {
      n := ApprovedHasHistory(ops[..last], a);
      assert ops[..last][..n] == ops[..n];
      assert ops[n..] == ops[..last][n..] + [op];
    } else {
      n := last;
    }
  }

  lemma {:induction false} ApprovalStands(ops: seq<Op>, n: nat, a: Id)
    requires ApprovedAt(ops, n, a) && Authority(RevokeOp(a)) !in ops[n..]
    ensures a in Exec(EmptyDb, ops).approvals && Exec(EmptyDb, ops).approvals[a].decision == Approved
    decreases |ops|
  {
    hide Apply, SameTerms, Requests, DecideApproval;
    var last := |ops| - 1;
    var before, op := Exec(EmptyDb, ops[..last]), ops[last];
    StepMovesRow(before, op, a);
    assert op == ops[n..][last - n];
    if n == last {
      DecideAcceptedIff(before, a, true);
    } else {
      assert ops[..last][..n] == ops[..n];
      assert ops[n..] == ops[..last][n..] + [op];
      ApprovalStands(ops[..last], n, a);
    }
  }

  predicate ApprovedSince(ops: seq<Op>, n: nat, a: Id) {
    ApprovedAt(ops, n, a) && Authority(RevokeOp(a)) !in ops[n..]
  }

  /** An approval is `approved` if and only if its approval was accepted and it was not
      revoked since. */
  lemma ApprovedIff(ops: seq<Op>, a: Id)
    ensures var db := Exec(EmptyDb, ops);
      (a in db.approvals && db.approvals[a].decision == Approved) <==> exists n: nat :: ApprovedSince(ops, n, a)
  {
    hide Exec, DecideApproval;
    if a in Exec(EmptyDb, ops).approvals && Exec(EmptyDb, ops).approvals[a].decision == Approved {
      var n := ApprovedHasHistory(ops, a);
      assert ApprovedSince(ops, n, a);
    }
    if exists n: nat :: ApprovedSince(ops, n, a) {
      var n: nat :| ApprovedSince(ops, n, a);
      ApprovalStands(ops, n, a);
    }
  }

  /** The revision of an approval says whether it was revoked, so a binding made before a
      revocation names another revision than the row has after it. */
  lemma {:induction false} RevisionTellsRevoked(ops: seq<Op>, a: Id)
    requires a in Exec(EmptyDb, ops).approvals
    ensures var row := Exec(EmptyDb, ops).approvals[a]; row.revision == if row.decision == Revoked then 2 else 1
    decreases |ops|
  {
    hide Apply, SameTerms, Requests, StaysBound;
    var last := |ops| - 1;
    assert ops != [];
    var before := Exec(EmptyDb, ops[..last]);
    StepMovesRow(before, ops[last], a);
    if a in before.approvals {
      RevisionTellsRevoked(ops[..last], a);
    }
  }

  /** Every approval row was requested once, on the terms it has now. */
  lemma {:induction false} EveryRowWasRequested(ops: seq<Op>, a: Id) returns (n: nat)
    requires a in Exec(EmptyDb, ops).approvals
    ensures RequestedAt(ops, n, a, Exec(EmptyDb, ops).approvals[a])
    decreases |ops|
  {
    hide Apply;
    var last := |ops| - 1;
    assert ops != [];
    var before := Exec(EmptyDb, ops[..last]);
    StepMovesRow(before, ops[last], a);
    if a in before.approvals {
      n := EveryRowWasRequested(ops[..last], a);
      assert ops[..last][..n] == ops[..n] && ops[..last][..n + 1] == ops[..n + 1];
    } else {
      n := last;
      assert ops[..n + 1] == ops;
    }
  }

  /* ---------- what an accepted intent rests on ---------- */

  lemma {:induction false} RunsExist(ops: seq<Op>, e: Id)
    requires e in Exec(EmptyDb, ops).effects
    ensures var db := Exec(EmptyDb, ops); db.effects[e].runId in db.workspaces
    decreases |ops|
  {
    hide Apply, InForest;
    var n := |ops| - 1;
    assert ops != [];
    var before, after := Exec(EmptyDb, ops[..n]), Exec(EmptyDb, ops);
    StepEvolves(before, ops[n]);
    var c := StepChange(before, ops[n]);
    if e in before.effects {
      RunsExist(ops[..n], e);
      RunKept(before, after, e);
    } else {
      ReachableForest(ops[..n]);
      NewRunExists(before, after, c, e);
    }
  }

  lemma RunKept(a: Db, b: Db, e: Id)
    requires Evolves(a, b) && e in a.effects && a.effects[e].runId in a.workspaces
    ensures e in b.effects && b.effects[e].runId == a.effects[e].runId && b.effects[e].runId in b.workspaces
  {
    hide FramesEvolve, ApprovalsEvolve, LeasesEvolve, RepairsEvolve;
  }

  lemma NewRunExists(a: Db, b: Db, c: Change, e: Id)
    requires Evolves(a, b) && Describes(a, b, c) && InForest(a.frames, a.workspaces, a.events)
    requires e !in a.effects && e in b.effects
    ensures b.effects[e].runId in b.workspaces
  {
    hide FramesEvolve, ApprovalsEvolve, LeasesEvolve, RepairsEvolve, EffectsEvolve, RevisionsCount;
    assert WellPlaced(a.frames, a.workspaces, b.effects[e].ownerFrameId);
  }

  /** The attempt that approval a was used for. */
  predicate UsedFor(db: Db, a: Id, i: CasInput) {
    && AttemptKey(i.effectId, i.attemptNo) in db.bindings
    && db.bindings[AttemptKey(i.effectId, i.attemptNo)].approvalId == a
    && (db.bindings[AttemptKey(i.effectId, i.attemptNo)].kind == if i.retry then RetryBinding else InitialBinding)
    && ConsumptionKey(a, i.effectId, i.attemptNo) in db.consumptions
  }

  /** An accepted intent that names an approval rests on a row that is approved, alive and
      of the right type, that names this effect, agrees with it on run, workspace, scope,
      payload and policy, and has a use left, which the intent takes. */
  lemma IntentIsAuthorised(ops: seq<Op>, i: CasInput)
    requires CasToInFlight(Exec(EmptyDb, ops), i).result.Ok? && i.approvalId.Some?
    ensures var db, a := Exec(EmptyDb, ops), i.approvalId.value;
      && i.effectId in db.effects && a in db.approvals
      && var e, row := db.effects[i.effectId], db.approvals[a];
      && row.decision == Approved
      && (row.expiresAt.Some? ==> db.clock < row.expiresAt.value)
      && (i.retry ==> row.approvalType == RecoveryRetry)
      && (!i.retry ==> row.approvalType == Egress || row.approvalType == ToolInvocation)
      && row.effectId == Some(i.effectId)
      && row.runId == e.runId
      && e.runId in db.workspaces && row.workspaceId == db.workspaces[e.runId]
      && row.scopeHash.Some? && row.scopeHash.value != "" && row.scopeHash == e.scopeHash
      && row.payloadFingerprint == Some(e.payloadFingerprint)
      && row.policyVersionHash.Some? && row.policyVersionHash.value != "" && row.policyVersionHash == e.policyVersionHash
  {
    hide Exec, CasToInFlight;
    OkIsGuarded(Exec(EmptyDb, ops), i);
    ApprovalAdmits(Exec(EmptyDb, ops), i);
    RunsExist(ops, i.effectId);
    hide CasGuard;
  }

  /** The intent takes one use, and records which approval, in which revision, the attempt
      rests on. */
  lemma IntentTakesAUse(db: Db, i: CasInput)
    requires CasToInFlight(db, i).result.Ok? && i.approvalId.Some?
    ensures var a, after := i.approvalId.value, CasToInFlight(db, i).db;
      && !UsedFor(db, a, i) && UsedFor(after, a, i)
      && a in db.approvals && a in after.approvals && db.approvals[a].usesConsumed < db.approvals[a].useLimit
      && after.approvals[a] == db.approvals[a].(usesConsumed := db.approvals[a].usesConsumed + 1)
      && after.bindings[AttemptKey(i.effectId, i.attemptNo)].approvalRevision == db.approvals[a].revision
  {
    hide CasToInFlight;
    OkIsGuarded(db, i);
    CasAccepted(db, i);
    ApprovalAdmits(db, i);
    CasAuthority(db, i);
    GuardIsFresh(db, i);
    hide CasGuard, CasPost;
  }

  lemma OkIsGuarded(db: Db, i: CasInput)
    ensures CasToInFlight(db, i).result.Ok? <==> CasGuard(db, i)
  {
    hide CasRowError, CasCommand, CasLeaseError, ApprovalError, CasPost, LeaseVersionFor;
  }

  lemma GuardIsFresh(db: Db, i: CasInput)
    requires CasGuard(db, i) && i.approvalId.Some?
    ensures AttemptKey(i.effectId, i.attemptNo) !in db.bindings
  {
    hide CasRowError, CasCommand, CasLeaseError, ApprovalCovers, RequiresApproval;
  }

  /** And the row has a history: it was requested on these terms, its approval was
      accepted, and it was not revoked since. */
  lemma IntentHasHistory(ops: seq<Op>, i: CasInput) returns (requested: nat, approved: nat)
    requires CasToInFlight(Exec(EmptyDb, ops), i).result.Ok? && i.approvalId.Some?
    ensures var db, a := Exec(EmptyDb, ops), i.approvalId.value;
      && a in db.approvals && RequestedAt(ops, requested, a, db.approvals[a])
      && ApprovedAt(ops, approved, a) && Authority(RevokeOp(a)) !in ops[approved..]
  {
    IntentIsAuthorised(ops, i);
    hide Exec, CasToInFlight, RequestedAt;
    requested := EveryRowWasRequested(ops, i.approvalId.value);
    approved := ApprovedHasHistory(ops, i.approvalId.value);
  }

  /** After an accepted revocation no intent is ever accepted under that approval. */
  lemma RevokedForGood(ops: seq<Op>, a: Id, more: seq<Op>, i: CasInput)
    requires RevokeApproval(Exec(EmptyDb, ops), a).result.Ok? && i.approvalId == Some(a)
    ensures CasToInFlight(Exec(EmptyDb, ops + [Authority(RevokeOp(a))] + more), i).result.Err?
  {
    var op := Authority(RevokeOp(a));
    StepMovesRow(Exec(EmptyDb, ops), op, a);
    ExecOne(EmptyDb, ops, op);
    WasApproved(Exec(EmptyDb, ops), a);
    hide Exec, Apply, CasToInFlight, RevokeApproval, SameTerms;
    EndedForGood(ops + [op], a, more, i);
  }

  lemma WasApproved(db: Db, a: Id)
    requires RevokeApproval(db, a).result.Ok?
    ensures a in db.approvals && db.approvals[a].decision == Approved
  {
    hide RevokePost;
  }

  /** Nor after an accepted denial. */
  lemma DeniedForGood(ops: seq<Op>, a: Id, more: seq<Op>, i: CasInput)
    requires DecideApproval(Exec(EmptyDb, ops), a, false).result.Ok? && i.approvalId == Some(a)
    ensures CasToInFlight(Exec(EmptyDb, ops + [Authority(DecideOp(a, false))] + more), i).result.Err?
  {
    var op := Authority(DecideOp(a, false));
    StepMovesRow(Exec(EmptyDb, ops), op, a);
    ExecOne(EmptyDb, ops, op);
    DecideAcceptedIff(Exec(EmptyDb, ops), a, false);
    hide Exec, Apply, CasToInFlight, DecideApproval, SameTerms;
    EndedForGood(ops + [op], a, more, i);
  }

  lemma EndedForGood(ops: seq<Op>, a: Id, more: seq<Op>, i: CasInput)
    requires var db := Exec(EmptyDb, ops);
      a in db.approvals && (db.approvals[a].decision == Denied || db.approvals[a].decision == Revoked)
    requires i.approvalId == Some(a)
    ensures CasToInFlight(Exec(EmptyDb, ops + more), i).result.Err?
  {
    hide Exec, CasToInFlight;
    NoMoveInBetween(Exec(EmptyDb, ops), more, a);
    ExecAppend(EmptyDb, ops, more);
    if CasToInFlight(Exec(EmptyDb, ops + more), i).result.Ok? {
      IntentIsAuthorised(ops + more, i);
    }
  }
}
