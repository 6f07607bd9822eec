// Where a result comes from: what a commit or a verdict opens is, field by field, what one
// accepted recordReceipt of that effect reported.

module Results {
  import opened Tables
  import opened CapsuleStore
  import opened EffectProtocol
  import opened DurableRuntime
  import opened IngressReview
  import opened Kernel
  import opened Evolution
  import opened Replay
  import opened Evidence
  import opened ApprovalGate
  import opened Provenance

  /** The outcome is the caller's, field by field. */
  predicate Reports(b: ResultBody, i: ReceiptInput) {
    && b.attemptNo == i.attemptNo
    && b.status == i.status
    && b.providerStatus == i.providerStatus
    && b.requestId == i.requestId
    && b.requestHash == i.requestHash
    && b.result == i.result
  }

  predicate ReportedRow(r: Receipt, i: ReceiptInput) {
    && r.effectId == i.effectId && r.attemptNo == i.attemptNo
    && r.requestId == i.requestId && r.requestHash == i.requestHash
    && r.providerStatus == i.providerStatus && r.status == i.status
  }

  /** The receipt is bound to the sealed outcome by its digest, and its own digest covers
      that, the attempt, the request and both statuses. */
  predicate Binds(r: Receipt, b: ResultBody, i: ReceiptInput) {
    && r.responseHash == Some(OfResult(b)) && r.capsuleHash == Some(OfResult(b))
    && r.capsule == Some(ResultKey(i.effectId, i.attemptNo))
    && r.receiptHash == OfReceipt(i.effectId, i.attemptNo, i.requestHash, Some(OfResult(b)), i.status, i.providerStatus)
  }

  /** The result capsule as the receipt sealed it: the caller's outcome, for a week. */
  predicate SealedFor(c: Capsule, i: ReceiptInput, e: Effect, at: Db) {
    && c.body.SealedResult? && Reports(c.body.body, i)
    && c.hash == c.fingerprint == OfResult(c.body.body)
    && c.receiptId == Some(i.newReceiptId)
    && c.runId == e.runId && c.adapterKind == e.adapterKind
    && (e.runId in at.workspaces ==> c.workspaceId == at.workspaces[e.runId])
    && c.expiresAt == at.clock + WEEK_MS
  }

  /** Operation i put receipt r and its capsule into the database. */
  predicate Recorded(db: Db, i: ReceiptInput, b: Db) {
    && i.effectId in db.effects && i.newReceiptId in b.receipts
    && ReportedRow(b.receipts[i.newReceiptId], i)
    && ResultKey(i.effectId, i.attemptNo) in b.capsules
    && SealedFor(b.capsules[ResultKey(i.effectId, i.attemptNo)], i, db.effects[i.effectId], db)
    && Binds(b.receipts[i.newReceiptId], b.capsules[ResultKey(i.effectId, i.attemptNo)].body.body, i)
  }

  lemma ReceiptRecords(db: Db, i: ReceiptInput)
    requires ReceiptError(db, i).None?
    ensures i.effectId in db.effects && Recorded(db, i, ReceiptPost(db, i))
  {
    hide ReceiptExists, AppendEdge, ReceiptHashOf;
  }

  /** After an accepted receipt the result opens, for this receipt and this attempt, to
      what the caller reported. */
  lemma ReceiptSealsTheReport(db: Db, i: ReceiptInput)
    requires RecordReceipt(db, i).result.Ok?
    ensures var b := RecordReceipt(db, i).db;
      && Recorded(db, i, b) && i.effectId in b.effects && b.effects[i.effectId].receiptId == Some(i.newReceiptId)
      && var answer := OpenAuthoritativeResult(b, i.effectId, b.effects[i.effectId], i.newReceiptId, i.attemptNo);
      && answer.Ok? && answer.value.SealedResult? && Reports(answer.value.body, i)
  {
    ReceiptOk(db, i);
    ReceiptRecords(db, i);
    FreshReceiptOpens(db, i);
    hide RecordReceipt, ReceiptPost, ReceiptError, Recorded, OpenAuthoritativeResult;
  }

  lemma ReceiptOk(db: Db, i: ReceiptInput)
    requires RecordReceipt(db, i).result.Ok?
    ensures ReceiptError(db, i).None? && RecordReceipt(db, i).db == ReceiptPost(db, i)
  {
    hide ReceiptError, ReceiptPost;
  }

  lemma FreshReceiptOpens(db: Db, i: ReceiptInput)
    requires ReceiptError(db, i).None?
    ensures i.effectId in db.effects
    ensures var b := ReceiptPost(db, i);
      && b.effects[i.effectId].receiptId == Some(i.newReceiptId)
      && var answer := OpenAuthoritativeResult(b, i.effectId, b.effects[i.effectId], i.newReceiptId, i.attemptNo);
      && answer.Ok? && answer.value.SealedResult? && Reports(answer.value.body, i)
  {
    hide ReceiptExists, AppendEdge;
  }

  /* ---------- over runs ---------- */

  predicate Receives(op: Op, r: Id) { op.Ledger? && op.ledger.ReceiptOp? && op.ledger.receipt.newReceiptId == r }

  lemma OthersKeepReceipts(db: Db, op: LedgerOp)
    requires LedgerOpEnabled(db, op) && !op.ReceiptOp?
    ensures LedgerOpDone(db, op).receipts == db.receipts
  {
    hide PlanError, TransitionError, PrepareError, CancelError, UnknownError, CommitGuard, LateCommitGuard, FinalizeError;
    hide AppendEdge, Existing;
    match op
    case PlanOp(i) =>
    case TransitionOp(e, _, _, n) =>
    case PrepareOp(i) => PrepareTables(db, i); hide PreparePost;
    case CasOp(i) => CasAdmits(db, i); CasTables(db, i); hide CasPost, CasGuard;
    case UnknownOp(i) =>
    case CancelOp(e, _) =>
    case CommitOp(i) =>
    case LateCommitOp(i) =>
    case FinalizeOp(i, _) =>
  }

  lemma CasAdmits(db: Db, i: CasInput)
    requires CasGuard(db, i)
    ensures i.effectId in db.effects && (i.approvalId.Some? ==> i.approvalId.value in db.approvals)
  {
    if i.approvalId.Some? {
      ApprovalAdmits(db, i);
    }
    hide CasCommand, CasLeaseError, ApprovalError;
  }

  lemma StepRecords(db: Db, op: Op, r: Id)
    requires r !in db.receipts && r in Apply(db, op).receipts
    ensures Receives(op, r) && Recorded(db, op.ledger.receipt, Apply(db, op))
  {
    if !op.Ledger? {
      OthersKeepLedger(db, op);
      hide Apply;
    } else {
      LedgerOpsAreAtomic(db, op.ledger);
      hide ApplyEnv, ApplyFrame, ApplyAuthority, ApplyLedger, ApplyRepair, ApplyIndex, LedgerOpEnabled, LedgerOpDone, Recorded;
      if LedgerOpEnabled(db, op.ledger) {
        if op.ledger.ReceiptOp? {
          DoneRecords(db, op.ledger.receipt, r);
        } else {
          OthersKeepReceipts(db, op.ledger);
        }
      }
    }
  }

  lemma DoneRecords(db: Db, i: ReceiptInput, r: Id)
    requires LedgerOpEnabled(db, ReceiptOp(i)) && r !in db.receipts
    requires r in LedgerOpDone(db, ReceiptOp(i)).receipts
    ensures i.newReceiptId == r && Recorded(db, i, LedgerOpDone(db, ReceiptOp(i)))
  {
    ReceiptRecords(db, i);
    hide ReceiptError, Recorded, NewReceipt, NewResultCapsule, AppendEdge;
  }

  /** Operation n recorded receipt r. */
  predicate ReceivedAt(ops: seq<Op>, n: nat, r: Id) {
    && n < |ops| && Receives(ops[n], r)
    && r !in Exec(EmptyDb, ops[..n]).receipts && r in Exec(EmptyDb, ops[..n + 1]).receipts
  }

  /** What is stored under the receipt is what operation n reported. */
  predicate Stored(db: Db, r: Id, i: ReceiptInput) {
    && r in db.receipts && ReportedRow(db.receipts[r], i)
    && ResultKey(i.effectId, i.attemptNo) in db.capsules
    && var c := db.capsules[ResultKey(i.effectId, i.attemptNo)];
    && c.body.SealedResult? && Reports(c.body.body, i) && Binds(db.receipts[r], c.body.body, i)
  }

  lemma RecordedIsStored(db: Db, i: ReceiptInput, b: Db)
    requires Recorded(db, i, b)
    ensures Stored(b, i.newReceiptId, i)
  {
  }

  lemma StoredStands(a: Db, b: Db, r: Id, i: ReceiptInput)
    requires Evolves(a, b) && Stored(a, r, i)
    ensures Stored(b, r, i)
  {
    hide RuntimeEvolves, EffectsEvolve;
  }

  /** Every receipt was reported by one call, and row and capsule still hold the report. */
  lemma {:induction false} EveryReceiptWasReported(ops: seq<Op>, r: Id) returns (n: nat)
    requires r in Exec(EmptyDb, ops).receipts
    ensures ReceivedAt(ops, n, r) && Stored(Exec(EmptyDb, ops), r, ops[n].ledger.receipt)
    decreases |ops|
  {
    hide Apply, Evolves, Stored, Recorded;
    var last := |ops| - 1;
    assert ops != [];
    var before, after := Exec(EmptyDb, ops[..last]), Exec(EmptyDb, ops);
    if r in before.receipts {
      n := EveryReceiptWasReported(ops[..last], r);
      assert ops[..last][..n] == ops[..n] && ops[..last][..n + 1] == ops[..n + 1];
      StepEvolves(before, ops[last]);
      StoredStands(before, after, r, ops[n].ledger.receipt);
    } else {
      n := last;
      assert ops[..n + 1] == ops;
      StepRecords(before, ops[last], r);
      RecordedIsStored(before, ops[last].ledger.receipt, after);
    }
  }

  /** What a terminal commit opens is what the receipt it names reported, for this effect
      and this attempt. */
  lemma CommitOpensTheReport(ops: seq<Op>, i: CommitInput) returns (n: nat)
    requires CommitToTerminal(Exec(EmptyDb, ops), i).result.Ok?
    ensures ReceivedAt(ops, n, i.receiptId)
    ensures ops[n].ledger.receipt.effectId == i.effectId && ops[n].ledger.receipt.attemptNo == i.attemptNo
    ensures var db := Exec(EmptyDb, ops);
      && i.effectId in db.effects
      && var answer := OpenAuthoritativeResult(db, i.effectId, db.effects[i.effectId], i.receiptId, i.attemptNo);
      && answer.Ok? && answer.value.SealedResult? && Reports(answer.value.body, ops[n].ledger.receipt)
  {
    var db := Exec(EmptyDb, ops);
    hide Exec, CommitToTerminal;
    CommitOpens(db, i);
    n := EveryReceiptWasReported(ops, i.receiptId);
    hide OpenAuthoritativeResult, ReceivedAt;
    ReceivedMeans(ops, n, i.receiptId);
  }

  lemma ReceivedMeans(ops: seq<Op>, n: nat, r: Id)
    requires ReceivedAt(ops, n, r)
    ensures n < |ops| && ops[n].Ledger? && ops[n].ledger.ReceiptOp?
  {
  }

  lemma CommitOpens(db: Db, i: CommitInput)
    requires CommitToTerminal(db, i).result.Ok?
    ensures i.effectId in db.effects
    ensures var answer := OpenAuthoritativeResult(db, i.effectId, db.effects[i.effectId], i.receiptId, i.attemptNo);
      && answer.Ok?
      && i.receiptId in db.receipts && db.receipts[i.receiptId].effectId == i.effectId
      && db.receipts[i.receiptId].attemptNo == i.attemptNo
      && ResultKey(i.effectId, i.attemptNo) in db.capsules
      && answer.value == db.capsules[ResultKey(i.effectId, i.attemptNo)].body
  {
    hide CommitPost, ActiveLease, LogsCapsuleFailure;
  }

  /** What a verdict is about is what the effect's receipt reported, and the reviewer's
      digest is the digest of that report. */
  lemma VerdictOpensTheReport(ops: seq<Op>, i: FinalizeInput, t: nat) returns (n: nat)
    requires ProtocolRun(ops) && FinalizeAt(Exec(EmptyDb, ops), i, t).result.Ok?
    ensures var db := Exec(EmptyDb, ops);
      && i.effectId in db.effects && db.effects[i.effectId].receiptId.Some?
      && ReceivedAt(ops, n, db.effects[i.effectId].receiptId.value)
      && ops[n].ledger.receipt.effectId == i.effectId
      && AuthoritativePayload(db, i.effectId).Ok? && AuthoritativePayload(db, i.effectId).value.SealedResult?
      && var body := AuthoritativePayload(db, i.effectId).value.body;
      && Reports(body, ops[n].ledger.receipt) && i.reviewerDigest == OfResult(body)
  {
    var db := Exec(EmptyDb, ops);
    hide Exec, FinalizeAt;
    VerdictOpens(db, i, t);
    AnsweredEffectsAreBacked(ops);
    OwnReceipt(db, i.effectId);
    n := EveryReceiptWasReported(ops, db.effects[i.effectId].receiptId.value);
    hide AuthoritativePayload, ReceivedAt;
    ReceivedMeans(ops, n, db.effects[i.effectId].receiptId.value);
  }

  lemma OwnReceipt(db: Db, e: Id)
    requires Backed(db) && e in db.effects && db.effects[e].receiptId.Some?
    ensures db.effects[e].receiptId.value in db.receipts && db.receipts[db.effects[e].receiptId.value].effectId == e
  {
    RowFacts(db, e);
    hide Backed;
  }

  lemma VerdictOpens(db: Db, i: FinalizeInput, t: nat)
    requires FinalizeAt(db, i, t).result.Ok?
    ensures i.effectId in db.effects && AuthoritativePayload(db, i.effectId).Ok?
    ensures db.effects[i.effectId].receiptId.Some? && db.effects[i.effectId].receiptId.value in db.receipts
    ensures var receipt := db.receipts[db.effects[i.effectId].receiptId.value];
      && ResultKey(receipt.effectId, receipt.attemptNo) in db.capsules
      && AuthoritativePayload(db, i.effectId).value == db.capsules[ResultKey(receipt.effectId, receipt.attemptNo)].body
      && DigestOf(AuthoritativePayload(db, i.effectId).value) == i.reviewerDigest
  {
    hide FinalizePost, ActiveLease, AuthoritativePayload;
  }

  /* ---------- findings and decisions ---------- */

  /** Decision d and its finding are what the reviewer gave, on the effect's own receipt. */
  predicate Decided(db: Db, i: FinalizeInput, b: Db) {
    && i.effectId in db.effects && db.effects[i.effectId].receiptId.Some?
    && var r := db.effects[i.effectId].receiptId.value;
    && i.newDecisionId in b.decisions && i.newFindingId in b.findings
    && var d, f := b.decisions[i.newDecisionId], b.findings[i.newFindingId];
    && d.findingId == i.newFindingId && d.effectId == i.effectId && d.receiptId == r
    && d.outcome == i.outcome && d.payloadDigest == i.reviewerDigest
    && f.effectId == i.effectId && f.receiptId == r && f.outcome == i.outcome
  }

  predicate DecidesAs(db: Db, op: Op, b: Db, d: Id) {
    op.Ledger? && op.ledger.FinalizeOp? && op.ledger.finalize.newDecisionId == d && Decided(db, op.ledger.finalize, b)
  }

  lemma OthersKeepDecisions(db: Db, op: LedgerOp)
    requires LedgerOpEnabled(db, op) && !op.FinalizeOp?
    ensures LedgerOpDone(db, op).decisions == db.decisions
  {
    hide PlanError, TransitionError, PrepareError, CancelError, UnknownError, CommitGuard, LateCommitGuard, FinalizeError;
    hide CasGuard, ReceiptError, AppendEdge, Existing;
    match op
    case PlanOp(i) => hide PlanPost;
    case TransitionOp(e, _, _, n) => hide TransitionPost;
    case PrepareOp(i) => hide PreparePost;
    case CasOp(i) => hide CasPost;
    case ReceiptOp(i) => hide ReceiptPost;
    case UnknownOp(i) => hide UnknownPost;
    case CancelOp(e, _) => hide CancelPost;
    case CommitOp(i) =>
    case LateCommitOp(i) =>
  }

  lemma FinalizeDecides(db: Db, i: FinalizeInput, t: nat, d: Id)
    requires LedgerOpEnabled(db, FinalizeOp(i, t)) && d !in db.decisions
    requires d in LedgerOpDone(db, FinalizeOp(i, t)).decisions
    ensures i.newDecisionId == d && Decided(db, i, LedgerOpDone(db, FinalizeOp(i, t)))
  {
    FinalizeAdmits(db, i, t);
    hide FinalizeError, AppendEdge;
  }

  lemma StepDecides(db: Db, op: Op, d: Id)
    requires d !in db.decisions && d in Apply(db, op).decisions
    ensures DecidesAs(db, op, Apply(db, op), d)
  {
    if !op.Ledger? {
      OthersKeepLedger(db, op);
      hide Apply;
    } else {
      LedgerOpsAreAtomic(db, op.ledger);
      hide ApplyEnv, ApplyFrame, ApplyAuthority, ApplyLedger, ApplyRepair, ApplyIndex, LedgerOpEnabled, LedgerOpDone, Decided;
      if LedgerOpEnabled(db, op.ledger) {
        if op.ledger.FinalizeOp? {
          FinalizeDecides(db, op.ledger.finalize, op.ledger.instant, d);
        } else {
          OthersKeepDecisions(db, op.ledger);
        }
      }
    }
  }

  predicate DecidedAt(ops: seq<Op>, n: nat, d: Id) {
    && n < |ops| && ops[n].Ledger? && ops[n].ledger.FinalizeOp? && ops[n].ledger.finalize.newDecisionId == d
    && d !in Exec(EmptyDb, ops[..n]).decisions && d in Exec(EmptyDb, ops[..n + 1]).decisions
  }

  /** What is stored of a verdict. */
  predicate Keeps(db: Db, d: Id, i: FinalizeInput) {
    && d in db.decisions && i.newFindingId in db.findings
    && var row, f := db.decisions[d], db.findings[i.newFindingId];
    && row.findingId == i.newFindingId && row.effectId == i.effectId
    && row.outcome == i.outcome && row.payloadDigest == i.reviewerDigest
    && f.effectId == i.effectId && f.receiptId == row.receiptId && f.outcome == i.outcome
  }

  lemma DecidedKeeps(db: Db, i: FinalizeInput, b: Db)
    requires Decided(db, i, b)
    ensures Keeps(b, i.newDecisionId, i)
  {
  }

  lemma KeepsStands(a: Db, b: Db, d: Id, i: FinalizeInput)
    requires Evolves(a, b) && Keeps(a, d, i)
    ensures Keeps(b, d, i)
  {
    hide RuntimeEvolves, EffectsEvolve;
  }

  /** Every review decision and its finding are still what one accepted verdict gave. */
  lemma {:induction false} EveryDecisionWasGiven(ops: seq<Op>, d: Id) returns (n: nat)
    requires d in Exec(EmptyDb, ops).decisions
    ensures DecidedAt(ops, n, d) && Keeps(Exec(EmptyDb, ops), d, ops[n].ledger.finalize)
    decreases |ops|
  {
    hide Apply, Evolves, Keeps, Decided;
    var last := |ops| - 1;
    assert ops != [];
    var before, after := Exec(EmptyDb, ops[..last]), Exec(EmptyDb, ops);
    if d in before.decisions {
      n := EveryDecisionWasGiven(ops[..last], d);
      assert ops[..last][..n] == ops[..n] && ops[..last][..n + 1] == ops[..n + 1];
      StepEvolves(before, ops[last]);
      KeepsStands(before, after, d, ops[n].ledger.finalize);
    } else {
      n := last;
      assert ops[..n + 1] == ops;
      StepDecides(before, ops[last], d);
      DecidedKeeps(before, ops[last].ledger.finalize, after);
    }
  }

  predicate SaysAccepted(i: CommitInput, f: Id, row: Finding) {
    i.newFindingId == f && row.effectId == i.effectId && row.receiptId == i.receiptId && row.outcome == Accepted
  }

  /** The operation is one that leaves this finding: a commit accepts the receipt it names,
      a verdict says what the reviewer said. */
  predicate Finds(op: Op, f: Id, row: Finding) {
    op.Ledger? && match op.ledger
      case CommitOp(i) => SaysAccepted(i, f, row)
      case LateCommitOp(i) => SaysAccepted(i, f, row)
      case FinalizeOp(i, _) => i.newFindingId == f && row.effectId == i.effectId && row.outcome == i.outcome
      case _ => false
  }

  lemma OthersKeepFindings(db: Db, op: LedgerOp)
    requires LedgerOpEnabled(db, op) && !op.CommitOp? && !op.LateCommitOp? && !op.FinalizeOp?
    ensures LedgerOpDone(db, op).findings == db.findings
  {
    hide PlanError, TransitionError, PrepareError, CasGuard, ReceiptError, UnknownError, CancelError;
    match op
    case PlanOp(i) => hide PlanPost;
    case TransitionOp(e, _, _, n) => hide TransitionPost;
    case PrepareOp(i) => hide PreparePost;
    case CasOp(i) => hide CasPost;
    case ReceiptOp(i) => hide ReceiptPost;
    case UnknownOp(i) => hide UnknownPost;
    case CancelOp(e, _) => hide CancelPost;
  }

  lemma DoneFinds(db: Db, op: LedgerOp, f: Id)
    requires LedgerOpEnabled(db, op) && f !in db.findings && f in LedgerOpDone(db, op).findings
    ensures Finds(Ledger(op), f, LedgerOpDone(db, op).findings[f])
  {
    hide PlanError, TransitionError, PrepareError, CasGuard, ReceiptError, UnknownError, CancelError, CommitGuard;
    hide LateCommitGuard, FinalizeError, PreparePost, CasPost, PlanPost, TransitionPost, ReceiptPost, UnknownPost, CancelPost;
    if !op.CommitOp? && !op.LateCommitOp? && !op.FinalizeOp? {
      OthersKeepFindings(db, op);
      assert false;
    }
    hide AppendEdge, StateAfter;
  }

  lemma StepFinds(db: Db, op: Op, f: Id)
    requires f !in db.findings && f in Apply(db, op).findings
    ensures Finds(op, f, Apply(db, op).findings[f])
  {
    hide ApplyEnv, ApplyFrame, ApplyAuthority, ApplyLedger, ApplyRepair, ApplyIndex, Finds, LedgerOpEnabled, LedgerOpDone;
    if !op.Ledger? {
      OthersKeepLedger(db, op);
      assert false;
    } else {
      LedgerOpsAreAtomic(db, op.ledger);
      if LedgerOpEnabled(db, op.ledger) {
        DoneFinds(db, op.ledger, f);
      }
    }
  }

  predicate FoundAt(ops: seq<Op>, n: nat, f: Id) {
    n < |ops| && f !in Exec(EmptyDb, ops[..n]).findings && f in Exec(EmptyDb, ops[..n + 1]).findings
  }

  lemma FindingStands(a: Db, b: Db, f: Id)
    requires Evolves(a, b) && f in a.findings
    ensures f in b.findings && b.findings[f] == a.findings[f]
  {
    hide FramesEvolve, ApprovalsEvolve, LeasesEvolve, RepairsEvolve;
  }

  /** Every finding is still what one accepted commit or verdict said. */
  lemma {:induction false} EveryFindingWasMade(ops: seq<Op>, f: Id) returns (n: nat)
    requires f in Exec(EmptyDb, ops).findings
    ensures FoundAt(ops, n, f) && Finds(ops[n], f, Exec(EmptyDb, ops).findings[f])
    decreases |ops|
  {
    hide Apply, Finds, Evolves;
    var last := |ops| - 1;
    assert ops != [];
    var before, after := Exec(EmptyDb, ops[..last]), Exec(EmptyDb, ops);
    if f in before.findings {
      n := EveryFindingWasMade(ops[..last], f);
      assert ops[..last][..n] == ops[..n] && ops[..last][..n + 1] == ops[..n + 1];
      StepEvolves(before, ops[last]);
      FindingStands(before, after, f);
    } else {
      n := last;
      assert ops[..n + 1] == ops;
      StepFinds(before, ops[last], f);
    }
  }
}
