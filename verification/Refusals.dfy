// What an answer tells its caller: when a call is accepted, and that every error a refused
// call returns is true of the state it was refused in.

module Refusals {
  import opened Tables
  import opened CapsuleStore
  import opened EffectProtocol
  import opened DurableRuntime
  import opened IngressReview
  import R = RepairPlans
  import opened Kernel
  import opened Evolution
  import opened Replay
  import opened LeaseFencing
  import opened LeaseTerms
  import opened Lineage
  import opened Evidence
  import opened Acceptance
  import opened Provenance
  import opened Results
  import RS = RepairSafety
  import L = Lifecycles
  import opened Forest
  import opened Conservation
  import opened ApprovalGate

  predicate InState(db: Db, e: Id, s: EffectState) { e in db.effects && db.effects[e].state == s }

  predicate AtRevision(db: Db, e: Id, revision: nat) { e in db.effects && db.effects[e].revision == revision }

  /* ---------- prepare ---------- */

  predicate KeyTaken(db: Db, i: PrepareInput, e: Id) { Keyed(db, e, i) && !Repeats(db, e, i) }

  ghost predicate PrepareRefusal(db: Db, i: PrepareInput, e: Error) {
    match e
    case FrameNotFound => i.ownerFrameId !in db.frames
    case EffectOwnerMismatch => i.ownerFrameId in db.frames && db.frames[i.ownerFrameId].runId != i.runId
    case EffectPayloadFingerprintChanged => exists x :: KeyTaken(db, i, x) && db.effects[x].ownerFrameId == i.ownerFrameId
    case ConstraintViolation =>
      i.newEffectId in db.effects || exists x :: KeyTaken(db, i, x) && db.effects[x].ownerFrameId != i.ownerFrameId
    case ApprovalRequired =>
      && i.approvalId.Some?
      && (i.approvalId.value in db.approvals && i.runId in db.workspaces ==>
            !Unbound(db.approvals[i.approvalId.value], i.runId, db.workspaces[i.runId]))
    case HookFailed => i.hook == HookThrows
    case _ => false
  }

  /** A refused prepare says why, and an intact database never makes it a capsule error. */
  lemma PrepareRefusals(ops: seq<Op>, i: PrepareInput)
    ensures var db := Exec(EmptyDb, ops);
      Prepare(db, i).result.Err? ==> PrepareRefusal(db, i, Prepare(db, i).result.error)
  {
    var db := Exec(EmptyDb, ops);
    LedgerIsReplay(ops);
    ReachableForest(ops);
    ReachableInLine(ops);
    hide Exec, StateIsReplay, InForest, AllInLine, Prepare, PrepareRefusal;
    ErrIsError(db, i);
    if i.ownerFrameId in db.frames && db.frames[i.ownerFrameId].runId == i.runId {
      OwnerRunExists(db, i.ownerFrameId);
    }
    if Existing(db, i).Some? {
      ExistingIs(db, i);
      Provenance.Sealed(db, Existing(db, i).value);
      if db.effects[Existing(db, i).value].capsuleFingerprint.Some? {
        FingerprintsAgree(ops, Existing(db, i).value);
      }
      RepeatRefusals(db, i);
    } else {
      NoCapsuleYet(db, i.newEffectId);
      NewRefusals(db, i);
    }
  }

  lemma ErrIsError(db: Db, i: PrepareInput)
    ensures Prepare(db, i).result.Err? ==> PrepareError(db, i) == Some(Prepare(db, i).result.error)
  {
    hide PrepareError, PreparePost, PrepareOutput;
  }

  lemma RepeatRefusals(db: Db, i: PrepareInput)
    requires Existing(db, i).Some? && KeysIndexed(db.effects, db.keyIndex)
    requires var e := Existing(db, i).value; db.effects[e].capsuleFingerprint.Some? ==> CallbackKey(e, 1) in db.capsules
    requires var e := Existing(db, i).value; db.effects[e].capsuleFingerprint.Some? ==>
      db.effects[e].capsuleFingerprint.value.OfCommand?
      && db.effects[e].payloadFingerprint == db.effects[e].capsuleFingerprint.value.command.egressFingerprint
    ensures PrepareError(db, i).Some? ==> PrepareRefusal(db, i, PrepareError(db, i).value)
  {
    var e := Existing(db, i).value;
    assert Keyed(db, e, i) && db.effects[e].ownerFrameId == i.ownerFrameId;
    if db.effects[e].capsuleFingerprint.Some? {
      CommandIs(db.effects[e].capsuleFingerprint.value.command, i);
    }
    assert Repeats(db, e, i) || KeyTaken(db, i, e);
    hide Existing, KeysIndexed, CommandOf, Carries;
  }

  lemma NewRefusals(db: Db, i: PrepareInput)
    requires Existing(db, i).None? && KeysIndexed(db.effects, db.keyIndex)
    requires i.newEffectId !in db.effects ==> CallbackKey(i.newEffectId, 1) !in db.capsules
    requires i.ownerFrameId in db.frames && db.frames[i.ownerFrameId].runId == i.runId ==> i.runId in db.workspaces
    ensures PrepareError(db, i).Some? ==> PrepareRefusal(db, i, PrepareError(db, i).value)
  {
    if OfKey(i.idempotencyKey) in db.keyIndex {
      assert KeyTaken(db, i, db.keyIndex[OfKey(i.idempotencyKey)]);
    }
    hide Existing, KeysIndexed, Keyed, Repeats, CommandOf;
  }

  /* ---------- callback intents ---------- */

  ghost predicate IntentRefusal(db: Db, i: CasInput, e: Error) {
    match e
    case EffectNotFound => i.effectId !in db.effects
    case RevisionConflict => i.effectId in db.effects && db.effects[i.effectId].revision != i.expectedRevision
    case EffectInvalidTransition => !InState(db, i.effectId, if i.retry then Unknown else Planned)
    case InvalidArgument => if i.retry then i.attemptNo <= 1 else i.attemptNo != 1
    case CapsuleExpired =>
      CallbackKey(i.effectId, 1) in db.capsules && db.capsules[CallbackKey(i.effectId, 1)].expiresAt <= db.clock
    case CapsuleInvalid =>
      && i.effectId in db.effects
      && (db.effects[i.effectId].capsuleFingerprint.None? || i.attemptNo > Top(Intents(i.effectId, db.events)) + 1)
    case LeaseNotHeld =>
      && i.effectId in db.effects
      && var r := db.effects[i.effectId].runId;
      forall v: nat | i.expectedLeaseVersion in {None, Some(v)} :: !Honoured(db, Fence(r, i.leaseHolder, v))
    case ApprovalRequired =>
      && i.effectId in db.effects && db.effects[i.effectId].runId in db.workspaces
      && !Approvable(db, db.effects[i.effectId], i)
    case ConstraintViolation => i.approvalId.Some? && AttemptKey(i.effectId, i.attemptNo) in db.bindings
    case _ => false
  }

  lemma IntentRefusals(ops: seq<Op>, i: CasInput)
    ensures var db := Exec(EmptyDb, ops);
      CasToInFlight(db, i).result.Err? ==> IntentRefusal(db, i, CasToInFlight(db, i).result.error)
  {
    var db := Exec(EmptyDb, ops);
    hide Exec;
    hide CasToInFlight, CasRowError, CasLeaseError, CasCommand, ApprovalError, IntentRefusal, InLine, NoCallbacks, Conserved;
    IntentErr(db, i);
    RowRefusals(db, i);
    if CasRowError(db, i).None? {
      CasRowHolds(db, i);
      CapsulesAreOneToK(ops, i.effectId);
      AuthorityIsConserved(ops);
      RunsExist(ops, i.effectId);
      CommandRefusals(db, i);
      HolderRefusals(db, i);
      ApprovalRefusals(db, i);
    }
  }

  /** The error of a refused intent is the first one there is. */
  lemma IntentErr(db: Db, i: CasInput)
    ensures CasToInFlight(db, i).result.Err? ==>
      var e := CasToInFlight(db, i).result.error;
      || CasRowError(db, i) == Some(e)
      || (CasRowError(db, i).None?
          && (CasCommand(db, i) == Err(e) || CasLeaseError(db, i) == Some(e)
              || ApprovalError(db, db.effects[i.effectId], i) == Some(e)))
  {
    hide CasRowError, CasCommand, CasLeaseError, ApprovalError, CasPost, LeaseVersionFor;
  }

  lemma RowRefusals(db: Db, i: CasInput)
    ensures CasRowError(db, i).Some? ==> IntentRefusal(db, i, CasRowError(db, i).value)
  {
    hide Approvable, Honoured;
  }

  lemma CasRowHolds(db: Db, i: CasInput)
    requires CasRowError(db, i).None?
    ensures i.effectId in db.effects && (if i.retry then 1 < i.attemptNo else i.attemptNo == 1)
  {
  }

  lemma CommandRefusals(db: Db, i: CasInput)
    requires i.effectId in db.effects && (if i.retry then 1 < i.attemptNo else i.attemptNo == 1)
    requires var e := i.effectId;
      if db.effects[e].capsuleFingerprint.Some? then
        Top(Intents(e, db.events)) >= 0 && InLine(e, db.effects[e], db.capsules, Top(Intents(e, db.events)))
      else NoCallbacks(e, db.capsules)
    ensures CasCommand(db, i).Err? ==> IntentRefusal(db, i, CasCommand(db, i).error)
  {
    hide Approvable, Honoured;
  }

  lemma HolderRefusals(db: Db, i: CasInput)
    requires i.effectId in db.effects
    ensures CasLeaseError(db, i).Some? ==> IntentRefusal(db, i, CasLeaseError(db, i).value)
  {
    hide Approvable;
  }

  lemma ApprovalRefusals(db: Db, i: CasInput)
    requires i.effectId in db.effects && db.effects[i.effectId].runId in db.workspaces
    requires Conserved(db.approvals, db.bindings, db.consumptions)
    ensures var e := ApprovalError(db, db.effects[i.effectId], i); e.Some? ==> IntentRefusal(db, i, e.value)
  {
    ApprovableIff(db, i);
    ApprovalErrors(db, i);
    hide ApprovalError, Approvable, Honoured, Conserved;
  }

  lemma ApprovalErrors(db: Db, i: CasInput)
    requires i.effectId in db.effects && Conserved(db.approvals, db.bindings, db.consumptions)
    ensures var e := ApprovalError(db, db.effects[i.effectId], i);
      || e == None || e == Some(ApprovalRequired)
      || (e == Some(ConstraintViolation) && i.approvalId.Some? && AttemptKey(i.effectId, i.attemptNo) in db.bindings)
  {
    hide ApprovalCovers, RequiresApproval, Counted, OwnApproval;
  }

  /* ---------- receipts, unknown outcomes, cancellations ---------- */

  /** A result is sealed for an attempt only together with its receipt. */
  ghost predicate ResultsReported(receipts: map<Id, Receipt>, capsules: map<CapsuleKey, Capsule>) {
    forall e: Id, n: int :: ResultKey(e, n) in capsules ==> ReceiptExists(receipts, e, n)
  }

  lemma StillReported(x: map<Id, Receipt>, y: map<Id, Receipt>, a: map<CapsuleKey, Capsule>, b: map<CapsuleKey, Capsule>)
    requires ResultsReported(x, a) && SubMap(x, y)
    requires forall e: Id, n: int :: ResultKey(e, n) in b ==> ResultKey(e, n) in a || ReceiptExists(y, e, n)
    ensures ResultsReported(y, b)
  {
    forall e: Id, n: int | ResultKey(e, n) in b ensures ReceiptExists(y, e, n) {
      if ResultKey(e, n) in a {
        assert ReceiptExists(x, e, n);
      }
    }
  }

  lemma PrepareSealsNoResult(db: Db, i: PrepareInput, e: Id, n: int)
    ensures ResultKey(e, n) in PreparePost(db, i).capsules ==> ResultKey(e, n) in db.capsules
  {
    hide Existing, NewEffect, NewCallbackCapsule, BindApproval, RunHook, AppendEdge;
    if Existing(db, i).Some? {
    } else {
    }
  }

  lemma CasSealsNoResult(db: Db, i: CasInput, e: Id, n: int)
    requires CasGuard(db, i)
    ensures i.effectId in db.effects && (i.approvalId.Some? ==> i.approvalId.value in db.approvals)
    ensures ResultKey(e, n) in CasPost(db, i).capsules ==> ResultKey(e, n) in db.capsules
  {
    CasAdmits(db, i);
    CasTables(db, i);
    hide CasGuard, CasPost;
  }

  lemma OthersSealNoResult(db: Db, op: LedgerOp, e: Id, n: int)
    requires LedgerOpEnabled(db, op) && !op.ReceiptOp?
    ensures ResultKey(e, n) in LedgerOpDone(db, op).capsules ==> ResultKey(e, n) in db.capsules
  {
    hide PlanError, TransitionError, PrepareError, CasGuard, ReceiptError, UnknownError, CancelError, CommitGuard;
    hide LateCommitGuard, FinalizeError;
    match op
    case PlanOp(i) => hide PlanPost;
    case TransitionOp(x, _, _, _) => hide TransitionPost;
    case PrepareOp(i) => PrepareSealsNoResult(db, i, e, n); hide PreparePost;
    case CasOp(i) => CasSealsNoResult(db, i, e, n); hide CasPost;
    case UnknownOp(i) => hide UnknownPost;
    case CancelOp(x, _) => hide CancelPost;
    case CommitOp(i) => hide CommitPost;
    case LateCommitOp(i) => hide CommitPost;
    case FinalizeOp(i, _) => hide FinalizePost;
  }

  lemma ReceiptSealsOwn(db: Db, i: ReceiptInput, e: Id, n: int)
    requires ReceiptError(db, i).None?
    ensures i.effectId in db.effects
    ensures var b := ReceiptPost(db, i);
      ResultKey(e, n) in b.capsules ==> ResultKey(e, n) in db.capsules || ReceiptExists(b.receipts, e, n)
  {
    assert ReceiptPost(db, i).receipts[i.newReceiptId] == NewReceipt(i);
  }

  lemma DoneReports(db: Db, op: LedgerOp)
    requires LedgerOpEnabled(db, op)
    ensures var b := LedgerOpDone(db, op);
      forall e: Id, n: int ::
        ResultKey(e, n) in b.capsules ==> ResultKey(e, n) in db.capsules || ReceiptExists(b.receipts, e, n)
  {
    forall e: Id, n: int | ResultKey(e, n) in LedgerOpDone(db, op).capsules
      ensures ResultKey(e, n) in db.capsules || ReceiptExists(LedgerOpDone(db, op).receipts, e, n)
    {
      if op.ReceiptOp? {
        ReceiptSealsOwn(db, op.receipt, e, n);
      } else {
        OthersSealNoResult(db, op, e, n);
      }
      hide LedgerOpEnabled, ReceiptExists, ReceiptPost, ReceiptError;
    }
  }

  lemma ReceiptsStand(a: Db, b: Db)
    requires Evolves(a, b)
    ensures SubMap(a.receipts, b.receipts)
  {
    hide FramesEvolve, ApprovalsEvolve, LeasesEvolve, RepairsEvolve;
  }

  lemma StepKeepsReported(db: Db, op: Op)
    requires ResultsReported(db.receipts, db.capsules)
    ensures ResultsReported(Apply(db, op).receipts, Apply(db, op).capsules)
  {
    hide ApplyEnv, ApplyFrame, ApplyAuthority, ApplyLedger, ApplyRepair, ApplyIndex;
    hide ResultsReported, LedgerOpEnabled, LedgerOpDone;
    StepEvolves(db, op);
    ReceiptsStand(db, Apply(db, op));
    if !op.Ledger? {
      OthersKeepLedger(db, op);
    } else {
      LedgerOpsAreAtomic(db, op.ledger);
      if LedgerOpEnabled(db, op.ledger) {
        DoneReports(db, op.ledger);
        StillReported(db.receipts, Apply(db, op).receipts, db.capsules, Apply(db, op).capsules);
      }
    }
  }

  lemma {:induction false} ReachableReported(ops: seq<Op>)
    ensures ResultsReported(Exec(EmptyDb, ops).receipts, Exec(EmptyDb, ops).capsules)
    decreases |ops|
  {
    hide Apply;
    if ops != [] {
      ReachableReported(ops[..|ops| - 1]);
      StepKeepsReported(Exec(EmptyDb, ops[..|ops| - 1]), ops[|ops| - 1]);
      hide ResultsReported;
    }
  }

  predicate HasAnswer(db: Db, e: Id, n: int) {
    exists r :: r in db.receipts && db.receipts[r].effectId == e && db.receipts[r].attemptNo == n
  }

  predicate ReceiptRefusal(db: Db, i: ReceiptInput, e: Error) {
    match e
    case EffectOutcomeUnknown => i.status == OutcomeNotKnown
    case EffectInvalidTransition => i.status == NotApplied || !InState(db, i.effectId, InFlight)
    case EffectNotFound => i.effectId !in db.effects
    case InvalidArgument => i.attemptNo <= 0
    case CapsuleInvalid => HasAnswer(db, i.effectId, i.attemptNo)
    case ReceiptDuplicate => i.newReceiptId in db.receipts || HasAnswer(db, i.effectId, i.attemptNo)
    case _ => false
  }

  /** A receipt is accepted exactly if it reports an application, for an effect in flight
      and an attempt that has no receipt yet. */
  lemma ReceiptAnswers(ops: seq<Op>, i: ReceiptInput)
    ensures var db, r := Exec(EmptyDb, ops), RecordReceipt(Exec(EmptyDb, ops), i).result;
      && (r.Ok? <==>
            && i.status == Applied && InState(db, i.effectId, InFlight) && i.attemptNo > 0
            && i.newReceiptId !in db.receipts && !HasAnswer(db, i.effectId, i.attemptNo))
      && (r.Ok? ==> r.value == i.newReceiptId)
      && (r.Err? ==> ReceiptRefusal(db, i, r.error))
  {
    ReachableReported(ops);
    hide Exec, ReceiptPost;
    var db := Exec(EmptyDb, ops);
    assert ResultKey(i.effectId, i.attemptNo) in db.capsules ==> ReceiptExists(db.receipts, i.effectId, i.attemptNo);
    assert ReceiptExists(db.receipts, i.effectId, i.attemptNo) <==> HasAnswer(db, i.effectId, i.attemptNo);
    hide ResultsReported, ReceiptExists, HasAnswer;
  }

  lemma UnknownAnswers(db: Db, i: UnknownInput)
    ensures var r := RecordUnknownOutcome(db, i).result;
      && (r.Ok? <==> InState(db, i.effectId, InFlight) && i.attemptNo > 0)
      && (r.Ok? ==> r.value == Unknown)
      && (r.Err? ==> match r.error
            case EffectNotFound => i.effectId !in db.effects
            case EffectInvalidTransition => i.effectId in db.effects && db.effects[i.effectId].state != InFlight
            case InvalidArgument => i.attemptNo <= 0
            case _ => false)
  {
    hide UnknownPost;
  }

  lemma CancelAnswers(db: Db, e: Id, revision: nat)
    ensures var r := CancelBeforeSend(db, e, revision).result;
      && (r.Ok? <==> InState(db, e, Planned) && AtRevision(db, e, revision))
      && (r.Ok? ==> r.value == CancelledBeforeSend)
      && (r.Err? ==> match r.error
            case EffectNotFound => e !in db.effects
            case EffectInvalidTransition => e in db.effects && db.effects[e].state != Planned
            case RevisionConflict => e in db.effects && db.effects[e].revision != revision
            case _ => false)
  {
    hide CancelPost;
  }

  /* ---------- commits and verdicts ---------- */

  predicate HasReceipt(db: Db, e: Id, r: Id, n: int) {
    e in db.effects && db.effects[e].receiptId == Some(r) && r in db.receipts && db.receipts[r].attemptNo == n
  }

  predicate Expired(db: Db, key: CapsuleKey) { key in db.capsules && db.capsules[key].expiresAt <= db.clock }

  predicate CommitRefusal(db: Db, i: CommitInput, e: Error) {
    match e
    case EffectNotFound => i.effectId !in db.effects
    case EffectInvalidTransition => i.effectId in db.tools || !InState(db, i.effectId, Received)
    case RevisionConflict => i.effectId in db.effects && db.effects[i.effectId].revision != i.expectedRevision
    case LeaseNotHeld =>
      i.effectId in db.effects && !Honoured(db, Fence(db.effects[i.effectId].runId, i.leaseHolder, i.expectedLeaseVersion))
    case ReceiptNotFound => !HasReceipt(db, i.effectId, i.receiptId, i.attemptNo)
    case CapsuleExpired => Expired(db, ResultKey(i.effectId, i.attemptNo))
    case ConstraintViolation => i.newFindingId in db.findings
    case _ => false
  }

  /** A refused commit says why: never because of a receipt or a result that the protocol
      wrote. It is logged as a capsule failure exactly if the result has expired. */
  lemma CommitRefusals(ops: seq<Op>, i: CommitInput)
    requires ProtocolRun(ops)
    ensures var db, step := Exec(EmptyDb, ops), CommitToTerminal(Exec(EmptyDb, ops), i);
      && (step.result.Err? ==> CommitRefusal(db, i, step.result.error))
      && step.db.failures ==
           if step.result == Err(CapsuleExpired) then db.failures + [CapsuleFailure(i.effectId, i.attemptNo)]
           else db.failures
  {
    var db := Exec(EmptyDb, ops);
    AnsweredEffectsAreBacked(ops);
    hide Exec, CommitToTerminal, CommitRefusal, CommitRowError, OpenAuthoritativeResult, LogsCapsuleFailure;
    hide Backed, Authentic;
    CommitRowRefusals(db, i);
    if CommitRowError(db, i).None? {
      CommitRowHolds(db, i);
      RowFacts(db, i.effectId);
      ResultRefusals(db, i, db.effects[i.effectId].receiptId.value);
    }
    CommitErr(db, i);
  }

  lemma CommitRowRefusals(db: Db, i: CommitInput)
    ensures CommitRowError(db, i).Some? ==>
      CommitRefusal(db, i, CommitRowError(db, i).value) && CommitRowError(db, i) != Some(CapsuleExpired)
  {
  }

  lemma CommitRowHolds(db: Db, i: CommitInput)
    requires CommitRowError(db, i).None?
    ensures i.effectId in db.effects && db.effects[i.effectId].state == Received
  {
  }

  /** A result that does not open is refused with the truth, and logged if it has expired. */
  predicate RefusesResult(db: Db, i: CommitInput)
    requires i.effectId in db.effects
  {
    var e := db.effects[i.effectId];
    var body := OpenAuthoritativeResult(db, i.effectId, e, i.receiptId, i.attemptNo);
    body.Err? ==>
      && CommitRefusal(db, i, body.error)
      && (LogsCapsuleFailure(db, i.effectId, e, i.receiptId, i.attemptNo) <==> body.error == CapsuleExpired)
  }

  lemma ResultRefusals(db: Db, i: CommitInput, r: Id)
    requires i.effectId in db.effects && db.effects[i.effectId].receiptId == Some(r)
    requires Authentic(i.effectId, db.effects[i.effectId].runId, r, db.receipts, db.capsules, db.workspaces)
    ensures RefusesResult(db, i)
  {
    hide Honoured, ReceiptHashOf;
  }

  lemma CommitErr(db: Db, i: CommitInput)
    requires CommitRowError(db, i).Some? ==>
      CommitRefusal(db, i, CommitRowError(db, i).value) && CommitRowError(db, i) != Some(CapsuleExpired)
    requires CommitRowError(db, i).None? ==> i.effectId in db.effects && RefusesResult(db, i)
    ensures var step := CommitToTerminal(db, i);
      && (step.result.Err? ==> CommitRefusal(db, i, step.result.error))
      && step.db.failures ==
           if step.result == Err(CapsuleExpired) then db.failures + [CapsuleFailure(i.effectId, i.attemptNo)]
           else db.failures
  {
    hide CommitRowError, OpenAuthoritativeResult, LogsCapsuleFailure, AppendEdge;
  }

  predicate OwnsReceipt(db: Db, e: Id) {
    e in db.effects && db.effects[e].receiptId.Some? && db.effects[e].receiptId.value in db.receipts
  }

  function ReceiptOf(db: Db, e: Id): Receipt
    requires OwnsReceipt(db, e)
  {
    db.receipts[db.effects[e].receiptId.value]
  }

  predicate VerdictRefusal(db: Db, i: FinalizeInput, t: nat, e: Error) {
    match e
    case InvalidArgument => i.leaseVersion == 0
    case EffectNotFound => i.effectId !in db.effects
    case LeaseNotHeld =>
      i.effectId in db.effects && !HonouredAt(db, Fence(db.effects[i.effectId].runId, i.leaseHolder, i.leaseVersion), t)
    case EffectInvalidTransition => i.effectId in db.effects && db.effects[i.effectId].state != Received
    case ReceiptNotFound =>
      OwnsReceipt(db, i.effectId) && ReceiptOf(db, i.effectId).providerStatus !in {Some("ok"), Some("applied")}
    case CapsuleExpired =>
      OwnsReceipt(db, i.effectId) && Expired(db, ResultKey(i.effectId, ReceiptOf(db, i.effectId).attemptNo))
    case CapsuleInvalid => OwnsReceipt(db, i.effectId) && ReceiptOf(db, i.effectId).capsuleHash != Some(i.reviewerDigest)
    case ConstraintViolation => i.newFindingId in db.findings || i.newDecisionId in db.decisions
    case HookFailed => i.hookThrows
    case _ => false
  }

  /** A refused verdict says why; a capsule error means an expired result or another digest
      than the sealed one's. */
  lemma VerdictRefusals(ops: seq<Op>, i: FinalizeInput, t: nat)
    requires ProtocolRun(ops)
    ensures var db, r := Exec(EmptyDb, ops), FinalizeAt(Exec(EmptyDb, ops), i, t).result;
      r.Err? ==> VerdictRefusal(db, i, t, r.error)
  {
    var db := Exec(EmptyDb, ops);
    AnsweredEffectsAreBacked(ops);
    hide Exec, FinalizeAt, FinalizeError, VerdictRefusal, Backed;
    if FinalizeError(db, i, t).Some? {
      FinalizeRefused(db, i, t);
      VerdictErr(db, i, t);
    } else {
      FinalizeAccepted(db, i, t);
    }
  }

  lemma VerdictErr(db: Db, i: FinalizeInput, t: nat)
    requires Backed(db) && FinalizeError(db, i, t).Some?
    ensures VerdictRefusal(db, i, t, FinalizeError(db, i, t).value)
  {
    hide FinalizeError, VerdictRefusal, Backed, Authentic;
    if i.effectId in db.effects {
      RowFacts(db, i.effectId);
      if db.effects[i.effectId].state == Received {
        PayloadErr(db, i, t, db.effects[i.effectId].receiptId.value);
        ReceivedErr(db, i, t);
      } else {
        OtherErr(db, i, t);
      }
    } else {
      OtherErr(db, i, t);
    }
  }

  lemma OtherErr(db: Db, i: FinalizeInput, t: nat)
    requires i.effectId in db.effects ==> db.effects[i.effectId].runId in db.workspaces
    requires i.effectId in db.effects ==>
      db.effects[i.effectId].state != Received && db.effects[i.effectId].state != AwaitingCallbackVerification
    requires FinalizeError(db, i, t).Some?
    ensures VerdictRefusal(db, i, t, FinalizeError(db, i, t).value)
  {
    hide AuthoritativePayload, ActiveLease;
  }

  /** A sealed result that does not open, or is not the reviewed one, is refused with the truth. */
  predicate RefusesPayload(db: Db, i: FinalizeInput, t: nat)
    requires i.effectId in db.effects
  {
    var body := AuthoritativePayload(db, i.effectId);
    && (body.Err? ==> VerdictRefusal(db, i, t, body.error))
    && (body.Ok? && DigestOf(body.value) != i.reviewerDigest ==> VerdictRefusal(db, i, t, CapsuleInvalid))
  }

  lemma ReceivedErr(db: Db, i: FinalizeInput, t: nat)
    requires i.effectId in db.effects && db.effects[i.effectId].runId in db.workspaces
    requires db.effects[i.effectId].state == Received && RefusesPayload(db, i, t)
    requires FinalizeError(db, i, t).Some?
    ensures VerdictRefusal(db, i, t, FinalizeError(db, i, t).value)
  {
    hide AuthoritativePayload, ActiveLease, OwnsReceipt, ReceiptOf, Expired;
  }

  lemma PayloadErr(db: Db, i: FinalizeInput, t: nat, r: Id)
    requires i.effectId in db.effects && db.effects[i.effectId].receiptId == Some(r)
    requires Authentic(i.effectId, db.effects[i.effectId].runId, r, db.receipts, db.capsules, db.workspaces)
    ensures RefusesPayload(db, i, t)
  {
    hide Honoured, ReceiptHashOf;
  }

  /* ---------- planned effects and the generic transition ---------- */

  predicate HasKey(db: Db, key: Digest, e: Id) { e in db.effects && db.effects[e].keyHash == key }

  ghost predicate PlanRefusal(db: Db, i: PlanInput, e: Error) {
    match e
    case FrameNotFound => i.ownerFrameId !in db.frames
    case EffectOwnerMismatch => i.ownerFrameId in db.frames && db.frames[i.ownerFrameId].runId != i.runId
    case EffectPayloadFingerprintChanged =>
      exists x :: HasKey(db, i.keyHash, x) && db.effects[x].payloadFingerprint != i.payloadFingerprint
    case EffectIdempotencyReused => i.newEffectId in db.effects || exists x :: HasKey(db, i.keyHash, x)
    case _ => false
  }

  /** An effect is planned exactly in a frame of its run, under a key that no effect has. */
  lemma PlanAnswers(ops: seq<Op>, i: PlanInput)
    ensures var db, r := Exec(EmptyDb, ops), PlanEffect(Exec(EmptyDb, ops), i).result;
      && (r.Ok? <==>
            && i.ownerFrameId in db.frames && db.frames[i.ownerFrameId].runId == i.runId
            && i.newEffectId !in db.effects && forall x :: !HasKey(db, i.keyHash, x))
      && (r.Ok? ==> r.value == i.newEffectId)
      && (r.Err? ==> PlanRefusal(db, i, r.error))
  {
    var db := Exec(EmptyDb, ops);
    LedgerIsReplay(ops);
    hide Exec, PlanPost, StateIsReplay;
    KeyedIff(db, i.keyHash);
    hide KeysIndexed;
  }

  lemma KeyedIff(db: Db, key: Digest)
    requires KeysIndexed(db.effects, db.keyIndex)
    ensures key in db.keyIndex ==> HasKey(db, key, db.keyIndex[key])
    ensures key !in db.keyIndex ==> forall x :: !HasKey(db, key, x)
  {
  }

  lemma TransitionRefusals(db: Db, e: Id, revision: nat, s: EffectState, next: EffectState)
    ensures var r := TransitionEffect(db, e, revision, s, next).result;
      && (r.Ok? ==> r.value == e)
      && (r.Err? ==> match r.error
            case EffectNotFound => e !in db.effects
            case RevisionConflict => e in db.effects && db.effects[e].revision != revision
            case EffectInvalidTransition => !InState(db, e, s) || !L.Follows(next, s)
            case ConstraintViolation => next == AwaitingCallbackVerification
            case _ => false)
  {
    hide TransitionPost;
  }

  /* ---------- frames ---------- */

  predicate RootOf(db: Db, run: Id, f: Id) { f in db.frames && db.frames[f].runId == run && db.frames[f].parent == None }

  /** A run has at most one root; a child needs a parent of its run. */
  lemma FrameAnswers(db: Db, run: Id, parent: Id, f: Id)
    ensures var r := CreateRootFrame(db, run, f).result;
      r == (if run in db.workspaces && f !in db.frames && (forall x :: !RootOf(db, run, x)) then Ok(f)
            else Err(ConstraintViolation))
    ensures var r := CreateChildFrame(db, run, parent, f).result;
      && (r.Ok? <==> parent in db.frames && db.frames[parent].runId == run && f !in db.frames)
      && (r.Ok? ==> r.value == f)
      && (r.Err? ==> match r.error
            case FrameNotFound => parent !in db.frames
            case EffectOwnerMismatch => parent in db.frames && db.frames[parent].runId != run
            case ConstraintViolation => f in db.frames
            case _ => false)
  {
    assert forall x :: RootOf(db, run, x) <==> x in db.frames && db.frames[x].runId == run && db.frames[x].parent == None;
    hide RootPost, ChildPost, RootOf;
  }

  lemma MoveRefusals(db: Db, f: Id, expected: Option<FrameStatus>, next: FrameStatus)
    ensures var r := TransitionFrame(db, f, expected, next).result;
      && (r.Ok? ==> r.value == f)
      && (r.Err? ==> match r.error
            case FrameNotFound => f !in db.frames
            case RevisionConflict => f in db.frames && expected !in {None, Some(db.frames[f].status)}
            case FrameInvalidTransition =>
              && f in db.frames
              && var s := db.frames[f].status;
              L.Over(s) || next == s || next == FPending || (s == FPending && next == FCompleted)
            case _ => false)
  {
    hide FramePost;
  }

  /* ---------- leases and approvals ---------- */

  lemma LeaseRefusals(db: Db, r: Id, h: Id, v: nat, ttlMs: int)
    ensures var a := AcquireLease(db, r, h, ttlMs).result;
      a.Err? ==> match a.error
        case LeaseVersionConflict => Live(db, r) && db.leases[r].holderId != h
        case ConstraintViolation => r !in db.workspaces
        case _ => false
    ensures var a := RenewLease(db, r, h, v, ttlMs).result;
      a.Err? ==> match a.error
        case LeaseNotHeld => r in db.leases ==> db.leases[r].holderId != h || db.leases[r].released
        case LeaseVersionConflict => r in db.leases && db.leases[r].version != v
        case LeaseTakenOver => r in db.leases && db.leases[r].expiresAt <= db.clock
        case _ => false
  {
    hide AcquiredLease, RenewedLease, WriteLease;
  }

  lemma ApprovalAnswers(db: Db, a: Id, row: Approval, yes: bool)
    ensures var r := RequestApproval(db, a, row).result;
      && (r.Ok? <==>
            && a !in db.approvals && row.decision == Pending && row.usesConsumed == 0 && row.revision == 1
            && (row.effectRevision.Some? ==> row.effectId.Some?))
      && (r.Ok? ==> r.value == a)
      && (r.Err? ==> r.error == if a in db.approvals then ConstraintViolation else InvalidArgument)
    ensures var r := DecideApproval(db, a, yes).result;
      && (r.Ok? ==> r.value == if yes then Approved else Denied)
      && (r.Err? ==> r.error == if a in db.approvals then InvalidArgument else SecretAccessDenied)
    ensures var r := RevokeApproval(db, a).result;
      && (r.Ok? <==> a in db.approvals && db.approvals[a].decision == Approved)
      && (r.Ok? ==> r.value == Revoked)
      && (r.Err? ==> r.error == if a in db.approvals then InvalidArgument else PermissionDenied)
  {
    hide WriteApproval, DecidePost, RevokePost;
  }

  /* ---------- repairs ---------- */

  predicate OutsideWithoutApproval(db: Db, q: R.Request, s: RepairStep) {
    && s.effectId in db.effects && !RS.Inside(db.frames, db.effects[s.effectId].ownerFrameId, q.targetFrameId)
    && s.effectId !in q.crossFrame
  }

  predicate DependsOnLater(db: Db, q: R.Request, k: nat, d: Id)
    requires k < |q.plan|
  {
    d in R.Dependencies(db, q.plan[k].effectId) && !RS.Before(q, d, k) && RS.Before(q, d, |q.plan|)
  }

  /** What a refused plan is told: which kind of step or order it contains. */
  ghost predicate PlanFault(db: Db, q: R.Request, e: Error) {
    match e
    case FrameNotFound => q.targetFrameId !in db.frames
    case RepairSubtreeRevisionDrift =>
      q.targetFrameId in db.frames && db.frames[q.targetFrameId].subtreeRevision != q.subtreeRevision
    case EffectNotFound => exists k :: 0 <= k < |q.plan| && q.plan[k].effectId !in db.effects
    case EffectOwnerMismatch =>
      exists k :: 0 <= k < |q.plan| && q.plan[k].effectId in db.effects && db.effects[q.plan[k].effectId].runId != q.runId
    case RepairSiblingOverreach => exists k :: 0 <= k < |q.plan| && OutsideWithoutApproval(db, q, q.plan[k])
    case RepairDependencyReversed => exists k, d :: 0 <= k < |q.plan| && DependsOnLater(db, q, k, d)
    case RepairInvalid => !RS.PlanAdmitted(db, q)
    case _ => false
  }

  lemma {:induction false} StepFault(db: Db, q: R.Request, k: nat) returns (j: nat)
    requires k <= |q.plan| && R.FirstStepError(db, q, k).Some?
    ensures j < |q.plan| && R.StepError(db, q, j) == R.FirstStepError(db, q, k)
    decreases |q.plan| - k
  {
    hide R.StepError;
    if R.StepError(db, q, k).Some? {
      j := k;
    } else {
      j := StepFault(db, q, k + 1);
    }
  }

  lemma {:induction false} OrderFault(db: Db, q: R.Request, k: nat) returns (j: nat, d: Id)
    requires k <= |q.plan| && R.FirstOrderError(db, q, k).Some?
    ensures j < |q.plan| && d in R.Dependencies(db, q.plan[j].effectId)
    ensures R.DependencyError(q, j, d) == R.FirstOrderError(db, q, k)
    decreases |q.plan| - k
  {
    hide R.DependencyError, R.FirstDependencyError, R.Dependencies;
    var deps := R.Dependencies(db, q.plan[k].effectId);
    if R.FirstDependencyError(q, k, deps).Some? {
      j := k;
      d := ListFault(q, k, deps);
    } else {
      j, d := OrderFault(db, q, k + 1);
    }
  }

  lemma {:induction false} ListFault(q: R.Request, k: nat, deps: seq<Id>) returns (d: Id)
    requires k < |q.plan| && R.FirstDependencyError(q, k, deps).Some?
    ensures d in deps && R.DependencyError(q, k, d) == R.FirstDependencyError(q, k, deps)
  {
    hide R.DependencyError;
    if R.DependencyError(q, k, deps[0]).Some? {
      d := deps[0];
    } else {
      d := ListFault(q, k, deps[1..]);
    }
  }

  lemma StepFaultIsTrue(db: Db, q: R.Request, k: nat)
    requires k < |q.plan| && R.StepError(db, q, k).Some? && !RS.PlanAdmitted(db, q)
    ensures PlanFault(db, q, R.StepError(db, q, k).value)
  {
    hide R.CrossFrameApproved, R.ActionAllowedInState, RS.PlanAdmitted;
    assert R.StepError(db, q, k) == Some(RepairSiblingOverreach) ==> OutsideWithoutApproval(db, q, q.plan[k]);
    hide OutsideWithoutApproval, DependsOnLater, R.InSubtree, R.CrossFrameError;
  }

  lemma OrderFaultIsTrue(db: Db, q: R.Request, k: nat, d: Id)
    requires k < |q.plan| && d in R.Dependencies(db, q.plan[k].effectId) && R.DependencyError(q, k, d).Some?
    requires !RS.PlanAdmitted(db, q)
    ensures PlanFault(db, q, R.DependencyError(q, k, d).value)
  {
    hide R.Dependencies, RS.PlanAdmitted;
    assert R.DependencyError(q, k, d) == Some(RepairDependencyReversed) ==> DependsOnLater(db, q, k, d);
    hide OutsideWithoutApproval, DependsOnLater;
  }

  /** A refused repair plan is refused for something it contains. */
  lemma PlanRefusals(db: Db, q: R.Request)
    ensures R.RepairError(db, q).Some? ==> PlanFault(db, q, R.RepairError(db, q).value)
  {
    RS.RepairVerifiedIff(db, q);
    hide RS.PlanAdmitted, R.FirstStepError, R.FirstOrderError, R.StepError, R.DependencyError;
    if R.RepairError(db, q).Some? && q.targetFrameId in db.frames
      && db.frames[q.targetFrameId].subtreeRevision == q.subtreeRevision
    {
      if R.FirstStepError(db, q, 0).Some? {
        var k := StepFault(db, q, 0);
        StepFaultIsTrue(db, q, k);
      } else {
        var k, d := OrderFault(db, q, 0);
        OrderFaultIsTrue(db, q, k, d);
      }
      hide PlanFault;
    }
  }

  /** And so are its creation and its commit. */
  lemma CreationRefusals(db: Db, q: R.Request, newId: Id)
    ensures var r := R.CreateRepair(db, q, newId).result;
      r.Err? ==>
        || (r.error == InvalidArgument && q.targetFrameId in db.frames && db.frames[q.targetFrameId].runId != q.runId)
        || (r.error == ConstraintViolation && newId in db.repairs)
        || PlanFault(db, q, r.error)
  {
    PlanRefusals(db, q);
    FrameFault(db, q);
    hide PlanFault, R.RepairError, R.CreatePost;
  }

  lemma FrameFault(db: Db, q: R.Request)
    ensures q.targetFrameId !in db.frames ==> PlanFault(db, q, FrameNotFound)
  {
  }

  predicate StatusFault(row: Repair, next: RepairStatus) {
    L.Settled(row.status) || next == Open || next == row.status || (next == CommittedRepair && row.status == Open)
  }

  lemma StatusRefusals(db: Db, i: R.StatusInput)
    ensures var r := R.SetRepairStatus(db, i).result;
      r.Err? ==>
        if i.repairId !in db.repairs then r.error == RepairNotFound
        else
          var row := db.repairs[i.repairId];
          || (r.error == RepairInvalid && StatusFault(row, i.next))
          || (&& i.next == CommittedRepair
              && (|| PlanFault(db, R.StoredRequest(row, i.evidence), r.error)
                  || (r.error == LeaseNotHeld
                      && (i.authority.Some? ==>
                            !Honoured(db, Fence(row.runId, i.authority.value.holderId, i.authority.value.leaseVersion))))))
  {
    if i.repairId in db.repairs {
      PlanRefusals(db, R.StoredRequest(db.repairs[i.repairId], i.evidence));
    }
    hide PlanFault, R.RepairError, R.StatusPost, R.StoredRequest;
  }
}
