// Every protocol method reads rows first and opens its transaction later; other
// callers may run in between. Here each method is cut at that point: `before` is the
// database its pre-read saw, `at` the database its transaction runs on, and what the
// pre-read saw is carried over as it was captured.

module SplitStep {
  import opened Tables
  import opened CapsuleStore
  import opened EffectProtocol
  import opened DurableRuntime
  import opened IngressReview
  import R = RepairPlans
  import opened Kernel
  import opened Evolution

  /* ---------- callback intent ---------- */

  /** What casToInFlight carries from its pre-read into its transaction. */
  datatype CasCapture = CasCapture(effect: Effect, sourceAttempt: int, source: Capsule, leaseVersion: nat)

  /** The pre-read looks at the lease's holder and expiry, not yet at its version. */
  predicate PreLeaseHeld(before: Db, runId: Id, holderId: Id) {
    HoldsLeaseRow(before, runId, holderId) && LeaseHeld(before, runId)
  }

  function CasPre(before: Db, i: CasInput): Result<CasCapture> {
    if CasRowError(before, i).Some? then Err(CasRowError(before, i).value)
    else if CasCommand(before, i).Err? then Err(CasCommand(before, i).error)
    else if !PreLeaseHeld(before, before.effects[i.effectId].runId, i.leaseHolder) then Err(LeaseNotHeld)
    else
      var e, n := before.effects[i.effectId], SourceAttempt(before, i).value;
      Ok(CasCapture(e, n, before.capsules[CallbackKey(i.effectId, n)], LeaseVersionFor(before, i, e.runId)))
  }

  /** The attempt's own capsule is sealed again from the captured plaintext. */
  function Resealed(at: Db, i: CasInput, c: CasCapture): map<CapsuleKey, Capsule> {
    if c.sourceAttempt == i.attemptNo then at.capsules
    else at.capsules[CallbackKey(i.effectId, i.attemptNo) := c.source]
  }

  function CasWrites(at: Db, i: CasInput, c: CasCapture): Db
    requires i.effectId in at.effects && (i.approvalId.Some? ==> i.approvalId.value in at.approvals)
  {
    var called := at.(effects := at.effects[i.effectId := CasEffect(at.effects[i.effectId], i)],
                      capsules := Resealed(at, i, c),
                      events := Log(at, c.effect.runId, CallbackIntent(i.effectId, i.attemptNo, i.approvalId)));
    if i.approvalId.None? then called else ConsumePost(called, i, i.approvalId.value, c.effect.runId)
  }

  function Called(at: Db, i: CasInput): map<Id, Effect> {
    if i.effectId in at.effects then at.effects[i.effectId := CasEffect(at.effects[i.effectId], i)] else at.effects
  }

  /** Taking a use and moving the effect are independent. */
  lemma ConsumeLeavesEffects(db: Db, i: CasInput, a: Id, runId: Id, effects: map<Id, Effect>)
    requires a in db.approvals
    ensures ConsumePost(db, i, a, runId).effects == db.effects
    ensures ConsumePost(db, i, a, runId).(effects := effects) == ConsumePost(db.(effects := effects), i, a, runId)
  {
    hide ConsumeOne, AppendEdge;
  }

  function CasTxn(at: Db, i: CasInput, c: CasCapture): Step<CasOutput> {
    var command := OpenVerifiedCallback(Resealed(at, i, c), i.effectId, i.attemptNo, ExpectedFingerprint(c.effect), at.clock);
    if c.sourceAttempt != i.attemptNo && CallbackKey(i.effectId, i.attemptNo) in at.capsules then Fail(at, CapsuleInvalid)
    else if command.Err? then Fail(at, command.error)
    else if !ActiveLease(at, c.effect.runId, i.leaseHolder, c.leaseVersion, at.clock) then Fail(at, LeaseNotHeld)
    else if ApprovalError(at, c.effect, i).Some? then Fail(at, ApprovalError(at, c.effect, i).value)
    else if i.effectId !in at.effects || at.effects[i.effectId].revision != i.expectedRevision
      || at.effects[i.effectId].state != ExpectedState(i) then Fail(at, RevisionConflict)
    else Step(Ok(CasOutput(i.effectId, i.attemptNo, at.effects[i.effectId].revision + 1, c.leaseVersion, command.value)),
              CasWrites(at, i, c))
  }

  /** The captured row is the row of the transaction when the revision CAS succeeds. */
  lemma CasCaptureIsCurrent(before: Db, at: Db, i: CasInput)
    requires Evolves(before, at) && CasPre(before, i).Ok? && CasTxn(at, i, CasPre(before, i).value).result.Ok?
    ensures i.effectId in at.effects && at.effects[i.effectId] == CasPre(before, i).value.effect
    ensures var c := CasPre(before, i).value;
      CallbackKey(i.effectId, c.sourceAttempt) in at.capsules
      && at.capsules[CallbackKey(i.effectId, c.sourceAttempt)] == c.source
  {
    hide ApprovalError, OpenVerifiedCallback, CasWrites, RuntimeEvolves;
  }

  /** Split atomicity of the callback intent: a transaction that fails leaves the
      database alone, and one that succeeds is the atomic method on the database of
      the transaction, under the lease version that the pre-read captured. */
  lemma CasSplitIsAtomic(before: Db, at: Db, i: CasInput)
    requires Evolves(before, at) && CasPre(before, i).Ok?
    ensures var c := CasPre(before, i).value;
      var split, whole := CasTxn(at, i, c), CasToInFlight(at, i.(expectedLeaseVersion := Some(c.leaseVersion)));
      && (split.result.Err? ==> split.db == at)
      && (split.result.Ok? ==> split == whole)
  {
    var c := CasPre(before, i).value;
    if CasTxn(at, i, c).result.Ok? {
      CasCaptureIsCurrent(before, at, i);
      hide Evolves;
      CasTxnIsWhole(at, i, c);
    }
  }

  /** A refused pre-read is a refusal of the atomic method on the same database. */
  lemma CasPreRefusesWhole(before: Db, i: CasInput)
    requires CasPre(before, i).Err?
    ensures CasToInFlight(before, i).result.Err? && CasToInFlight(before, i).result.error == CasPre(before, i).error
  {
    hide ApprovalError, CasPost;
  }

  lemma CasTxnIsWhole(at: Db, i: CasInput, c: CasCapture)
    requires CasTxn(at, i, c).result.Ok?
    requires i.effectId in at.effects && at.effects[i.effectId] == c.effect
    requires CallbackKey(i.effectId, c.sourceAttempt) in at.capsules
      && at.capsules[CallbackKey(i.effectId, c.sourceAttempt)] == c.source
    requires c.sourceAttempt == i.attemptNo || (i.retry && c.sourceAttempt == i.attemptNo - 1)
    requires if i.retry then 1 < i.attemptNo else i.attemptNo == 1
    ensures CasTxn(at, i, c) == CasToInFlight(at, i.(expectedLeaseVersion := Some(c.leaseVersion)))
  {
    var j := i.(expectedLeaseVersion := Some(c.leaseVersion));
    SameApprovalError(at, c.effect, i, j);
    TxnIsGuarded(at, i, c);
    SameWrites(at, i, c);
    hide ActiveLease, ApprovalError, CasWrites, CasPost, OpenVerifiedCallback;
  }

  lemma SameApprovalError(db: Db, e: Effect, i: CasInput, j: CasInput)
    requires j == i.(expectedLeaseVersion := j.expectedLeaseVersion)
    ensures ApprovalError(db, e, j) == ApprovalError(db, e, i)
  {
    hide ApprovalCovers, RequiresApproval;
  }

  lemma TxnIsGuarded(at: Db, i: CasInput, c: CasCapture)
    requires CasTxn(at, i, c).result.Ok?
    ensures i.approvalId.Some? ==> i.approvalId.value in at.approvals
  {
    hide ActiveLease, CasWrites, OpenVerifiedCallback;
  }

  /** The transaction writes the captured source under the attempt, as the method does. */
  lemma SameWrites(at: Db, i: CasInput, c: CasCapture)
    requires i.effectId in at.effects && at.effects[i.effectId] == c.effect
    requires i.approvalId.Some? ==> i.approvalId.value in at.approvals
    requires CallbackKey(i.effectId, c.sourceAttempt) in at.capsules
      && at.capsules[CallbackKey(i.effectId, c.sourceAttempt)] == c.source
    requires c.sourceAttempt == i.attemptNo
      || (c.sourceAttempt == i.attemptNo - 1 && CallbackKey(i.effectId, i.attemptNo) !in at.capsules)
    ensures CasWrites(at, i, c) == CasPost(at, i.(expectedLeaseVersion := Some(c.leaseVersion)))
  {
  }

  /* ---------- receipt and unknown outcome: CAS on the state alone ---------- */

  function ReceiptPre(before: Db, i: ReceiptInput): Result<Effect> {
    if i.status == OutcomeNotKnown then Err(EffectOutcomeUnknown)
    else if i.status == NotApplied then Err(EffectInvalidTransition)
    else if i.effectId !in before.effects then Err(EffectNotFound)
    else if before.effects[i.effectId].state != InFlight then Err(EffectInvalidTransition)
    else if i.attemptNo <= 0 then Err(InvalidArgument)
    else Ok(before.effects[i.effectId])
  }

  function ReceiptTxn(at: Db, i: ReceiptInput, e: Effect): Step<Id> {
    if ResultKey(i.effectId, i.attemptNo) in at.capsules then Fail(at, CapsuleInvalid)
    else if i.newReceiptId in at.receipts || ReceiptExists(at.receipts, i.effectId, i.attemptNo) then
      Fail(at, ReceiptDuplicate)
    else if i.effectId !in at.effects || at.effects[i.effectId].state != InFlight then Fail(at, RevisionConflict)
    else
      var row := at.effects[i.effectId];
      Step(Ok(i.newReceiptId),
           at.(effects := at.effects[i.effectId :=
                 row.(state := Received, revision := row.revision + 1, receiptId := Some(i.newReceiptId))],
               capsules := at.capsules[ResultKey(i.effectId, i.attemptNo) := NewResultCapsule(at, e, i)],
               receipts := at.receipts[i.newReceiptId := NewReceipt(i)],
               edges := AppendEdge(at.edges, Edge(i.effectId, Relation.HasReceipt, i.newReceiptId), e.runId),
               events := Log(at, e.runId, EffectReceived(i.effectId, i.attemptNo))))
  }

  /** The captured row may be an older one, from before an unknown outcome and a
      retry; only columns that never change are taken from it. */
  lemma ReceiptSplitIsAtomic(before: Db, at: Db, i: ReceiptInput)
    requires Evolves(before, at) && ReceiptPre(before, i).Ok?
    ensures var split := ReceiptTxn(at, i, ReceiptPre(before, i).value);
      && (split.result.Err? ==> split.db == at && RecordReceipt(at, i).result.Err?)
      && (split.result.Ok? ==> split == RecordReceipt(at, i))
  {
    assert SameIdentity(before.effects[i.effectId], at.effects[i.effectId]);
    hide Evolves, AppendEdge;
  }

  function UnknownPre(before: Db, i: UnknownInput): Result<Effect> {
    if UnknownError(before, i).Some? then Err(UnknownError(before, i).value) else Ok(before.effects[i.effectId])
  }

  function UnknownTxn(at: Db, i: UnknownInput, e: Effect): Step<EffectState> {
    if i.effectId !in at.effects || at.effects[i.effectId].state != InFlight then Fail(at, RevisionConflict)
    else
      var row := at.effects[i.effectId];
      Step(Ok(Unknown),
           at.(effects := at.effects[i.effectId := row.(state := Unknown, revision := row.revision + 1)],
               edges := AppendEdge(at.edges, Edge(i.effectId, HasIncident, i.attemptNo), e.runId),
               failures := at.failures + [CapsuleFailure(i.effectId, i.attemptNo)],
               events := Log(at, e.runId, EffectUnknownState(i.effectId, i.attemptNo))))
  }

  lemma UnknownSplitIsAtomic(before: Db, at: Db, i: UnknownInput)
    requires Evolves(before, at) && UnknownPre(before, i).Ok?
    ensures var split := UnknownTxn(at, i, UnknownPre(before, i).value);
      && (split.result.Err? ==> split.db == at && RecordUnknownOutcome(at, i).result.Err?)
      && (split.result.Ok? ==> split == RecordUnknownOutcome(at, i))
  {
    assert SameIdentity(before.effects[i.effectId], at.effects[i.effectId]);
    hide Evolves, AppendEdge;
  }

  /* ---------- cancel: CAS on state and revision ---------- */

  function CancelPre(before: Db, effectId: Id, expectedRevision: nat): Result<Effect> {
    if CancelError(before, effectId, expectedRevision).Some? then Err(CancelError(before, effectId, expectedRevision).value)
    else Ok(before.effects[effectId])
  }

  function CancelTxn(at: Db, effectId: Id, expectedRevision: nat, e: Effect): Step<EffectState> {
    if effectId !in at.effects || at.effects[effectId].state != Planned
      || at.effects[effectId].revision != expectedRevision then Fail(at, RevisionConflict)
    else
      var row := at.effects[effectId];
      Step(Ok(CancelledBeforeSend),
           at.(effects := at.effects[effectId := row.(state := CancelledBeforeSend, revision := row.revision + 1)],
               edges := AppendEdge(at.edges, Edge(effectId, HasCancellation, effectId), e.runId),
               events := Log(at, e.runId, EffectCancelled(effectId))))
  }

  lemma CancelSplitIsAtomic(before: Db, at: Db, e: Id, rev: nat)
    requires Evolves(before, at) && CancelPre(before, e, rev).Ok?
    ensures var split := CancelTxn(at, e, rev, CancelPre(before, e, rev).value);
      && (split.result.Err? ==> split.db == at && CancelBeforeSend(at, e, rev).result.Err?)
      && (split.result.Ok? ==> split == CancelBeforeSend(at, e, rev))
  {
    assert SameIdentity(before.effects[e], at.effects[e]);
    hide Evolves, AppendEdge;
  }

  /* ---------- commit: the tool check stays outside ---------- */

  function CommitPre(before: Db, i: CommitInput): Result<Effect> {
    if CommitRowError(before, i).Some? then Err(CommitRowError(before, i).value)
    else
      var e := before.effects[i.effectId];
      match OpenAuthoritativeResult(before, i.effectId, e, i.receiptId, i.attemptNo)
      case Err(err) => Err(err)
      case Ok(_) => Ok(e)
  }

  function CommitTxn(at: Db, i: CommitInput, e: Effect): Step<nat> {
    if !ActiveLease(at, e.runId, i.leaseHolder, i.expectedLeaseVersion, at.clock) then Fail(at, LeaseNotHeld)
    else match OpenAuthoritativeResult(at, i.effectId, e, i.receiptId, i.attemptNo)
      case Err(err) => Fail(at, err)
      case Ok(_) =>
        if i.newFindingId in at.findings then Fail(at, ConstraintViolation)
        else if i.effectId !in at.effects || at.effects[i.effectId].state != Received
          || at.effects[i.effectId].revision != i.expectedRevision then Fail(at, RevisionConflict)
        else
          var row := at.effects[i.effectId];
          Step(Ok(row.revision + 1),
               at.(effects := at.effects[i.effectId := row.(state := Committed, revision := row.revision + 1)],
                   findings := at.findings[i.newFindingId := Finding(i.effectId, i.receiptId, Accepted)],
                   edges := AppendEdge(at.edges, Edge(i.effectId, HasFinding, i.newFindingId), e.runId),
                   events := Log(at, e.runId, EffectCommitted(i.effectId, i.receiptId))))
  }

  /** A split commit that succeeds is the atomic commit if and only if no tool row was
      inserted for the effect after the pre-read looked for one. */
  lemma CommitSplitIsAtomicIff(before: Db, at: Db, i: CommitInput)
    requires Evolves(before, at) && CommitPre(before, i).Ok?
    ensures var split := CommitTxn(at, i, CommitPre(before, i).value);
      && (split.result.Err? ==> split.db == at)
      && (split.result.Ok? ==> (split == CommitToTerminal(at, i) <==> i.effectId !in at.tools))
  {
    assert EffectEvolves(before.effects[i.effectId], at.effects[i.effectId]);
    hide Evolves, AppendEdge, OpenAuthoritativeResult, LogsCapsuleFailure, ActiveLease;
  }

  /** Whatever the tool table says by then, the transaction is a kernel operation. */
  lemma CommitSplitIsLate(before: Db, at: Db, i: CommitInput)
    requires Evolves(before, at) && CommitPre(before, i).Ok?
    ensures var split := CommitTxn(at, i, CommitPre(before, i).value);
      split.db == LateCommit(at, i) && (split.result.Ok? <==> LateCommitGuard(at, i))
  {
    CommitPreReads(before, i);
    assert EffectEvolves(before.effects[i.effectId], at.effects[i.effectId]);
    hide Evolves, AppendEdge, CommitPre, CommitRowError, ActiveLease;
    CommitCaptureIsCurrent(before, at, i);
    hide EffectEvolves, OpenAuthoritativeResult;
  }

  lemma CommitPreReads(before: Db, i: CommitInput)
    requires CommitPre(before, i).Ok?
    ensures i.effectId in before.effects && before.effects[i.effectId] == CommitPre(before, i).value
    ensures before.effects[i.effectId].state == Received && before.effects[i.effectId].revision == i.expectedRevision
    ensures i.effectId !in before.tools
    ensures ActiveLease(before, before.effects[i.effectId].runId, i.leaseHolder, i.expectedLeaseVersion, before.clock)
    ensures OpenAuthoritativeResult(before, i.effectId, before.effects[i.effectId], i.receiptId, i.attemptNo).Ok?
  {
    hide ActiveLease;
  }

  /** The captured row is the row of the transaction when the revision CAS succeeds. */
  lemma CommitCaptureIsCurrent(before: Db, at: Db, i: CommitInput)
    requires i.effectId in before.effects && i.effectId in at.effects
    requires EffectEvolves(before.effects[i.effectId], at.effects[i.effectId])
    requires before.effects[i.effectId].revision == i.expectedRevision
    ensures at.effects[i.effectId].revision == i.expectedRevision ==> at.effects[i.effectId] == before.effects[i.effectId]
  {
  }

  /* ---------- finalize: the lease is compared at an instant of the caller's ---------- */

  /** finalizeIngressDecision takes its instant first, from its caller or from the clock;
      everything else happens inside. */
  function FinalizeTxn(at: Db, i: FinalizeInput, instant: nat): Step<EffectState> { FinalizeAt(at, i, instant) }

  lemma OnlyTheLeaseMatters(db: Db, i: FinalizeInput, a: nat, b: nat)
    requires FinalizeError(db, i, a).None?
    ensures i.effectId in db.effects
    ensures FinalizeError(db, i, b).None? <==>
      ActiveLease(db, db.effects[i.effectId].runId, i.leaseHolder, i.leaseVersion, b)
  {
    hide AuthoritativePayload;
  }

  /** A verdict that succeeds at an instant, captured or supplied, past or future, is the
      atomic verdict at the transaction's clock if and only if the lease is live then. */
  lemma FinalizeSplitIsAtomicIff(at: Db, i: FinalizeInput, captured: nat)
    ensures var split := FinalizeTxn(at, i, captured);
      && (split.result.Err? ==> OnlyFailuresLogged(at, split.db))
      && (split.result.Ok? ==>
            (split == Finalize(at, i) <==>
               ActiveLease(at, at.effects[i.effectId].runId, i.leaseHolder, i.leaseVersion, at.clock)))
  {
    hide FinalizeAt, AuthoritativePayload, FinalizePost;
    if FinalizeError(at, i, captured).Some? {
      FinalizeRefused(at, i, captured);
      LoggedFailure(at, CapsuleFailure(i.effectId, 0));
    } else {
      OnlyTheLeaseMatters(at, i, captured, at.clock);
      FinalizeAccepted(at, i, captured);
      hide FinalizeError, ActiveLease;
      if FinalizeError(at, i, at.clock).None? {
        FinalizeAccepted(at, i, at.clock);
      } else {
        FinalizeRefused(at, i, at.clock);
      }
    }
  }

  /* ---------- repairs ---------- */

  function CreatePre(before: Db, q: R.Request): Option<Error> {
    if q.targetFrameId !in before.frames then Some(FrameNotFound)
    else if before.frames[q.targetFrameId].runId != q.runId then Some(InvalidArgument)
    else R.RepairError(before, q)
  }

  /** createRepair verifies the plan before its transaction and not again inside it. */
  function CreateTxn(at: Db, q: R.Request, newId: Id): Step<Id> {
    if newId in at.repairs then Fail(at, ConstraintViolation) else Step(Ok(newId), R.CreatePost(at, q, newId))
  }

  /** A split creation that succeeds is the atomic one if and only if the plan still
      verifies; otherwise it records a repair whose snapshot is already stale. */
  lemma CreateSplitIsAtomicIff(before: Db, at: Db, q: R.Request, newId: Id)
    requires Evolves(before, at) && CreatePre(before, q).None?
    ensures var split := CreateTxn(at, q, newId);
      && (split.result.Err? ==> split.db == at)
      && (split.result.Ok? ==> (split == R.CreateRepair(at, q, newId) <==> R.RepairError(at, q).None?))
  {
    assert q.targetFrameId in at.frames && at.frames[q.targetFrameId].runId == q.runId by {
      hide R.RepairError;
      assert FrameEvolves(before.frames[q.targetFrameId], at.frames[q.targetFrameId]);
    }
    hide Evolves, R.RepairError, R.CreatePost;
  }

  lemma CreateSplitIsLate(before: Db, at: Db, q: R.Request, newId: Id)
    requires Evolves(before, at) && CreatePre(before, q).None?
    ensures CreateTxn(at, q, newId).db == R.LateCreate(at, q, newId)
    ensures CreateTxn(at, q, newId).result.Ok? <==> R.LateCreateGuard(at, q, newId)
  {
    hide R.RepairError;
    assert FrameEvolves(before.frames[q.targetFrameId], at.frames[q.targetFrameId]);
    hide Evolves, R.CreatePost;
  }

  /** What setRepairStatus checks before its transaction: not the lease. */
  predicate StatusPre(before: Db, i: R.StatusInput) {
    && i.repairId in before.repairs
    && var r := before.repairs[i.repairId];
    && i.next in RepairTransitions(r.status)
    && (i.next == CommittedRepair ==> R.RepairError(before, R.StoredRequest(r, i.evidence)).None? && i.authority.Some?)
  }

  /** setRepairStatus captures the status, and re-verifies the plan and the lease
      inside the transaction that commits. */
  function StatusTxn(at: Db, i: R.StatusInput, r: Repair): Step<RepairStatus> {
    if i.next == CommittedRepair
      && !(i.authority.Some? && ActiveLease(at, r.runId, i.authority.value.holderId, i.authority.value.leaseVersion, at.clock))
    then Fail(at, LeaseNotHeld)
    else if i.next == CommittedRepair && R.RepairError(at, R.StoredRequest(r, i.evidence)).Some? then
      Fail(at, R.RepairError(at, R.StoredRequest(r, i.evidence)).value)
    else if i.repairId !in at.repairs || at.repairs[i.repairId].status != r.status then Fail(at, RevisionConflict)
    else
      var row := at.repairs[i.repairId];
      Step(Ok(i.next),
           at.(repairs := at.repairs[i.repairId := row.(status := i.next)],
               events := Log(at, r.runId, RepairStatusChanged(i.repairId, r.status, i.next))))
  }

  lemma StatusSplitIsAtomic(before: Db, at: Db, i: R.StatusInput)
    requires Evolves(before, at) && StatusPre(before, i)
    ensures var split := StatusTxn(at, i, before.repairs[i.repairId]);
      && (split.result.Err? ==> split.db == at)
      && (split.result.Ok? ==> split == R.SetRepairStatus(at, i))
  {
    assert RepairEvolves(before.repairs[i.repairId], at.repairs[i.repairId]) by {
      hide R.RepairError;
    }
    hide Evolves, R.RepairError, ActiveLease;
  }

  /* ---------- planned effects, child frames, the generic transition ---------- */

  /** planEffect looks for the owner frame and for a reused key ... */
  function PlanPre(before: Db, i: PlanInput): Option<Error> {
    if i.ownerFrameId !in before.frames then Some(FrameNotFound)
    else if before.frames[i.ownerFrameId].runId != i.runId then Some(EffectOwnerMismatch)
    else if i.keyHash in before.keyIndex && before.keyIndex[i.keyHash] in before.effects
      && before.effects[before.keyIndex[i.keyHash]].ownerFrameId != i.ownerFrameId then Some(EffectIdempotencyReused)
    else if i.keyHash in before.keyIndex && before.keyIndex[i.keyHash] in before.effects
      && before.effects[before.keyIndex[i.keyHash]].payloadFingerprint != i.payloadFingerprint then
      Some(EffectPayloadFingerprintChanged)
    else None
  }

  /** ... and leaves the last word to the UNIQUE index. */
  function PlanTxn(at: Db, i: PlanInput): Step<Id> {
    if i.newEffectId in at.effects || i.keyHash in at.keyIndex then Fail(at, EffectIdempotencyReused)
    else
      Step(Ok(i.newEffectId),
           at.(effects := at.effects[i.newEffectId := PlannedEffect(i)],
               keyIndex := at.keyIndex[i.keyHash := i.newEffectId],
               edges := AppendEdge(at.edges, Edge(i.ownerFrameId, OwnsEffect, i.newEffectId), i.runId),
               events := Log(at, i.runId, EffectPlanned(i.newEffectId))))
  }

  lemma PlanSplitIsAtomic(before: Db, at: Db, i: PlanInput)
    requires Evolves(before, at) && PlanPre(before, i).None?
    ensures var split := PlanTxn(at, i);
      && (split.result.Err? ==> split.db == at && PlanEffect(at, i).result.Err?)
      && (split.result.Ok? ==> split == PlanEffect(at, i))
  {
    assert FrameEvolves(before.frames[i.ownerFrameId], at.frames[i.ownerFrameId]);
    hide Evolves, AppendEdge;
  }

  function ChildPre(before: Db, runId: Id, parent: Id): Result<Frame> {
    if parent !in before.frames then Err(FrameNotFound)
    else if before.frames[parent].runId != runId then Err(EffectOwnerMismatch)
    else Ok(before.frames[parent])
  }

  /** createChildFrame extends the path of the parent as it was read, and raises the
      parent's revision as it is. */
  function ChildTxn(at: Db, runId: Id, parent: Id, newId: Id, row: Frame): Step<Id> {
    if newId in at.frames then Fail(at, ConstraintViolation)
    else
      var inserted := at.frames[newId := Frame(runId, Some(parent), FPending, row.path + [parent], 1)];
      var frames :=
        if parent in inserted
        then inserted[parent := inserted[parent].(subtreeRevision := inserted[parent].subtreeRevision + 1)] else inserted;
      Step(Ok(newId), at.(frames := frames, events := Log(at, runId, FrameCreated(newId, Some(parent)))))
  }

  lemma ChildSplitIsAtomic(before: Db, at: Db, runId: Id, parent: Id, newId: Id)
    requires Evolves(before, at) && ChildPre(before, runId, parent).Ok?
    ensures ChildTxn(at, runId, parent, newId, ChildPre(before, runId, parent).value) ==
      CreateChildFrame(at, runId, parent, newId)
  {
    assert FrameEvolves(before.frames[parent], at.frames[parent]);
    hide Evolves;
  }

  /** transitionEffect checks the captured row ... */
  function MovePre(before: Db, effectId: Id, expectedRevision: nat, expected: EffectState, next: EffectState): Result<Effect> {
    if effectId !in before.effects then Err(EffectNotFound)
    else if before.effects[effectId].revision != expectedRevision then Err(RevisionConflict)
    else if before.effects[effectId].state != expected then Err(EffectInvalidTransition)
    else if next !in EffectTransitions(expected) then Err(EffectInvalidTransition)
    else if next == InFlight && (expected == Planned || expected == Unknown) then Err(EffectInvalidTransition)
    else Ok(before.effects[effectId])
  }

  /** ... and compares only the revision again. */
  function MoveTxn(at: Db, effectId: Id, next: EffectState, e: Effect): Step<Id> {
    if effectId !in at.effects || at.effects[effectId].revision != e.revision then Fail(at, RevisionConflict)
    else if next == AwaitingCallbackVerification then Fail(at, ConstraintViolation)
    else
      var row := at.effects[effectId];
      Step(Ok(effectId),
           at.(effects := at.effects[effectId := row.(state := next, revision := row.revision + 1)],
               events := Log(at, e.runId, EffectTransitioned(effectId, e.state, next))))
  }

  lemma MoveSplitIsAtomic(before: Db, at: Db, effectId: Id, rev: nat, expected: EffectState, next: EffectState)
    requires Evolves(before, at) && MovePre(before, effectId, rev, expected, next).Ok?
    ensures MoveTxn(at, effectId, next, MovePre(before, effectId, rev, expected, next).value) ==
      TransitionEffect(at, effectId, rev, expected, next)
  {
    assert EffectEvolves(before.effects[effectId], at.effects[effectId]);
    hide Evolves, EffectTransitions;
  }
}
