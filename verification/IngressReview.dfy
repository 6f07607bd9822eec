// finalizeIngressDecision: an independent reviewer's verdict on the authoritative
// result capsule ends a received effect, under the lease and a revision CAS.

module IngressReview {
  import opened Tables
  import opened CapsuleStore
  import opened EffectProtocol

  datatype FinalizeInput = FinalizeInput(
    effectId: Id, outcome: IngressOutcome, reviewerDigest: Digest, leaseHolder: Id, leaseVersion: nat,
    hookThrows: bool, newFindingId: Id, newDecisionId: Id)

  function StateAfter(outcome: IngressOutcome): EffectState {
    match outcome
    case Accepted => Committed
    case QuarantinedOutcome => Quarantined
    case Rejected => Failed
  }

  predicate ProviderSuccess(s: Option<Text>) { s == Some("ok") || s == Some("applied") }

  /** The sealed result behind the effect's authoritative receipt. */
  function AuthoritativePayload(db: Db, effectId: Id): (r: Result<Sealed>)
    requires effectId in db.effects
    ensures r.Ok? ==>
      && db.effects[effectId].receiptId.Some? && db.effects[effectId].receiptId.value in db.receipts
      && var receipt := db.receipts[db.effects[effectId].receiptId.value];
        && receipt.status == Applied && receipt.capsuleHash == Some(DigestOf(r.value))
        && receipt.capsule == Some(ResultKey(receipt.effectId, receipt.attemptNo))
        && receipt.capsule.value in db.capsules
        && db.capsules[receipt.capsule.value].body == r.value
  {
    var e := db.effects[effectId];
    if e.receiptId.None? || e.receiptId.value !in db.receipts then Err(ReceiptNotFound)
    else
      var r := db.receipts[e.receiptId.value];
      if r.status != Applied || !ProviderSuccess(r.providerStatus)
        || r.receiptHash != ReceiptHashOf(r.effectId, r) then Err(ReceiptNotFound)
      else OpenResultForReceipt(db.capsules, WorkspaceOf(db, e.runId), r.effectId, e.receiptId.value,
                                r.attemptNo, r.capsule, r.capsuleHash, db.clock)
  }

  /** `now` is the instant that the caller supplied, or the service captured before its
      transaction opened. */
  function FinalizeError(db: Db, i: FinalizeInput, now: nat): Option<Error> {
    if i.leaseVersion == 0 then Some(InvalidArgument)
    else if i.effectId !in db.effects || db.effects[i.effectId].runId !in db.workspaces then Some(EffectNotFound)
    else
      var e := db.effects[i.effectId];
      if !ActiveLease(db, e.runId, i.leaseHolder, i.leaseVersion, now) then Some(LeaseNotHeld)
      else if e.state != Received && e.state != AwaitingCallbackVerification then Some(EffectInvalidTransition)
      else match AuthoritativePayload(db, i.effectId)
        case Err(err) => Some(err)
        case Ok(body) =>
          if DigestOf(body) != i.reviewerDigest then Some(CapsuleInvalid)
          else if i.newFindingId in db.findings || i.newDecisionId in db.decisions then Some(ConstraintViolation)
          else if i.hookThrows then Some(HookFailed)
          else None
  }

  function FinalizePost(db: Db, i: FinalizeInput): (after: Db)
    requires i.effectId in db.effects && db.effects[i.effectId].receiptId.Some?
    ensures RuntimeUntouched(db, after) && after.tools == db.tools
    ensures OneStep(db.effects, after.effects, i.effectId, StateAfter(i.outcome))
    ensures AuthorityUntouched(db, after) && after.capsules == db.capsules
  {
    var e := db.effects[i.effectId];
    var r := e.receiptId.value;
    db.(effects := db.effects[i.effectId := e.(state := StateAfter(i.outcome), revision := e.revision + 1)],
        findings := db.findings[i.newFindingId := Finding(i.effectId, r, i.outcome)],
        decisions := db.decisions[i.newDecisionId :=
          ReviewDecision(i.newFindingId, r, i.effectId, i.outcome, i.reviewerDigest)],
        edges := AppendEdge(AppendEdge(db.edges, Edge(i.effectId, HasReviewFinding, i.newFindingId), e.runId),
                            Edge(i.effectId, HasReviewDecision, i.newDecisionId), e.runId),
        events := Log(db, e.runId, IngressFinalized(i.effectId, i.outcome)))
  }

  function FinalizeAt(db: Db, i: FinalizeInput, now: nat): Step<EffectState> {
    match FinalizeError(db, i, now)
    case Some(CapsuleInvalid) => FailLogged(db, CapsuleInvalid, i.effectId, 0)
    case Some(CapsuleExpired) => FailLogged(db, CapsuleExpired, i.effectId, 0)
    case Some(err) => Fail(db, err)
    case None => Step(Ok(StateAfter(i.outcome)), FinalizePost(db, i))
  }

  function Finalize(db: Db, i: FinalizeInput): Step<EffectState> { FinalizeAt(db, i, db.clock) }

  /** What an admitted verdict is about. */
  lemma FinalizeAdmits(db: Db, i: FinalizeInput, now: nat)
    requires FinalizeError(db, i, now).None?
    ensures i.effectId in db.effects
    ensures var e := db.effects[i.effectId];
      && (e.state == Received || e.state == AwaitingCallbackVerification)
      && e.receiptId.Some?
    ensures i.newFindingId !in db.findings && i.newDecisionId !in db.decisions
  {
    hide ActiveLease, WorkspaceOf;
  }
}
