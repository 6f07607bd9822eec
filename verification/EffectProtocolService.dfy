// The effect protocol as it runs: methods that read rows, let other callers in, and
// then write rows inside a transaction that restores the database when it throws.
// Each is proved against the pre-read and transaction functions of SplitStep.

module ProtocolService {
  import opened Tables
  import opened CapsuleStore
  import opened Database
  import opened Kernel
  import P = EffectProtocol
  import S = SplitStep

  class EffectProtocolService {
    const odb: OgraDatabase

    constructor (odb: OgraDatabase)
      ensures this.odb == odb
    {
      this.odb := odb;
    }

    /** Cancel a planned effect: pre-read, then a CAS on state and revision. */
    method CancelBeforeSend(effectId: Id, expectedRevision: nat, others: seq<Op>) returns (r: Result<EffectState>)
      modifies odb
      ensures var before := old(odb.tables);
        match S.CancelPre(before, effectId, expectedRevision)
        case Err(e) => r == Err(e) && odb.tables == before
        case Ok(effect) =>
          Step(r, odb.tables) == S.CancelTxn(Exec(before, others), effectId, expectedRevision, effect)
    {
      hide Exec;
      if effectId !in odb.tables.effects {
        return Err(EffectNotFound);
      }
      var effect := odb.tables.effects[effectId];
      if effect.state != Planned {
        return Err(EffectInvalidTransition);
      }
      if effect.revision != expectedRevision {
        return Err(RevisionConflict);
      }
      odb.OthersRun(others);
      var saved := odb.tables;
      odb.tables := odb.tables.(events := Log(odb.tables, effect.runId, EffectCancelled(effectId)));
      if effectId !in odb.tables.effects || odb.tables.effects[effectId].state != Planned
        || odb.tables.effects[effectId].revision != expectedRevision {
        odb.tables := saved;
        return Err(RevisionConflict);
      }
      var row := odb.tables.effects[effectId];
      odb.tables := odb.tables.(effects := odb.tables.effects[effectId :=
        row.(state := CancelledBeforeSend, revision := row.revision + 1)]);
      odb.tables := odb.tables.(edges :=
        AppendEdge(odb.tables.edges, Edge(effectId, HasCancellation, effectId), effect.runId));
      return Ok(CancelledBeforeSend);
    }

    /** in_flight -> unknown, a CAS on the state alone. `resolvedOutcome` is logged
        and decides nothing. */
    method RecordUnknownOutcome(i: P.UnknownInput, others: seq<Op>) returns (r: Result<EffectState>)
      modifies odb
      ensures var before := old(odb.tables);
        match S.UnknownPre(before, i)
        case Err(e) => r == Err(e) && odb.tables == before
        case Ok(effect) => Step(r, odb.tables) == S.UnknownTxn(Exec(before, others), i, effect)
    {
      hide Exec;
      if i.effectId !in odb.tables.effects {
        return Err(EffectNotFound);
      }
      var effect := odb.tables.effects[i.effectId];
      if effect.state != InFlight {
        return Err(EffectInvalidTransition);
      }
      if i.attemptNo <= 0 {
        return Err(InvalidArgument);
      }
      odb.OthersRun(others);
      var saved := odb.tables;
      odb.tables := odb.tables.(events := Log(odb.tables, effect.runId, EffectUnknownState(i.effectId, i.attemptNo)));
      odb.tables := odb.tables.(failures := odb.tables.failures + [CapsuleFailure(i.effectId, i.attemptNo)]);
      if i.effectId !in odb.tables.effects || odb.tables.effects[i.effectId].state != InFlight {
        odb.tables := saved;
        return Err(RevisionConflict);
      }
      var row := odb.tables.effects[i.effectId];
      odb.tables := odb.tables.(effects := odb.tables.effects[i.effectId :=
        row.(state := Unknown, revision := row.revision + 1)]);
      odb.tables := odb.tables.(edges :=
        AppendEdge(odb.tables.edges, Edge(i.effectId, HasIncident, i.attemptNo), effect.runId));
      return Ok(Unknown);
    }

    method RecordReceipt(i: P.ReceiptInput, others: seq<Op>) returns (r: Result<Id>)
      modifies odb
      ensures var before := old(odb.tables);
        match S.ReceiptPre(before, i)
        case Err(e) => r == Err(e) && odb.tables == before
        case Ok(effect) => Step(r, odb.tables) == S.ReceiptTxn(Exec(before, others), i, effect)
    {
      hide Exec;
      if i.status == OutcomeNotKnown {
        return Err(EffectOutcomeUnknown);
      }
      if i.status == NotApplied {
        return Err(EffectInvalidTransition);
      }
      r := RecordTrustedReceipt(i, others);
    }

    /** Seal the result, insert the receipt, move in_flight -> received. */
    method RecordTrustedReceipt(i: P.ReceiptInput, others: seq<Op>) returns (r: Result<Id>)
      requires i.status == Applied
      modifies odb
      ensures var before := old(odb.tables);
        match S.ReceiptPre(before, i)
        case Err(e) => r == Err(e) && odb.tables == before
        case Ok(effect) => Step(r, odb.tables) == S.ReceiptTxn(Exec(before, others), i, effect)
    {
      hide Exec;
      if i.effectId !in odb.tables.effects {
        return Err(EffectNotFound);
      }
      var effect := odb.tables.effects[i.effectId];
      if effect.state != InFlight {
        return Err(EffectInvalidTransition);
      }
      if i.attemptNo <= 0 {
        return Err(InvalidArgument);
      }
      odb.OthersRun(others);
      r := ReceiptTransaction(i, effect);
      hide S.ReceiptTxn;
    }

    /** The transaction of the receipt: event, capsule, receipt, effect and edge, or nothing. */
    method ReceiptTransaction(i: P.ReceiptInput, effect: Effect) returns (r: Result<Id>)
      modifies odb
      ensures Step(r, odb.tables) == S.ReceiptTxn(old(odb.tables), i, effect)
    {
      hide P.BodyOf, P.ReceiptExists, AppendEdge;
      var saved := odb.tables;
      odb.tables := odb.tables.(events := Log(odb.tables, effect.runId, EffectReceived(i.effectId, i.attemptNo)));
      var key := ResultKey(i.effectId, i.attemptNo);
      if key in odb.tables.capsules {
        odb.tables := saved;
        return Err(CapsuleInvalid);
      }
      var response := OfResult(P.BodyOf(i));
      var capsule := Capsule(WorkspaceOf(odb.tables, effect.runId), effect.runId, Some(i.newReceiptId), effect.adapterKind,
                             response, odb.tables.clock + SEVEN_DAYS_MS, SealedResult(P.BodyOf(i)), response);
      odb.tables := odb.tables.(capsules := odb.tables.capsules[key := capsule]);
      if i.newReceiptId in odb.tables.receipts || P.ReceiptExists(odb.tables.receipts, i.effectId, i.attemptNo) {
        odb.tables := saved;
        return Err(ReceiptDuplicate);
      }
      var receipt := Receipt(i.effectId, i.attemptNo, i.requestId, i.requestHash, Some(response), Some(key), Some(response),
                             i.providerStatus, i.status,
                             OfReceipt(i.effectId, i.attemptNo, i.requestHash, Some(response), i.status, i.providerStatus));
      odb.tables := odb.tables.(receipts := odb.tables.receipts[i.newReceiptId := receipt]);
      if i.effectId !in odb.tables.effects || odb.tables.effects[i.effectId].state != InFlight {
        odb.tables := saved;
        return Err(RevisionConflict);
      }
      var row := odb.tables.effects[i.effectId];
      odb.tables := odb.tables.(effects := odb.tables.effects[i.effectId :=
        row.(state := Received, revision := row.revision + 1, receiptId := Some(i.newReceiptId))]);
      odb.tables := odb.tables.(edges :=
        AppendEdge(odb.tables.edges, Edge(i.effectId, Relation.HasReceipt, i.newReceiptId), effect.runId));
      return Ok(i.newReceiptId);
    }

    /** The row's binding to run, workspace, scope, payload, policy and effect, its expiry,
        decision, type and remaining uses. */
    method CheckApproval(effect: Effect, i: P.CasInput, approvalId: Id) returns (covers: bool)
      ensures covers <==> P.ApprovalCovers(odb.tables, i.effectId, effect, i.retry, approvalId)
      ensures covers ==> approvalId in odb.tables.approvals
    {
      var workspaceId := WorkspaceOf(odb.tables, effect.runId);
      if approvalId !in odb.tables.approvals {
        return false;
      }
      var row := odb.tables.approvals[approvalId];
      if row.runId != effect.runId || row.workspaceId != workspaceId
        || row.scopeHash.None? || row.scopeHash.value == "" || row.scopeHash != effect.scopeHash
        || row.payloadFingerprint != Some(effect.payloadFingerprint)
        || row.policyVersionHash.None? || row.policyVersionHash.value == ""
        || row.policyVersionHash != effect.policyVersionHash
        || row.effectId != Some(i.effectId)
        || (row.expiresAt.Some? && row.expiresAt.value <= odb.tables.clock) {
        return false;
      }
      if row.decision != Approved {
        return false;
      }
      var validType := if i.retry then row.approvalType == RecoveryRetry
                       else row.approvalType == Egress || row.approvalType == ToolInvocation;
      return validType && row.usesConsumed < row.useLimit;
    }

    /** The approval authority of one callback: check the row, count the use, bind it
        to the attempt. The caller rolls back when this refuses. */
    method ConsumeApprovalForCallback(effect: Effect, i: P.CasInput, approvalId: Id) returns (refusal: Option<Error>)
      modifies odb
      ensures var before := old(odb.tables);
        if !P.ApprovalCovers(before, i.effectId, effect, i.retry, approvalId) then refusal == Some(ApprovalRequired)
        else if AttemptKey(i.effectId, i.attemptNo) in before.bindings
          || ConsumptionKey(approvalId, i.effectId, i.attemptNo) in before.consumptions then
          refusal == Some(ConstraintViolation)
        else refusal == None && odb.tables == P.ConsumePost(before, i, approvalId, effect.runId)
    {
      var covers := CheckApproval(effect, i, approvalId);
      if !covers {
        return Some(ApprovalRequired);
      }
      hide P.ApprovalCovers;
      var row := odb.tables.approvals[approvalId];
      var tables := odb.tables;
      tables := tables.(approvals := tables.approvals[approvalId := row.(usesConsumed := row.usesConsumed + 1)]);
      var attempt := AttemptKey(i.effectId, i.attemptNo);
      if attempt in tables.bindings {
        return Some(ConstraintViolation);
      }
      var kind := if i.retry then RetryBinding else InitialBinding;
      tables := tables.(bindings := tables.bindings[attempt := Binding(approvalId, row.revision, kind)]);
      var use := ConsumptionKey(approvalId, i.effectId, i.attemptNo);
      if use in tables.consumptions {
        return Some(ConstraintViolation);
      }
      tables := tables.(consumptions := tables.consumptions[use := row.revision]);
      tables := tables.(edges := AppendEdge(tables.edges, Edge(i.effectId, BoundToApproval, approvalId), effect.runId));
      odb.tables := tables;
      return None;
    }

    /** The pre-callback CAS. The pre-read authenticates the source capsule and looks at
        the lease; the transaction seals the attempt, re-checks the lease, consumes the
        approval and moves the effect, or leaves everything as it was. */
    method CasToInFlight(i: P.CasInput, others: seq<Op>) returns (r: Result<P.CasOutput>)
      modifies odb
      ensures var before := old(odb.tables);
        match S.CasPre(before, i)
        case Err(e) => r == Err(e) && odb.tables == P.CasToInFlight(before, i).db
        case Ok(capture) => Step(r, odb.tables) == S.CasTxn(Exec(before, others), i, capture)
    {
      hide Exec;
      if i.effectId !in odb.tables.effects {
        return Err(EffectNotFound);
      }
      var effect := odb.tables.effects[i.effectId];
      if effect.revision != i.expectedRevision {
        return Err(RevisionConflict);
      }
      if effect.state != P.ExpectedState(i) {
        return Err(EffectInvalidTransition);
      }
      if !i.retry && i.attemptNo != 1 {
        return Err(InvalidArgument);
      }
      if i.retry && i.attemptNo <= 1 {
        return Err(InvalidArgument);
      }
      var expected := P.ExpectedFingerprint(effect);
      var sourceAttempt := i.attemptNo;
      if CallbackKey(i.effectId, sourceAttempt) !in odb.tables.capsules && i.retry {
        sourceAttempt := i.attemptNo - 1;
      }
      if CallbackKey(i.effectId, sourceAttempt) !in odb.tables.capsules {
        odb.tables := odb.tables.(failures := odb.tables.failures + [CapsuleFailure(i.effectId, i.attemptNo)]);
        return Err(CapsuleInvalid);
      }
      var source := odb.tables.capsules[CallbackKey(i.effectId, sourceAttempt)];
      var verifiedSource := OpenVerifiedCallback(odb.tables.capsules, i.effectId, sourceAttempt, expected, odb.tables.clock);
      if verifiedSource.Err? {
        odb.tables := odb.tables.(failures := odb.tables.failures + [CapsuleFailure(i.effectId, sourceAttempt)]);
        return Err(verifiedSource.error);
      }
      if !S.PreLeaseHeld(odb.tables, effect.runId, i.leaseHolder) {
        return Err(LeaseNotHeld);
      }
      var leaseVersion := P.LeaseVersionFor(odb.tables, i, effect.runId);
      var capture := S.CasCapture(effect, sourceAttempt, source, leaseVersion);
      assert S.CasPre(odb.tables, i) == Ok(capture);
      odb.OthersRun(others);
      r := CallbackTransaction(i, capture);
    }

    method CallbackTransaction(i: P.CasInput, c: S.CasCapture) returns (r: Result<P.CasOutput>)
      modifies odb
      ensures Step(r, odb.tables) == S.CasTxn(old(odb.tables), i, c)
    {
      hide OpenVerifiedCallback, AppendEdge, P.ConsumeOne, P.ConsumePost;
      var saved := odb.tables;
      var key := CallbackKey(i.effectId, i.attemptNo);
      if c.sourceAttempt != i.attemptNo {
        if key in odb.tables.capsules {
          return Err(CapsuleInvalid);
        }
        odb.tables := odb.tables.(capsules := odb.tables.capsules[key := c.source]);
      }
      var verified := OpenVerifiedCallback(odb.tables.capsules, i.effectId, i.attemptNo, P.ExpectedFingerprint(c.effect),
                                           odb.tables.clock);
      if verified.Err? {
        odb.tables := saved;
        return Err(verified.error);
      }
      odb.tables := odb.tables.(events :=
        Log(odb.tables, c.effect.runId, CallbackIntent(i.effectId, i.attemptNo, i.approvalId)));
      if !P.ActiveLease(odb.tables, c.effect.runId, i.leaseHolder, c.leaseVersion, odb.tables.clock) {
        odb.tables := saved;
        return Err(LeaseNotHeld);
      }
      ghost var sealed := odb.tables;
      var refusal := ApprovalGate(i, c.effect);
      if refusal.Some? {
        odb.tables := saved;
        return Err(refusal.value);
      }
      if i.approvalId.Some? {
        S.ConsumeLeavesEffects(sealed, i, i.approvalId.value, c.effect.runId, S.Called(saved, i));
      }
      if i.effectId !in odb.tables.effects || odb.tables.effects[i.effectId].revision != i.expectedRevision
        || odb.tables.effects[i.effectId].state != P.ExpectedState(i) {
        odb.tables := saved;
        return Err(RevisionConflict);
      }
      var row := odb.tables.effects[i.effectId];
      odb.tables := odb.tables.(effects := odb.tables.effects[i.effectId :=
        row.(state := InFlight, revision := row.revision + 1,
             approvalId := if i.approvalId.Some? then i.approvalId else row.approvalId,
             callbackAttempt := Some(i.attemptNo))]);
      return Ok(P.CasOutput(i.effectId, i.attemptNo, row.revision + 1, c.leaseVersion, verified.value));
    }

    /** The approval rules of the transaction; consumes the approval it is given. */
    method ApprovalGate(i: P.CasInput, effect: Effect) returns (refusal: Option<Error>)
      modifies odb
      ensures refusal == P.ApprovalError(old(odb.tables), effect, i)
      ensures refusal == None ==>
        if i.approvalId.None? then odb.tables == old(odb.tables)
        else i.approvalId.value in old(odb.tables).approvals
             && odb.tables == P.ConsumePost(old(odb.tables), i, i.approvalId.value, effect.runId)
    {
      if P.RequiresApproval(odb.tables, effect) && i.approvalId.None? {
        return Some(ApprovalRequired);
      }
      if !i.retry && effect.approvalId.Some? && i.approvalId != effect.approvalId {
        return Some(ApprovalRequired);
      }
      if i.retry && effect.approvalId.Some? && i.approvalId == effect.approvalId {
        return Some(ApprovalRequired);
      }
      if i.approvalId.None? {
        return None;
      }
      refusal := ConsumeApprovalForCallback(effect, i, i.approvalId.value);
    }

    /** received -> committed. The tool check is made once, before the transaction. */
    method CommitToTerminal(i: P.CommitInput, others: seq<Op>) returns (r: Result<nat>)
      modifies odb
      ensures var before := old(odb.tables);
        match S.CommitPre(before, i)
        case Err(e) => Step(r, odb.tables) == P.CommitToTerminal(before, i)
        case Ok(effect) => Step(r, odb.tables) == S.CommitTxn(Exec(before, others), i, effect)
    {
      hide Exec;
      if i.effectId !in odb.tables.effects {
        return Err(EffectNotFound);
      }
      var effect := odb.tables.effects[i.effectId];
      if i.effectId in odb.tables.tools {
        return Err(EffectInvalidTransition);
      }
      if effect.state != Received {
        return Err(EffectInvalidTransition);
      }
      if effect.revision != i.expectedRevision {
        return Err(RevisionConflict);
      }
      if !P.ActiveLease(odb.tables, effect.runId, i.leaseHolder, i.expectedLeaseVersion, odb.tables.clock) {
        return Err(LeaseNotHeld);
      }
      var body := P.OpenAuthoritativeResult(odb.tables, i.effectId, effect, i.receiptId, i.attemptNo);
      hide P.OpenAuthoritativeResult, P.LogsCapsuleFailure, P.ActiveLease;
      if body.Err? {
        if P.LogsCapsuleFailure(odb.tables, i.effectId, effect, i.receiptId, i.attemptNo) {
          odb.tables := odb.tables.(failures := odb.tables.failures + [CapsuleFailure(i.effectId, i.attemptNo)]);
        }
        return Err(body.error);
      }
      odb.OthersRun(others);
      r := CommitTransaction(i, effect);
    }

    method CommitTransaction(i: P.CommitInput, effect: Effect) returns (r: Result<nat>)
      modifies odb
      ensures Step(r, odb.tables) == S.CommitTxn(old(odb.tables), i, effect)
    {
      hide P.OpenAuthoritativeResult, P.ActiveLease;
      var saved := odb.tables;
      if !P.ActiveLease(odb.tables, effect.runId, i.leaseHolder, i.expectedLeaseVersion, odb.tables.clock) {
        return Err(LeaseNotHeld);
      }
      var body := P.OpenAuthoritativeResult(odb.tables, i.effectId, effect, i.receiptId, i.attemptNo);
      if body.Err? {
        return Err(body.error);
      }
      odb.tables := odb.tables.(events := Log(odb.tables, effect.runId, EffectCommitted(i.effectId, i.receiptId)));
      if i.newFindingId in odb.tables.findings {
        odb.tables := saved;
        return Err(ConstraintViolation);
      }
      odb.tables := odb.tables.(findings :=
        odb.tables.findings[i.newFindingId := Finding(i.effectId, i.receiptId, Accepted)]);
      if i.effectId !in odb.tables.effects || odb.tables.effects[i.effectId].state != Received
        || odb.tables.effects[i.effectId].revision != i.expectedRevision {
        odb.tables := saved;
        return Err(RevisionConflict);
      }
      var row := odb.tables.effects[i.effectId];
      odb.tables := odb.tables.(effects := odb.tables.effects[i.effectId :=
        row.(state := Committed, revision := row.revision + 1)]);
      odb.tables := odb.tables.(edges :=
        AppendEdge(odb.tables.edges, Edge(i.effectId, HasFinding, i.newFindingId), effect.runId));
      return Ok(row.revision + 1);
    }

    /** Plan the effect, bind its approval, seal its callback capsule; or recognise the
        key and answer with the effect that already carries it. */
    method Prepare(i: P.PrepareInput) returns (r: Result<P.Prepared>)
      modifies odb
      ensures Step(r, odb.tables) == P.Prepare(old(odb.tables), i)
    {
      var saved := odb.tables;
      var keyHash := OfKey(i.idempotencyKey);
      var command := P.CommandOf(i);
      odb.tables := odb.tables.(events := Log(odb.tables, i.runId, EffectPrepared(i.ownerFrameId, keyHash)));
      if i.ownerFrameId !in odb.tables.frames {
        odb.tables := saved;
        return Err(FrameNotFound);
      }
      if odb.tables.frames[i.ownerFrameId].runId != i.runId {
        odb.tables := saved;
        return Err(EffectOwnerMismatch);
      }
      var existing := P.Existing(odb.tables, i);
      if existing.Some? {
        r := PrepareAgain(i, existing.value, saved);
      } else {
        r := PrepareNew(i, saved);
      }
    }

    /** The key is known under this frame: same payload and same plaintext, or refuse. */
    method PrepareAgain(i: P.PrepareInput, e: Id, saved: Db) returns (r: Result<P.Prepared>)
      requires i.ownerFrameId in saved.frames && saved.frames[i.ownerFrameId].runId == i.runId
      requires P.Existing(saved, i) == Some(e)
      requires odb.tables == saved.(events := Log(saved, i.runId, EffectPrepared(i.ownerFrameId, OfKey(i.idempotencyKey))))
      modifies odb
      ensures Step(r, odb.tables) == P.Prepare(saved, i)
    {
      var row := odb.tables.effects[e];
      if row.payloadFingerprint != i.payloadFingerprint {
        odb.tables := saved;
        return Err(EffectPayloadFingerprintChanged);
      }
      if row.capsuleFingerprint != Some(OfCommand(P.CommandOf(i))) {
        odb.tables := saved;
        return Err(EffectPayloadFingerprintChanged);
      }
      if CallbackKey(e, 1) !in odb.tables.capsules {
        odb.tables := saved;
        return Err(CapsuleInvalid);
      }
      if i.hook.HookThrows? {
        odb.tables := saved;
        return Err(HookFailed);
      }
      odb.tables := odb.tables.(tools := P.RunHook(odb.tables.tools, i.hook, e));
      return Ok(P.Prepared(e, 1, OfKey(i.idempotencyKey)));
    }

    method PrepareNew(i: P.PrepareInput, saved: Db) returns (r: Result<P.Prepared>)
      requires i.ownerFrameId in saved.frames && saved.frames[i.ownerFrameId].runId == i.runId
      requires P.Existing(saved, i) == None
      requires odb.tables == saved.(events := Log(saved, i.runId, EffectPrepared(i.ownerFrameId, OfKey(i.idempotencyKey))))
      modifies odb
      ensures Step(r, odb.tables) == P.Prepare(saved, i)
    {
      var e := i.newEffectId;
      if e in odb.tables.effects {
        odb.tables := saved;
        return Err(ConstraintViolation);
      }
      odb.tables := odb.tables.(effects := odb.tables.effects[e := P.NewEffect(i)]);
      if i.approvalId.Some? {
        var a := i.approvalId.value;
        if !P.UnboundApproval(odb.tables, i, a) {
          odb.tables := saved;
          return Err(ApprovalRequired);
        }
        odb.tables := odb.tables.(approvals :=
          odb.tables.approvals[a := odb.tables.approvals[a].(effectId := Some(e), effectRevision := Some(1))]);
      }
      hide P.NewEffect, P.UnboundApproval;
      r := SealAndIndex(i, saved);
    }

    /** The second half of a new prepare: seal the callback, claim the key, draw the
        edge, run the caller's hook. */
    method SealAndIndex(i: P.PrepareInput, saved: Db) returns (r: Result<P.Prepared>)
      requires i.ownerFrameId in saved.frames && saved.frames[i.ownerFrameId].runId == i.runId
      requires P.Existing(saved, i) == None && i.newEffectId !in saved.effects
      requires i.approvalId.Some? ==> P.UnboundApproval(saved, i, i.approvalId.value)
      requires odb.tables == saved.(
        events := Log(saved, i.runId, EffectPrepared(i.ownerFrameId, OfKey(i.idempotencyKey))),
        effects := saved.effects[i.newEffectId := P.NewEffect(i)],
        approvals := P.BindApproval(saved.approvals, i.approvalId, i.newEffectId))
      modifies odb
      ensures Step(r, odb.tables) == P.Prepare(saved, i)
    {
      hide P.NewEffect, P.UnboundApproval, P.BindApproval;
      var e, keyHash, command := i.newEffectId, OfKey(i.idempotencyKey), P.CommandOf(i);
      if CallbackKey(e, 1) in odb.tables.capsules {
        odb.tables := saved;
        return Err(CapsuleInvalid);
      }
      var capsule := Capsule(WorkspaceOf(odb.tables, i.runId), i.runId, None, i.adapterKind, OfCommand(command),
                             odb.tables.clock + SEVEN_DAYS_MS, SealedCommand(command), OfCommand(command));
      odb.tables := odb.tables.(capsules := odb.tables.capsules[CallbackKey(e, 1) := capsule]);
      if keyHash in odb.tables.keyIndex {
        odb.tables := saved;
        return Err(ConstraintViolation);
      }
      odb.tables := odb.tables.(keyIndex := odb.tables.keyIndex[keyHash := e]);
      odb.tables := odb.tables.(edges := AppendEdge(odb.tables.edges, Edge(i.ownerFrameId, OwnsEffect, e), i.runId));
      if i.hook.HookThrows? {
        odb.tables := saved;
        return Err(HookFailed);
      }
      odb.tables := odb.tables.(tools := P.RunHook(odb.tables.tools, i.hook, e));
      return Ok(P.Prepared(e, 1, keyHash));
    }
  }
}
