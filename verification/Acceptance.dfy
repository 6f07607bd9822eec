// When the protocol says yes. In reachable states every integrity check succeeds, so
// a callback intent or a terminal commit is accepted exactly under the conditions a
// caller can see: rows, revisions, attempts, leases, approvals and expiry.

module Acceptance {
  import opened Tables
  import opened CapsuleStore
  import opened EffectProtocol
  import opened IngressReview
  import opened Kernel
  import opened Evolution
  import opened Replay
  import opened Forest
  import opened Lineage
  import opened Evidence
  import opened Conservation
  import opened ApprovalGate

  /** What a caller of commitToTerminal can check beforehand. */
  predicate CommitConditions(db: Db, i: CommitInput) {
    && i.effectId in db.effects && i.effectId !in db.tools
    && var e := db.effects[i.effectId];
    && e.state == Received && e.revision == i.expectedRevision
    && e.runId in db.leases
    && var lease := db.leases[e.runId];
    && lease.holderId == i.leaseHolder && lease.version == i.expectedLeaseVersion && !lease.released
    && db.clock < lease.expiresAt
    && e.receiptId == Some(i.receiptId)
    && i.receiptId in db.receipts && db.receipts[i.receiptId].attemptNo == i.attemptNo
    && ResultKey(i.effectId, i.attemptNo) in db.capsules
    && db.clock < db.capsules[ResultKey(i.effectId, i.attemptNo)].expiresAt
    && i.newFindingId !in db.findings
  }

  lemma AuthenticOpens(db: Db, e: Id, r: Id)
    requires e in db.effects && db.effects[e].receiptId == Some(r)
    requires Authentic(e, db.effects[e].runId, r, db.receipts, db.capsules, db.workspaces)
    ensures var n := db.receipts[r].attemptNo;
      OpenAuthoritativeResult(db, e, db.effects[e], r, n).Ok? <==> db.clock < db.capsules[ResultKey(e, n)].expiresAt
  {
  }

  lemma AuthenticOnly(db: Db, e: Id, r: Id, n: int)
    requires e in db.effects
    requires OpenAuthoritativeResult(db, e, db.effects[e], r, n).Ok?
    ensures db.effects[e].receiptId == Some(r) && r in db.receipts && db.receipts[r].attemptNo == n
    ensures ResultKey(e, n) in db.capsules
  {
  }

  lemma CommitOkIsGuarded(db: Db, i: CommitInput)
    ensures CommitToTerminal(db, i).result.Ok? <==> CommitGuard(db, i)
  {
    hide CommitRowError, OpenAuthoritativeResult, LogsCapsuleFailure, CommitPost;
  }

  /** A terminal commit is accepted if and only if the visible conditions hold: no
      receipt or capsule written by the protocol ever fails its own verification. */
  lemma CommitAcceptedIff(ops: seq<Op>, i: CommitInput)
    requires ProtocolRun(ops)
    ensures var db := Exec(EmptyDb, ops); CommitToTerminal(db, i).result.Ok? <==> CommitConditions(db, i)
  {
    var db := Exec(EmptyDb, ops);
    AnsweredEffectsAreBacked(ops);
    CommitOkIsGuarded(db, i);
    hide Exec, CommitToTerminal, CommitGuard, CommitConditions;
    CommitGuardIff(db, i);
  }

  lemma CommitRowIff(db: Db, i: CommitInput)
    ensures CommitRowError(db, i).None? <==>
      && i.effectId in db.effects && i.effectId !in db.tools
      && var e := db.effects[i.effectId];
      && e.state == Received && e.revision == i.expectedRevision
      && e.runId in db.leases
      && var lease := db.leases[e.runId];
      && lease.holderId == i.leaseHolder && lease.version == i.expectedLeaseVersion && !lease.released
      && db.clock < lease.expiresAt
  {
  }

  lemma CommitGuardIff(db: Db, i: CommitInput)
    requires Backed(db)
    ensures CommitGuard(db, i) <==> CommitConditions(db, i)
  {
    CommitRowIff(db, i);
    hide CommitRowError;
    var e := i.effectId;
    if CommitRowError(db, i).None? {
      RowFacts(db, e);
      AuthenticOpens(db, e, db.effects[e].receiptId.value);
      hide Authentic, Backed;
      if OpenAuthoritativeResult(db, e, db.effects[e], i.receiptId, i.attemptNo).Ok? {
        AuthenticOnly(db, e, i.receiptId, i.attemptNo);
      }
      hide OpenAuthoritativeResult;
    }
  }

  /** The approval is for this attempt: approved, alive, of the right type, with a use
      left, and it agrees with the effect on everything it was given for. */
  predicate Permits(row: Approval, effectId: Id, e: Effect, workspaceId: Id, retry: bool, now: nat) {
    && row.decision == Approved && row.usesConsumed < row.useLimit
    && (row.expiresAt == None || now < row.expiresAt.value)
    && row.approvalType in (if retry then {RecoveryRetry} else {Egress, ToolInvocation})
    && row.effectId == Some(effectId) && row.runId == e.runId && row.workspaceId == workspaceId
    && row.scopeHash == e.scopeHash && row.scopeHash !in {None, Some("")}
    && row.policyVersionHash == e.policyVersionHash && row.policyVersionHash !in {None, Some("")}
    && row.payloadFingerprint == Some(e.payloadFingerprint)
  }

  /** An effect under approval, by its route or by the approval it was prepared or last
      called with, is called with one: the first time with that one, later with another.
      An approval that is named must permit the attempt. */
  predicate Approvable(db: Db, e: Effect, i: CasInput)
    requires e.runId in db.workspaces
  {
    && (e.routeId.Some? && e.routeId.value in db.routes && db.routes[e.routeId.value] ==> i.approvalId.Some?)
    && (e.approvalId.Some? ==> i.approvalId.Some? && (i.approvalId == e.approvalId <==> !i.retry))
    && (i.approvalId.Some? ==>
          && i.approvalId.value in db.approvals
          && Permits(db.approvals[i.approvalId.value], i.effectId, e, db.workspaces[e.runId], i.retry, db.clock)
          && AttemptKey(i.effectId, i.attemptNo) !in db.bindings)
  }

  /** What a caller of casToInFlight can check beforehand. */
  ghost predicate IntentConditions(db: Db, i: CasInput) {
    && i.effectId in db.effects
    && var e := db.effects[i.effectId];
    && e.revision == i.expectedRevision
    && (if i.retry then e.state == Unknown && 1 < i.attemptNo <= Top(Intents(i.effectId, db.events)) + 1
        else e.state == Planned && i.attemptNo == 1)
    && e.capsuleFingerprint.Some?
    && CallbackKey(i.effectId, 1) in db.capsules
    && db.clock < db.capsules[CallbackKey(i.effectId, 1)].expiresAt
    && e.runId in db.leases
    && var lease := db.leases[e.runId];
    && lease.holderId == i.leaseHolder && !lease.released && db.clock < lease.expiresAt
    && (i.expectedLeaseVersion.Some? ==> i.expectedLeaseVersion.value == lease.version)
    && e.runId in db.workspaces && Approvable(db, e, i)
  }

  lemma ApprovableIff(db: Db, i: CasInput)
    requires i.effectId in db.effects && db.effects[i.effectId].runId in db.workspaces
    requires Conserved(db.approvals, db.bindings, db.consumptions)
    ensures ApprovalError(db, db.effects[i.effectId], i).None? <==> Approvable(db, db.effects[i.effectId], i)
  {
    if i.approvalId.Some? {
      CoversIff(db, i);
    }
    hide ApprovalCovers, Permits, Counted, OwnApproval;
  }

  lemma CoversIff(db: Db, i: CasInput)
    requires i.effectId in db.effects && db.effects[i.effectId].runId in db.workspaces && i.approvalId.Some?
    ensures var e, a := db.effects[i.effectId], i.approvalId.value;
      ApprovalCovers(db, i.effectId, e, i.retry, a) <==>
        a in db.approvals && Permits(db.approvals[a], i.effectId, e, db.workspaces[e.runId], i.retry, db.clock)
  {
  }

  lemma RowAndLeaseIff(db: Db, i: CasInput)
    requires i.effectId in db.effects
    ensures CasRowError(db, i).None? <==>
      && db.effects[i.effectId].revision == i.expectedRevision
      && (if i.retry then db.effects[i.effectId].state == Unknown && 1 < i.attemptNo
          else db.effects[i.effectId].state == Planned && i.attemptNo == 1)
    ensures CasLeaseError(db, i).None? <==>
      && db.effects[i.effectId].runId in db.leases
      && var lease := db.leases[db.effects[i.effectId].runId];
      && lease.holderId == i.leaseHolder && !lease.released && db.clock < lease.expiresAt
      && (i.expectedLeaseVersion.Some? ==> i.expectedLeaseVersion.value == lease.version)
  {
  }

  lemma CommandOpens(db: Db, i: CasInput, k: int)
    requires i.effectId in db.effects && InLine(i.effectId, db.effects[i.effectId], db.capsules, k) && k >= 1
    requires if i.retry then 1 < i.attemptNo else i.attemptNo == 1
    ensures CasCommand(db, i).Ok? <==>
      i.attemptNo <= k + 1 && db.clock < db.capsules[CallbackKey(i.effectId, 1)].expiresAt
    ensures CasCommand(db, i).Ok? ==>
      SealedCommand(CasCommand(db, i).value) == db.capsules[CallbackKey(i.effectId, 1)].body
  {
  }

  lemma NoCommandWithoutPrepare(db: Db, i: CasInput)
    requires i.effectId in db.effects && NoCallbacks(i.effectId, db.capsules)
    ensures CasCommand(db, i).Err?
  {
  }

  lemma CommandIff(db: Db, i: CasInput)
    requires i.effectId in db.effects
    requires if i.retry then 1 < i.attemptNo else i.attemptNo == 1
    requires var e := i.effectId;
      if db.effects[e].capsuleFingerprint.Some? then InLine(e, db.effects[e], db.capsules, Top(Intents(e, db.events)))
      else NoCallbacks(e, db.capsules)
    ensures CasCommand(db, i).Ok? <==>
      && db.effects[i.effectId].capsuleFingerprint.Some?
      && (i.retry ==> i.attemptNo <= Top(Intents(i.effectId, db.events)) + 1)
      && CallbackKey(i.effectId, 1) in db.capsules
      && db.clock < db.capsules[CallbackKey(i.effectId, 1)].expiresAt
    ensures CasCommand(db, i).Ok? ==>
      && CallbackKey(i.effectId, 1) in db.capsules
      && SealedCommand(CasCommand(db, i).value) == db.capsules[CallbackKey(i.effectId, 1)].body
  {
    if db.effects[i.effectId].capsuleFingerprint.Some? {
      CommandOpens(db, i, Top(Intents(i.effectId, db.events)));
    } else {
      NoCommandWithoutPrepare(db, i);
    }
    hide CasCommand;
  }

  /** What an accepted intent answers: the next revision, the lease it runs under, and the
      command of the capsule sealed first. */
  predicate Answers(db: Db, i: CasInput, out: CasOutput)
    requires i.effectId in db.effects
  {
    && out.effectId == i.effectId && out.attemptNo == i.attemptNo
    && out.revision == db.effects[i.effectId].revision + 1
    && db.effects[i.effectId].runId in db.leases && out.leaseVersion == db.leases[db.effects[i.effectId].runId].version
    && CallbackKey(i.effectId, 1) in db.capsules
    && db.capsules[CallbackKey(i.effectId, 1)].body == SealedCommand(out.command)
  }

  lemma OkAnswers(db: Db, i: CasInput)
    requires CasGuard(db, i) && CallbackKey(i.effectId, 1) in db.capsules
    requires SealedCommand(CasCommand(db, i).value) == db.capsules[CallbackKey(i.effectId, 1)].body
    ensures CasToInFlight(db, i).result.Ok? && Answers(db, i, CasToInFlight(db, i).result.value)
  {
    hide CasRowError, CasCommand, ApprovalError, CasPost;
  }

  /** A callback intent is accepted if and only if the visible conditions hold, and it
      then hands out the very command that was sealed at prepare. */
  lemma IntentAcceptedIff(ops: seq<Op>, i: CasInput)
    ensures var db := Exec(EmptyDb, ops); CasToInFlight(db, i).result.Ok? <==> IntentConditions(db, i)
    ensures var db := Exec(EmptyDb, ops);
      CasToInFlight(db, i).result.Ok? ==>
        i.effectId in db.effects && Answers(db, i, CasToInFlight(db, i).result.value)
  {
    hide Exec, CasToInFlight, IntentConditions, CasGuard, Answers;
    var db := Exec(EmptyDb, ops);
    OkIsGuarded(db, i);
    IntentGuardIff(ops, i);
    if CasGuard(db, i) {
      GuardHasRow(db, i);
      OkAnswers(db, i);
    }
  }

  lemma GuardHasRow(db: Db, i: CasInput)
    requires CasGuard(db, i)
    ensures i.effectId in db.effects
  {
    hide CasCommand, CasLeaseError, ApprovalError;
  }

  lemma IntentGuardIff(ops: seq<Op>, i: CasInput)
    ensures var db := Exec(EmptyDb, ops); CasGuard(db, i) <==> IntentConditions(db, i)
    ensures var db := Exec(EmptyDb, ops);
      CasGuard(db, i) ==>
        CallbackKey(i.effectId, 1) in db.capsules
        && SealedCommand(CasCommand(db, i).value) == db.capsules[CallbackKey(i.effectId, 1)].body
  {
    var db := Exec(EmptyDb, ops);
    hide Exec;
    if i.effectId in db.effects {
      CapsulesAreOneToK(ops, i.effectId);
      AuthorityIsConserved(ops);
      RunsExist(ops, i.effectId);
      RowAndLeaseIff(db, i);
      hide CasRowError, CasLeaseError, ApprovalError, Approvable, Conserved;
      ApprovableIff(db, i);
      if CasRowError(db, i).None? {
        CommandIff(db, i);
      }
      hide CasCommand;
    }
  }
}
