// A verdict compares its lease with an instant that may lie behind the clock of its
// transaction. When can a verdict on a received effect still land after its lease has
// expired?

module VerdictExpiry {
  import opened Tables
  import opened CapsuleStore
  import opened EffectProtocol
  import opened DurableRuntime
  import opened IngressReview
  import opened Kernel
  import opened Evolution
  import opened Replay
  import opened LeaseFencing
  import opened Evidence

  /** The verdict with instant t is accepted here although its lease has expired. */
  predicate LandsExpired(db: Db, i: FinalizeInput, t: nat) {
    && FinalizeError(db, i, t).None?
    && i.effectId in db.effects && db.effects[i.effectId].runId in db.leases
    && db.leases[db.effects[i.effectId].runId].expiresAt <= db.clock
  }

  function Max(a: nat, b: nat): nat { if a < b then b else a }

  /** The token is the lease row's and was alive at the verdict's instant, the reviewed
      result is the sealed one and outlives the lease, and nothing else refuses. */
  predicate OutlivesLease(db: Db, i: FinalizeInput, t: nat) {
    && i.effectId in db.effects
    && var e := db.effects[i.effectId];
    && Current(db, Fence(e.runId, i.leaseHolder, i.leaseVersion)) && i.leaseVersion != 0
    && t < db.leases[e.runId].expiresAt
    && e.receiptId.Some? && e.receiptId.value in db.receipts
    && var receipt := db.receipts[e.receiptId.value];
    && receipt.providerStatus in {Some("ok"), Some("applied")} && receipt.capsuleHash == Some(i.reviewerDigest)
    && ResultKey(i.effectId, receipt.attemptNo) in db.capsules
    && Max(db.clock, db.leases[e.runId].expiresAt) < db.capsules[ResultKey(i.effectId, receipt.attemptNo)].expiresAt
    && i.newFindingId !in db.findings && i.newDecisionId !in db.decisions && !i.hookThrows
  }

  /* ---------- a received effect ends once ---------- */

  predicate Ended(s: EffectState) { s == Committed || s == Quarantined || s == Failed }

  lemma StepFromReceived(db: Db, op: Op, e: Id)
    requires e in db.effects && Backed(Apply(db, op))
    ensures e in Apply(db, op).effects
    ensures db.effects[e].state == Received || Ended(db.effects[e].state) ==>
      Apply(db, op).effects[e] == db.effects[e] || Ended(Apply(db, op).effects[e].state)
  {
    hide *;
    var c := StepChange(db, op);
    ChangeKeepsRow(db, Apply(db, op), c, e);
    KnownState(Apply(db, op), e);
    ChangeFromReceived(db, Apply(db, op), c, e);
  }

  lemma KnownState(db: Db, e: Id)
    requires Backed(db) && e in db.effects
    ensures Waiting(db.effects[e].state) || Answered(db.effects[e].state)
  {
    hide Backed, Authentic;
    RowFacts(db, e);
  }

  lemma ChangeKeepsRow(a: Db, b: Db, c: Change, e: Id)
    requires Describes(a, b, c) && e in a.effects
    ensures e in b.effects
  {
    hide NewRow, MovedRow;
  }

  lemma ChangeFromReceived(a: Db, b: Db, c: Change, e: Id)
    requires Describes(a, b, c) && e in a.effects && e in b.effects
    requires Waiting(b.effects[e].state) || Answered(b.effects[e].state)
    ensures a.effects[e].state == Received || Ended(a.effects[e].state) ==>
      b.effects[e] == a.effects[e] || Ended(b.effects[e].state)
  {
    hide NewRow, Target;
  }

  lemma {:induction false} ReceivedOrEnded(ops: seq<Op>, more: seq<Op>, e: Id)
    requires ProtocolRun(ops + more)
    requires e in Exec(EmptyDb, ops).effects && Exec(EmptyDb, ops).effects[e].state == Received
    ensures var db, later := Exec(EmptyDb, ops), Exec(EmptyDb, ops + more);
      e in later.effects && (later.effects[e] == db.effects[e] || Ended(later.effects[e].state))
    decreases |more|
  {
    hide *;
    if more == [] {
      assert ops + more == ops;
    } else {
      var rest, last := more[..|more| - 1], more[|more| - 1];
      assert ops + more == (ops + rest) + [last];
      FirstsAreProtocol(ops + rest, last);
      ReceivedOrEnded(ops, rest, e);
      ExecOne(EmptyDb, ops + rest, last);
      AnsweredEffectsAreBacked(ops + more);
      StepFromReceived(Exec(EmptyDb, ops + rest), last, e);
    }
  }

  lemma FirstsAreProtocol(ops: seq<Op>, last: Op)
    requires ProtocolRun(ops + [last])
    ensures ProtocolRun(ops)
  {
    forall n | 0 <= n < |ops| ensures ProtocolOp(ops[n]) {
      assert (ops + [last])[n] == ops[n];
    }
  }

  /* ---------- what an accepted verdict needs ---------- */

  /** The sealed result of a received effect opens until it expires. */
  lemma PayloadOpensIff(db: Db, e: Id)
    requires Backed(db) && e in db.effects && db.effects[e].state == Received
    ensures db.effects[e].receiptId.Some? && db.effects[e].receiptId.value in db.receipts
    ensures var receipt := db.receipts[db.effects[e].receiptId.value];
      && ResultKey(e, receipt.attemptNo) in db.capsules
      && (AuthoritativePayload(db, e).Ok? <==>
            && receipt.providerStatus in {Some("ok"), Some("applied")}
            && db.clock < db.capsules[ResultKey(e, receipt.attemptNo)].expiresAt)
      && (AuthoritativePayload(db, e).Ok? ==> receipt.capsuleHash == Some(DigestOf(AuthoritativePayload(db, e).value)))
  {
    hide Backed, Authentic, AuthoritativePayload, ProviderSuccess;
    RowFacts(db, e);
    AuthenticOpensIff(db, e, db.effects[e].receiptId.value);
  }

  lemma AuthenticOpensIff(db: Db, e: Id, r: Id)
    requires e in db.effects && db.effects[e].receiptId == Some(r)
    requires Authentic(e, db.effects[e].runId, r, db.receipts, db.capsules, db.workspaces)
    ensures r in db.receipts && ResultKey(e, db.receipts[r].attemptNo) in db.capsules
    ensures AuthoritativePayload(db, e).Ok? <==>
      && db.receipts[r].providerStatus in {Some("ok"), Some("applied")}
      && db.clock < db.capsules[ResultKey(e, db.receipts[r].attemptNo)].expiresAt
    ensures AuthoritativePayload(db, e).Ok? ==> db.receipts[r].capsuleHash == Some(DigestOf(AuthoritativePayload(db, e).value))
  {
    hide ReceiptHashOf;
  }

  /** What a reviewer can check beforehand: the token was alive at the verdict's instant,
      the digest is that of the sealed result, which has not expired, and the identifiers
      are free. */
  predicate VerdictConditions(db: Db, i: FinalizeInput, t: nat) {
    && i.effectId in db.effects
    && var e := db.effects[i.effectId];
    && e.state == Received && i.leaseVersion != 0
    && e.runId in db.leases
    && var lease := db.leases[e.runId];
    && lease.holderId == i.leaseHolder && lease.version == i.leaseVersion && !lease.released && t < lease.expiresAt
    && e.receiptId.Some? && e.receiptId.value in db.receipts
    && var receipt := db.receipts[e.receiptId.value];
    && receipt.providerStatus in {Some("ok"), Some("applied")} && receipt.capsuleHash == Some(i.reviewerDigest)
    && ResultKey(i.effectId, receipt.attemptNo) in db.capsules
    && db.clock < db.capsules[ResultKey(i.effectId, receipt.attemptNo)].expiresAt
    && i.newFindingId !in db.findings && i.newDecisionId !in db.decisions && !i.hookThrows
  }

  lemma GuardIff(db: Db, i: FinalizeInput, t: nat)
    requires Backed(db)
    ensures FinalizeError(db, i, t).None? <==> VerdictConditions(db, i, t)
  {
    hide *;
    if Receivable(db, i) {
      ReceivedGuardIff(db, i, t);
    } else {
      OthersRefused(db, i, t);
    }
  }

  predicate Receivable(db: Db, i: FinalizeInput) { i.effectId in db.effects && db.effects[i.effectId].state == Received }

  lemma OthersRefused(db: Db, i: FinalizeInput, t: nat)
    requires Backed(db) && !Receivable(db, i)
    ensures FinalizeError(db, i, t).Some? && !VerdictConditions(db, i, t)
  {
    if i.effectId in db.effects {
      KnownState(db, i.effectId);
    }
    hide Backed, AuthoritativePayload, ProviderSuccess, ActiveLease;
  }

  lemma ReceivedGuardIff(db: Db, i: FinalizeInput, t: nat)
    requires Backed(db) && Receivable(db, i)
    ensures FinalizeError(db, i, t).None? <==> VerdictConditions(db, i, t)
  {
    RunExists(db, i.effectId);
    LeaseIff(db, Fence(db.effects[i.effectId].runId, i.leaseHolder, i.leaseVersion), t);
    PayloadOpensIff(db, i.effectId);
    hide Backed, AuthoritativePayload, ProviderSuccess, ActiveLease;
  }

  lemma RunExists(db: Db, e: Id)
    requires Backed(db) && e in db.effects
    ensures db.effects[e].runId in db.workspaces
  {
    RowFacts(db, e);
    hide Backed, Authentic;
  }

  /** Over protocol runs a verdict at instant t is accepted exactly under these conditions. */
  lemma VerdictAcceptedIff(ops: seq<Op>, i: FinalizeInput, t: nat)
    requires ProtocolRun(ops)
    ensures var db := Exec(EmptyDb, ops); FinalizeAt(db, i, t).result.Ok? <==> VerdictConditions(db, i, t)
  {
    hide *;
    var db := Exec(EmptyDb, ops);
    AnsweredEffectsAreBacked(ops);
    GuardIff(db, i, t);
    if FinalizeError(db, i, t).None? {
      FinalizeAccepted(db, i, t);
      OkIsOk(FinalizeAt(db, i, t), StateAfter(i.outcome));
    } else {
      FinalizeRefused(db, i, t);
    }
  }

  lemma OkIsOk(step: Step<EffectState>, s: EffectState)
    requires step.result == Ok(s)
    ensures step.result.Ok?
  {
  }

  lemma AcceptedVerdictIff(db: Db, i: FinalizeInput, t: nat)
    requires Backed(db) && i.effectId in db.effects && db.effects[i.effectId].state == Received
    requires db.effects[i.effectId].runId in db.leases
    requires db.leases[db.effects[i.effectId].runId].expiresAt <= db.clock
    ensures FinalizeError(db, i, t).None? <==> OutlivesLease(db, i, t)
  {
    GuardIff(db, i, t);
    hide Backed, FinalizeError, ProviderSuccess;
  }

  lemma LeaseIff(db: Db, f: Fence, t: nat)
    ensures ActiveLease(db, f.runId, f.holderId, f.version, t) <==> Current(db, f) && t < db.leases[f.runId].expiresAt
  {
  }

  /** What outlives the lease at a later moment of the same lease does so now. */
  lemma OutlivesEarlier(a: Db, b: Db, i: FinalizeInput, t: nat)
    requires Evolves(a, b) && OutlivesLease(b, i, t) && i.effectId in a.effects && b.effects[i.effectId] == a.effects[i.effectId]
    requires Backed(a) && a.effects[i.effectId].state == Received
    requires var r := a.effects[i.effectId].runId; r in a.leases && i.leaseVersion <= a.leases[r].version
    ensures OutlivesLease(a, i, t)
  {
    PayloadOpensIff(a, i.effectId);
    hide Backed, AuthoritativePayload, ProviderSuccess, FramesEvolve, ApprovalsEvolve, RepairsEvolve, EffectsEvolve, Prefix;
  }

  lemma Waited(db: Db, ms: nat)
    ensures Exec(db, [Env(Tick(ms))]) == db.(clock := db.clock + ms) && ProtocolRun([Env(Tick(ms))])
  {
    ExecNone(db);
    ExecOne(db, [], Env(Tick(ms)));
    assert [] + [Env(Tick(ms))] == [Env(Tick(ms))];
    hide Exec;
  }

  /** Some continuation accepts the verdict under its expired lease. */
  ghost predicate CanLandExpired(ops: seq<Op>, i: FinalizeInput, t: nat) {
    exists more: seq<Op> :: ProtocolRun(ops + more) && LandsExpired(Exec(EmptyDb, ops + more), i, t)
  }

  /** A verdict on a received effect, with a token that has been issued, can be accepted
      after its lease has expired in some continuation if and only if the token is still
      the lease row's, the verdict's instant lies before the expiry, the reviewed result
      outlives the lease, and nothing else refuses the verdict. */
  lemma LandsExpiredIff(ops: seq<Op>, i: FinalizeInput, t: nat)
    requires ProtocolRun(ops)
    requires var db := Exec(EmptyDb, ops);
      && i.effectId in db.effects && db.effects[i.effectId].state == Received
      && var r := db.effects[i.effectId].runId; r in db.leases && i.leaseVersion <= db.leases[r].version
    ensures CanLandExpired(ops, i, t) <==> OutlivesLease(Exec(EmptyDb, ops), i, t)
  {
    hide LandsExpired, OutlivesLease, Exec, ProtocolRun;
    if OutlivesLease(Exec(EmptyDb, ops), i, t) {
      WaitingSuffices(ops, i, t);
    }
    if CanLandExpired(ops, i, t) {
      var more: seq<Op> :| ProtocolRun(ops + more) && LandsExpired(Exec(EmptyDb, ops + more), i, t);
      LandedOutlived(ops, more, i, t);
    }
  }

  lemma WaitingSuffices(ops: seq<Op>, i: FinalizeInput, t: nat)
    requires ProtocolRun(ops) && OutlivesLease(Exec(EmptyDb, ops), i, t)
    requires Exec(EmptyDb, ops).effects[i.effectId].state == Received
    ensures CanLandExpired(ops, i, t)
  {
    hide *;
    var db := Exec(EmptyDb, ops);
    HasLease(db, i, t);
    var ms := Wait(db, i);
    var more := [Env(Tick(ms))];
    Waited(db, ms);
    ExecAppend(EmptyDb, ops, more);
    TickIsProtocol(ops, ms);
    AnsweredEffectsAreBacked(ops + more);
    StillOutlives(db, i, t);
    ExpiredByThen(db, i);
    AcceptedVerdictIff(db.(clock := db.clock + ms), i, t);
    Lands(db.(clock := db.clock + ms), i, t);
    LandsAfter(ops, more, i, t);
  }

  /** From here to the first moment at which the lease has expired. */
  function Wait(db: Db, i: FinalizeInput): nat
    requires i.effectId in db.effects && db.effects[i.effectId].runId in db.leases
  {
    Max(db.clock, db.leases[db.effects[i.effectId].runId].expiresAt) - db.clock
  }

  lemma HasLease(db: Db, i: FinalizeInput, t: nat)
    requires OutlivesLease(db, i, t)
    ensures i.effectId in db.effects && db.effects[i.effectId].runId in db.leases
  {
  }

  lemma TickIsProtocol(ops: seq<Op>, ms: nat)
    requires ProtocolRun(ops)
    ensures ProtocolRun(ops + [Env(Tick(ms))])
  {
  }

  lemma ExpiredByThen(db: Db, i: FinalizeInput)
    requires i.effectId in db.effects && db.effects[i.effectId].runId in db.leases
    ensures db.leases[db.effects[i.effectId].runId].expiresAt <= db.clock + Wait(db, i)
  {
  }

  lemma StillOutlives(db: Db, i: FinalizeInput, t: nat)
    requires OutlivesLease(db, i, t)
    ensures i.effectId in db.effects && db.effects[i.effectId].runId in db.leases
    ensures OutlivesLease(db.(clock := db.clock + Wait(db, i)), i, t)
  {
    hide ProviderSuccess;
  }

  lemma Lands(db: Db, i: FinalizeInput, t: nat)
    requires FinalizeError(db, i, t).None?
    requires i.effectId in db.effects && db.effects[i.effectId].runId in db.leases
    requires db.leases[db.effects[i.effectId].runId].expiresAt <= db.clock
    ensures LandsExpired(db, i, t)
  {
    hide FinalizeError;
  }

  lemma LandsAfter(ops: seq<Op>, more: seq<Op>, i: FinalizeInput, t: nat)
    requires ProtocolRun(ops + more) && LandsExpired(Exec(EmptyDb, ops + more), i, t)
    ensures CanLandExpired(ops, i, t)
  {
    hide Exec, ProtocolRun, LandsExpired;
  }

  lemma LandedOutlived(ops: seq<Op>, more: seq<Op>, i: FinalizeInput, t: nat)
    requires ProtocolRun(ops) && ProtocolRun(ops + more) && LandsExpired(Exec(EmptyDb, ops + more), i, t)
    requires var db := Exec(EmptyDb, ops);
      && i.effectId in db.effects && db.effects[i.effectId].state == Received
      && var r := db.effects[i.effectId].runId; r in db.leases && i.leaseVersion <= db.leases[r].version
    ensures OutlivesLease(Exec(EmptyDb, ops), i, t)
  {
    hide Exec, Backed, ProtocolRun, FinalizeError, OutlivesLease, Evolves;
    var a, b := Exec(EmptyDb, ops), Exec(EmptyDb, ops + more);
    ReceivedOrEnded(ops, more, i.effectId);
    AnsweredEffectsAreBacked(ops);
    AnsweredEffectsAreBacked(ops + more);
    ExecAppend(EmptyDb, ops, more);
    RunEvolves(a, more);
    FinalizeAdmits(b, i, t);
    assert b.effects[i.effectId] == a.effects[i.effectId];
    AcceptedVerdictIff(b, i, t);
    OutlivesEarlier(a, b, i, t);
  }
}
