// Receipts and review: what stands behind every effect that has been answered, and
// behind every effect that has ended. The generic transition is left out of these
// runs; it can end an effect without any evidence.

module Evidence {
  import opened Tables
  import opened CapsuleStore
  import opened EffectProtocol
  import opened DurableRuntime
  import opened IngressReview
  import R = RepairPlans
  import opened Kernel
  import opened Evolution
  import opened Replay
  import opened Forest

  /** Answered: a trusted receipt has been recorded. */
  predicate Answered(s: EffectState) { s == Received || s == Committed || s == Quarantined || s == Failed }

  predicate Waiting(s: EffectState) { s == Planned || s == InFlight || s == Unknown || s == CancelledBeforeSend }

  /** The sealed result behind receipt r is intact and is the one the receipt names. */
  ghost predicate Authentic(
    e: Id, runId: Id, r: Id, receipts: map<Id, Receipt>, capsules: map<CapsuleKey, Capsule>, workspaces: map<Id, Id>)
  {
    && r in receipts && runId in workspaces
    && var row := receipts[r];
    && row.effectId == e && row.status == Applied && row.receiptHash == ReceiptHashOf(e, row)
    && row.capsule == Some(ResultKey(e, row.attemptNo)) && ResultKey(e, row.attemptNo) in capsules
    && var c := capsules[ResultKey(e, row.attemptNo)];
    && c.receiptId == Some(r) && c.workspaceId == workspaces[runId] && c.body.SealedResult?
    && var body := c.body.body;
    && c.hash == c.fingerprint == OfResult(body)
    && row.capsuleHash == row.responseHash == Some(OfResult(body))
    && body.attemptNo == row.attemptNo && body.status == Applied && body.providerStatus == row.providerStatus
    && body.requestId == row.requestId && body.requestHash == row.requestHash
  }

  /** A receipt exactly when the effect has been answered, and then an intact one. */
  ghost predicate RowBacked(
    e: Id, row: Effect, receipts: map<Id, Receipt>, capsules: map<CapsuleKey, Capsule>, workspaces: map<Id, Id>)
  {
    && row.runId in workspaces
    && match row.receiptId
       case Some(r) => Answered(row.state) && Authentic(e, row.runId, r, receipts, capsules, workspaces)
       case None => Waiting(row.state)
  }

  /** Every receipt is the authoritative one of its effect, so an effect has at most one. */
  ghost predicate ReceiptsOwned(effects: map<Id, Effect>, receipts: map<Id, Receipt>) {
    forall r :: r in receipts ==>
      receipts[r].effectId in effects && effects[receipts[r].effectId].receiptId == Some(r)
  }

  /** A decision is on the authoritative receipt, over the digest of the sealed
      result, and its outcome is the state of the effect. */
  ghost predicate DecisionBacked(effects: map<Id, Effect>, receipts: map<Id, Receipt>, d: ReviewDecision) {
    && d.effectId in effects && effects[d.effectId].receiptId == Some(d.receiptId)
    && effects[d.effectId].state == StateAfter(d.outcome)
    && d.receiptId in receipts && receipts[d.receiptId].capsuleHash == Some(d.payloadDigest)
  }

  ghost predicate Reviewed(e: Id, outcome: IngressOutcome, decisions: map<Id, ReviewDecision>) {
    exists d :: d in decisions && decisions[d].effectId == e && decisions[d].outcome == outcome
  }

  ghost predicate CommitLogged(e: Id, events: seq<Event>) {
    exists i :: 0 <= i < |events| && events[i].kind.EffectCommitted? && events[i].kind.effectId == e
  }

  /** An ended effect was reviewed, or committed by commitToTerminal. */
  ghost predicate EndBacked(e: Id, s: EffectState, decisions: map<Id, ReviewDecision>, events: seq<Event>) {
    && (s == Quarantined ==> Reviewed(e, QuarantinedOutcome, decisions))
    && (s == Failed ==> Reviewed(e, Rejected, decisions))
    && (s == Committed ==> Reviewed(e, Accepted, decisions) || CommitLogged(e, events))
  }

  ghost predicate Backed(db: Db) {
    && (forall e :: e in db.effects ==> RowBacked(e, db.effects[e], db.receipts, db.capsules, db.workspaces))
    && ReceiptsOwned(db.effects, db.receipts)
    && (forall d :: d in db.decisions ==> DecisionBacked(db.effects, db.receipts, db.decisions[d]))
    && (forall e :: e in db.effects ==> EndBacked(e, db.effects[e].state, db.decisions, db.events))
  }

  /* ---------- steps ---------- */

  /** Evidence is only ever added. */
  ghost predicate EvidenceGrows(a: Db, b: Db) {
    && SubMap(a.receipts, b.receipts) && SubMap(a.capsules, b.capsules) && SubMap(a.workspaces, b.workspaces)
    && SubMap(a.decisions, b.decisions) && a.events <= b.events
  }

  lemma RowStaysBacked(a: Db, b: Db, e: Id, x: Effect)
    requires RowBacked(e, x, a.receipts, a.capsules, a.workspaces) && EvidenceGrows(a, b)
    ensures RowBacked(e, x, b.receipts, b.capsules, b.workspaces)
  {
  }

  lemma EndStaysBacked(a: Db, b: Db, e: Id, s: EffectState)
    requires EndBacked(e, s, a.decisions, a.events) && EvidenceGrows(a, b)
    ensures EndBacked(e, s, b.decisions, b.events)
  {
    if CommitLogged(e, a.events) {
      var i :| 0 <= i < |a.events| && a.events[i].kind.EffectCommitted? && a.events[i].kind.effectId == e;
      assert b.events[i] == a.events[i];
    }
  }

  /** One effect changes, the evidence for the others stands. */
  lemma OneRowBacked(a: Db, b: Db, e: Id)
    requires Backed(a) && EvidenceGrows(a, b)
    requires e in b.effects && b.effects == a.effects[e := b.effects[e]]
    requires RowBacked(e, b.effects[e], b.receipts, b.capsules, b.workspaces)
    requires EndBacked(e, b.effects[e].state, b.decisions, b.events)
    requires ReceiptsOwned(b.effects, b.receipts)
    requires forall d :: d in b.decisions && (d !in a.decisions || b.decisions[d].effectId == e) ==>
      DecisionBacked(b.effects, b.receipts, b.decisions[d])
    ensures Backed(b)
  {
    forall e' | e' in b.effects && e' != e
      ensures RowBacked(e', b.effects[e'], b.receipts, b.capsules, b.workspaces)
      ensures EndBacked(e', b.effects[e'].state, b.decisions, b.events)
    {
      assert RowBacked(e', a.effects[e'], a.receipts, a.capsules, a.workspaces);
      assert EndBacked(e', a.effects[e'].state, a.decisions, a.events);
      hide RowBacked, EndBacked, EvidenceGrows, Backed;
      RowStaysBacked(a, b, e', b.effects[e']);
      EndStaysBacked(a, b, e', b.effects[e'].state);
    }
    hide RowBacked, EndBacked;
    forall d | d in b.decisions ensures DecisionBacked(b.effects, b.receipts, b.decisions[d]) {
      if d in a.decisions && b.decisions[d].effectId != e {
        assert DecisionBacked(a.effects, a.receipts, a.decisions[d]);
      }
    }
  }

  /** Nothing happens to the effects at all. */
  lemma NoRowBacked(a: Db, b: Db)
    requires Backed(a) && EvidenceGrows(a, b)
    requires b.effects == a.effects && b.receipts == a.receipts && b.decisions == a.decisions
    ensures Backed(b)
  {
    forall e | e in b.effects
      ensures RowBacked(e, b.effects[e], b.receipts, b.capsules, b.workspaces)
      ensures EndBacked(e, b.effects[e].state, b.decisions, b.events)
    {
      assert RowBacked(e, a.effects[e], a.receipts, a.capsules, a.workspaces);
      assert EndBacked(e, a.effects[e].state, a.decisions, a.events);
      hide RowBacked, EndBacked, EvidenceGrows, Backed;
      RowStaysBacked(a, b, e, b.effects[e]);
      EndStaysBacked(a, b, e, b.effects[e].state);
    }
  }

  lemma UndecidedUntilEnded(db: Db, e: Id, d: Id)
    requires Backed(db) && d in db.decisions && db.decisions[d].effectId == e
    ensures e in db.effects && db.effects[e].state == StateAfter(db.decisions[d].outcome)
  {
    assert DecisionBacked(db.effects, db.receipts, db.decisions[d]);
  }

  /** A waiting effect keeps waiting. */
  lemma WaitingRowBacked(a: Db, b: Db, e: Id)
    requires Backed(a) && EvidenceGrows(a, b) && b.receipts == a.receipts && b.decisions == a.decisions
    requires e in b.effects && b.effects == a.effects[e := b.effects[e]]
    requires b.effects[e].runId in b.workspaces && Waiting(b.effects[e].state) && b.effects[e].receiptId == None
    requires e in a.effects ==> Waiting(a.effects[e].state)
    ensures Backed(b)
  {
    hide Authentic, DecisionBacked;
    assert RowBacked(e, b.effects[e], b.receipts, b.capsules, b.workspaces);
    assert e in a.effects ==> RowBacked(e, a.effects[e], a.receipts, a.capsules, a.workspaces);
    assert e in a.effects ==> a.effects[e].receiptId == None;
    hide RowBacked, EvidenceGrows;
    assert ReceiptsOwned(b.effects, b.receipts);
    forall d | d in b.decisions ensures b.decisions[d].effectId != e {
      if b.decisions[d].effectId == e {
        UndecidedUntilEnded(a, e, d);
      }
    }
    hide Backed, ReceiptsOwned, Waiting;
    OneRowBacked(a, b, e);
  }

  lemma EvolutionGrows(a: Db, b: Db)
    requires Evolves(a, b)
    ensures EvidenceGrows(a, b)
  {
    hide FramesEvolve, EffectsEvolve, LeasesEvolve, RepairsEvolve, ApprovalsEvolve, SubMap;
  }

  lemma OwnerRunExists(db: Db, f: Id)
    requires InForest(db.frames, db.workspaces, db.events) && f in db.frames
    ensures db.frames[f].runId in db.workspaces
  {
    assert WellPlaced(db.frames, db.workspaces, f);
  }

  lemma PrepareGrows(db: Db, i: PrepareInput)
    requires PrepareError(db, i).None?
    ensures EvidenceGrows(db, PreparePost(db, i))
  {
    PrepareEvolves(db, i);
    hide Evolves, PrepareError, PreparePost, EvidenceGrows;
    EvolutionGrows(db, PreparePost(db, i));
  }

  lemma PrepareTables(db: Db, i: PrepareInput)
    ensures var after := PreparePost(db, i);
      && after.receipts == db.receipts
      && after.effects == if Existing(db, i).Some? then db.effects else db.effects[i.newEffectId := NewEffect(i)]
  {
    if Existing(db, i).Some? {
    } else {
    }
  }

  lemma PrepareBacked(db: Db, i: PrepareInput)
    requires Backed(db) && InForest(db.frames, db.workspaces, db.events) && PrepareError(db, i).None?
    ensures Backed(PreparePost(db, i))
  {
    PrepareGrows(db, i);
    OwnerRunExists(db, i.ownerFrameId);
    PrepareTables(db, i);
    assert Existing(db, i).None? ==> i.newEffectId !in db.effects;
    hide EvidenceGrows, InForest, Backed, PreparePost, PrepareError, Existing;
    if Existing(db, i).Some? {
      NoRowBacked(db, PreparePost(db, i));
    } else {
      WaitingRowBacked(db, PreparePost(db, i), i.newEffectId);
    }
  }

  lemma PlanBacked(db: Db, i: PlanInput)
    requires Backed(db) && InForest(db.frames, db.workspaces, db.events) && PlanError(db, i).None?
    ensures Backed(PlanPost(db, i))
  {
    PlanEvolves(db, i);
    OwnerRunExists(db, i.ownerFrameId);
    hide Evolves;
    EvolutionGrows(db, PlanPost(db, i));
    hide EvidenceGrows, InForest, Backed, AppendEdge, Log;
    WaitingRowBacked(db, PlanPost(db, i), i.newEffectId);
  }

  lemma RowFacts(db: Db, e: Id)
    requires Backed(db) && e in db.effects
    ensures db.effects[e].runId in db.workspaces
    ensures Waiting(db.effects[e].state) ==> db.effects[e].receiptId == None
    ensures Answered(db.effects[e].state) ==>
      db.effects[e].receiptId.Some?
      && Authentic(e, db.effects[e].runId, db.effects[e].receiptId.value, db.receipts, db.capsules, db.workspaces)
    ensures Waiting(db.effects[e].state) || Answered(db.effects[e].state)
  {
    assert RowBacked(e, db.effects[e], db.receipts, db.capsules, db.workspaces);
  }

  lemma CasGrows(db: Db, i: CasInput)
    requires CasGuard(db, i)
    ensures EvidenceGrows(db, CasPost(db, i))
  {
    CasEvolves(db, i);
    hide Evolves, CasGuard, CasPost, EvidenceGrows;
    EvolutionGrows(db, CasPost(db, i));
  }

  lemma CasBacked(db: Db, i: CasInput)
    requires Backed(db) && CasGuard(db, i)
    ensures Backed(CasPost(db, i))
  {
    RowFacts(db, i.effectId);
    CasGrows(db, i);
    if i.approvalId.Some? {
      ApprovalAdmits(db, i);
    }
    assert db.effects[i.effectId].state == ExpectedState(i);
    hide CasGuard, Authentic, EvidenceGrows, Backed;
    CasTables(db, i);
    hide CasPost;
    WaitingRowBacked(db, CasPost(db, i), i.effectId);
  }

  lemma UnknownBacked(db: Db, i: UnknownInput)
    requires Backed(db) && UnknownError(db, i).None?
    ensures Backed(UnknownPost(db, i))
  {
    RowFacts(db, i.effectId);
    UnknownEvolves(db, i);
    hide Evolves, Authentic;
    EvolutionGrows(db, UnknownPost(db, i));
    hide EvidenceGrows, Backed, AppendEdge, Log;
    WaitingRowBacked(db, UnknownPost(db, i), i.effectId);
  }

  lemma CancelBacked(db: Db, e: Id, rev: nat)
    requires Backed(db) && CancelError(db, e, rev).None?
    ensures Backed(CancelPost(db, e))
  {
    RowFacts(db, e);
    CancelEvolves(db, e, rev);
    hide Evolves, Authentic;
    EvolutionGrows(db, CancelPost(db, e));
    hide EvidenceGrows, Backed, AppendEdge, Log;
    WaitingRowBacked(db, CancelPost(db, e), e);
  }

  lemma NewReceiptAuthentic(db: Db, i: ReceiptInput)
    requires ReceiptError(db, i).None? && db.effects[i.effectId].runId in db.workspaces
    ensures var b := ReceiptPost(db, i);
      Authentic(i.effectId, db.effects[i.effectId].runId, i.newReceiptId, b.receipts, b.capsules, b.workspaces)
  {
    hide ReceiptExists, AppendEdge, Log;
  }

  lemma ReceiptGrows(db: Db, i: ReceiptInput)
    requires ReceiptError(db, i).None?
    ensures EvidenceGrows(db, ReceiptPost(db, i))
  {
    ReceiptEvolves(db, i);
    hide Evolves, ReceiptError, ReceiptPost, EvidenceGrows;
    EvolutionGrows(db, ReceiptPost(db, i));
  }

  lemma NewReceiptOwned(a: map<Id, Effect>, b: map<Id, Effect>, receipts: map<Id, Receipt>, r: Id, row: Receipt)
    requires ReceiptsOwned(a, receipts) && r !in receipts && OneStep(a, b, row.effectId, Received)
    requires a[row.effectId].receiptId == None && b[row.effectId].receiptId == Some(r)
    ensures ReceiptsOwned(b, receipts[r := row])
  {
  }

  lemma ReceiptRow(db: Db, i: ReceiptInput)
    requires ReceiptError(db, i).None? && db.effects[i.effectId].runId in db.workspaces
    ensures var b, e := ReceiptPost(db, i), i.effectId;
      && db.effects[e].state == InFlight && b.effects[e].receiptId == Some(i.newReceiptId)
      && b.receipts == db.receipts[i.newReceiptId := NewReceipt(i)] && i.newReceiptId !in db.receipts
      && RowBacked(e, b.effects[e], b.receipts, b.capsules, b.workspaces) && b.effects[e].state == Received
  {
    NewReceiptAuthentic(db, i);
    hide Authentic, ReceiptExists, NewReceipt, NewResultCapsule, AppendEdge;
  }

  lemma ReceiptBacked(db: Db, i: ReceiptInput)
    requires Backed(db) && ReceiptError(db, i).None?
    ensures Backed(ReceiptPost(db, i))
  {
    var b, e := ReceiptPost(db, i), i.effectId;
    assert ReceiptsOwned(db.effects, db.receipts);
    hide Backed, EvidenceGrows, RowBacked, Authentic, DecisionBacked, ReceiptsOwned;
    RowFacts(db, e);
    ReceiptGrows(db, i);
    ReceiptRow(db, i);
    hide ReceiptError, ReceiptPost;
    NewReceiptOwned(db.effects, b.effects, db.receipts, i.newReceiptId, NewReceipt(i));
    forall d | d in b.decisions ensures b.decisions[d].effectId != e {
      if b.decisions[d].effectId == e {
        UndecidedUntilEnded(db, e, d);
      }
    }
    hide NewReceipt;
    OneRowBacked(db, b, e);
  }

  /** The last step of a received effect: same receipt, a state of its own. */
  lemma EndedRowBacked(a: Db, b: Db, e: Id)
    requires Backed(a) && EvidenceGrows(a, b) && e in a.effects && e in b.effects
    requires a.effects[e].state == Received && Answered(b.effects[e].state)
    requires b.effects == a.effects[e := b.effects[e]] && b.receipts == a.receipts
    requires b.effects[e].receiptId == a.effects[e].receiptId && b.effects[e].runId == a.effects[e].runId
    requires EndBacked(e, b.effects[e].state, b.decisions, b.events)
    requires forall d :: d in b.decisions && d !in a.decisions ==> DecisionBacked(b.effects, b.receipts, b.decisions[d])
    ensures Backed(b)
  {
    hide DecisionBacked, EndBacked, Authentic;
    RowFacts(a, e);
    RowStaysBacked(a, b, e, a.effects[e]);
    assert RowBacked(e, b.effects[e], b.receipts, b.capsules, b.workspaces);
    assert ReceiptsOwned(a.effects, a.receipts);
    assert SubMap(a.decisions, b.decisions);
    hide RowBacked, Authentic, EvidenceGrows, Backed;
    assert ReceiptsOwned(b.effects, b.receipts);
    hide ReceiptsOwned;
    forall d | d in b.decisions && d in a.decisions ensures b.decisions[d].effectId != e {
      if a.decisions[d].effectId == e {
        UndecidedUntilEnded(a, e, d);
      }
    }
    OneRowBacked(a, b, e);
  }

  lemma CommitGrows(db: Db, i: CommitInput)
    requires LateCommitGuard(db, i)
    ensures EvidenceGrows(db, CommitPost(db, i))
  {
    CommitEvolves(db, i);
    hide Evolves, LateCommitGuard, CommitPost, EvidenceGrows;
    EvolutionGrows(db, CommitPost(db, i));
  }

  lemma CommitTables(db: Db, i: CommitInput)
    requires i.effectId in db.effects
    ensures var after, e := CommitPost(db, i), i.effectId;
      && after.receipts == db.receipts && after.decisions == db.decisions
      && after.effects[e].receiptId == db.effects[e].receiptId && after.effects[e].runId == db.effects[e].runId
      && CommitLogged(e, after.events)
  {
    hide AppendEdge;
    var b := CommitPost(db, i);
    assert b.events[|db.events|].kind == EffectCommitted(i.effectId, i.receiptId);
  }

  lemma CommitEnds(db: Db, i: CommitInput)
    requires i.effectId in db.effects
    ensures EndBacked(i.effectId, Committed, CommitPost(db, i).decisions, CommitPost(db, i).events)
  {
    CommitTables(db, i);
    hide CommitPost, CommitLogged;
  }

  lemma CommittedBacked(db: Db, i: CommitInput)
    requires Backed(db) && i.effectId in db.effects && db.effects[i.effectId].state == Received
    requires EvidenceGrows(db, CommitPost(db, i))
    ensures Backed(CommitPost(db, i))
  {
    var b, e := CommitPost(db, i), i.effectId;
    hide EvidenceGrows, Backed;
    CommitTables(db, i);
    CommitEnds(db, i);
    hide CommitPost, CommitLogged, DecisionBacked, EndBacked;
    EndedRowBacked(db, b, e);
  }

  lemma CommitBacked(db: Db, i: CommitInput)
    requires Backed(db) && LateCommitGuard(db, i)
    ensures Backed(CommitPost(db, i))
  {
    CommitGrows(db, i);
    assert i.effectId in db.effects && db.effects[i.effectId].state == Received;
    hide *;
    CommittedBacked(db, i);
  }

  /** The digest an admitted verdict names is the hash that its receipt carries. */
  lemma VerdictOnSealedResult(db: Db, i: FinalizeInput, now: nat)
    requires FinalizeError(db, i, now).None?
    ensures i.effectId in db.effects && db.effects[i.effectId].receiptId.Some?
    ensures db.effects[i.effectId].receiptId.value in db.receipts
    ensures db.receipts[db.effects[i.effectId].receiptId.value].capsuleHash == Some(i.reviewerDigest)
  {
    hide ActiveLease;
  }

  lemma FinalizeGrows(db: Db, i: FinalizeInput, now: nat)
    requires FinalizeError(db, i, now).None?
    ensures i.effectId in db.effects && db.effects[i.effectId].receiptId.Some?
    ensures EvidenceGrows(db, FinalizePost(db, i))
  {
    FinalizeEvolves(db, i, now);
    hide Evolves, FinalizeError, FinalizePost, EvidenceGrows;
    EvolutionGrows(db, FinalizePost(db, i));
  }

  lemma FinalizeTables(db: Db, i: FinalizeInput)
    requires i.effectId in db.effects && db.effects[i.effectId].receiptId.Some?
    ensures var after, e := FinalizePost(db, i), i.effectId;
      && after.receipts == db.receipts
      && after.decisions == db.decisions[i.newDecisionId :=
           ReviewDecision(i.newFindingId, db.effects[e].receiptId.value, e, i.outcome, i.reviewerDigest)]
      && after.effects[e].receiptId == db.effects[e].receiptId && after.effects[e].runId == db.effects[e].runId
  {
    hide AppendEdge;
  }

  lemma NewDecisionBacked(db: Db, i: FinalizeInput)
    requires i.effectId in db.effects && db.effects[i.effectId].receiptId.Some?
    requires db.effects[i.effectId].receiptId.value in db.receipts
    requires db.receipts[db.effects[i.effectId].receiptId.value].capsuleHash == Some(i.reviewerDigest)
    ensures var b := FinalizePost(db, i);
      && DecisionBacked(b.effects, b.receipts, b.decisions[i.newDecisionId])
      && EndBacked(i.effectId, StateAfter(i.outcome), b.decisions, b.events)
  {
    FinalizeTables(db, i);
    hide FinalizePost, CommitLogged;
    var b := FinalizePost(db, i);
    assert b.decisions[i.newDecisionId].outcome == i.outcome;
    assert Reviewed(i.effectId, i.outcome, b.decisions);
  }

  lemma FinalizedBacked(db: Db, i: FinalizeInput)
    requires Backed(db) && i.effectId in db.effects && db.effects[i.effectId].state == Received
    requires db.effects[i.effectId].receiptId.Some? && db.effects[i.effectId].receiptId.value in db.receipts
    requires db.receipts[db.effects[i.effectId].receiptId.value].capsuleHash == Some(i.reviewerDigest)
    requires i.newDecisionId !in db.decisions && EvidenceGrows(db, FinalizePost(db, i))
    ensures Backed(FinalizePost(db, i))
  {
    var b, e := FinalizePost(db, i), i.effectId;
    hide EvidenceGrows, Backed;
    FinalizeTables(db, i);
    NewDecisionBacked(db, i);
    hide FinalizePost, DecisionBacked, EndBacked;
    EndedRowBacked(db, b, e);
  }

  lemma FinalizeBacked(db: Db, i: FinalizeInput, now: nat)
    requires Backed(db) && FinalizeError(db, i, now).None?
    ensures i.effectId in db.effects && db.effects[i.effectId].receiptId.Some?
    ensures Backed(FinalizePost(db, i))
  {
    FinalizeAdmits(db, i, now);
    VerdictOnSealedResult(db, i, now);
    FinalizeGrows(db, i, now);
    RowFacts(db, i.effectId);
    assert db.effects[i.effectId].state == Received;
    hide *;
    FinalizedBacked(db, i);
  }

  /* ---------- every protocol step, every protocol run ---------- */

  lemma LedgerBacked(db: Db, op: LedgerOp)
    requires !op.TransitionOp?
    requires Backed(db) && InForest(db.frames, db.workspaces, db.events)
    ensures Backed(ApplyLedger(db, op))
  {
    LedgerOpsAreAtomic(db, op);
    hide ApplyLedger, Backed, InForest, PrepareError, PreparePost, CasGuard, CasPost, ReceiptError, ReceiptPost;
    hide UnknownError, UnknownPost, CancelError, CancelPost, CommitGuard, LateCommitGuard, CommitPost;
    hide FinalizeError, FinalizePost;
    hide PlanError, PlanPost;
    if !LedgerOpEnabled(db, op) {
      NoRowBacked(db, ApplyLedger(db, op));
    } else {
      hide OnlyFailuresLogged;
      match op
      case PlanOp(i) => PlanBacked(db, i);
      case PrepareOp(i) => PrepareBacked(db, i);
      case CasOp(i) => CasBacked(db, i);
      case ReceiptOp(i) => ReceiptBacked(db, i);
      case UnknownOp(i) => UnknownBacked(db, i);
      case CancelOp(e, rev) => CancelBacked(db, e, rev);
      case CommitOp(i) => CommitGuardSplits(db, i); CommitBacked(db, i);
      case LateCommitOp(i) => CommitBacked(db, i);
      case FinalizeOp(i, t) => FinalizeBacked(db, i, t);
    }
  }

  lemma StepBacked(db: Db, op: Op)
    requires ProtocolOp(op) && Backed(db) && InForest(db.frames, db.workspaces, db.events)
    ensures Backed(Apply(db, op))
  {
    hide Backed, InForest, ApplyEnv, ApplyFrame, ApplyAuthority, ApplyLedger, ApplyRepair, ApplyIndex;
    if op.Ledger? {
      LedgerBacked(db, op.ledger);
    } else {
      OthersKeepLedger(db, op);
      StepEvolves(db, op);
      hide Apply, Evolves;
      EvolutionGrows(db, Apply(db, op));
      hide EvidenceGrows;
      NoRowBacked(db, Apply(db, op));
    }
  }

  /** Receipt evidence: in every state that protocol steps reach, an effect has at most
      one receipt, it has one exactly when it is received, committed, quarantined or
      failed, and that receipt names an intact sealed result with status `applied`.
      Every review decision is on that receipt and carries the hash of that result,
      and every ended effect was reviewed or committed by commitToTerminal. */
  lemma {:induction false} AnsweredEffectsAreBacked(ops: seq<Op>)
    requires ProtocolRun(ops)
    ensures Backed(Exec(EmptyDb, ops))
    decreases |ops|
  {
    hide Apply;
    if ops != [] {
      AnsweredEffectsAreBacked(ops[..|ops| - 1]);
      ReachableForest(ops[..|ops| - 1]);
      hide Backed, InForest;
      StepBacked(Exec(EmptyDb, ops[..|ops| - 1]), ops[|ops| - 1]);
    }
  }

  /* ---------- tool effects ---------- */

  /** How an operation can have brought effect e into `committed`. */
  predicate Commits(op: LedgerOp, e: Id) {
    || (op.CommitOp? && op.commit.effectId == e)
    || (op.LateCommitOp? && op.late.effectId == e)
    || (op.FinalizeOp? && op.finalize.effectId == e && op.finalize.outcome == Accepted)
  }

  lemma PreparedKeepsRows(db: Db, i: PrepareInput, e: Id)
    requires PrepareError(db, i).None? && e in db.effects
    ensures e in PreparePost(db, i).effects && PreparePost(db, i).effects[e] == db.effects[e]
  {
    var c := PrepareChange(db, i);
    hide PreparePost, PrepareError, NewRow;
  }

  lemma PlannedKeepsRows(db: Db, i: PlanInput, e: Id)
    requires PlanError(db, i).None? && e in db.effects
    ensures e in PlanPost(db, i).effects && PlanPost(db, i).effects[e] == db.effects[e]
  {
    hide AppendEdge;
  }

  lemma NewlyCommitted(db: Db, op: LedgerOp, e: Id)
    requires !op.TransitionOp? && LedgerOpEnabled(db, op)
    requires e in db.effects && db.effects[e].state != Committed
    ensures e in LedgerOpDone(db, op).effects
    ensures LedgerOpDone(db, op).effects[e].state == Committed ==> Commits(op, e)
  {
    hide PrepareError, CasGuard, ReceiptError, UnknownError, CancelError, CommitGuard, FinalizeError, PlanError;
    hide CasPost, ReceiptPost, UnknownPost, CancelPost, CommitPost, FinalizePost, PreparePost, PlanPost;
    match op
    case PlanOp(i) => PlannedKeepsRows(db, i, e);
    case PrepareOp(i) => PreparedKeepsRows(db, i, e);
    case _ =>
  }

  /** A committed effect was accepted by a reviewer. */
  ghost predicate CommitReviewed(db: Db, e: Id) {
    e in db.effects && db.effects[e].state == Committed ==> Reviewed(e, Accepted, db.decisions)
  }

  lemma AcceptanceReviews(db: Db, i: FinalizeInput, now: nat)
    requires FinalizeError(db, i, now).None?
    ensures i.effectId in db.effects && db.effects[i.effectId].receiptId.Some?
    ensures Reviewed(i.effectId, i.outcome, FinalizePost(db, i).decisions)
  {
    FinalizeAdmits(db, i, now);
    hide FinalizeError, AppendEdge, Log;
    assert FinalizePost(db, i).decisions[i.newDecisionId].outcome == i.outcome;
  }

  /** The operation commits e by commitToTerminal. */
  predicate CommitsUnreviewed(db: Db, op: Op, e: Id) {
    && op.Ledger? && LedgerOpEnabled(db, op.ledger)
    && ((op.ledger.CommitOp? && op.ledger.commit.effectId == e) || (op.ledger.LateCommitOp? && op.ledger.late.effectId == e))
  }

  lemma LedgerKeepsReviewed(db: Db, op: LedgerOp, e: Id)
    requires !op.TransitionOp? && LedgerOpEnabled(db, op) && !CommitsUnreviewed(db, Ledger(op), e)
    requires e in db.effects && db.effects[e].state != Committed
    ensures CommitReviewed(LedgerOpDone(db, op), e)
  {
    NewlyCommitted(db, op, e);
    hide PrepareError, CasGuard, ReceiptError, UnknownError, CancelError, FinalizeError, PlanError, Reviewed;
    hide CommitGuard, LateCommitGuard;
    hide CasPost, ReceiptPost, UnknownPost, CancelPost, CommitPost, FinalizePost, PreparePost, PlanPost;
    if op.FinalizeOp? {
      AcceptanceReviews(db, op.finalize, op.instant);
    }
  }

  /** An effect that a step inserts is planned. */
  lemma NewbornIsUncommitted(db: Db, op: Op, e: Id)
    requires e !in db.effects
    ensures e in Apply(db, op).effects ==> Apply(db, op).effects[e].state == Planned
  {
    var c := StepChange(db, op);
    hide Apply, MovedRow;
  }

  lemma CommittedRowStays(db: Db, op: Op, e: Id)
    requires ProtocolOp(op) && e in db.effects && db.effects[e].state == Committed && Reviewed(e, Accepted, db.decisions)
    ensures Reviewed(e, Accepted, Apply(db, op).decisions)
  {
    StepEvolves(db, op);
    hide Apply, RuntimeEvolves, EffectsEvolve;
  }

  lemma StepKeepsReviewed(db: Db, op: Op, e: Id)
    requires ProtocolOp(op) && CommitReviewed(db, e) && !CommitsUnreviewed(db, op, e)
    ensures CommitReviewed(Apply(db, op), e)
  {
    hide Reviewed, ApplyEnv, ApplyFrame, ApplyAuthority, ApplyLedger, ApplyRepair, ApplyIndex, LedgerOpEnabled, LedgerOpDone;
    if e !in db.effects {
      NewbornIsUncommitted(db, op, e);
    } else if db.effects[e].state == Committed {
      CommittedRowStays(db, op, e);
    } else if op.Ledger? {
      LedgerOpsAreAtomic(db, op.ledger);
      if LedgerOpEnabled(db, op.ledger) {
        LedgerKeepsReviewed(db, op.ledger, e);
      }
    } else {
      OthersKeepLedger(db, op);
      hide Apply;
    }
  }

  /** An accepted decision on the authoritative receipt, over the digest of the result
      that its capsule seals. */
  ghost predicate AcceptedOverSealed(db: Db, e: Id, d: Id) {
    && d in db.decisions && e in db.effects && db.effects[e].receiptId.Some?
    && var r := db.effects[e].receiptId.value;
    && db.decisions[d].effectId == e && db.decisions[d].receiptId == r && db.decisions[d].outcome == Accepted
    && r in db.receipts
    && var key := ResultKey(e, db.receipts[r].attemptNo);
    && key in db.capsules && db.capsules[key].body.SealedResult?
    && db.decisions[d].payloadDigest == DigestOf(db.capsules[key].body)
  }

  /** A reviewed effect was reviewed over the very result that was sealed. */
  lemma ReviewedOverSealed(db: Db, e: Id)
    requires Backed(db) && e in db.effects && db.effects[e].state == Committed && Reviewed(e, Accepted, db.decisions)
    ensures exists d :: AcceptedOverSealed(db, e, d)
  {
    var d :| d in db.decisions && db.decisions[d].effectId == e && db.decisions[d].outcome == Accepted;
    RowFacts(db, e);
    assert DecisionBacked(db.effects, db.receipts, db.decisions[d]);
    assert AcceptedOverSealed(db, e, d);
  }

  /* ---------- the two ways to commit exclude each other ---------- */

  /** commitToTerminal and review never both end an effect. */
  ghost predicate Exclusive(effects: map<Id, Effect>, decisions: map<Id, ReviewDecision>, events: seq<Event>) {
    forall e :: CommitLogged(e, events) ==>
      && e in effects && effects[e].state == Committed
      && forall d :: d in decisions ==> decisions[d].effectId != e
  }

  lemma CommitLoggedOneMore(e: Id, events: seq<Event>, ev: Event)
    ensures CommitLogged(e, events + [ev]) <==>
      CommitLogged(e, events) || (ev.kind.EffectCommitted? && ev.kind.effectId == e)
  {
    var more := events + [ev];
    if CommitLogged(e, events) {
      var i :| 0 <= i < |events| && events[i].kind.EffectCommitted? && events[i].kind.effectId == e;
      assert more[i] == events[i];
    }
    if ev.kind.EffectCommitted? && ev.kind.effectId == e {
      assert more[|events|] == ev;
    }
  }

  /** A step that neither commits nor decides, and leaves committed rows alone. */
  ghost predicate NoEnding(a: Db, b: Db) {
    && b.decisions == a.decisions
    && (b.events == a.events || exists ev: Event :: b.events == a.events + [ev] && !ev.kind.EffectCommitted?)
    && (forall e :: e in a.effects && a.effects[e].state == Committed ==> e in b.effects && b.effects[e] == a.effects[e])
  }

  lemma NoEndingKeepsExclusive(a: Db, b: Db)
    requires Exclusive(a.effects, a.decisions, a.events) && NoEnding(a, b)
    ensures Exclusive(b.effects, b.decisions, b.events)
  {
    forall e | CommitLogged(e, b.events) ensures CommitLogged(e, a.events) {
      if b.events != a.events {
        var ev: Event :| b.events == a.events + [ev] && !ev.kind.EffectCommitted?;
        CommitLoggedOneMore(e, a.events, ev);
      }
    }
    hide CommitLogged;
  }

  lemma QuietChange(a: Db, b: Db, c: Change)
    requires Describes(a, b, c) && ReviewUntouched(a, b)
    requires c.Moved? ==> !c.event.kind.EffectTransitioned? && !c.event.kind.EffectCommitted?
    ensures NoEnding(a, b)
  {
    hide NewRow;
    if c.Moved? {
      assert b.effects[c.id].state == Target(c.event.kind) != Compensating;
    }
  }

  lemma OthersDoNotEnd(db: Db, op: LedgerOp)
    requires !op.CommitOp? && !op.LateCommitOp? && !op.FinalizeOp? && !op.TransitionOp?
    requires LedgerOpEnabled(db, op)
    ensures NoEnding(db, LedgerOpDone(db, op))
  {
    hide PlanPost, PreparePost, CasPost, ReceiptPost, UnknownPost, CancelPost, Describes, NoEnding;
    hide PrepareError, CasGuard, ReceiptError, PlanError, UnknownError, CancelError;
    var c;
    match op {
      case PrepareOp(i) => c := PrepareChange(db, i);
      case CasOp(i) => c := CasChange(db, i);
      case ReceiptOp(i) => c := ReceiptChange(db, i);
      case PlanOp(i) => c := PlanChange(db, i);
      case UnknownOp(i) => c := UnknownChange(db, i);
      case CancelOp(e, rev) => c := CancelChange(db, e, rev);
    }
    QuietChange(db, LedgerOpDone(db, op), c);
  }

  lemma CommittedStaysExclusive(
    a: map<Id, Effect>, b: map<Id, Effect>, decisions: map<Id, ReviewDecision>, events: seq<Event>, ev: Event, x: Id)
    requires Exclusive(a, decisions, events) && OneStep(a, b, x, Committed)
    requires ev.kind.EffectCommitted? && ev.kind.effectId == x
    requires forall d :: d in decisions ==> decisions[d].effectId != x
    ensures Exclusive(b, decisions, events + [ev])
  {
    forall e ensures CommitLogged(e, events + [ev]) <==> CommitLogged(e, events) || e == x {
      CommitLoggedOneMore(e, events, ev);
    }
    hide CommitLogged;
  }

  lemma CommitKeepsExclusive(db: Db, i: CommitInput)
    requires LateCommitGuard(db, i) && Backed(db) && Exclusive(db.effects, db.decisions, db.events)
    ensures var b := CommitPost(db, i); Exclusive(b.effects, b.decisions, b.events)
  {
    var x := i.effectId;
    assert x in db.effects && db.effects[x].state == Received;
    hide LateCommitGuard, Exclusive;
    forall d | d in db.decisions ensures db.decisions[d].effectId != x {
      if db.decisions[d].effectId == x {
        UndecidedUntilEnded(db, x, d);
      }
    }
    hide Backed;
    var ev := Event(db.effects[x].runId, EffectCommitted(x, i.receiptId));
    CommittedStaysExclusive(db.effects, CommitPost(db, i).effects, db.decisions, db.events, ev, x);
  }

  lemma FinalizeKeepsExclusive(db: Db, i: FinalizeInput, now: nat)
    requires FinalizeError(db, i, now).None? && Exclusive(db.effects, db.decisions, db.events)
    ensures i.effectId in db.effects && db.effects[i.effectId].receiptId.Some?
    ensures var b := FinalizePost(db, i); Exclusive(b.effects, b.decisions, b.events)
  {
    FinalizeAdmits(db, i, now);
    hide FinalizeError, AppendEdge;
    var b, x := FinalizePost(db, i), i.effectId;
    var ev := Event(db.effects[x].runId, IngressFinalized(x, i.outcome));
    assert b.events == db.events + [ev];
    forall e ensures CommitLogged(e, b.events) <==> CommitLogged(e, db.events) {
      CommitLoggedOneMore(e, db.events, ev);
    }
    hide CommitLogged;
  }

  lemma StepKeepsExclusive(db: Db, op: Op)
    requires ProtocolOp(op) && Backed(db) && Exclusive(db.effects, db.decisions, db.events)
    ensures var b := Apply(db, op); Exclusive(b.effects, b.decisions, b.events)
  {
    hide Backed, Exclusive;
    if !op.Ledger? {
      OthersKeepLedger(db, op);
      hide Apply;
      NoEndingKeepsExclusive(db, Apply(db, op));
    } else {
      LedgerOpsAreAtomic(db, op.ledger);
      hide ApplyEnv, ApplyFrame, ApplyAuthority, ApplyLedger, ApplyRepair, ApplyIndex, LedgerOpEnabled, LedgerOpDone;
      if LedgerOpEnabled(db, op.ledger) {
        DoneKeepsExclusive(db, op.ledger);
      } else {
        RefusedEndsNothing(db, ApplyLedger(db, op.ledger));
      }
    }
  }

  lemma RefusedEndsNothing(a: Db, b: Db)
    requires OnlyFailuresLogged(a, b)
    ensures b.effects == a.effects && b.decisions == a.decisions && b.events == a.events
  {
  }

  lemma DoneKeepsExclusive(db: Db, op: LedgerOp)
    requires LedgerOpEnabled(db, op) && !op.TransitionOp?
    requires Backed(db) && Exclusive(db.effects, db.decisions, db.events)
    ensures var b := LedgerOpDone(db, op); Exclusive(b.effects, b.decisions, b.events)
  {
    hide Backed, Exclusive, NoEnding, CommitGuard, LateCommitGuard, FinalizeError;
    hide CommitPost, FinalizePost, PlanPost, PreparePost, CasPost, ReceiptPost, UnknownPost, CancelPost;
    hide PlanError, PrepareError, CasGuard, ReceiptError, UnknownError, CancelError;
    if op.CommitOp? {
      CommitGuardSplits(db, op.commit);
      CommitKeepsExclusive(db, op.commit);
    } else if op.LateCommitOp? {
      CommitKeepsExclusive(db, op.late);
    } else if op.FinalizeOp? {
      FinalizeKeepsExclusive(db, op.finalize, op.instant);
    } else {
      OthersDoNotEnd(db, op);
      NoEndingKeepsExclusive(db, LedgerOpDone(db, op));
    }
  }

  lemma {:induction false} EndingsExclude(ops: seq<Op>)
    requires ProtocolRun(ops)
    ensures var db := Exec(EmptyDb, ops); Exclusive(db.effects, db.decisions, db.events)
    decreases |ops|
  {
    hide Apply;
    if ops != [] {
      EndingsExclude(ops[..|ops| - 1]);
      AnsweredEffectsAreBacked(ops[..|ops| - 1]);
      hide Backed, Exclusive;
      StepKeepsExclusive(Exec(EmptyDb, ops[..|ops| - 1]), ops[|ops| - 1]);
    }
  }

  /** A committed effect was accepted by a reviewer if and only if commitToTerminal did
      not commit it, which the audit log shows. A tool row inserted by a later
      re-prepare therefore never makes a committed effect a reviewed one. */
  lemma ReviewedIffNotCommittedDirectly(ops: seq<Op>, e: Id)
    requires ProtocolRun(ops)
    requires var db := Exec(EmptyDb, ops); e in db.effects && db.effects[e].state == Committed
    ensures var db := Exec(EmptyDb, ops);
      (exists d :: AcceptedOverSealed(db, e, d)) <==> !CommitLogged(e, db.events)
  {
    var db := Exec(EmptyDb, ops);
    EndingsExclude(ops);
    AnsweredEffectsAreBacked(ops);
    hide Exec;
    assert EndBacked(e, db.effects[e].state, db.decisions, db.events);
    hide CommitLogged;
    if !CommitLogged(e, db.events) {
      ReviewedOverSealed(db, e);
    }
  }
}
