// Where the contents of the ledger come from: every effect row, every sealed command and
// every sealed result holds, column for column, what one accepted call was given.

module Provenance {
  import opened Tables
  import opened CapsuleStore
  import opened EffectProtocol
  import opened DurableRuntime
  import opened IngressReview
  import R = RepairPlans
  import opened Kernel
  import opened Evolution
  import opened Replay
  import opened Forest
  import opened Lineage
  import opened Evidence
  import opened ApprovalGate
  import opened Acceptance

  const WEEK_MS: nat := 604_800_000

  /* ---------- effects ---------- */

  /** The command is the caller's, field by field. */
  predicate Carries(c: Command, i: PrepareInput) {
    && c.payload == i.payload
    && c.idempotencyKey == i.idempotencyKey
    && c.egressFingerprint == i.payloadFingerprint
    && c.routeId == i.routeId
    && c.policyVersionHash == i.policyVersionHash
    && c.adapterKind == i.adapterKind
    && c.pinned == i.pinned
  }

  /** The row of an effect that this call prepared. */
  predicate PreparedRow(row: Effect, i: PrepareInput) {
    && row.runId == i.runId && row.ownerFrameId == i.ownerFrameId
    && row.adapterKind == i.adapterKind
    && row.payloadFingerprint == i.payloadFingerprint
    && row.keyHash == OfKey(i.idempotencyKey)
    && row.routeId == Some(i.routeId)
    && row.policyVersionHash == Some(i.policyVersionHash)
    && row.scopeHash == Some(i.scopeHash)
    && row.repairActions == {} && row.dependencies == []
    && row.capsuleFingerprint.Some? && row.capsuleFingerprint.value.OfCommand?
    && Carries(row.capsuleFingerprint.value.command, i)
  }

  /** The row of an effect that this call only planned. */
  predicate PlannedRow(row: Effect, i: PlanInput) {
    && row.runId == i.runId && row.ownerFrameId == i.ownerFrameId
    && row.adapterKind == i.adapterKind
    && row.payloadFingerprint == i.payloadFingerprint
    && row.keyHash == i.keyHash
    && row.routeId == i.routeId
    && row.policyVersionHash == None && row.scopeHash == None
    && row.repairActions == i.repairActions && row.dependencies == i.dependencies
    && row.capsuleFingerprint == None
  }

  predicate Prepares(op: Op, e: Id) { op.Ledger? && op.ledger.PrepareOp? && op.ledger.prepare.newEffectId == e }

  predicate Plans(op: Op, e: Id) { op.Ledger? && op.ledger.PlanOp? && op.ledger.plan.newEffectId == e }

  /** The operation was given what the row holds. */
  predicate Creates(op: Op, e: Id, row: Effect) {
    || (Prepares(op, e) && PreparedRow(row, op.ledger.prepare))
    || (Plans(op, e) && PlannedRow(row, op.ledger.plan))
  }

  predicate Begins(op: Op, row: Effect) {
    && row.state == Planned && row.revision == 1 && row.receiptId == None
    && row.approvalId == (if op.Ledger? && op.ledger.PrepareOp? then op.ledger.prepare.approvalId else None)
    && row.callbackAttempt == (if op.Ledger? && op.ledger.PrepareOp? then Some(1) else None)
  }

  predicate AddsNoEffect(a: Db, b: Db) { forall e :: e in b.effects ==> e in a.effects }

  lemma MovesAddNoEffect(db: Db, op: LedgerOp)
    requires LedgerOpEnabled(db, op) && !op.PlanOp? && !op.PrepareOp?
    ensures AddsNoEffect(db, LedgerOpDone(db, op))
  {
    hide PlanError, TransitionError, PrepareError, CasGuard, ReceiptError, UnknownError, CancelError, CommitGuard;
    hide LateCommitGuard, FinalizeError;
    match op
    case TransitionOp(e, _, _, n) => hide TransitionPost;
    case CasOp(i) => hide CasPost;
    case ReceiptOp(i) => hide ReceiptPost;
    case UnknownOp(i) => hide UnknownPost;
    case CancelOp(e, _) => hide CancelPost;
    case CommitOp(i) => hide CommitPost;
    case LateCommitOp(i) => hide CommitPost;
    case FinalizeOp(i, _) => hide FinalizePost;
  }

  lemma PrepareCreates(db: Db, i: PrepareInput, e: Id)
    requires PrepareError(db, i).None? && e !in db.effects && e in PreparePost(db, i).effects
    ensures var row := PreparePost(db, i).effects[e];
      Creates(Ledger(PrepareOp(i)), e, row) && Begins(Ledger(PrepareOp(i)), row)
  {
    hide PrepareError, PreparePost;
    PrepareTables(db, i);
    hide Existing;
  }

  lemma PlanCreates(db: Db, i: PlanInput, e: Id)
    requires e !in db.effects && e in PlanPost(db, i).effects
    ensures var row := PlanPost(db, i).effects[e];
      Creates(Ledger(PlanOp(i)), e, row) && Begins(Ledger(PlanOp(i)), row)
  {
    hide AppendEdge;
  }

  lemma StepCreates(db: Db, op: Op, e: Id)
    requires e !in db.effects && e in Apply(db, op).effects
    ensures Creates(op, e, Apply(db, op).effects[e]) && Begins(op, Apply(db, op).effects[e])
  {
    if !op.Ledger? {
      OthersKeepLedger(db, op);
      hide Apply;
    } else {
      LedgerOpsAreAtomic(db, op.ledger);
      hide ApplyEnv, ApplyFrame, ApplyAuthority, ApplyLedger, ApplyRepair, ApplyIndex, LedgerOpEnabled, LedgerOpDone;
      hide Creates, Begins;
      if LedgerOpEnabled(db, op.ledger) {
        LedgerCreates(db, op.ledger, e);
      } else {
        RefusedAddsNoEffect(db, ApplyLedger(db, op.ledger));
      }
    }
  }

  lemma RefusedAddsNoEffect(a: Db, b: Db)
    requires OnlyFailuresLogged(a, b)
    ensures AddsNoEffect(a, b)
  {
  }

  lemma LedgerCreates(db: Db, op: LedgerOp, e: Id)
    requires LedgerOpEnabled(db, op) && e !in db.effects && e in LedgerOpDone(db, op).effects
    ensures Creates(Ledger(op), e, LedgerOpDone(db, op).effects[e]) && Begins(Ledger(op), LedgerOpDone(db, op).effects[e])
  {
    if op.PrepareOp? {
      hide PrepareError, PreparePost, Creates, Begins;
      PrepareCreates(db, op.prepare, e);
    } else if op.PlanOp? {
      hide PlanError, PlanPost, Creates, Begins;
      PlanCreates(db, op.plan, e);
    } else {
      MovesAddNoEffect(db, op);
      hide LedgerOpEnabled, LedgerOpDone;
      assert false;
    }
  }

  /** Operation n is the one that created effect e. */
  predicate CreatedAt(ops: seq<Op>, n: nat, e: Id) {
    n < |ops| && e !in Exec(EmptyDb, ops[..n]).effects && e in Exec(EmptyDb, ops[..n + 1]).effects
  }

  lemma CreatesStands(op: Op, e: Id, x: Effect, y: Effect)
    requires Creates(op, e, x) && SameIdentity(x, y)
    ensures Creates(op, e, y)
  {
  }

  /** Every effect was created by one call, and its columns are still what that call was
      given. */
  lemma {:induction false} EveryEffectWasCreated(ops: seq<Op>, e: Id) returns (n: nat)
    requires e in Exec(EmptyDb, ops).effects
    ensures CreatedAt(ops, n, e) && Creates(ops[n], e, Exec(EmptyDb, ops).effects[e])
    decreases |ops|
  {
    hide Apply, Creates, Evolves, Begins;
    var last := |ops| - 1;
    assert ops != [];
    var before, after := Exec(EmptyDb, ops[..last]), Exec(EmptyDb, ops);
    if e in before.effects {
      n := EveryEffectWasCreated(ops[..last], e);
      assert ops[..last][..n] == ops[..n] && ops[..last][..n + 1] == ops[..n + 1];
      StepEvolves(before, ops[last]);
      SameColumns(before, after, e);
      CreatesStands(ops[n], e, before.effects[e], after.effects[e]);
    } else {
      n := last;
      assert ops[..n + 1] == ops;
      StepCreates(before, ops[last], e);
    }
  }

  lemma SameColumns(a: Db, b: Db, e: Id)
    requires Evolves(a, b) && e in a.effects
    ensures e in b.effects && SameIdentity(a.effects[e], b.effects[e])
  {
    hide RuntimeEvolves, SubMap;
  }

  /** No effect is created twice. */
  lemma CreatedOnce(ops: seq<Op>, m: nat, n: nat, e: Id)
    requires CreatedAt(ops, m, e) && CreatedAt(ops, n, e)
    ensures m == n
  {
    if m < n {
      CreatedStays(ops, m, n, e);
    } else if n < m {
      CreatedStays(ops, n, m, e);
    }
  }

  lemma CreatedStays(ops: seq<Op>, m: nat, n: nat, e: Id)
    requires CreatedAt(ops, m, e) && m < n < |ops|
    ensures e in Exec(EmptyDb, ops[..n]).effects
  {
    var mid := ops[m + 1..n];
    assert ops[..m + 1] + mid == ops[..n];
    ExecAppend(EmptyDb, ops[..m + 1], mid);
    RunEvolves(Exec(EmptyDb, ops[..m + 1]), mid);
    hide Exec, Evolves;
    SameColumns(Exec(EmptyDb, ops[..m + 1]), Exec(EmptyDb, ops[..n]), e);
  }

  /* ---------- sealed commands ---------- */

  /** Operation n prepared effect e. */
  predicate PreparedAt(ops: seq<Op>, n: nat, e: Id) { CreatedAt(ops, n, e) && Prepares(ops[n], e) }

  /** The callback capsule as its prepare sealed it, n operations into the run. */
  predicate SealedBy(c: Capsule, i: PrepareInput, at: Db) {
    && c.body.SealedCommand? && Carries(c.body.command, i)
    && c.expiresAt == at.clock + WEEK_MS
    && i.runId in at.workspaces && c.workspaceId == at.workspaces[i.runId]
    && c.runId == i.runId && c.adapterKind == i.adapterKind && c.receiptId == None
  }

  lemma PrepareSeals(db: Db, i: PrepareInput)
    requires PrepareError(db, i).None? && i.newEffectId !in db.effects && i.newEffectId in PreparePost(db, i).effects
    requires InForest(db.frames, db.workspaces, db.events)
    ensures var b := PreparePost(db, i);
      CallbackKey(i.newEffectId, 1) in b.capsules && SealedBy(b.capsules[CallbackKey(i.newEffectId, 1)], i, db)
  {
    PrepareTables(db, i);
    OwnerRunExists(db, i.ownerFrameId);
    assert i.ownerFrameId in db.frames && db.frames[i.ownerFrameId].runId == i.runId;
    hide InForest, PrepareError, BindApproval, NewEffect, AppendEdge, RunHook;
    assert Existing(db, i).None?;
    hide Existing;
  }

  lemma StepSeals(db: Db, op: Op, e: Id)
    requires Prepares(op, e) && e !in db.effects && e in Apply(db, op).effects
    requires InForest(db.frames, db.workspaces, db.events)
    ensures var b := Apply(db, op);
      CallbackKey(e, 1) in b.capsules && SealedBy(b.capsules[CallbackKey(e, 1)], op.ledger.prepare, db)
  {
    LedgerOpsAreAtomic(db, op.ledger);
    hide InForest, SealedBy, ApplyEnv, ApplyFrame, ApplyAuthority, ApplyLedger, ApplyRepair, ApplyIndex;
    hide PrepareError, PreparePost;
    if LedgerOpEnabled(db, op.ledger) {
      PrepareSeals(db, op.ledger.prepare);
    }
  }

  /** Every callback capsule of a prepared effect is what its prepare sealed: the caller's
      command, for a week. */
  lemma CapsulesAreSealedByPrepare(ops: seq<Op>, e: Id, k: int) returns (n: nat)
    requires CallbackKey(e, k) in Exec(EmptyDb, ops).capsules
    ensures e in Exec(EmptyDb, ops).effects && PreparedAt(ops, n, e)
    ensures SealedBy(Exec(EmptyDb, ops).capsules[CallbackKey(e, k)], ops[n].ledger.prepare, Exec(EmptyDb, ops[..n]))
  {
    hide *;
    var db := Exec(EmptyDb, ops);
    HasEffect(ops, e, k);
    CapsulesAreOneToK(ops, e);
    InLineCopies(db, e, k);
    n := EveryEffectWasCreated(ops, e);
    AtCreation(ops, n, e);
    CreatorPrepared(ops[n], e, db.effects[e]);
    ReachableForest(ops[..n]);
    var before, after := Exec(EmptyDb, ops[..n]), Exec(EmptyDb, ops[..n + 1]);
    StepSeals(before, ops[n], e);
    RunEvolves(after, ops[n + 1..]);
    CapsuleStands(after, db, CallbackKey(e, 1));
    IsPreparedAt(ops, n, e);
  }

  lemma HasEffect(ops: seq<Op>, e: Id, k: int)
    requires CallbackKey(e, k) in Exec(EmptyDb, ops).capsules
    ensures e in Exec(EmptyDb, ops).effects
  {
    ReachableInLine(ops);
    hide Exec, RowInLine;
  }

  lemma InLineCopies(db: Db, e: Id, k: int)
    requires CallbackKey(e, k) in db.capsules && e in db.effects
    requires if db.effects[e].capsuleFingerprint.Some? then InLine(e, db.effects[e], db.capsules, Top(Intents(e, db.events)))
      else NoCallbacks(e, db.capsules) && Intents(e, db.events) == []
    ensures db.effects[e].capsuleFingerprint.Some?
    ensures CallbackKey(e, 1) in db.capsules && db.capsules[CallbackKey(e, k)] == db.capsules[CallbackKey(e, 1)]
  {
  }

  lemma CreatorPrepared(op: Op, e: Id, row: Effect)
    requires Creates(op, e, row) && row.capsuleFingerprint.Some?
    ensures Prepares(op, e) && PreparedRow(row, op.ledger.prepare)
  {
  }

  lemma Cut(ops: seq<Op>, n: nat)
    requires n < |ops|
    ensures Exec(EmptyDb, ops[..n + 1]) == Apply(Exec(EmptyDb, ops[..n]), ops[n])
    ensures Exec(Exec(EmptyDb, ops[..n + 1]), ops[n + 1..]) == Exec(EmptyDb, ops)
  {
    hide *;
    assert ops[..n + 1] == ops[..n] + [ops[n]];
    ExecOne(EmptyDb, ops[..n], ops[n]);
    assert ops[..n + 1] + ops[n + 1..] == ops;
    ExecAppend(EmptyDb, ops[..n + 1], ops[n + 1..]);
  }

  lemma AtCreation(ops: seq<Op>, n: nat, e: Id)
    requires CreatedAt(ops, n, e)
    ensures n < |ops|
    ensures var before := Exec(EmptyDb, ops[..n]);
      Exec(EmptyDb, ops[..n + 1]) == Apply(before, ops[n]) && e !in before.effects && e in Apply(before, ops[n]).effects
    ensures Exec(Exec(EmptyDb, ops[..n + 1]), ops[n + 1..]) == Exec(EmptyDb, ops)
  {
    hide Exec, Apply;
    Cut(ops, n);
  }

  lemma CapsuleStands(a: Db, b: Db, key: CapsuleKey)
    requires Evolves(a, b) && key in a.capsules
    ensures key in b.capsules && b.capsules[key] == a.capsules[key]
  {
    hide RuntimeEvolves, EffectsEvolve;
  }

  lemma IsPreparedAt(ops: seq<Op>, n: nat, e: Id)
    requires CreatedAt(ops, n, e) && Prepares(ops[n], e)
    ensures PreparedAt(ops, n, e)
  {
  }

  lemma IntentAnswers(ops: seq<Op>, i: CasInput)
    requires CasToInFlight(Exec(EmptyDb, ops), i).result.Ok?
    ensures var db := Exec(EmptyDb, ops);
      && CallbackKey(i.effectId, 1) in db.capsules
      && db.capsules[CallbackKey(i.effectId, 1)].body == SealedCommand(CasToInFlight(db, i).result.value.command)
  {
    IntentAcceptedIff(ops, i);
    hide Exec, CasToInFlight, IntentConditions;
  }

  lemma SealedCarries(c: Capsule, i: PrepareInput, at: Db, command: Command)
    requires SealedBy(c, i, at) && c.body == SealedCommand(command)
    ensures Carries(command, i)
  {
  }

  lemma PreparedMeans(ops: seq<Op>, n: nat, e: Id)
    requires PreparedAt(ops, n, e)
    ensures n < |ops| && ops[n].Ledger? && ops[n].ledger.PrepareOp?
  {
  }

  /** What an accepted intent hands out is the command its effect was prepared with. */
  lemma IntentsHandOutThePrepared(ops: seq<Op>, i: CasInput) returns (n: nat)
    requires CasToInFlight(Exec(EmptyDb, ops), i).result.Ok?
    ensures PreparedAt(ops, n, i.effectId)
    ensures Carries(CasToInFlight(Exec(EmptyDb, ops), i).result.value.command, ops[n].ledger.prepare)
  {
    hide *;
    IntentAnswers(ops, i);
    n := CapsulesAreSealedByPrepare(ops, i.effectId, 1);
    PreparedMeans(ops, n, i.effectId);
    SealedCarries(Exec(EmptyDb, ops).capsules[CallbackKey(i.effectId, 1)], ops[n].ledger.prepare,
                  Exec(EmptyDb, ops[..n]), CasToInFlight(Exec(EmptyDb, ops), i).result.value.command);
  }

  /* ---------- the approval given at prepare ---------- */

  predicate BoundTo(db: Db, a: Id, e: Id) {
    a in db.approvals && db.approvals[a].effectId == Some(e) && db.approvals[a].effectRevision == Some(1)
  }

  lemma StepBinds(db: Db, op: Op, e: Id)
    requires Prepares(op, e) && e !in db.effects && e in Apply(db, op).effects && op.ledger.prepare.approvalId.Some?
    ensures BoundTo(Apply(db, op), op.ledger.prepare.approvalId.value, e)
  {
    LedgerOpsAreAtomic(db, op.ledger);
    hide ApplyEnv, ApplyFrame, ApplyAuthority, ApplyLedger, ApplyRepair, ApplyIndex, PrepareError, PreparePost, BoundTo;
    if LedgerOpEnabled(db, op.ledger) {
      PrepareBinds(db, op.ledger.prepare);
    }
  }

  lemma PrepareBinds(db: Db, i: PrepareInput)
    requires PrepareError(db, i).None? && i.approvalId.Some?
    requires i.newEffectId !in db.effects && i.newEffectId in PreparePost(db, i).effects
    ensures BoundTo(PreparePost(db, i), i.approvalId.value, i.newEffectId)
  {
    PrepareTables(db, i);
    PrepareApprovals(db, i);
    hide PreparePost, CommandOf;
    assert Existing(db, i).None?;
    hide Existing;
  }

  lemma {:induction false} BindingStands(db: Db, ops: seq<Op>, a: Id, e: Id)
    requires BoundTo(db, a, e)
    ensures BoundTo(Exec(db, ops), a, e)
    decreases |ops|
  {
    hide Apply, SameTerms, DecisionAfter;
    if ops != [] {
      var n := |ops| - 1;
      BindingStands(db, ops[..n], a, e);
      StepMovesRow(Exec(db, ops[..n]), ops[n], a);
    }
  }

  /** The approval that an effect was prepared with belongs to it, at its first revision,
      for good: no other effect can ever be prepared or called with it. */
  lemma ApprovalIsBound(ops: seq<Op>, n: nat, e: Id)
    requires PreparedAt(ops, n, e) && ops[n].ledger.prepare.approvalId.Some?
    ensures BoundTo(Exec(EmptyDb, ops), ops[n].ledger.prepare.approvalId.value, e)
  {
    AtCreation(ops, n, e);
    hide Exec, Apply, BoundTo;
    StepBinds(Exec(EmptyDb, ops[..n]), ops[n], e);
    BindingStands(Exec(EmptyDb, ops[..n + 1]), ops[n + 1..], ops[n].ledger.prepare.approvalId.value, e);
  }

  /** An intent for another effect is refused under it, and so is another prepare. */
  lemma BoundApprovalIsTaken(ops: seq<Op>, n: nat, e: Id, i: CasInput, q: PrepareInput)
    requires PreparedAt(ops, n, e) && ops[n].ledger.prepare.approvalId.Some?
    requires i.approvalId == q.approvalId == ops[n].ledger.prepare.approvalId && i.effectId != e
    ensures CasToInFlight(Exec(EmptyDb, ops), i).result.Err?
    ensures Prepare(Exec(EmptyDb, ops), q).result.Ok? ==> exists x :: Repeats(Exec(EmptyDb, ops), x, q)
  {
    ApprovalIsBound(ops, n, e);
    PrepareAcceptedIff(ops, q);
    hide Exec, CasToInFlight, Prepare, PreparedAt, Repeats;
    if CasToInFlight(Exec(EmptyDb, ops), i).result.Ok? {
      IntentIsAuthorised(ops, i);
    }
  }

  /* ---------- when prepare is accepted ---------- */

  predicate Keyed(db: Db, e: Id, i: PrepareInput) { e in db.effects && db.effects[e].keyHash == OfKey(i.idempotencyKey) }

  /** The same call again: same frame, same command. */
  predicate Repeats(db: Db, e: Id, i: PrepareInput) {
    && Keyed(db, e, i) && db.effects[e].ownerFrameId == i.ownerFrameId
    && db.effects[e].capsuleFingerprint.Some? && db.effects[e].capsuleFingerprint.value.OfCommand?
    && Carries(db.effects[e].capsuleFingerprint.value.command, i)
  }

  /** The approval given for a new effect: approved for this run, and for no effect yet. */
  predicate Unbound(row: Approval, runId: Id, workspaceId: Id) {
    row.decision == Approved && row.runId == runId && row.workspaceId == workspaceId
    && row.effectId == None && row.effectRevision == None
  }

  ghost predicate PrepareConditions(db: Db, i: PrepareInput) {
    && i.ownerFrameId in db.frames && db.frames[i.ownerFrameId].runId == i.runId && i.hook != HookThrows
    && ((exists e :: Repeats(db, e, i))
        || (&& (forall e :: !Keyed(db, e, i)) && i.newEffectId !in db.effects
            && (i.approvalId.Some? ==>
                  && i.approvalId.value in db.approvals && i.runId in db.workspaces
                  && Unbound(db.approvals[i.approvalId.value], i.runId, db.workspaces[i.runId]))))
  }

  /** A prepare is accepted if and only if it repeats a call with the very same command
      under the same frame, or its key is new and the approval it names is free; and it
      answers the effect that carries the key. */
  lemma PrepareAcceptedIff(ops: seq<Op>, i: PrepareInput)
    ensures var db := Exec(EmptyDb, ops); Prepare(db, i).result.Ok? <==> PrepareConditions(db, i)
    ensures var step := Prepare(Exec(EmptyDb, ops), i);
      step.result.Ok? ==>
        step.result.value.attemptNo == 1 && Keyed(step.db, step.result.value.effectId, i)
        && step.result.value.keyHash == OfKey(i.idempotencyKey)
  {
    var db := Exec(EmptyDb, ops);
    LedgerIsReplay(ops);
    ReachableForest(ops);
    ReachableInLine(ops);
    hide Exec, StateIsReplay, InForest, AllInLine, Prepare, PrepareConditions;
    OkIsFree(db, i);
    if i.ownerFrameId in db.frames && db.frames[i.ownerFrameId].runId == i.runId {
      OwnerRunExists(db, i.ownerFrameId);
    }
    if Existing(db, i).Some? {
      ExistingIs(db, i);
      Sealed(db, Existing(db, i).value);
      if db.effects[Existing(db, i).value].capsuleFingerprint.Some? {
        FingerprintsAgree(ops, Existing(db, i).value);
      }
      RepeatIff(db, i);
    } else {
      NoCapsuleYet(db, i.newEffectId);
      NewIff(db, i);
    }
    if PrepareError(db, i).None? {
      AnswersKeyed(db, i);
    }
  }

  lemma OkIsFree(db: Db, i: PrepareInput)
    ensures Prepare(db, i).result.Ok? <==> PrepareError(db, i).None?
  {
    hide PrepareError, PreparePost, PrepareOutput;
  }

  lemma Sealed(db: Db, e: Id)
    requires AllInLine(db.effects, db.capsules, db.bindings, db.events) && e in db.effects
    ensures db.effects[e].capsuleFingerprint.Some? ==> CallbackKey(e, 1) in db.capsules
  {
  }

  lemma NoCapsuleYet(db: Db, e: Id)
    requires AllInLine(db.effects, db.capsules, db.bindings, db.events)
    ensures e !in db.effects ==> CallbackKey(e, 1) !in db.capsules
  {
    hide RowInLine;
  }

  lemma ExistingIs(db: Db, i: PrepareInput)
    requires Existing(db, i).Some?
    ensures Existing(db, i).value in db.effects
  {
  }

  lemma FingerprintsAgree(ops: seq<Op>, e: Id)
    requires e in Exec(EmptyDb, ops).effects && Exec(EmptyDb, ops).effects[e].capsuleFingerprint.Some?
    ensures var row := Exec(EmptyDb, ops).effects[e];
      row.capsuleFingerprint.value.OfCommand?
      && row.payloadFingerprint == row.capsuleFingerprint.value.command.egressFingerprint
  {
    var n := EveryEffectWasCreated(ops, e);
    hide Exec, CreatedAt;
  }

  lemma CommandIs(c: Command, i: PrepareInput)
    ensures c == CommandOf(i) <==> Carries(c, i)
  {
  }

  lemma RepeatIff(db: Db, i: PrepareInput)
    requires Existing(db, i).Some? && KeysIndexed(db.effects, db.keyIndex)
    requires var e := Existing(db, i).value; db.effects[e].capsuleFingerprint.Some? ==> CallbackKey(e, 1) in db.capsules
    requires var e := Existing(db, i).value; db.effects[e].capsuleFingerprint.Some? ==>
      db.effects[e].capsuleFingerprint.value.OfCommand?
      && db.effects[e].payloadFingerprint == db.effects[e].capsuleFingerprint.value.command.egressFingerprint
    ensures PrepareError(db, i).None? <==> PrepareConditions(db, i)
  {
    var e := Existing(db, i).value;
    assert forall x :: Keyed(db, x, i) ==> x == e;
    if db.effects[e].capsuleFingerprint.Some? {
      CommandIs(db.effects[e].capsuleFingerprint.value.command, i);
      assert Repeats(db, e, i) <==> db.effects[e].capsuleFingerprint == Some(OfCommand(CommandOf(i)));
    }
    assert Keyed(db, e, i);
    hide Existing, KeysIndexed, CommandOf, Carries;
  }

  lemma NewIff(db: Db, i: PrepareInput)
    requires Existing(db, i).None? && KeysIndexed(db.effects, db.keyIndex)
    requires i.newEffectId !in db.effects ==> CallbackKey(i.newEffectId, 1) !in db.capsules
    requires i.ownerFrameId in db.frames && db.frames[i.ownerFrameId].runId == i.runId ==> i.runId in db.workspaces
    ensures PrepareError(db, i).None? <==> PrepareConditions(db, i)
  {
    assert forall e :: !Repeats(db, e, i);
    if OfKey(i.idempotencyKey) in db.keyIndex {
      assert Keyed(db, db.keyIndex[OfKey(i.idempotencyKey)], i);
    }
    hide Existing, KeysIndexed, Keyed, Repeats, CommandOf;
  }

  lemma AnswersKeyed(db: Db, i: PrepareInput)
    requires PrepareError(db, i).None? && KeysIndexed(db.effects, db.keyIndex)
    ensures var step := Prepare(db, i);
      && step.result.Ok? && step.result.value.attemptNo == 1 && Keyed(step.db, step.result.value.effectId, i)
      && step.result.value.keyHash == OfKey(i.idempotencyKey)
  {
    PrepareTables(db, i);
    hide PrepareError, PreparePost;
  }

  /* ---------- tool rows ---------- */

  /** An accepted prepare whose hook registers a tool, for effect e. */
  predicate Registers(db: Db, op: Op, e: Id) {
    && op.Ledger? && op.ledger.PrepareOp? && op.ledger.prepare.hook == RegisterTool
    && Prepare(db, op.ledger.prepare).result.Ok? && Prepare(db, op.ledger.prepare).result.value.effectId == e
  }

  lemma PrepareTools(db: Db, i: PrepareInput, e: Id)
    ensures e in Prepare(db, i).db.tools <==> e in db.tools || Registers(db, Ledger(PrepareOp(i)), e)
  {
    PostTools(db, i);
    hide PrepareError, PreparePost, Existing;
  }

  lemma PostTools(db: Db, i: PrepareInput)
    ensures PreparePost(db, i).tools == RunHook(db.tools, i.hook, PrepareOutput(db, i).effectId)
  {
    hide Existing, NewEffect, NewCallbackCapsule, BindApproval, AppendEdge, RunHook;
    if Existing(db, i).Some? {
    } else {
    }
  }

  lemma OthersKeepTools(db: Db, op: LedgerOp)
    requires LedgerOpEnabled(db, op) && !op.PrepareOp?
    ensures LedgerOpDone(db, op).tools == db.tools
  {
    hide PlanError, TransitionError, PrepareError, CasGuard, ReceiptError, UnknownError, CancelError, CommitGuard;
    hide LateCommitGuard, FinalizeError;
    match op
    case PlanOp(i) => hide PlanPost;
    case TransitionOp(e, _, _, n) => hide TransitionPost;
    case CasOp(i) => hide CasPost;
    case ReceiptOp(i) => hide ReceiptPost;
    case UnknownOp(i) => hide UnknownPost;
    case CancelOp(e, _) => hide CancelPost;
    case CommitOp(i) => hide CommitPost;
    case LateCommitOp(i) => hide CommitPost;
    case FinalizeOp(i, _) => hide FinalizePost;
  }

  lemma StepTools(db: Db, op: Op, e: Id)
    ensures e in Apply(db, op).tools <==> e in db.tools || Registers(db, op, e)
  {
    if !op.Ledger? {
      OthersKeepLedger(db, op);
      hide Apply;
    } else if op.ledger.PrepareOp? {
      PrepareTools(db, op.ledger.prepare, e);
      hide Prepare;
    } else {
      LedgerOpsAreAtomic(db, op.ledger);
      hide ApplyEnv, ApplyFrame, ApplyAuthority, ApplyLedger, ApplyRepair, ApplyIndex, LedgerOpEnabled, LedgerOpDone;
      if LedgerOpEnabled(db, op.ledger) {
        OthersKeepTools(db, op.ledger);
      }
    }
  }

  predicate RegisteredAt(ops: seq<Op>, n: nat, e: Id) { n < |ops| && Registers(Exec(EmptyDb, ops[..n]), ops[n], e) }

  /** An effect has a tool row if and only if an accepted prepare of it registered one. */
  lemma {:induction false} ToolsAreRegistered(ops: seq<Op>, e: Id)
    ensures e in Exec(EmptyDb, ops).tools <==> exists n: nat :: RegisteredAt(ops, n, e)
    decreases |ops|
  {
    hide Apply, Registers;
    if ops != [] {
      var last := |ops| - 1;
      ToolsAreRegistered(ops[..last], e);
      StepTools(Exec(EmptyDb, ops[..last]), ops[last], e);
      if Registers(Exec(EmptyDb, ops[..last]), ops[last], e) {
        assert RegisteredAt(ops, last, e);
      }
      if exists n: nat :: RegisteredAt(ops[..last], n, e) {
        var n: nat :| RegisteredAt(ops[..last], n, e);
        assert ops[..last][..n] == ops[..n];
        assert RegisteredAt(ops, n, e);
      }
      if exists n: nat :: RegisteredAt(ops, n, e) {
        var n: nat :| RegisteredAt(ops, n, e);
        if n < last {
          assert ops[..last][..n] == ops[..n];
          assert RegisteredAt(ops[..last], n, e);
        }
      }
    }
  }
}
