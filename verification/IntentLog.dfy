// An effect row and its intents in the log agree: the row names the last attempt and the
// last approval that was called with.

module IntentLog {
  import opened Tables
  import opened EffectProtocol
  import opened DurableRuntime
  import opened IngressReview
  import R = RepairPlans
  import opened Kernel
  import opened Evolution
  import opened Replay
  import opened Lineage
  import opened Evidence
  import opened Provenance
  import opened AuditTrail

  function LastAttempt(intents: seq<Intent>, first: Option<int>): Option<int> {
    if intents == [] then first else Some(intents[|intents| - 1].attemptNo)
  }

  /** The last approval that an intent named, or else the one of the prepare. */
  function LastApproval(intents: seq<Intent>, first: Option<Id>): Option<Id> {
    if intents == [] then first
    else if intents[|intents| - 1].approval.Some? then intents[|intents| - 1].approval
    else LastApproval(intents[..|intents| - 1], first)
  }

  lemma OneMoreIntent(intents: seq<Intent>, x: Intent, n: Option<int>, a: Option<Id>)
    ensures LastAttempt(intents + [x], n) == Some(x.attemptNo)
    ensures LastApproval(intents + [x], a) == if x.approval.Some? then x.approval else LastApproval(intents, a)
  {
    assert (intents + [x])[..|intents|] == intents;
  }

  predicate Calls(db: Db, op: Op, e: Id) {
    op.Ledger? && op.ledger.CasOp? && op.ledger.cas.effectId == e && CasToInFlight(db, op.ledger.cas).result.Ok?
  }

  /** The columns of the last call stand, unless this is one. */
  predicate ColumnsMove(x: Effect, y: Effect, call: Option<CasInput>) {
    match call
    case None => y.approvalId == x.approvalId && y.callbackAttempt == x.callbackAttempt
    case Some(i) =>
      y.approvalId == (if i.approvalId.Some? then i.approvalId else x.approvalId) && y.callbackAttempt == Some(i.attemptNo)
  }

  function CallOf(db: Db, op: Op, e: Id): Option<CasInput> { if Calls(db, op, e) then Some(op.ledger.cas) else None }

  predicate RowMoved(db: Db, b: Db, e: Id, call: Option<CasInput>) {
    e in db.effects ==> e in b.effects && ColumnsMove(db.effects[e], b.effects[e], call)
  }

  lemma OthersMoveNoColumn(db: Db, op: LedgerOp, e: Id)
    requires LedgerOpEnabled(db, op) && !op.CasOp? && !op.PrepareOp?
    ensures RowMoved(db, LedgerOpDone(db, op), e, None)
  {
    hide PlanError, TransitionError, ReceiptError, UnknownError, CancelError, CommitGuard, LateCommitGuard, FinalizeError;
    hide AppendEdge, NewReceipt, NewResultCapsule;
    if op.PlanOp? {
      PlanIsNew(db, op.plan);
    } else if op.FinalizeOp? {
      FinalizeAdmits(db, op.finalize, op.instant);
    }
  }

  lemma PlanIsNew(db: Db, i: PlanInput)
    requires PlanError(db, i).None?
    ensures i.newEffectId !in db.effects
  {
  }

  lemma PrepareMovesNoColumn(db: Db, i: PrepareInput, e: Id)
    requires PrepareError(db, i).None?
    ensures RowMoved(db, PreparePost(db, i), e, None)
  {
    PrepareTables(db, i);
    hide PreparePost, CommandOf, NewEffect;
  }

  lemma CasMovesColumns(db: Db, i: CasInput, e: Id)
    requires CasGuard(db, i)
    ensures i.effectId in db.effects && (i.approvalId.Some? ==> i.approvalId.value in db.approvals)
    ensures RowMoved(db, CasPost(db, i), e, if i.effectId == e then Some(i) else None)
  {
    CasNeeds(db, i);
    CasTables(db, i);
    hide CasPost, CasGuard;
  }

  lemma StepMovesColumns(db: Db, op: Op, e: Id)
    ensures RowMoved(db, Apply(db, op), e, CallOf(db, op, e))
  {
    hide ApplyEnv, ApplyFrame, ApplyAuthority, ApplyLedger, ApplyRepair, ApplyIndex;
    if !op.Ledger? {
      OthersKeepLedger(db, op);
    } else {
      LedgerOpsAreAtomic(db, op.ledger);
      AcceptedIsEnabled(db, op.ledger);
      hide LedgerOpDone, CasToInFlight, CasGuard, ColumnsMove;
      if LedgerOpEnabled(db, op.ledger) {
        match op.ledger
        case CasOp(i) => DoneColumns(db, i, e);
        case PrepareOp(i) => PrepareColumns(db, i, e);
        case _ => OthersMoveNoColumn(db, op.ledger, e);
      } else {
        RefusedMovesNothing(db, ApplyLedger(db, op.ledger), e);
        hide LedgerOpEnabled;
      }
    }
  }

  lemma DoneColumns(db: Db, i: CasInput, e: Id)
    requires LedgerOpEnabled(db, CasOp(i))
    ensures RowMoved(db, LedgerOpDone(db, CasOp(i)), e, if i.effectId == e then Some(i) else None)
  {
    CasMovesColumns(db, i, e);
    hide CasPost, CasGuard;
  }

  lemma PrepareColumns(db: Db, i: PrepareInput, e: Id)
    requires LedgerOpEnabled(db, PrepareOp(i))
    ensures RowMoved(db, LedgerOpDone(db, PrepareOp(i)), e, None)
  {
    PrepareMovesNoColumn(db, i, e);
    hide PrepareError, PreparePost;
  }

  lemma RefusedMovesNothing(a: Db, b: Db, e: Id)
    requires OnlyFailuresLogged(a, b)
    ensures RowMoved(a, b, e, None)
  {
  }

  /** The log gains an intent of e exactly with a call of e. */
  lemma StepLogsCall(db: Db, op: Op, e: Id)
    ensures Intents(e, Apply(db, op).events) ==
      if Calls(db, op, e) then Intents(e, db.events) + [Intent(op.ledger.cas.attemptNo, op.ledger.cas.approvalId)]
      else Intents(e, db.events)
  {
    StepLeaves(db, op);
    TrailOfCall(db, op, e);
    hide Apply, Trail, Calls;
    if Trail(db, op) == [] {
      assert db.events + [] == db.events;
    } else {
      IntentsOneMore(e, db.events, Trail(db, op)[0]);
      assert Trail(db, op) == [Trail(db, op)[0]];
    }
  }

  predicate LogsCall(trail: seq<Event>, e: Id, n: int, a: Option<Id>) {
    trail != [] && trail[0].kind == CallbackIntent(e, n, a)
  }

  lemma TrailOfCall(db: Db, op: Op, e: Id)
    ensures |Trail(db, op)| <= 1
    ensures Calls(db, op, e) ==> LogsCall(Trail(db, op), e, op.ledger.cas.attemptNo, op.ledger.cas.approvalId)
    ensures !Calls(db, op, e) && Trail(db, op) != [] ==>
      !(Trail(db, op)[0].kind.CallbackIntent? && Trail(db, op)[0].kind.effectId == e)
  {
    hide CreateRootFrame, CreateChildFrame, TransitionFrame, RequestApproval, RevokeApproval, AcquireLease, RenewLease;
    hide ReleaseLease, PlanEffect, TransitionEffect, Prepare, CasToInFlight, RecordReceipt, RecordUnknownOutcome;
    hide CancelBeforeSend, CommitToTerminal, LateCommitGuard, FinalizeAt, R.CreateRepair, R.LateCreateGuard, R.SetRepairStatus;
  }

  /** The row of an effect names the attempt of its last intent, and the last approval that
      it was called with or else prepared with. */
  predicate Agrees(row: Effect, intents: seq<Intent>, created: Op) {
    && row.callbackAttempt == LastAttempt(intents, if created.Ledger? && created.ledger.PrepareOp? then Some(1) else None)
    && row.approvalId ==
         LastApproval(intents, if created.Ledger? && created.ledger.PrepareOp? then created.ledger.prepare.approvalId else None)
  }

  lemma {:induction false} RowNamesLastIntent(ops: seq<Op>, e: Id) returns (n: nat)
    requires e in Exec(EmptyDb, ops).effects
    ensures CreatedAt(ops, n, e) && Agrees(Exec(EmptyDb, ops).effects[e], Intents(e, Exec(EmptyDb, ops).events), ops[n])
    decreases |ops|
  {
    var last := |ops| - 1;
    assert ops != [];
    var before, op := Exec(EmptyDb, ops[..last]), ops[last];
    StepMovesColumns(before, op, e);
    StepLogsCall(before, op, e);
    if e in before.effects {
      n := RowNamesLastIntent(ops[..last], e);
      assert ops[..last][..n] == ops[..n] && ops[..last][..n + 1] == ops[..n + 1];
      AgreesStill(before, Apply(before, op), op, e, ops[n]);
    } else {
      n := last;
      assert ops[..n + 1] == ops;
      StepCreates(before, op, e);
      NoIntentsYet(ops[..last], op, e);
    }
    hide Apply, Agrees, Intents;
  }

  lemma AgreesStill(a: Db, b: Db, op: Op, e: Id, created: Op)
    requires e in a.effects && Agrees(a.effects[e], Intents(e, a.events), created)
    requires RowMoved(a, b, e, CallOf(a, op, e))
    requires Intents(e, b.events) ==
      if Calls(a, op, e) then Intents(e, a.events) + [Intent(op.ledger.cas.attemptNo, op.ledger.cas.approvalId)]
      else Intents(e, a.events)
    ensures e in b.effects && Agrees(b.effects[e], Intents(e, b.events), created)
  {
    hide Intents, CasToInFlight;
    if Calls(a, op, e) {
      var first := if created.Ledger? && created.ledger.PrepareOp? then created.ledger.prepare.approvalId else None;
      OneMoreIntent(Intents(e, a.events), Intent(op.ledger.cas.attemptNo, op.ledger.cas.approvalId), None, first);
    }
    hide LastApproval, LastAttempt;
  }

  lemma NoCallYet(db: Db, op: Op, e: Id)
    requires e !in db.effects
    ensures !Calls(db, op, e)
  {
    hide CasCommand, CasLeaseError, ApprovalError, CasPost;
  }

  lemma NoIntentsYet(ops: seq<Op>, op: Op, e: Id)
    requires e !in Exec(EmptyDb, ops).effects
    requires e in Apply(Exec(EmptyDb, ops), op).effects
    requires Begins(op, Apply(Exec(EmptyDb, ops), op).effects[e])
    ensures Agrees(Apply(Exec(EmptyDb, ops), op).effects[e], Intents(e, Apply(Exec(EmptyDb, ops), op).events), op)
  {
    ReachableInLine(ops);
    StepLogsCall(Exec(EmptyDb, ops), op, e);
    var before := Exec(EmptyDb, ops);
    NoCallYet(before, op, e);
    assert Intents(e, before.events) == [];
    hide Exec, Apply, AllInLine, Calls;
  }
}
