// Runs in which every method call is two steps, its pre-read and its transaction, and
// the steps of any number of callers interleave. What a pre-read saw is remembered until
// its transaction runs, which may be never. Every such run is a run of kernel
// operations, so every theorem about those holds for it.

module SplitRuns {
  import opened Tables
  import opened CapsuleStore
  import opened EffectProtocol
  import opened DurableRuntime
  import opened IngressReview
  import R = RepairPlans
  import opened Kernel
  import opened Evolution
  import opened SplitStep

  datatype Call =
    | Intent(cas: CasInput)
    | Answer(receipt: ReceiptInput)
    | Lose(unknown: UnknownInput)
    | Cancel(effectId: Id, revision: nat)
    | Commit(commit: CommitInput)
    | Review(finalize: FinalizeInput, asOf: Option<nat>)
    | Create(request: R.Request, newRepairId: Id)
    | Change(status: R.StatusInput)
    | Plan(plan: PlanInput)
    | Child(runId: Id, parent: Id, newFrameId: Id)
    | Move(effectId: Id, revision: nat, expected: EffectState, next: EffectState)

  /** A call between its pre-read and its transaction, with what it captured. */
  datatype Captured =
    | IntentRead(cas: CasInput, capture: CasCapture)
    | AnswerRead(receipt: ReceiptInput, effect: Effect)
    | LoseRead(unknown: UnknownInput, effect: Effect)
    | CancelRead(effectId: Id, revision: nat, effect: Effect)
    | CommitRead(commit: CommitInput, effect: Effect)
    | ReviewRead(finalize: FinalizeInput, instant: nat)
    | CreateRead(request: R.Request, newRepairId: Id)
    | ChangeRead(status: R.StatusInput, repair: Repair)
    | PlanRead(plan: PlanInput)
    | ChildRead(runId: Id, parent: Id, newFrameId: Id, frame: Frame)
    | MoveRead(effectId: Id, revision: nat, expected: EffectState, next: EffectState, effect: Effect)

  function Kept<T>(r: Result<T>, keep: T -> Captured): Option<Captured> {
    match r
    case Ok(v) => Some(keep(v))
    case Err(_) => None
  }

  /** The pre-read of a call; None if it refuses. */
  function Read(db: Db, call: Call): Option<Captured> {
    match call
    case Intent(i) => Kept(CasPre(db, i), c => IntentRead(i, c))
    case Answer(i) => Kept(ReceiptPre(db, i), e => AnswerRead(i, e))
    case Lose(i) => Kept(UnknownPre(db, i), e => LoseRead(i, e))
    case Cancel(x, rev) => Kept(CancelPre(db, x, rev), e => CancelRead(x, rev, e))
    case Commit(i) => Kept(CommitPre(db, i), e => CommitRead(i, e))
    case Review(i, asOf) =>
      if i.leaseVersion == 0 || i.effectId !in db.effects || db.effects[i.effectId].runId !in db.workspaces then None
      else Some(ReviewRead(i, if asOf.Some? then asOf.value else db.clock))
    case Create(q, r) => if CreatePre(db, q).None? then Some(CreateRead(q, r)) else None
    case Change(i) => if StatusPre(db, i) then Some(ChangeRead(i, db.repairs[i.repairId])) else None
    case Plan(i) => if PlanPre(db, i).None? then Some(PlanRead(i)) else None
    case Child(r, p, f) => Kept(ChildPre(db, r, p), row => ChildRead(r, p, f, row))
    case Move(x, rev, s, n) => Kept(MovePre(db, x, rev, s, n), e => MoveRead(x, rev, s, n, e))
  }

  /** A refused pre-read can log a capsule failure, as the whole method does. */
  function Refused(db: Db, call: Call): Db {
    match call
    case Intent(i) => CasToInFlight(db, i).db
    case Commit(i) => CommitToTerminal(db, i).db
    case _ => db
  }

  /** The transaction of an open call. */
  function Transact(db: Db, o: Captured): Db {
    match o
    case IntentRead(i, c) => CasTxn(db, i, c).db
    case AnswerRead(i, e) => ReceiptTxn(db, i, e).db
    case LoseRead(i, e) => UnknownTxn(db, i, e).db
    case CancelRead(x, rev, e) => CancelTxn(db, x, rev, e).db
    case CommitRead(i, e) => CommitTxn(db, i, e).db
    case ReviewRead(i, t) => FinalizeTxn(db, i, t).db
    case CreateRead(q, r) => CreateTxn(db, q, r).db
    case ChangeRead(i, r) => StatusTxn(db, i, r).db
    case PlanRead(i) => PlanTxn(db, i).db
    case ChildRead(r, p, f, row) => ChildTxn(db, r, p, f, row).db
    case MoveRead(x, _, _, n, e) => MoveTxn(db, x, n, e).db
  }

  datatype HalfStep = Whole(op: Op) | Begin(call: Call) | Finish(k: nat)

  datatype Sys = Sys(db: Db, held: seq<Captured>)

  /** A method, or one statement of a rebuild, but not a transaction on its own. */
  predicate IsMethod(op: Op) {
    !(op.Ledger? && op.ledger.LateCommitOp?) && !(op.Repairs? && op.repair.LateCreateOp?)
  }

  function Next(s: Sys, step: HalfStep): Sys {
    match step
    case Whole(op) => if IsMethod(op) then s.(db := Apply(s.db, op)) else s
    case Begin(call) =>
      (match Read(s.db, call)
       case Some(o) => s.(held := s.held + [o])
       case None => s.(db := Refused(s.db, call)))
    case Finish(k) => if k < |s.held| then s.(db := Transact(s.db, s.held[k])) else s
  }

  function Run(steps: seq<HalfStep>): Sys
    decreases |steps|
  {
    if steps == [] then Sys(EmptyDb, []) else Next(Run(steps[..|steps| - 1]), steps[|steps| - 1])
  }

  /** Not the generic transition, neither whole nor in halves. */
  predicate ProtocolStep(step: HalfStep) {
    match step
    case Whole(op) => ProtocolOp(op)
    case Begin(call) => !call.Move?
    case Finish(_) => true
  }

  predicate Protocol(steps: seq<HalfStep>) { forall n :: 0 <= n < |steps| ==> ProtocolStep(steps[n]) }

  predicate NoMoveHeld(s: Sys) { forall k :: 0 <= k < |s.held| ==> !s.held[k].MoveRead? }

  /* ---------- one step ---------- */

  /** The pre-read of the open call was made at some earlier moment. */
  ghost predicate Remembered(db: Db, o: Captured) {
    exists before: Db, call: Call :: Read(before, call) == Some(o) && Evolves(before, db)
  }

  lemma RememberedLater(a: Db, b: Db, o: Captured)
    requires Remembered(a, o) && Evolves(a, b)
    ensures Remembered(b, o)
  {
    var before: Db, call: Call :| Read(before, call) == Some(o) && Evolves(before, a);
    hide Evolves, Read;
    EvolvesTransitive(before, a, b);
  }

  /** What the pre-read of an open call found. */
  predicate ReadAt(before: Db, o: Captured) {
    match o
    case IntentRead(i, c) => CasPre(before, i) == Ok(c)
    case AnswerRead(i, e) => ReceiptPre(before, i) == Ok(e)
    case LoseRead(i, e) => UnknownPre(before, i) == Ok(e)
    case CancelRead(x, rev, e) => CancelPre(before, x, rev) == Ok(e)
    case CommitRead(i, e) => CommitPre(before, i) == Ok(e)
    case ReviewRead(i, _) => i.leaseVersion != 0
    case CreateRead(q, _) => CreatePre(before, q).None?
    case ChangeRead(i, r) => StatusPre(before, i) && r == before.repairs[i.repairId]
    case PlanRead(i) => PlanPre(before, i).None?
    case ChildRead(r, p, _, row) => ChildPre(before, r, p) == Ok(row)
    case MoveRead(x, rev, s, n, e) => MovePre(before, x, rev, s, n) == Ok(e)
  }

  lemma ReadFinds(before: Db, call: Call, o: Captured)
    requires Read(before, call) == Some(o)
    ensures ReadAt(before, o)
  {
    hide CasPre, ReceiptPre, UnknownPre, CancelPre, CommitPre, CreatePre, StatusPre, PlanPre, ChildPre, MovePre;
  }

  lemma WasRead(db: Db, o: Captured) returns (before: Db)
    requires Remembered(db, o)
    ensures ReadAt(before, o) && Evolves(before, db)
  {
    var call: Call;
    before, call :| Read(before, call) == Some(o) && Evolves(before, db);
    hide Evolves, Read, ReadAt;
    ReadFinds(before, call, o);
  }

  /** The kernel operation that a transaction is, if it succeeds. */
  function OperationOf(o: Captured): Op {
    match o
    case IntentRead(i, c) => Ledger(CasOp(i.(expectedLeaseVersion := Some(c.leaseVersion))))
    case AnswerRead(i, _) => Ledger(ReceiptOp(i))
    case LoseRead(i, _) => Ledger(UnknownOp(i))
    case CancelRead(x, rev, _) => Ledger(CancelOp(x, rev))
    case CommitRead(i, _) => Ledger(LateCommitOp(i))
    case ReviewRead(i, t) => Ledger(FinalizeOp(i, t))
    case CreateRead(q, r) => Repairs(LateCreateOp(q, r))
    case ChangeRead(i, _) => Repairs(StatusOp(i))
    case PlanRead(i) => Ledger(PlanOp(i))
    case ChildRead(r, p, f, _) => Frames(ChildOp(r, p, f))
    case MoveRead(x, rev, s, n, _) => Ledger(TransitionOp(x, rev, s, n))
  }

  lemma OperationApplied(db: Db, o: Captured)
    ensures Apply(db, OperationOf(o)) ==
      match o
      case IntentRead(i, c) => CasToInFlight(db, i.(expectedLeaseVersion := Some(c.leaseVersion))).db
      case AnswerRead(i, _) => RecordReceipt(db, i).db
      case LoseRead(i, _) => RecordUnknownOutcome(db, i).db
      case CancelRead(x, rev, _) => CancelBeforeSend(db, x, rev).db
      case CommitRead(i, _) => LateCommit(db, i)
      case ReviewRead(i, t) => FinalizeAt(db, i, t).db
      case CreateRead(q, r) => R.LateCreate(db, q, r)
      case ChangeRead(i, _) => R.SetRepairStatus(db, i).db
      case PlanRead(i) => PlanEffect(db, i).db
      case ChildRead(r, p, f, _) => CreateChildFrame(db, r, p, f).db
      case MoveRead(x, rev, s, n, _) => TransitionEffect(db, x, rev, s, n).db
  {
    hide ApplyEnv, ApplyAuthority, ApplyIndex;
    hide CasToInFlight, RecordReceipt, RecordUnknownOutcome, CancelBeforeSend, LateCommit, FinalizeAt, R.LateCreate,
      R.SetRepairStatus, PlanEffect, CreateChildFrame, TransitionEffect;
    match o {
      case CreateRead(_, _) | ChangeRead(_, _) => hide ApplyLedger, ApplyFrame;
      case ChildRead(_, _, _, _) => hide ApplyLedger, ApplyRepair;
      case _ => hide ApplyFrame, ApplyRepair;
    }
  }

  /** A transaction leaves the database alone or is its operation. */
  lemma TransactionIsOperation(db: Db, o: Captured)
    requires Remembered(db, o)
    ensures Transact(db, o) == db || Transact(db, o) == Apply(db, OperationOf(o))
  {
    var before := WasRead(db, o);
    OperationApplied(db, o);
    hide Evolves, Remembered, Apply, CasPre, CasTxn, ReceiptPre, ReceiptTxn, UnknownPre, UnknownTxn, CancelPre, CancelTxn;
    hide CommitPre, CommitTxn, CreatePre, CreateTxn, StatusPre, StatusTxn;
    hide PlanPre, PlanTxn, ChildPre, ChildTxn, MovePre, MoveTxn;
    hide CasToInFlight, RecordReceipt, RecordUnknownOutcome, CancelBeforeSend, LateCommit, FinalizeAt, R.LateCreate,
      R.SetRepairStatus, PlanEffect, CreateChildFrame, TransitionEffect;
    match o
    case IntentRead(i, _) => CasSplitIsAtomic(before, db, i);
    case AnswerRead(i, _) => ReceiptSplitIsAtomic(before, db, i);
    case LoseRead(i, _) => UnknownSplitIsAtomic(before, db, i);
    case CancelRead(x, rev, _) => CancelSplitIsAtomic(before, db, x, rev);
    case CommitRead(i, _) => CommitSplitIsLate(before, db, i);
    case ReviewRead(_, _) =>
    case CreateRead(q, r) => CreateSplitIsLate(before, db, q, r);
    case ChangeRead(i, _) => StatusSplitIsAtomic(before, db, i);
    case PlanRead(i) => PlanSplitIsAtomic(before, db, i);
    case ChildRead(r, p, f, _) => ChildSplitIsAtomic(before, db, r, p, f);
    case MoveRead(x, rev, e, n, _) => MoveSplitIsAtomic(before, db, x, rev, e, n);
  }

  /** What a refused pre-read leaves is what the whole method leaves. */
  function RefusalOf(call: Call): Option<Op> {
    match call
    case Intent(i) => Some(Ledger(CasOp(i)))
    case Commit(i) => Some(Ledger(CommitOp(i)))
    case _ => None
  }

  lemma RefusalIsOperation(db: Db, call: Call)
    ensures Refused(db, call) == if RefusalOf(call).Some? then Apply(db, RefusalOf(call).value) else db
  {
    hide CasToInFlight, CommitToTerminal;
  }

  /* ---------- composition ---------- */

  /** The operation behind a step, if the step changes the database at all. */
  lemma StepOperation(s: Sys, step: HalfStep) returns (op: Option<Op>)
    requires forall k :: 0 <= k < |s.held| ==> Remembered(s.db, s.held[k])
    ensures Next(s, step).db == if op.Some? then Apply(s.db, op.value) else s.db
    ensures op.Some? && ProtocolStep(step) && NoMoveHeld(s) ==> ProtocolOp(op.value)
    ensures op.Some? && op.value.Ledger? && op.value.ledger.LateCommitOp? ==>
      step.Finish? && step.k < |s.held| && s.held[step.k].CommitRead? && s.held[step.k].commit == op.value.ledger.late
  {
    hide Apply, Remembered, Transact, Read, Refused;
    match step
    case Whole(o) => op := if IsMethod(o) then Some(o) else None;
    case Begin(call) =>
      RefusalIsOperation(s.db, call);
      op := if Read(s.db, call).Some? then None else RefusalOf(call);
    case Finish(k) =>
      if k >= |s.held| || Transact(s.db, s.held[k]) == s.db {
        op := None;
      } else {
        TransactionIsOperation(s.db, s.held[k]);
        op := Some(OperationOf(s.held[k]));
      }
  }

  lemma NoMoveBegins(s: Sys, step: HalfStep)
    requires NoMoveHeld(s) && ProtocolStep(step)
    ensures NoMoveHeld(Next(s, step))
  {
    hide Apply, Transact, Refused, CasPre, ReceiptPre, UnknownPre, CancelPre, CommitPre, CreatePre, StatusPre, PlanPre, ChildPre;
  }

  lemma HeldStaysRemembered(s: Sys, step: HalfStep)
    requires forall k :: 0 <= k < |s.held| ==> Remembered(s.db, s.held[k])
    ensures Evolves(s.db, Next(s, step).db)
    ensures forall k :: 0 <= k < |Next(s, step).held| ==> Remembered(Next(s, step).db, Next(s, step).held[k])
  {
    var op := StepOperation(s, step);
    EvolvesReflexive(s.db);
    if op.Some? {
      StepEvolves(s.db, op.value);
    }
    hide Apply, Transact, Refused, Evolves, Read;
    var after := Next(s, step);
    forall k | 0 <= k < |after.held| ensures Remembered(after.db, after.held[k]) {
      if k < |s.held| {
        assert after.held[k] == s.held[k];
        hide Remembered;
        RememberedLater(s.db, after.db, s.held[k]);
      } else {
        assert Read(s.db, step.call) == Some(after.held[k]) && after.db == s.db;
      }
    }
  }

  /** Composition: whatever the callers and however their pre-reads and transactions
      interleave, the database is that of a run of kernel operations, and every open
      call still holds what some moment of the run showed it. */
  lemma {:induction false} SplitRunsAreKernelRuns(steps: seq<HalfStep>) returns (ops: seq<Op>)
    ensures Run(steps).db == Exec(EmptyDb, ops)
    ensures Protocol(steps) ==> ProtocolRun(ops) && NoMoveHeld(Run(steps))
    ensures forall k :: 0 <= k < |Run(steps).held| ==> Remembered(Run(steps).db, Run(steps).held[k])
    decreases |steps|
  {
    if steps == [] {
      ops := [];
    } else {
      var rest, last := steps[..|steps| - 1], steps[|steps| - 1];
      ops := SplitRunsAreKernelRuns(rest);
      var op := StepOperation(Run(rest), last);
      HeldStaysRemembered(Run(rest), last);
      if Protocol(steps) {
        assert Protocol(rest) && ProtocolStep(last);
        NoMoveBegins(Run(rest), last);
      }
      hide Next, Remembered, Apply, NoMoveHeld;
      if op.Some? {
        assert (ops + [op.value])[..|ops|] == ops;
        ops := ops + [op.value];
      }
    }
  }

  /** Later states of a split run have evolved from earlier ones. */
  lemma {:induction false} SplitRunEvolves(steps: seq<HalfStep>, more: seq<HalfStep>)
    ensures Evolves(Run(steps).db, Run(steps + more).db)
    decreases |more|
  {
    hide Next, Evolves;
    if more == [] {
      assert steps + more == steps;
      EvolvesReflexive(Run(steps).db);
    } else {
      var rest, last := more[..|more| - 1], more[|more| - 1];
      assert (steps + more)[..|steps + more| - 1] == steps + rest;
      SplitRunEvolves(steps, rest);
      var ops := SplitRunsAreKernelRuns(steps + rest);
      hide Remembered;
      HeldStaysRemembered(Run(steps + rest), last);
      EvolvesTransitive(Run(steps).db, Run(steps + rest).db, Run(steps + more).db);
    }
  }
}
