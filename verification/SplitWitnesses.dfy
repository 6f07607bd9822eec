// Concrete interleavings that show what the gap between pre-read and transaction lets
// through: a tool registered inside a commit, a verdict under an expired lease, and a
// repair recorded on a stale snapshot.

module SplitWitnesses {
  import opened Tables
  import opened CapsuleStore
  import opened EffectProtocol
  import opened DurableRuntime
  import opened IngressReview
  import R = RepairPlans
  import opened Kernel
  import opened Evolution
  import opened Evidence
  import opened SplitStep
  import opened SplitRuns
  import W = Witnesses

  function Wholes(ops: seq<Op>): (steps: seq<HalfStep>)
    ensures |steps| == |ops| && forall n :: 0 <= n < |ops| ==> steps[n] == Whole(ops[n])
  {
    seq(|ops|, n requires 0 <= n < |ops| => Whole(ops[n]))
  }

  /** Methods that run in one piece. */
  lemma {:induction false} WholesRun(ops: seq<Op>)
    requires forall n :: 0 <= n < |ops| ==> IsMethod(ops[n])
    ensures Run(Wholes(ops)) == Sys(Exec(EmptyDb, ops), [])
  {
    hide Apply;
    if ops != [] {
      var rest := ops[..|ops| - 1];
      WholesRun(rest);
      assert Wholes(ops)[..|ops| - 1] == Wholes(rest);
      assert IsMethod(ops[|ops| - 1]);
    }
  }

  lemma RunOne(steps: seq<HalfStep>, step: HalfStep)
    ensures Run(steps + [step]) == Next(Run(steps), step)
  {
    hide Next;
    assert (steps + [step])[..|steps|] == steps;
  }

  /** One call, with one method of somebody else inside it. */
  function Around(base: seq<HalfStep>, call: Call, op: Op): seq<HalfStep> {
    base + [Begin(call)] + [Whole(op)] + [Finish(0)]
  }

  function Inside(base: seq<HalfStep>, call: Call, op: Op): seq<HalfStep> { base + [Begin(call)] + [Whole(op)] }

  lemma InsideRun(base: seq<HalfStep>, db: Db, call: Call, o: Captured, op: Op)
    requires Run(base) == Sys(db, []) && Read(db, call) == Some(o) && IsMethod(op)
    ensures Run(Inside(base, call, op)) == Sys(Apply(db, op), [o])
    ensures Run(Around(base, call, op)).db == Transact(Apply(db, op), o)
  {
    hide Run, Apply, Read, Transact, IsMethod;
    RunOne(base, Begin(call));
    RunOne(base + [Begin(call)], Whole(op));
    RunOne(base + [Begin(call)] + [Whole(op)], Finish(0));
  }

  lemma AroundIsProtocol(base: seq<HalfStep>, call: Call, op: Op)
    requires Protocol(base) && ProtocolOp(op) && !call.Move?
    ensures Protocol(Around(base, call, op))
  {
  }

  function Answered(): seq<HalfStep> { Wholes(W.ANSWERED) }

  lemma AnsweredRun()
    ensures Run(Answered()) == Sys(Exec(EmptyDb, W.ANSWERED), [])
    ensures W.Unreviewed(Run(Answered()).db, W.Row(Received, 3, 1, Some(9)))
    ensures Protocol(Answered())
  {
    assert forall n :: 0 <= n < |W.ANSWERED| ==> IsMethod(W.ANSWERED[n]) && ProtocolOp(W.ANSWERED[n]);
    hide Exec, W.Unreviewed;
    WholesRun(W.ANSWERED);
    W.AnsweredIsUnreviewed();
  }

  /* ---------- a tool row that arrives inside a commit ---------- */

  const REGISTER := Ledger(PrepareOp(W.LATE_TOOL))

  lemma CommitReads(db: Db)
    requires W.Unreviewed(db, W.Row(Received, 3, 1, Some(9)))
    ensures CommitPre(db, W.COMMIT) == Ok(W.Row(Received, 3, 1, Some(9)))
  {
  }

  /** Received, unreviewed, and now with its tool row. */
  predicate ToolArrived(db: Db) {
    && db.clock == 0 && db.workspaces == map[0 := 1]
    && db.leases == map[0 := Lease(7, 1, 100, false)]
    && db.effects == map[5 := W.Row(Received, 3, 1, Some(9))]
    && ResultKey(5, 1) in db.capsules
    && db.capsules[ResultKey(5, 1)] ==
         Capsule(1, 0, Some(9), "adapter", OfResult(BodyOf(W.RECEIPT)), SEVEN_DAYS_MS, SealedResult(BodyOf(W.RECEIPT)),
                 OfResult(BodyOf(W.RECEIPT)))
    && db.receipts == map[9 := NewReceipt(W.RECEIPT)] && db.findings == map[] && db.decisions == map[] && db.tools == {5}
  }

  lemma ToolArrives(db: Db)
    requires W.Unreviewed(db, W.Row(Received, 3, 1, Some(9)))
    ensures ToolArrived(Apply(db, Ledger(PrepareOp(W.LATE_TOOL))))
  {
    LedgerOpsAreAtomic(db, PrepareOp(W.LATE_TOOL));
    hide ApplyEnv, ApplyFrame, ApplyAuthority, ApplyRepair, ApplyIndex, ApplyLedger;
  }

  lemma LateCommitPasses(db: Db)
    requires ToolArrived(db)
    ensures LateCommitGuard(db, W.COMMIT)
  {
  }

  lemma LateCommitLands(db: Db)
    requires ToolArrived(db)
    ensures var b := CommitPost(db, W.COMMIT);
      b.tools == {5} && 5 in b.effects && b.effects[5].state == Committed && b.decisions == map[]
  {
  }

  lemma LateCommitReads(db: Db, row: Effect)
    requires CommitPre(db, W.COMMIT) == Ok(row)
    ensures Read(db, Commit(W.COMMIT)) == Some(CommitRead(W.COMMIT, row))
  {
    hide CommitPre;
  }

  lemma LateCommitTransacts(db: Db, at: Db, row: Effect)
    requires CommitPre(db, W.COMMIT) == Ok(row) && Evolves(db, at) && LateCommitGuard(at, W.COMMIT) && 5 in at.effects
    ensures Transact(at, CommitRead(W.COMMIT, row)) == CommitPost(at, W.COMMIT)
  {
    hide Evolves, CommitPre, CommitTxn, LateCommitGuard, CommitPost;
    CommitSplitIsLate(db, at, W.COMMIT);
  }

  lemma ToolArrivesAt(db: Db)
    requires W.Unreviewed(db, W.Row(Received, 3, 1, Some(9)))
    ensures var at := Apply(db, REGISTER);
      && Evolves(db, at) && ToolArrived(at) && at.tools == {5} && at.effects.Keys == {5} && at.effects[5].state == Received
  {
    ToolArrives(db);
    StepEvolves(db, REGISTER);
    hide Apply, Evolves, W.Unreviewed;
  }

  lemma NoDecisionNoReview(db: Db, e: Id)
    requires db.decisions == map[]
    ensures !exists d :: AcceptedOverSealed(db, e, d)
  {
  }

  /** A tool row that a re-prepare inserts between the pre-read of commitToTerminal and
      its transaction: the row is there when the transaction runs, which commits all the
      same, and nobody has reviewed the effect. */
  lemma ToolInsideCommitIsUnreviewed()
    ensures Protocol(Around(Answered(), Commit(W.COMMIT), REGISTER))
    ensures var at := Run(Inside(Answered(), Commit(W.COMMIT), REGISTER)).db;
      at.tools == {5} && at.effects.Keys == {5} && at.effects[5].state == Received
    ensures var db := Run(Around(Answered(), Commit(W.COMMIT), REGISTER)).db;
      && 5 in db.tools && 5 in db.effects && db.effects[5].state == Committed
      && !exists d :: AcceptedOverSealed(db, 5, d)
  {
    AnsweredRun();
    assert IsMethod(REGISTER) && ProtocolOp(REGISTER);
    hide *;
    var db, o := Run(Answered()).db, CommitRead(W.COMMIT, W.Row(Received, 3, 1, Some(9)));
    var at := Apply(db, REGISTER);
    ToolArrivesAt(db);
    CommitReads(db);
    LateCommitReads(db, W.Row(Received, 3, 1, Some(9)));
    LateCommitPasses(at);
    LateCommitTransacts(db, at, W.Row(Received, 3, 1, Some(9)));
    LateCommitLands(at);
    InsideRun(Answered(), db, Commit(W.COMMIT), o, REGISTER);
    AroundIsProtocol(Answered(), Commit(W.COMMIT), REGISTER);
    NoDecisionNoReview(CommitPost(at, W.COMMIT), 5);
  }

  /* ---------- a verdict under an expired lease ---------- */

  const VERDICT := FinalizeInput(5, Accepted, OfResult(BodyOf(W.RECEIPT)), 7, 1, false, 11, 12)

  const WAIT := Env(Tick(200))

  lemma VerdictAdmitted(db: Db)
    requires W.Unreviewed(db, W.Row(Received, 3, 1, Some(9)))
    ensures var at := db.(clock := 200);
      && FinalizeError(at, VERDICT, 0).None? && 5 in at.effects && at.effects[5].receiptId.Some?
      && !ActiveLease(at, 0, 7, 1, at.clock)
  {
  }

  lemma VerdictLands(db: Db)
    requires W.Unreviewed(db, W.Row(Received, 3, 1, Some(9)))
    ensures var b := FinalizePost(db.(clock := 200), VERDICT);
      && 5 in b.effects && b.effects[5].state == Committed
      && 0 in b.leases && b.leases[0].expiresAt < b.clock && !ActiveLease(b, 0, 7, 1, b.clock)
  {
  }

  lemma VerdictReads(db: Db)
    requires W.Unreviewed(db, W.Row(Received, 3, 1, Some(9)))
    ensures Read(db, Review(VERDICT, None)) == Some(ReviewRead(VERDICT, 0))
  {
  }

  lemma WaitMovesClock(db: Db)
    requires db.clock == 0
    ensures Apply(db, WAIT) == db.(clock := 200)
  {
  }

  lemma LateVerdictRun(db: Db)
    requires W.Unreviewed(db, W.Row(Received, 3, 1, Some(9)))
    ensures var at := Apply(db, WAIT);
      && at == db.(clock := 200) && 5 in at.effects && at.effects[5].receiptId.Some?
      && Transact(at, ReviewRead(VERDICT, 0)) == FinalizePost(at, VERDICT)
  {
    WaitMovesClock(db);
    VerdictAdmitted(db);
    assert db.(clock := 200).effects == db.effects;
    hide *;
    VerdictTransacts(db.(clock := 200));
  }

  lemma VerdictTransacts(at: Db)
    requires FinalizeError(at, VERDICT, 0).None?
    ensures 5 in at.effects && at.effects[5].receiptId.Some?
    ensures Transact(at, ReviewRead(VERDICT, 0)) == FinalizePost(at, VERDICT)
  {
    hide FinalizePost, FinalizeError, FinalizeAt;
    FinalizeAccepted(at, VERDICT, 0);
  }

  /** A verdict whose instant was captured before the lease expired commits the effect
      when the lease is long dead. */
  lemma ExpiredLeaseCommitsVerdict()
    ensures Protocol(Around(Answered(), Review(VERDICT, None), WAIT))
    ensures var db := Run(Around(Answered(), Review(VERDICT, None), WAIT)).db;
      && 5 in db.effects && db.effects[5].state == Committed
      && 0 in db.leases && db.leases[0].expiresAt < db.clock && !ActiveLease(db, 0, 7, 1, db.clock)
  {
    AnsweredRun();
    assert IsMethod(WAIT) && ProtocolOp(WAIT);
    hide *;
    var db := Run(Answered()).db;
    VerdictReads(db);
    LateVerdictRun(db);
    VerdictLands(db);
    InsideRun(Answered(), db, Review(VERDICT, None), ReviewRead(VERDICT, 0), WAIT);
    AroundIsProtocol(Answered(), Review(VERDICT, None), WAIT);
  }

  /* ---------- a repair on a stale snapshot ---------- */

  const PLAN := R.Request(0, 0, 1, map[], {}, map[], [], {})

  const MOVE := Frames(MoveOp(0, None, FRunning))

  lemma PlanReads(db: Db)
    requires W.Ready(db)
    ensures CreatePre(db, PLAN).None?
  {
  }

  lemma StaleCreates(db: Db)
    requires W.Ready(db) && db.repairs == map[]
    ensures Read(db, Create(PLAN, 20)) == Some(CreateRead(PLAN, 20))
    ensures var after := Transact(Apply(db, MOVE), CreateRead(PLAN, 20));
      && 20 in after.repairs && after.repairs[20].status == Open
      && R.RepairError(after, PLAN) == Some(RepairSubtreeRevisionDrift)
  {
    PlanReads(db);
  }

  lemma SetupRun()
    ensures Run(Wholes(W.SETUP)) == Sys(Exec(EmptyDb, W.SETUP), [])
    ensures W.Ready(Run(Wholes(W.SETUP)).db) && Run(Wholes(W.SETUP)).db.repairs == map[]
  {
    WholesRun(W.SETUP);
    W.SetupIsReady();
    SetupHasNoRepairs();
    hide Exec, W.Ready;
  }

  lemma SetupHasNoRepairs()
    ensures Exec(EmptyDb, W.SETUP).repairs == map[]
  {
    var a, b, c := W.SETUP[0], W.SETUP[1], W.SETUP[2];
    assert W.SETUP == ([a] + [b]) + [c] && [a] == [] + [a];
    ExecOne(EmptyDb, [], a);
    ExecOne(EmptyDb, [a], b);
    ExecOne(EmptyDb, [a] + [b], c);
  }

  /** The failing side of a split creation: the frame moves between verification and
      transaction, and the repair is recorded although its plan no longer verifies. */
  lemma StaleRepairIsRecorded()
    ensures var db := Run(Around(Wholes(W.SETUP), Create(PLAN, 20), MOVE)).db;
      20 in db.repairs && db.repairs[20].status == Open && R.RepairError(db, PLAN) == Some(RepairSubtreeRevisionDrift)
  {
    assert IsMethod(MOVE);
    hide *;
    SetupRun();
    StaleCreates(Run(Wholes(W.SETUP)).db);
    InsideRun(Wholes(W.SETUP), Run(Wholes(W.SETUP)).db, Create(PLAN, 20), CreateRead(PLAN, 20), MOVE);
  }
}
