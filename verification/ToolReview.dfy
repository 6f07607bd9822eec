// When is a committed tool effect a reviewed one? commitToTerminal looks for the tool
// row in its pre-read only, so it depends on commits whose pre-read came first.

module ToolReview {
  import opened Tables
  import opened CapsuleStore
  import opened EffectProtocol
  import opened DurableRuntime
  import opened IngressReview
  import opened Kernel
  import opened Evolution
  import opened Forest
  import opened Evidence
  import opened SplitStep
  import opened SplitRuns

  /** A commit of e that is past its pre-read. */
  predicate OpenCommit(o: Captured, e: Id) { o.CommitRead? && o.commit.effectId == e }

  /** Its transaction would go through now. */
  predicate CanFinish(db: Db, o: Captured) { o.CommitRead? && CommitTxn(db, o.commit, o.effect).result.Ok? }

  /** Committed only after an accepted review of the very result that was sealed. */
  ghost predicate OnlyReviewed(db: Db, e: Id) {
    e in db.effects && db.effects[e].state == Committed ==> exists d :: AcceptedOverSealed(db, e, d)
  }

  /* ---------- an open commit that cannot finish never will ---------- */

  lemma CanFinishIff(before: Db, at: Db, o: Captured)
    requires o.CommitRead? && ReadAt(before, o) && Evolves(before, at)
    ensures CanFinish(at, o) <==> LateCommitGuard(at, o.commit)
  {
    hide Evolves, CommitPre, CommitTxn, LateCommitGuard;
    CommitSplitIsLate(before, at, o.commit);
  }

  lemma LeaseWasLive(a: Db, b: Db, c: Db, runId: Id, holderId: Id, version: nat)
    requires LeasesEvolve(a.leases, b.leases) && LeasesEvolve(b.leases, c.leases) && b.clock <= c.clock
    requires ActiveLease(a, runId, holderId, version, a.clock) && ActiveLease(c, runId, holderId, version, c.clock)
    ensures ActiveLease(b, runId, holderId, version, b.clock)
  {
  }

  /** Receipts and capsules do not change, so a result that opens early and late opens in
      between. */
  lemma ResultWasOpen(a: Db, b: Db, c: Db, e: Id, row: Effect, r: Id, n: int)
    requires SubMap(a.receipts, b.receipts) && SubMap(b.receipts, c.receipts)
    requires SubMap(a.capsules, b.capsules) && SubMap(b.capsules, c.capsules)
    requires SubMap(a.workspaces, b.workspaces) && SubMap(b.workspaces, c.workspaces) && b.clock <= c.clock
    requires OpenAuthoritativeResult(a, e, row, r, n).Ok? && OpenAuthoritativeResult(c, e, row, r, n).Ok?
    ensures OpenAuthoritativeResult(b, e, row, r, n).Ok?
  {
    assert r in b.receipts && b.receipts[r] == a.receipts[r] == c.receipts[r];
    var key := a.receipts[r].capsule.value;
    assert key in b.capsules && b.capsules[key] == a.capsules[key] == c.capsules[key];
  }

  lemma GuardHeldBetween(a: Db, b: Db, c: Db, i: CommitInput)
    requires Evolves(a, b) && Evolves(b, c) && CommitPre(a, i).Ok? && LateCommitGuard(c, i)
    ensures LateCommitGuard(b, i)
  {
    CommitPreReads(a, i);
    var e := i.effectId;
    assert EffectEvolves(a.effects[e], b.effects[e]) && EffectEvolves(b.effects[e], c.effects[e]);
    hide CommitPre, ActiveLease, OpenAuthoritativeResult, FramesEvolve, ApprovalsEvolve, LeasesEvolve, RepairsEvolve;
    hide EffectsEvolve, Prefix;
    LeaseWasLive(a, b, c, a.effects[e].runId, i.leaseHolder, i.expectedLeaseVersion);
    ResultWasOpen(a, b, c, e, a.effects[e], i.receiptId, i.attemptNo);
  }

  lemma DeadStaysDead(at: Db, later: Db, o: Captured)
    requires Remembered(at, o) && o.CommitRead? && !CanFinish(at, o) && Evolves(at, later)
    ensures !CanFinish(later, o)
  {
    var before := WasRead(at, o);
    hide *;
    EvolvesTransitive(before, at, later);
    CanFinishIff(before, at, o);
    CanFinishIff(before, later, o);
    if CanFinish(later, o) {
      ReadAtMeans(before, o);
      GuardHeldBetween(before, at, later, o.commit);
    }
  }

  lemma ReadAtMeans(before: Db, o: Captured)
    requires ReadAt(before, o) && o.CommitRead?
    ensures CommitPre(before, o.commit).Ok?
  {
  }

  /* ---------- what a step can do to the review of e ---------- */

  /** The step makes a pre-read for committing e, and it passes. */
  predicate PassesRead(db: Db, step: HalfStep, e: Id) {
    match step
    case Whole(op) => CommitsUnreviewed(db, op, e)
    case Begin(Commit(i)) => i.effectId == e && CommitPre(db, i).Ok?
    case _ => false
  }

  lemma ToolIsSeen(db: Db, step: HalfStep, e: Id)
    requires e in db.tools && (step.Whole? ==> IsMethod(step.op))
    ensures !PassesRead(db, step, e)
  {
    hide OpenAuthoritativeResult, LateCommitGuard;
  }

  /** If e is committed it was reviewed, and no open commit of e can finish. */
  ghost predicate Settled(s: Sys, e: Id) {
    && CommitReviewed(s.db, e)
    && forall k :: 0 <= k < |s.held| && OpenCommit(s.held[k], e) ==> !CanFinish(s.db, s.held[k])
  }

  ghost predicate AllRemembered(s: Sys) {
    NoMoveHeld(s) && forall k :: 0 <= k < |s.held| ==> Remembered(s.db, s.held[k])
  }

  lemma OperationKeepsReviewed(s: Sys, step: HalfStep, e: Id)
    requires AllRemembered(s) && Settled(s, e) && ProtocolStep(step) && !PassesRead(s.db, step, e)
    ensures CommitReviewed(Next(s, step).db, e)
  {
    hide Remembered, Apply, Transact, Refused, CommitReviewed, CanFinish, CommitsUnreviewed, Read;
    match step
    case Whole(op) =>
      if IsMethod(op) {
        StepKeepsReviewed(s.db, op, e);
      }
    case Begin(call) =>
      RefusalIsOperation(s.db, call);
      if Read(s.db, call).None? && RefusalOf(call).Some? {
        RefusalCommitsNothing(s.db, call, e);
        StepKeepsReviewed(s.db, RefusalOf(call).value, e);
      }
    case Finish(k) =>
      if k < |s.held| {
        TransactionIsOperation(s.db, s.held[k]);
        if Transact(s.db, s.held[k]) != s.db {
          TransactionKeepsReviewed(s.db, s.held[k], e);
        }
      }
  }

  lemma RefusalCommitsNothing(db: Db, call: Call, e: Id)
    requires Read(db, call).None? && RefusalOf(call).Some?
    ensures ProtocolOp(RefusalOf(call).value) && !CommitsUnreviewed(db, RefusalOf(call).value, e)
  {
    hide CasPre, OpenAuthoritativeResult, CommitRowError;
  }

  lemma DeadCommitDoesNothing(db: Db, o: Captured)
    requires o.CommitRead? && !CanFinish(db, o)
    ensures Transact(db, o) == db
  {
    hide OpenAuthoritativeResult, ActiveLease;
  }

  lemma TransactionKeepsReviewed(db: Db, o: Captured, e: Id)
    requires Transact(db, o) == Apply(db, OperationOf(o)) && Transact(db, o) != db
    requires CommitReviewed(db, e) && !o.MoveRead? && (OpenCommit(o, e) ==> !CanFinish(db, o))
    ensures CommitReviewed(Transact(db, o), e)
  {
    hide Apply, Transact, CommitReviewed, CanFinish, LedgerOpEnabled;
    if OpenCommit(o, e) {
      DeadCommitDoesNothing(db, o);
    } else {
      StepKeepsReviewed(db, OperationOf(o), e);
    }
  }

  lemma StepKeepsSettled(s: Sys, step: HalfStep, e: Id)
    requires AllRemembered(s) && Settled(s, e) && ProtocolStep(step) && !PassesRead(s.db, step, e)
    ensures Settled(Next(s, step), e) && AllRemembered(Next(s, step))
  {
    OperationKeepsReviewed(s, step, e);
    HeldStaysRemembered(s, step);
    NoMoveBegins(s, step);
    hide Remembered, Apply, Transact, Refused, CommitReviewed, CanFinish, Evolves, NoMoveHeld, ProtocolStep, Next;
    var after := Next(s, step);
    forall k | 0 <= k < |after.held| && OpenCommit(after.held[k], e) ensures !CanFinish(after.db, after.held[k]) {
      StillDead(s, step, e, k);
    }
  }

  lemma StillDead(s: Sys, step: HalfStep, e: Id, k: nat)
    requires AllRemembered(s) && Settled(s, e) && !PassesRead(s.db, step, e)
    requires Evolves(s.db, Next(s, step).db)
    requires k < |Next(s, step).held| && OpenCommit(Next(s, step).held[k], e)
    ensures !CanFinish(Next(s, step).db, Next(s, step).held[k])
  {
    hide Remembered, Apply, Transact, Refused, CommitReviewed, CanFinish, Evolves, NoMoveHeld, PassesRead;
    var after := Next(s, step);
    if k < |s.held| {
      assert after.held[k] == s.held[k];
      hide Next;
      DeadStaysDead(s.db, after.db, s.held[k]);
    } else {
      assert Read(s.db, step.call) == Some(after.held[k]);
      hide Next;
      NewReadPassed(s.db, step.call, after.held[k], e);
    }
  }

  lemma NewReadPassed(db: Db, call: Call, o: Captured, e: Id)
    requires Read(db, call) == Some(o) && OpenCommit(o, e)
    ensures PassesRead(db, Begin(call), e)
  {
    hide CasPre, ReceiptPre, UnknownPre, CancelPre, CommitPre, CreatePre, StatusPre, PlanPre, ChildPre, MovePre;
  }

  /* ---------- the theorems ---------- */

  lemma SettledIsReviewed(steps: seq<HalfStep>, e: Id)
    requires Protocol(steps) && Settled(Run(steps), e)
    ensures OnlyReviewed(Run(steps).db, e)
  {
    var ops := SplitRunsAreKernelRuns(steps);
    AnsweredEffectsAreBacked(ops);
    hide Run, Exec, Backed, Reviewed, Remembered, AcceptedOverSealed, CanFinish;
    var db := Run(steps).db;
    if e in db.effects && db.effects[e].state == Committed {
      ReviewedOverSealed(db, e);
    }
  }

  lemma PrefixIsProtocol(steps: seq<HalfStep>, n: nat)
    requires Protocol(steps) && n <= |steps|
    ensures Protocol(steps[..n])
  {
  }

  /** Every pre-read for committing e, split or whole, finds the tool row. */
  ghost predicate ToolAtEveryRead(steps: seq<HalfStep>, e: Id) {
    forall n :: 0 <= n < |steps| ==> BeginsCommit(steps[n], e) ==> e in Run(steps[..n]).db.tools
  }

  predicate BeginsCommit(step: HalfStep, e: Id) {
    || (step.Begin? && step.call.Commit? && step.call.commit.effectId == e)
    || (step.Whole? && step.op.Ledger? && step.op.ledger.CommitOp? && step.op.ledger.commit.effectId == e)
  }

  lemma {:induction false} SeenToolSettles(steps: seq<HalfStep>, e: Id)
    requires Protocol(steps) && ToolAtEveryRead(steps, e)
    ensures Settled(Run(steps), e) && AllRemembered(Run(steps))
    decreases |steps|
  {
    hide Next, CommitReviewed, CanFinish, Remembered;
    if steps == [] {
      NothingCommitted(e);
    } else {
      var rest, last := steps[..|steps| - 1], steps[|steps| - 1];
      PrefixIsProtocol(steps, |steps| - 1);
      forall n | 0 <= n < |rest| && BeginsCommit(rest[n], e) ensures e in Run(rest[..n]).db.tools {
        assert rest[..n] == steps[..n] && rest[n] == steps[n];
      }
      SeenToolSettles(rest, e);
      LastReadSawTool(steps, e);
      hide Run, Settled, AllRemembered, ToolAtEveryRead;
      AfterLast(steps);
      IfMethod(Run(rest), last, e);
    }
  }

  lemma NothingCommitted(e: Id)
    ensures CommitReviewed(EmptyDb, e)
  {
  }

  lemma AfterLast(steps: seq<HalfStep>)
    requires steps != []
    ensures Run(steps) == Next(Run(steps[..|steps| - 1]), steps[|steps| - 1])
  {
    hide Next;
  }

  lemma LastReadSawTool(steps: seq<HalfStep>, e: Id)
    requires steps != [] && ToolAtEveryRead(steps, e)
    ensures BeginsCommit(steps[|steps| - 1], e) ==> e in Run(steps[..|steps| - 1]).db.tools
  {
    hide Run;
  }

  /** A step that begins no commit of e, or finds the tool row, keeps e settled. */
  lemma IfMethod(s: Sys, step: HalfStep, e: Id)
    requires AllRemembered(s) && Settled(s, e) && ProtocolStep(step)
    requires BeginsCommit(step, e) ==> e in s.db.tools
    ensures Settled(Next(s, step), e) && AllRemembered(Next(s, step))
  {
    hide AllRemembered, Settled;
    if step.Whole? && !IsMethod(step.op) {
    } else {
      hide Next, LedgerOpEnabled, CommitPre;
      if BeginsCommit(step, e) {
        ToolIsSeen(s.db, step, e);
      }
      hide CommitsUnreviewed;
      ReadsNothing(s.db, step, e);
      StepKeepsSettled(s, step, e);
    }
  }

  lemma ReadsNothing(db: Db, step: HalfStep, e: Id)
    requires step.Whole? ==> IsMethod(step.op)
    requires BeginsCommit(step, e) ==> !PassesRead(db, step, e)
    ensures !PassesRead(db, step, e)
  {
    hide LedgerOpEnabled, CommitPre;
  }

  /** Review evidence: if every pre-read for committing e finds the tool row, then e,
      however its callers interleave, is committed only by a reviewer who accepted the
      very result that was sealed. */
  lemma ToolCommitsAreReviewed(steps: seq<HalfStep>, e: Id)
    requires Protocol(steps) && ToolAtEveryRead(steps, e)
    ensures OnlyReviewed(Run(steps).db, e)
  {
    SeenToolSettles(steps, e);
    hide *;
    SettledIsReviewed(steps, e);
  }

  /** Whatever happens next, e is not committed without a review. */
  ghost predicate SafeForGood(steps: seq<HalfStep>, e: Id) {
    forall more: seq<HalfStep> :: Protocol(more) ==> OnlyReviewed(Run(steps + more).db, e)
  }

  /** Every open commit of e already fails a check that its transaction repeats: state,
      revision, lease, receipt and sealed result, or the identifier of its finding. */
  ghost predicate NoneCanFinish(s: Sys, e: Id) {
    forall k :: 0 <= k < |s.held| && OpenCommit(s.held[k], e) ==> !LateCommitGuard(s.db, s.held[k].commit)
  }

  lemma FinishesIffGuarded(db: Db, o: Captured)
    requires Remembered(db, o) && o.CommitRead?
    ensures CanFinish(db, o) <==> LateCommitGuard(db, o.commit)
  {
    var before := WasRead(db, o);
    hide *;
    CanFinishIff(before, db, o);
  }

  lemma SettledIff(s: Sys, e: Id)
    requires AllRemembered(s)
    ensures Settled(s, e) <==> CommitReviewed(s.db, e) && NoneCanFinish(s, e)
  {
    hide CommitReviewed, CanFinish, LateCommitGuard, Remembered;
    forall k | 0 <= k < |s.held| && OpenCommit(s.held[k], e)
      ensures CanFinish(s.db, s.held[k]) <==> LateCommitGuard(s.db, s.held[k].commit)
    {
      FinishesIffGuarded(s.db, s.held[k]);
    }
  }

  lemma {:induction false} ToolStaysSettled(steps: seq<HalfStep>, more: seq<HalfStep>, e: Id)
    requires Protocol(more) && e in Run(steps).db.tools && Settled(Run(steps), e) && AllRemembered(Run(steps))
    ensures Settled(Run(steps + more), e) && AllRemembered(Run(steps + more)) && e in Run(steps + more).db.tools
    decreases |more|
  {
    hide *;
    if more == [] {
      assert steps + more == steps;
    } else {
      var rest, last := more[..|more| - 1], more[|more| - 1];
      assert (steps + more)[..|steps + more| - 1] == steps + rest && (steps + more)[|steps + more| - 1] == last;
      PrefixIsProtocol(more, |more| - 1);
      LastIsProtocol(more);
      ToolStaysSettled(steps, rest, e);
      AfterLast(steps + more);
      IfMethod(Run(steps + rest), last, e);
      SplitRunEvolves(steps, more);
      ToolsStay(Run(steps).db, Run(steps + more).db, e);
    }
  }

  lemma LastIsProtocol(more: seq<HalfStep>)
    requires more != [] && Protocol(more)
    ensures ProtocolStep(more[|more| - 1])
  {
  }

  lemma ToolsStay(a: Db, b: Db, e: Id)
    requires Evolves(a, b) && e in a.tools
    ensures e in b.tools
  {
    hide RuntimeEvolves, EffectsEvolve, SubMap;
  }

  /** The exact condition. Once the tool row of an uncommitted effect is there, every
      continuation commits it only with a review if and only if no commit whose pre-read
      came before the row can still finish. */
  lemma SafeIffNoneCanFinish(steps: seq<HalfStep>, e: Id)
    requires Protocol(steps)
    requires var db := Run(steps).db; e in db.tools && e in db.effects && db.effects[e].state != Committed
    ensures SafeForGood(steps, e) <==> NoneCanFinish(Run(steps), e)
  {
    var ops := SplitRunsAreKernelRuns(steps);
    UncommittedSettledIff(Run(steps), e);
    hide *;
    if Settled(Run(steps), e) {
      SettledIsSafe(steps, e);
    } else {
      OpenCommitIsUnsafe(steps, e);
    }
  }

  lemma UncommittedSettledIff(s: Sys, e: Id)
    requires AllRemembered(s) && e in s.db.effects && s.db.effects[e].state != Committed
    ensures Settled(s, e) <==> NoneCanFinish(s, e)
    ensures AllRemembered(s)
  {
    assert CommitReviewed(s.db, e);
    hide *;
    SettledIff(s, e);
  }

  lemma SettledIsSafe(steps: seq<HalfStep>, e: Id)
    requires Protocol(steps) && e in Run(steps).db.tools && Settled(Run(steps), e) && AllRemembered(Run(steps))
    ensures SafeForGood(steps, e)
  {
    hide Run, OnlyReviewed, Settled, AllRemembered;
    forall more: seq<HalfStep> | Protocol(more) ensures OnlyReviewed(Run(steps + more).db, e) {
      ToolStaysSettled(steps, more, e);
      assert Protocol(steps + more);
      SettledIsReviewed(steps + more, e);
    }
  }

  lemma OpenCommitIsUnsafe(steps: seq<HalfStep>, e: Id)
    requires Protocol(steps) && AllRemembered(Run(steps)) && !NoneCanFinish(Run(steps), e)
    ensures !SafeForGood(steps, e)
  {
    hide Run, Remembered, OnlyReviewed, CanFinish, LateCommitGuard;
    var k :| 0 <= k < |Run(steps).held| && OpenCommit(Run(steps).held[k], e)
      && LateCommitGuard(Run(steps).db, Run(steps).held[k].commit);
    FinishesIffGuarded(Run(steps).db, Run(steps).held[k]);
    FinishedUnreviewed(steps, k, e);
  }

  /** What a caller can look up: with the tool row there and the effect neither received
      nor committed, it is safe for good, whatever commits are open. */
  lemma UnansweredToolIsSafe(steps: seq<HalfStep>, e: Id)
    requires Protocol(steps)
    requires var db := Run(steps).db;
      e in db.tools && e in db.effects && db.effects[e].state != Received && db.effects[e].state != Committed
    ensures SafeForGood(steps, e)
  {
    assert NoneCanFinish(Run(steps), e) by {
      hide Run, OpenAuthoritativeResult, ActiveLease;
    }
    hide *;
    SafeIffNoneCanFinish(steps, e);
  }

  /** The open commit goes through, and no review stands behind it. */
  lemma FinishedUnreviewed(steps: seq<HalfStep>, k: nat, e: Id)
    requires Protocol(steps) && k < |Run(steps).held| && OpenCommit(Run(steps).held[k], e)
    requires CanFinish(Run(steps).db, Run(steps).held[k])
    ensures Protocol([Finish(k)]) && !OnlyReviewed(Run(steps + [Finish(k)]).db, e)
  {
    var longer := steps + [Finish(k)];
    var at, o := Run(steps).db, Run(steps).held[k];
    assert Protocol(longer) && o.commit.effectId == e;
    FinishRuns(steps, k);
    hide *;
    var ops := SplitRunsAreKernelRuns(longer);
    CommitWrites(at, o);
    DirectlyCommitted(ops, e);
  }

  lemma FinishRuns(steps: seq<HalfStep>, k: nat)
    requires k < |Run(steps).held|
    ensures Run(steps + [Finish(k)]).db == Transact(Run(steps).db, Run(steps).held[k]) && Protocol([Finish(k)])
  {
    assert (steps + [Finish(k)])[..|steps|] == steps;
    hide Transact;
  }

  lemma DirectlyCommitted(ops: seq<Op>, e: Id)
    requires ProtocolRun(ops)
    requires var db := Exec(EmptyDb, ops);
      e in db.effects && db.effects[e].state == Committed && CommitLogged(e, db.events)
    ensures !OnlyReviewed(Exec(EmptyDb, ops), e)
  {
    hide Exec, CommitLogged, AcceptedOverSealed;
    ReviewedIffNotCommittedDirectly(ops, e);
  }

  lemma CommitWrites(at: Db, o: Captured)
    requires CanFinish(at, o)
    ensures var b, e := Transact(at, o), o.commit.effectId;
      e in b.effects && b.effects[e].state == Committed && CommitLogged(e, b.events)
  {
    TxnWrites(at, o.commit, o.effect);
    var b := Transact(at, o);
    hide CommitTxn;
    assert b.events[|b.events| - 1].kind == EffectCommitted(o.commit.effectId, o.commit.receiptId);
  }

  lemma TxnWrites(at: Db, i: CommitInput, row: Effect)
    requires CommitTxn(at, i, row).result.Ok?
    ensures var b := CommitTxn(at, i, row).db;
      && i.effectId in b.effects && b.effects[i.effectId].state == Committed
      && b.events == at.events + [Event(row.runId, EffectCommitted(i.effectId, i.receiptId))]
  {
    hide OpenAuthoritativeResult, ActiveLease, AppendEdge;
  }
}
