// Concrete runs that show where three promises end: attempt numbers are not distinct
// without approval, a committed tool effect need not have been reviewed, and a rebuild of
// the audit-edge index can lose edges.

module Witnesses {
  import opened Tables
  import opened CapsuleStore
  import opened EffectProtocol
  import opened DurableRuntime
  import opened IngressReview
  import opened Kernel
  import opened Replay
  import opened Lineage
  import opened Evidence
  import X = AuditIndex
  import A = AuditEdges
  import B = AuditRebuild

  const REQUEST := PrepareInput(0, 0, "adapter", "payload", Opaque("fingerprint"), None, "key", "scope", 0, "policy",
                                "pinned", NoHook, 5)

  const SETUP: seq<Op> := [Env(StartRun(0, 1)), Frames(RootOp(0, 0)), Authority(AcquireOp(0, 7, 100))]

  function Lost(attemptNo: int): Op { Ledger(UnknownOp(UnknownInput(5, attemptNo, None))) }

  /** Run 0 with its root frame, leased to holder 7, and nothing else. */
  predicate Ready(db: Db) {
    && db.clock == 0 && db.workspaces == map[0 := 1] && db.routes == map[]
    && db.frames == map[0 := Frame(0, None, FPending, [], 1)]
    && db.leases == map[0 := Lease(7, 1, 100, false)]
    && db.effects == map[] && db.keyIndex == map[] && db.capsules == map[] && db.approvals == map[]
    && db.receipts == map[] && db.findings == map[] && db.decisions == map[] && db.tools == {}
  }

  lemma SetupIsReady()
    ensures Ready(Exec(EmptyDb, SETUP))
  {
    var a, b, c := SETUP[0], SETUP[1], SETUP[2];
    assert SETUP == ([a] + [b]) + [c] && [a] == [] + [a];
    ExecOne(EmptyDb, [], a);
    ExecOne(EmptyDb, [a], b);
    ExecOne(EmptyDb, [a] + [b], c);
  }

  function Row(state: EffectState, revision: nat, attempt: int, receipt: Option<Id>): Effect {
    NewEffect(REQUEST).(state := state, revision := revision, callbackAttempt := Some(attempt), receiptId := receipt)
  }

  /** The effect of REQUEST, alone in the ledger, with callback capsules 1..k and an
      active lease at version 1. */
  ghost predicate Live(db: Db, row: Effect, k: int) {
    && db.clock == 0 && db.workspaces == map[0 := 1] && db.routes == map[]
    && db.frames == map[0 := Frame(0, None, FPending, [], 1)]
    && db.leases == map[0 := Lease(7, 1, 100, false)]
    && db.effects == map[5 := row] && db.keyIndex == map[OfKey("key") := 5]
    && db.findings == map[] && db.decisions == map[] && db.tools == {}
    && (forall n :: CallbackKey(5, n) in db.capsules <==> 1 <= n <= k)
    && (forall n :: 1 <= n <= k ==>
          db.capsules[CallbackKey(5, n)] ==
            Capsule(1, 0, None, "adapter", OfCommand(CommandOf(REQUEST)), SEVEN_DAYS_MS,
                    SealedCommand(CommandOf(REQUEST)), OfCommand(CommandOf(REQUEST))))
  }

  lemma PrepareIsAccepted(db: Db)
    requires Ready(db)
    ensures PrepareError(db, REQUEST).None? && Existing(db, REQUEST).None?
  {
  }

  lemma Prepares(db: Db)
    requires Ready(db)
    ensures Live(Apply(db, Ledger(PrepareOp(REQUEST))), Row(Planned, 1, 1, None), 1)
    ensures var b := Apply(db, Ledger(PrepareOp(REQUEST)));
      b.receipts == map[] && b.capsules.Keys == {CallbackKey(5, 1)}
      && b.events == db.events + [Event(0, EffectPrepared(0, OfKey("key")))]
  {
    PrepareIsAccepted(db);
    LedgerOpsAreAtomic(db, PrepareOp(REQUEST));
    hide ApplyEnv, ApplyFrame, ApplyAuthority, ApplyRepair, ApplyIndex, ApplyLedger, PrepareError, Existing;
  }

  function CallOf(revision: nat, n: int): CasInput { CasInput(5, revision, n, 7, None, n > 1, Some(1)) }

  /** Attempt n may be called: the first one from `planned`, a later one from `unknown`. */
  ghost predicate Callable(db: Db, row: Effect, k: int, n: int) {
    && Live(db, row, k) && k >= 1
    && row == Row(row.state, row.revision, if row.callbackAttempt.Some? then row.callbackAttempt.value else 0, None)
    && if n > 1 then row.state == Unknown && n <= k + 1 else n == 1 && row.state == Planned
  }

  lemma CallAccepted(db: Db, row: Effect, k: int, n: int)
    requires Callable(db, row, k, n)
    ensures CasGuard(db, CallOf(row.revision, n))
  {
  }

  lemma Calls(db: Db, row: Effect, k: int, n: int)
    requires Callable(db, row, k, n)
    ensures var b := Apply(db, Ledger(CasOp(CallOf(row.revision, n))));
      && Live(b, Row(InFlight, row.revision + 1, n, None), if n > k then n else k)
      && b.receipts == db.receipts
      && b.capsules.Keys == db.capsules.Keys + {CallbackKey(5, n)}
      && b.events == db.events + [Event(0, CallbackIntent(5, n, None))]
  {
    CallAccepted(db, row, k, n);
    LedgerOpsAreAtomic(db, CasOp(CallOf(row.revision, n)));
    hide ApplyEnv, ApplyFrame, ApplyAuthority, ApplyRepair, ApplyIndex, ApplyLedger, CasGuard;
  }

  lemma Loses(db: Db, row: Effect, k: int, n: int)
    requires Live(db, row, k) && row.state == InFlight && row.runId == 0 && n >= 1
    ensures var b := Apply(db, Lost(n));
      && Live(b, row.(state := Unknown, revision := row.revision + 1), k)
      && b.receipts == db.receipts
      && b.events == db.events + [Event(0, EffectUnknownState(5, n))]
  {
    LedgerOpsAreAtomic(db, UnknownOp(UnknownInput(5, n, None)));
    hide ApplyEnv, ApplyFrame, ApplyAuthority, ApplyRepair, ApplyIndex, ApplyLedger;
  }

  /* ---------- a reused attempt number ---------- */

  function Call(revision: nat, n: int): Op { Ledger(CasOp(CallOf(revision, n))) }

  const PREPARED: seq<Op> := SETUP + [Ledger(PrepareOp(REQUEST))]
  const LOST_ONCE: seq<Op> := PREPARED + [Call(1, 1)] + [Lost(1)]
  const LOST_TWICE: seq<Op> := LOST_ONCE + [Call(3, 2)] + [Lost(2)]

  lemma NothingCalledYet(ops: seq<Op>, e: Id)
    requires e !in Exec(EmptyDb, ops).effects
    ensures Intents(e, Exec(EmptyDb, ops).events) == []
  {
    hide Exec;
    ReachableInLine(ops);
  }

  lemma ReadyIsEmpty(db: Db)
    requires Ready(db)
    ensures 5 !in db.effects
  {
  }

  lemma PreparedIsLive()
    ensures Live(Exec(EmptyDb, PREPARED), Row(Planned, 1, 1, None), 1)
    ensures Exec(EmptyDb, PREPARED).receipts == map[]
    ensures Exec(EmptyDb, PREPARED).capsules.Keys == {CallbackKey(5, 1)}
    ensures Intents(5, Exec(EmptyDb, PREPARED).events) == []
  {
    assert PREPARED == SETUP + [Ledger(PrepareOp(REQUEST))];
    hide *;
    SetupIsReady();
    ExecOne(EmptyDb, SETUP, Ledger(PrepareOp(REQUEST)));
    Prepares(Exec(EmptyDb, SETUP));
    ReadyIsEmpty(Exec(EmptyDb, SETUP));
    NothingCalledYet(SETUP, 5);
    IntentsOneMore(5, Exec(EmptyDb, SETUP).events, Event(0, EffectPrepared(0, OfKey("key"))));
  }

  /** One intent that is lost: the effect is unknown, and the intent is on record. */
  lemma CallThenLose(ops: seq<Op>, row: Effect, k: int, n: int)
    requires Callable(Exec(EmptyDb, ops), row, k, n)
    ensures var b := Exec(EmptyDb, ops + [Call(row.revision, n)] + [Lost(n)]);
      && Live(b, Row(Unknown, row.revision + 2, n, None), if n > k then n else k)
      && Intents(5, b.events) == Intents(5, Exec(EmptyDb, ops).events) + [Intent(n, None)]
  {
    var a := Exec(EmptyDb, ops);
    Calls(a, row, k, n);
    var called := Row(InFlight, row.revision + 1, n, None);
    assert called.(state := Unknown, revision := called.revision + 1) == Row(Unknown, row.revision + 2, n, None);
    assert called.runId == 0 && called.state == InFlight && Call(row.revision, n) == Ledger(CasOp(CallOf(row.revision, n)));
    assert Live(a, row, k);
    hide *;
    ExecOne(EmptyDb, ops, Call(row.revision, n));
    ExecOne(EmptyDb, ops + [Call(row.revision, n)], Lost(n));
    Loses(Apply(a, Call(row.revision, n)), called, if n > k then n else k, n);
    IntentsOneMore(5, a.events, Event(0, CallbackIntent(5, n, None)));
    IntentsOneMore(5, Apply(a, Call(row.revision, n)).events, Event(0, EffectUnknownState(5, n)));
  }

  /** Without approval an attempt number can be used twice: after two lost callbacks,
      attempt 2 is accepted a second time, so the intents are 1, 2, 2. */
  lemma AttemptNumberReused()
    ensures CasGuard(Exec(EmptyDb, LOST_TWICE), CallOf(5, 2))
    ensures Intents(5, Exec(EmptyDb, LOST_TWICE).events) == [Intent(1, None), Intent(2, None)]
    ensures Attempted(Intents(5, Exec(EmptyDb, LOST_TWICE).events), CallOf(5, 2).attemptNo)
  {
    LostTwice();
    LiveIsCallable(Exec(EmptyDb, LOST_TWICE), Row(Unknown, 5, 2, None), 2, 2);
    hide Exec, Live, Intents, LOST_TWICE, Callable;
    CallAccepted(Exec(EmptyDb, LOST_TWICE), Row(Unknown, 5, 2, None), 2, 2);
    assert Intents(5, Exec(EmptyDb, LOST_TWICE).events)[1].attemptNo == 2;
  }

  lemma LiveIsCallable(db: Db, row: Effect, k: int, n: int)
    requires Live(db, row, k) && k >= 1 && row.callbackAttempt.Some?
    requires row == Row(row.state, row.revision, row.callbackAttempt.value, None)
    requires if n > 1 then row.state == Unknown && n <= k + 1 else n == 1 && row.state == Planned
    ensures Callable(db, row, k, n)
  {
  }

  lemma LostTwice()
    ensures Live(Exec(EmptyDb, LOST_TWICE), Row(Unknown, 5, 2, None), 2)
    ensures Intents(5, Exec(EmptyDb, LOST_TWICE).events) == [Intent(1, None), Intent(2, None)]
  {
    assert LOST_ONCE == PREPARED + [Call(1, 1)] + [Lost(1)];
    assert LOST_TWICE == LOST_ONCE + [Call(3, 2)] + [Lost(2)];
    hide Exec, Live, Intents, PREPARED, LOST_ONCE, LOST_TWICE, Callable, Apply;
    PreparedIsLive();
    LiveIsCallable(Exec(EmptyDb, PREPARED), Row(Planned, 1, 1, None), 1, 1);
    CallThenLose(PREPARED, Row(Planned, 1, 1, None), 1, 1);
    LiveIsCallable(Exec(EmptyDb, LOST_ONCE), Row(Unknown, 3, 1, None), 1, 2);
    CallThenLose(LOST_ONCE, Row(Unknown, 3, 1, None), 1, 2);
  }

  /* ---------- a tool effect that was committed without review ---------- */

  const RECEIPT := ReceiptInput(5, 1, None, None, "result", Applied, Some("ok"), 9)
  const COMMIT := CommitInput(5, 3, 1, 9, 7, 1, 11)
  const LATE_TOOL := REQUEST.(hook := RegisterTool)

  const COMMITTED: seq<Op> := ANSWERED + [Ledger(CommitOp(COMMIT))]
  const LATE: seq<Op> := COMMITTED + [Ledger(PrepareOp(LATE_TOOL))]

  /** The effect of REQUEST with its receipt, nothing reviewed and no tool row. */
  predicate Unreviewed(db: Db, row: Effect) {
    && db.clock == 0 && db.workspaces == map[0 := 1]
    && db.frames == map[0 := Frame(0, None, FPending, [], 1)]
    && db.leases == map[0 := Lease(7, 1, 100, false)]
    && db.effects == map[5 := row] && db.keyIndex == map[OfKey("key") := 5]
    && CallbackKey(5, 1) in db.capsules && ResultKey(5, 1) in db.capsules
    && db.capsules[ResultKey(5, 1)] ==
         Capsule(1, 0, Some(9), "adapter", OfResult(BodyOf(RECEIPT)), SEVEN_DAYS_MS, SealedResult(BodyOf(RECEIPT)),
                 OfResult(BodyOf(RECEIPT)))
    && db.receipts == map[9 := NewReceipt(RECEIPT)] && db.findings == map[] && db.decisions == map[] && db.tools == {}
  }

  const ANSWERED: seq<Op> := PREPARED + [Call(1, 1)] + [Ledger(ReceiptOp(RECEIPT))]

  lemma AnsweredIsUnreviewed()
    ensures Unreviewed(Exec(EmptyDb, ANSWERED), Row(Received, 3, 1, Some(9)))
  {
    assert ANSWERED == PREPARED + [Call(1, 1)] + [Ledger(ReceiptOp(RECEIPT))];
    CallsFirst();
    hide *;
    ExecOne(EmptyDb, PREPARED + [Call(1, 1)], Ledger(ReceiptOp(RECEIPT)));
    Receives(Exec(EmptyDb, PREPARED + [Call(1, 1)]));
  }

  lemma Receives(db: Db)
    requires Live(db, Row(InFlight, 2, 1, None), 1) && db.receipts == map[] && db.capsules.Keys == {CallbackKey(5, 1)}
    ensures Unreviewed(Apply(db, Ledger(ReceiptOp(RECEIPT))), Row(Received, 3, 1, Some(9)))
  {
    assert ResultKey(5, 1) !in db.capsules.Keys;
    LedgerOpsAreAtomic(db, ReceiptOp(RECEIPT));
    hide ApplyEnv, ApplyFrame, ApplyAuthority, ApplyRepair, ApplyIndex, ApplyLedger;
  }

  predicate CommittedAlone(db: Db) {
    && db.frames == map[0 := Frame(0, None, FPending, [], 1)] && db.keyIndex == map[OfKey("key") := 5]
    && CallbackKey(5, 1) in db.capsules
    && db.effects == map[5 := Row(Committed, 4, 1, Some(9))] && db.decisions == map[]
  }

  lemma CommitIsAccepted(db: Db)
    requires Unreviewed(db, Row(Received, 3, 1, Some(9)))
    ensures CommitGuard(db, COMMIT)
  {
  }

  lemma CommitsAlone(db: Db)
    requires Unreviewed(db, Row(Received, 3, 1, Some(9)))
    ensures CommittedAlone(CommitPost(db, COMMIT))
  {
  }

  lemma CommitsDirectly(db: Db)
    requires Unreviewed(db, Row(Received, 3, 1, Some(9)))
    ensures CommittedAlone(Apply(db, Ledger(CommitOp(COMMIT))))
  {
    CommitIsAccepted(db);
    CommitApplies(db);
    assert 5 in db.effects;
    hide *;
    CommitAccepted(db, COMMIT);
    CommitsAlone(db);
  }

  lemma CommitApplies(db: Db)
    ensures Apply(db, Ledger(CommitOp(COMMIT))) == CommitToTerminal(db, COMMIT).db
  {
    hide CommitToTerminal;
  }

  lemma RegistersLate(db: Db)
    requires CommittedAlone(db)
    ensures 5 in Apply(db, Ledger(PrepareOp(LATE_TOOL))).tools
    ensures CommittedAlone(Apply(db, Ledger(PrepareOp(LATE_TOOL))))
  {
    LedgerOpsAreAtomic(db, PrepareOp(LATE_TOOL));
    hide ApplyEnv, ApplyFrame, ApplyAuthority, ApplyRepair, ApplyIndex, ApplyLedger;
  }

  /** A tool row inserted by a re-prepare after the commit leaves a committed tool
      effect that nobody has reviewed: commitToTerminal looks for the row only once. */
  lemma LateToolIsUnreviewed()
    ensures ProtocolRun(LATE)
    ensures var db := Exec(EmptyDb, LATE);
      && 5 in db.tools && 5 in db.effects && db.effects[5].state == Committed
      && !exists d :: AcceptedOverSealed(db, 5, d)
  {
    LateRun();
    hide Exec;
  }

  lemma LateRun()
    ensures 5 in Exec(EmptyDb, LATE).tools && CommittedAlone(Exec(EmptyDb, LATE))
  {
    assert COMMITTED == ANSWERED + [Ledger(CommitOp(COMMIT))] && LATE == COMMITTED + [Ledger(PrepareOp(LATE_TOOL))];
    hide *;
    AnsweredIsUnreviewed();
    ExecOne(EmptyDb, ANSWERED, Ledger(CommitOp(COMMIT)));
    CommitsDirectly(Exec(EmptyDb, ANSWERED));
    ExecOne(EmptyDb, COMMITTED, Ledger(PrepareOp(LATE_TOOL)));
    RegistersLate(Exec(EmptyDb, COMMITTED));
  }

  lemma CallsFirst()
    ensures var db := Exec(EmptyDb, PREPARED + [Call(1, 1)]);
      Live(db, Row(InFlight, 2, 1, None), 1) && db.receipts == map[] && db.capsules.Keys == {CallbackKey(5, 1)}
  {
    PreparedIsLive();
    hide Exec, PREPARED, Live;
    ExecOne(EmptyDb, PREPARED, Call(1, 1));
    Calls(Exec(EmptyDb, PREPARED), Row(Planned, 1, 1, None), 1, 1);
    hide Apply;
  }

  /* ---------- a rebuild that died ---------- */

  const CUT_OFF: seq<Op> := PREPARED + [Index(DropOp(0))]

  lemma LiveExpects(db: Db)
    requires Live(db, Row(Planned, 1, 1, None), 1)
    ensures X.Expects(db.effects, db.repairs, db.receipts, 0, Edge(0, OwnsEffect, 5))
  {
  }

  lemma CutOffIsCut()
    ensures ProtocolRun(CUT_OFF) && CUT_OFF == PREPARED + B.Statements(0, [], [])
  {
  }

  /** A process that dies between the DELETE of a rebuild and the first insert leaves the
      verifier without the edge of a prepared effect. */
  lemma CutRebuildLosesAnEdge()
    ensures ProtocolRun(CUT_OFF)
    ensures Edge(0, OwnsEffect, 5) in X.Missing(Exec(EmptyDb, CUT_OFF), 0)
  {
    hide *;
    var x := Edge(0, OwnsEffect, 5);
    PreparedIsLive();
    LiveExpects(Exec(EmptyDb, PREPARED));
    A.ExpectedThenIs(PREPARED, 0, x);
    CutOffIsCut();
    B.NobodyTurns();
    B.CutRebuildLosesTheRest(PREPARED, 0, [], [], x);
  }
}
