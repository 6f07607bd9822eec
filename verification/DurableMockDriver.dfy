// The driver that carries one effect through the protocol around a physical
// callback: prepare, intent, adapter, receipt or unknown, commit. It can crash after
// every step, and other callers run before every transaction. Whatever happens, the
// database and the adapter stay in a state of the end-to-end system, so that every
// theorem about it holds for them.

module DurableMockDriver {
  import opened Tables
  import opened Database
  import opened Kernel
  import opened ProtocolService
  import opened RuntimeService
  import P = EffectProtocol
  import D = DurableRuntime
  import S = SplitStep
  import E = Evolution
  import X = ExactlyOnce

  /** An adapter that honours its idempotency key. */
  class IdempotentAdapter {
    var applied: seq<X.Application>

    constructor ()
      ensures applied == []
    {
      applied := [];
    }

    method Invoke(call: X.Call)
      modifies this
      ensures applied == X.Invoke(old(applied), call)
    {
      var keyHash := OfKey(call.command.idempotencyKey);
      var n := 0;
      while n < |applied|
        invariant n <= |applied|
        invariant forall j :: 0 <= j < n ==> applied[j].keyHash != keyHash
      {
        if applied[n].keyHash == keyHash {
          return;
        }
        n := n + 1;
      }
      applied := applied + [X.Application(call.effectId, keyHash, call.command.payload)];
    }
  }

  /* ---------- the trace behind a call ---------- */

  ghost predicate Traced(trace: seq<X.SysStep>, db: Db, applied: seq<X.Application>) {
    X.Run(trace).db == db && X.Run(trace).applied == applied
  }

  lemma OneKernelStep(trace: seq<X.SysStep>, op: Op)
    ensures X.Run(trace + [X.Kernel(op)]) == X.Next(X.Run(trace), X.Kernel(op))
  {
    assert (trace + [X.Kernel(op)])[..|trace|] == trace;
  }

  /** Other callers' operations extend the trace. */
  lemma {:induction false} OthersTrace(trace: seq<X.SysStep>, ops: seq<Op>) returns (next: seq<X.SysStep>)
    ensures Traced(next, Exec(X.Run(trace).db, ops), X.Run(trace).applied)
    decreases |ops|
  {
    if ops == [] {
      next := trace;
    } else {
      var mid := OthersTrace(trace, ops[..|ops| - 1]);
      next := mid + [X.Kernel(ops[|ops| - 1])];
      OneKernelStep(mid, ops[|ops| - 1]);
      hide Apply, X.Issued, X.Run;
    }
  }

  lemma CasStep(trace: seq<X.SysStep>, i: P.CasInput) returns (next: seq<X.SysStep>)
    ensures var whole := P.CasToInFlight(X.Run(trace).db, i);
      && Traced(next, whole.db, X.Run(trace).applied)
      && (whole.result.Ok? ==> HasIssued(next, whole.result.value))
  {
    var db := X.Run(trace).db;
    next := trace + [X.Kernel(Ledger(CasOp(i)))];
    OneKernelStep(trace, Ledger(CasOp(i)));
    assert Apply(db, Ledger(CasOp(i))) == P.CasToInFlight(db, i).db by {
      hide X.Run, P.CasToInFlight;
    }
    hide X.Run, Apply, P.CasToInFlight;
  }

  ghost predicate HasIssued(trace: seq<X.SysStep>, out: P.CasOutput) {
    var issued := X.Run(trace).issued;
    issued != [] && issued[|issued| - 1] == X.Call(out.effectId, out.attemptNo, out.command)
  }

  /** What the service promises of a callback intent. */
  ghost predicate IntentAnswer(before: Db, i: P.CasInput, others: seq<Op>, r: Result<P.CasOutput>, after: Db) {
    match S.CasPre(before, i)
    case Err(e) => r == Err(e) && after == P.CasToInFlight(before, i).db
    case Ok(capture) => Step(r, after) == S.CasTxn(Exec(before, others), i, capture)
  }

  lemma IntentIsWhole(before: Db, i: P.CasInput, others: seq<Op>, r: Result<P.CasOutput>, after: Db)
    returns (whole: P.CasInput)
    requires IntentAnswer(before, i, others, r, after) && r.Ok?
    ensures P.CasToInFlight(Exec(before, others), whole) == Step(r, after)
  {
    E.RunEvolves(before, others);
    S.CasSplitIsAtomic(before, Exec(before, others), i);
    whole := i.(expectedLeaseVersion := Some(S.CasPre(before, i).value.leaseVersion));
    hide S.CasPre, S.CasTxn, E.Evolves, P.CasToInFlight, Exec;
  }

  /** The answer of CasToInFlight is a step of the system, and an accepted intent has
      issued its call. */
  lemma IntentTrace(trace: seq<X.SysStep>, i: P.CasInput, others: seq<Op>, r: Result<P.CasOutput>, after: Db)
    returns (next: seq<X.SysStep>)
    requires IntentAnswer(X.Run(trace).db, i, others, r, after)
    ensures Traced(next, after, X.Run(trace).applied)
    ensures r.Ok? ==> HasIssued(next, r.value)
  {
    var before := X.Run(trace).db;
    if S.CasPre(before, i).Err? {
      hide X.Run, S.CasPre, P.CasToInFlight;
      next := CasStep(trace, i);
    } else {
      hide X.Run, S.CasPre, P.CasToInFlight, Exec;
      var mid := OthersTrace(trace, others);
      if r.Ok? {
        var whole := IntentIsWhole(before, i, others, r, after);
        hide IntentAnswer, HasIssued;
        next := CasStep(mid, whole);
      } else {
        next := mid;
      }
    }
  }

  lemma KernelTrace(trace: seq<X.SysStep>, op: Op) returns (next: seq<X.SysStep>)
    ensures Traced(next, Apply(X.Run(trace).db, op), X.Run(trace).applied)
  {
    next := trace + [X.Kernel(op)];
    OneKernelStep(trace, op);
    hide X.Run, Apply, X.Issued;
  }

  /** A transaction that is refused, or is the atomic operation, at the end of the
      other callers' operations. */
  lemma SplitTrace(trace: seq<X.SysStep>, others: seq<Op>, op: Op, after: Db) returns (next: seq<X.SysStep>)
    requires var at := Exec(X.Run(trace).db, others); after == at || after == Apply(at, op)
    ensures Traced(next, after, X.Run(trace).applied)
  {
    hide X.Run, Exec, Apply;
    next := OthersTrace(trace, others);
    if after != Exec(X.Run(trace).db, others) {
      next := KernelTrace(next, op);
    }
  }

  lemma ReceiptIs(db: Db, i: P.ReceiptInput)
    ensures P.RecordReceipt(db, i).db == Apply(db, Ledger(ReceiptOp(i)))
  {
    hide P.RecordReceipt;
  }

  lemma ReceiptTrace(trace: seq<X.SysStep>, i: P.ReceiptInput, others: seq<Op>, r: Result<Id>, after: Db)
    returns (next: seq<X.SysStep>)
    requires var before := X.Run(trace).db;
      match S.ReceiptPre(before, i)
      case Err(e) => r == Err(e) && after == before
      case Ok(effect) => Step(r, after) == S.ReceiptTxn(Exec(before, others), i, effect)
    ensures Traced(next, after, X.Run(trace).applied)
  {
    var before := X.Run(trace).db;
    if S.ReceiptPre(before, i).Err? {
      next := trace;
    } else {
      hide *;
      E.RunEvolves(before, others);
      S.ReceiptSplitIsAtomic(before, Exec(before, others), i);
      ReceiptIs(Exec(before, others), i);
      next := SplitTrace(trace, others, Ledger(ReceiptOp(i)), after);
    }
  }

  lemma UnknownIs(db: Db, i: P.UnknownInput)
    ensures P.RecordUnknownOutcome(db, i).db == Apply(db, Ledger(UnknownOp(i)))
  {
    hide P.RecordUnknownOutcome;
  }

  lemma UnknownTrace(trace: seq<X.SysStep>, i: P.UnknownInput, others: seq<Op>, r: Result<EffectState>, after: Db)
    returns (next: seq<X.SysStep>)
    requires var before := X.Run(trace).db;
      match S.UnknownPre(before, i)
      case Err(e) => r == Err(e) && after == before
      case Ok(effect) => Step(r, after) == S.UnknownTxn(Exec(before, others), i, effect)
    ensures Traced(next, after, X.Run(trace).applied)
  {
    var before := X.Run(trace).db;
    if S.UnknownPre(before, i).Err? {
      next := trace;
    } else {
      hide *;
      E.RunEvolves(before, others);
      S.UnknownSplitIsAtomic(before, Exec(before, others), i);
      UnknownIs(Exec(before, others), i);
      next := SplitTrace(trace, others, Ledger(UnknownOp(i)), after);
    }
  }

  lemma CommitIs(db: Db, i: P.CommitInput)
    ensures Apply(db, Ledger(CommitOp(i))) == P.CommitToTerminal(db, i).db
  {
    hide P.CommitToTerminal;
  }

  lemma LateCommitIs(db: Db, i: P.CommitInput)
    ensures Apply(db, Ledger(LateCommitOp(i))) == P.LateCommit(db, i)
  {
    hide P.LateCommit;
  }

  /** A commit is a whole refusal, or a transaction whose pre-read came before the other
      callers. */
  lemma CommitTrace(trace: seq<X.SysStep>, i: P.CommitInput, others: seq<Op>, r: Result<nat>, after: Db)
    returns (next: seq<X.SysStep>)
    requires var before := X.Run(trace).db;
      match S.CommitPre(before, i)
      case Err(e) => Step(r, after) == P.CommitToTerminal(before, i)
      case Ok(effect) => Step(r, after) == S.CommitTxn(Exec(before, others), i, effect)
    ensures Traced(next, after, X.Run(trace).applied)
  {
    hide *;
    var before := X.Run(trace).db;
    if S.CommitPre(before, i).Err? {
      CommitIs(before, i);
      next := KernelTrace(trace, Ledger(CommitOp(i)));
    } else {
      E.RunEvolves(before, others);
      S.CommitSplitIsLate(before, Exec(before, others), i);
      LateCommitIs(Exec(before, others), i);
      next := SplitTrace(trace, others, Ledger(LateCommitOp(i)), after);
    }
  }

  lemma IntentNames(before: Db, i: P.CasInput, others: seq<Op>, r: Result<P.CasOutput>, after: Db)
    requires IntentAnswer(before, i, others, r, after) && r.Ok?
    ensures r.value.effectId == i.effectId && r.value.attemptNo == i.attemptNo
  {
    hide Exec, S.CasPre, P.ActiveLease, P.ApprovalError, S.CasWrites;
  }

  lemma DeliverTrace(trace: seq<X.SysStep>, k: nat)
    requires k < |X.Run(trace).issued|
    ensures Traced(trace + [X.Deliver(k)], X.Run(trace).db, X.Invoke(X.Run(trace).applied, X.Run(trace).issued[k]))
  {
    assert (trace + [X.Deliver(k)])[..|trace|] == trace;
    hide Apply, X.Invoke;
  }

  /* ---------- the driver ---------- */

  datatype CrashPoint = NoCrash | AfterPrepare | AfterIntent | AfterInvoke | AfterReceipt

  datatype Outcome = Crashed | Refused(error: Error) | Finished(state: EffectState)

  /** One drive of an effect: who drives which attempt, whether the request reaches the
      adapter and whether the answer comes back, where the process dies, and what the
      other callers do before each transaction. */
  datatype Drive = Drive(
    runId: Id, attemptNo: int, leaseHolder: Id, reaches: bool, answered: bool, crash: CrashPoint,
    newReceiptId: Id, newFindingId: Id,
    beforeIntent: seq<Op>, beforeReceipt: seq<Op>, beforeCommit: seq<Op>)

  /** A run without a lease row gets one for five minutes. */
  function LeaseReady(db: Db, runId: Id, holder: Id): Step<()> {
    if runId in db.leases then Step(Ok(()), db)
    else
      var taken := D.AcquireLease(db, runId, holder, 300000);
      Step(match taken.result case Ok(_) => Ok(()) case Err(e) => Err(e), taken.db)
  }

  /** What the driver reports about an effect is what the database says. */
  predicate TrueReport(db: Db, e: Id, r: Outcome) { r.Finished? ==> e in db.effects && db.effects[e].state == r.state }

  lemma CommitReports(at: Db, i: P.CommitInput, effect: Effect)
    ensures S.CommitTxn(at, i, effect).result.Ok? ==>
      TrueReport(S.CommitTxn(at, i, effect).db, i.effectId, Finished(Committed))
  {
    hide P.ActiveLease, P.OpenAuthoritativeResult, Log;
  }

  lemma UnknownReports(at: Db, i: P.UnknownInput, effect: Effect)
    ensures S.UnknownTxn(at, i, effect).result.Ok? ==>
      TrueReport(S.UnknownTxn(at, i, effect).db, i.effectId, Finished(Unknown))
  {
    hide Log;
  }

  lemma CommitRefusedEarly(db: Db, i: P.CommitInput)
    requires S.CommitPre(db, i).Err?
    ensures P.CommitToTerminal(db, i).result.Err?
  {
    hide P.OpenAuthoritativeResult;
  }

  class DurableMockEffectDriver {
    const odb: OgraDatabase
    const protocol: EffectProtocolService
    const runtime: DurableRuntimeService
    const adapter: IdempotentAdapter
    ghost var trace: seq<X.SysStep>

    /** The database and the adapter are in a state of the end-to-end system. */
    ghost predicate Valid()
      reads this, odb, adapter
    {
      protocol.odb == odb && runtime.odb == odb && Traced(trace, odb.tables, adapter.applied)
    }

    constructor (odb: OgraDatabase, protocol: EffectProtocolService, runtime: DurableRuntimeService,
                 adapter: IdempotentAdapter)
      requires protocol.odb == odb && runtime.odb == odb && odb.tables == EmptyDb && adapter.applied == []
      ensures Valid()
      ensures this.odb == odb && this.adapter == adapter
    {
      this.odb, this.protocol, this.runtime, this.adapter := odb, protocol, runtime, adapter;
      this.trace := [];
    }

    /** Phase A: make sure there is a lease row, then prepare. */
    method RunPrepare(i: P.PrepareInput, leaseHolder: Id, crash: CrashPoint) returns (r: Result<P.Prepared>, crashed: bool)
      requires Valid()
      modifies this, odb
      ensures Valid() && adapter.applied == old(adapter.applied)
      ensures var ready := LeaseReady(old(odb.tables), i.runId, leaseHolder);
        if ready.result.Err? then r.Err? && odb.tables == ready.db
        else Step(r, odb.tables) == P.Prepare(ready.db, i)
    {
      hide X.Run, D.AcquireLease;
      if i.runId !in odb.tables.leases {
        var lease := TakeLease(i.runId, leaseHolder);
        if lease.Err? {
          return Err(lease.error), false;
        }
      }
      var step := Ledger(PrepareOp(i));
      var next := KernelTrace(trace, step);
      assert Apply(odb.tables, step) == P.Prepare(odb.tables, i).db by {
        hide P.Prepare;
      }
      hide Apply, P.Prepare;
      r := protocol.Prepare(i);
      trace := next;
      crashed := crash.AfterPrepare?;
    }

    method TakeLease(runId: Id, leaseHolder: Id) returns (r: Result<Lease>)
      requires Valid()
      modifies this, odb
      ensures Valid() && adapter.applied == old(adapter.applied)
      ensures Step(r, odb.tables) == D.AcquireLease(old(odb.tables), runId, leaseHolder, 300000)
    {
      hide X.Run;
      var step := Authority(AcquireOp(runId, leaseHolder, 300000));
      var next := KernelTrace(trace, step);
      assert Apply(odb.tables, step) == D.AcquireLease(odb.tables, runId, leaseHolder, 300000).db by {
        hide D.AcquireLease;
      }
      hide Apply, D.AcquireLease;
      r := runtime.AcquireLease(runId, leaseHolder, 300000);
      trace := next;
    }

    /** Phase B: intent, physical callback, receipt or unknown, commit. Wherever it
        stops, the system invariant holds; and once the adapter has been called, the
        effect has been applied exactly once, with the payload sealed at prepare. */
    method RunAdapterAndCommit(e: Id, d: Drive) returns (r: Outcome, ghost called: Option<X.Call>)
      requires Valid()
      modifies this, odb, adapter
      ensures Valid()
      ensures TrueReport(odb.tables, e, r) && (r == Finished(Committed) ==> called.Some?)
      ensures called.None? ==> adapter.applied == old(adapter.applied)
      ensures called.Some? ==>
        called.value.effectId == e
        && exists n :: X.Applications(adapter.applied, e) == {n}
                       && adapter.applied[n].payload == called.value.command.payload
    {
      hide X.Run, Exec, X.Applications, X.Invoke;
      called := None;
      var intent := P.CasInput(e, 1, d.attemptNo, d.leaseHolder, None, false, None);
      var cas := protocol.CasToInFlight(intent, d.beforeIntent);
      ghost var before := X.Run(trace).db;
      assert IntentAnswer(before, intent, d.beforeIntent, cas, odb.tables);
      trace := IntentTrace(trace, intent, d.beforeIntent, cas, odb.tables);
      if cas.Err? {
        return Refused(cas.error), None;
      }
      IntentNames(before, intent, d.beforeIntent, cas, odb.tables);
      if d.crash.AfterIntent? {
        return Crashed, None;
      }
      if d.reaches {
        var call := X.Call(e, d.attemptNo, cas.value.command);
        ghost var k := |X.Run(trace).issued| - 1;
        X.DeliveredMeansAppliedOnce(trace, k);
        DeliverTrace(trace, k);
        adapter.Invoke(call);
        trace := trace + [X.Deliver(k)];
        called := Some(call);
      }
      if d.crash.AfterInvoke? {
        return Crashed, called;
      }
      r := RecordAndCommit(e, d, cas.value.leaseVersion);
    }

    /** The answer is recorded as a receipt and committed, or as an unknown outcome. */
    method RecordAndCommit(e: Id, d: Drive, leaseVersion: nat) returns (r: Outcome)
      requires Valid()
      modifies this, odb
      ensures Valid() && TrueReport(odb.tables, e, r)
      ensures r == Finished(Committed) ==> d.reaches
    {
      hide X.Run, Exec, S.CommitTxn, S.UnknownTxn, S.CommitPre, S.UnknownPre, P.CommitToTerminal;
      if !d.reaches || !d.answered {
        var lost := P.UnknownInput(e, d.attemptNo, None);
        ghost var at := Exec(odb.tables, d.beforeReceipt);
        ghost var pre := S.UnknownPre(odb.tables, lost);
        var unknown := protocol.RecordUnknownOutcome(lost, d.beforeReceipt);
        if pre.Ok? {
          UnknownReports(at, lost, pre.value);
        }
        trace := UnknownTrace(trace, lost, d.beforeReceipt, unknown, odb.tables);
        return if unknown.Err? then Refused(unknown.error) else Finished(Unknown);
      }
      var answer := P.ReceiptInput(e, d.attemptNo, Some("request"), Some("payload hash"), "applied", Applied, Some("applied"),
                                   d.newReceiptId);
      var receipt := protocol.RecordReceipt(answer, d.beforeReceipt);
      trace := ReceiptTrace(trace, answer, d.beforeReceipt, receipt, odb.tables);
      if receipt.Err? {
        return Refused(receipt.error);
      }
      if d.crash.AfterReceipt? {
        return Crashed;
      }
      var revision := if e in odb.tables.effects then odb.tables.effects[e].revision else 0;
      var commit := P.CommitInput(e, revision, d.attemptNo, receipt.value, d.leaseHolder, leaseVersion, d.newFindingId);
      ghost var at := Exec(odb.tables, d.beforeCommit);
      ghost var pre := S.CommitPre(odb.tables, commit);
      if pre.Ok? {
        CommitReports(at, commit, pre.value);
      } else {
        CommitRefusedEarly(odb.tables, commit);
      }
      var committed := protocol.CommitToTerminal(commit, d.beforeCommit);
      trace := CommitTrace(trace, commit, d.beforeCommit, committed, odb.tables);
      return if committed.Err? then Refused(committed.error) else Finished(Committed);
    }

    /** Another process picks the effect up again: take the lease, stop if the effect is
        committed, otherwise drive the callback phase. */
    method RunResume(e: Id, d: Drive) returns (r: Outcome)
      requires Valid()
      modifies this, odb, adapter
      ensures Valid() && TrueReport(odb.tables, e, r)
    {
      hide D.AcquireLease;
      var lease := TakeLease(d.runId, d.leaseHolder);
      if lease.Err? {
        return Refused(lease.error);
      }
      if e !in odb.tables.effects {
        return Refused(EffectNotFound);
      }
      if odb.tables.effects[e].state == Committed {
        return Finished(Committed);
      }
      ghost var called;
      r, called := RunAdapterAndCommit(e, d.(attemptNo := 1));
    }
  }
}
