// Recovery leases as fencing tokens: what a (holder, version) pair is worth over
// whole runs.

module LeaseFencing {
  import opened Tables
  import opened EffectProtocol
  import opened DurableRuntime
  import opened IngressReview
  import R = RepairPlans
  import opened Kernel
  import opened Evolution

  /** The token that a writer presents. */
  datatype Fence = Fence(runId: Id, holderId: Id, version: nat)

  /** The token is the lease row's, and the row has not expired at the instant. */
  predicate HonouredAt(db: Db, f: Fence, instant: nat) { ActiveLease(db, f.runId, f.holderId, f.version, instant) }

  predicate Honoured(db: Db, f: Fence) { HonouredAt(db, f, db.clock) }

  /** The token is the lease row's, expired or not. */
  predicate Current(db: Db, f: Fence) {
    && f.runId in db.leases && !db.leases[f.runId].released
    && db.leases[f.runId].holderId == f.holderId && db.leases[f.runId].version == f.version
  }

  /** The token that an operation is written under, if it needs one. A callback
      intent without an expected version captures the version that it reads. */
  function FenceOf(db: Db, op: Op): Option<Fence> {
    match op
    case Ledger(CasOp(i)) =>
      if i.effectId in db.effects && db.effects[i.effectId].runId in db.leases
      then Some(Fence(db.effects[i.effectId].runId, i.leaseHolder, LeaseVersionFor(db, i, db.effects[i.effectId].runId)))
      else None
    case Ledger(CommitOp(i)) =>
      if i.effectId in db.effects
      then Some(Fence(db.effects[i.effectId].runId, i.leaseHolder, i.expectedLeaseVersion)) else None
    case Ledger(LateCommitOp(i)) =>
      if i.effectId in db.effects
      then Some(Fence(db.effects[i.effectId].runId, i.leaseHolder, i.expectedLeaseVersion)) else None
    case Ledger(FinalizeOp(i, _)) =>
      if i.effectId in db.effects
      then Some(Fence(db.effects[i.effectId].runId, i.leaseHolder, i.leaseVersion)) else None
    case Repairs(StatusOp(i)) =>
      if i.repairId in db.repairs && i.next == CommittedRepair && i.authority.Some?
      then Some(Fence(db.repairs[i.repairId].runId, i.authority.value.holderId, i.authority.value.leaseVersion))
      else None
    case _ => None
  }

  /** The instant at which an operation asks whether its lease is alive: the clock,
      except for verdicts, which compare the instant their caller captured or supplied. */
  function Instant(db: Db, op: Op): nat {
    if op.Ledger? && op.ledger.FinalizeOp? then op.ledger.instant else db.clock
  }

  /** The writes that lease ownership guards: callback intents, the ways of ending a
      received effect, and committing a repair. */
  predicate Guarded(op: Op) {
    match op
    case Ledger(o) => o.CasOp? || o.CommitOp? || o.LateCommitOp? || o.FinalizeOp?
    case Repairs(o) => o.StatusOp? && o.status.next == CommittedRepair
    case _ => false
  }

  predicate Accepted(db: Db, op: Op) {
    match op
    case Ledger(o) => LedgerOpEnabled(db, o)
    case Repairs(o) => RepairOpEnabled(db, o)
    case _ => true
  }

  /** A guarded write presents the current token of its run, alive at its instant. */
  lemma GuardIsFence(db: Db, op: Op)
    requires Guarded(op) && Accepted(db, op)
    ensures FenceOf(db, op).Some?
    ensures HonouredAt(db, FenceOf(db, op).value, Instant(db, op)) && Current(db, FenceOf(db, op).value)
  {
    hide CasCommand, ApprovalError, OpenAuthoritativeResult, AuthoritativePayload, R.RepairError;
  }

  /** Fenced at the moment of the write itself exactly if the lease outlives the
      transaction's clock; so always, unless the instant lies behind the clock. */
  lemma FencedAtCommitIff(db: Db, op: Op)
    requires Guarded(op) && Accepted(db, op)
    ensures FenceOf(db, op).Some? && FenceOf(db, op).value.runId in db.leases
    ensures var f := FenceOf(db, op).value;
      && (Honoured(db, f) <==> db.clock < db.leases[f.runId].expiresAt)
      && (Instant(db, op) >= db.clock ==> Honoured(db, f))
  {
    GuardIsFence(db, op);
    hide Guarded, Accepted, FenceOf, Instant;
  }

  /* ---------- lease rows ---------- */

  /** One step leaves a lease row alone, creates it at version 1, or bumps its
      version by exactly one. */
  predicate Bumped(a: Db, b: Db, r: Id) {
    if r !in b.leases then r !in a.leases
    else if r !in a.leases then b.leases[r].version == 1
    else b.leases[r] == a.leases[r] || b.leases[r].version == a.leases[r].version + 1
  }

  lemma AuthorityOpBumps(db: Db, op: AuthorityOp, r: Id)
    ensures Bumped(db, ApplyAuthority(db, op), r)
  {
    AuthorityOpsAreAtomic(db, op);
    hide ApplyAuthority, ExpiryFor, RequestError;
  }

  lemma EnvKeepsLeases(db: Db, op: EnvOp)
    ensures ApplyEnv(db, op).leases == db.leases
  {
    hide Insert;
  }

  lemma FramesKeepLeases(db: Db, op: FrameOp)
    ensures ApplyFrame(db, op).leases == db.leases
  {
    FrameOpsAreAtomic(db, op);
    hide ApplyFrame, RootError, ChildError, FrameError;
  }

  lemma RepairsKeepLeases(db: Db, op: RepairOp)
    ensures ApplyRepair(db, op).leases == db.leases
  {
    RepairOpsAreAtomic(db, op);
    hide ApplyRepair, R.CreateError, R.CrossFrameFor, R.RepairError, AppendEdge;
  }

  lemma IndexKeepsLeases(db: Db, op: IndexOp)
    ensures ApplyIndex(db, op).leases == db.leases
  {
    IndexOpsTouchEdges(db, op);
    hide ApplyIndex;
  }

  lemma OtherOpsKeepLeases(db: Db, op: Op)
    requires !op.Authority?
    ensures Apply(db, op).leases == db.leases
  {
    hide ApplyEnv, ApplyFrame, ApplyAuthority, ApplyLedger, ApplyRepair, ApplyIndex;
    match op
    case Env(o) => EnvKeepsLeases(db, o);
    case Frames(o) => FramesKeepLeases(db, o);
    case Ledger(o) => LedgerOpsKeepRuntime(db, o);
    case Repairs(o) => RepairsKeepLeases(db, o);
    case Index(o) => IndexKeepsLeases(db, o);
  }

  /** Every lease write bumps the version by one. */
  lemma LeaseWritesBump(db: Db, op: Op, r: Id)
    ensures Bumped(db, Apply(db, op), r)
  {
    if op.Authority? {
      AuthorityOpBumps(db, op.authority, r);
      hide Bumped, ApplyFrame, ApplyEnv, ApplyAuthority, ApplyLedger, ApplyRepair, ApplyIndex;
    } else {
      OtherOpsKeepLeases(db, op);
      hide Apply;
    }
  }

  /* ---------- fencing over runs ---------- */

  /** At most one token of a run is honoured at a time, whatever the instants at which
      two writers ask. */
  lemma OneHonouredFence(db: Db, f: Fence, g: Fence, s: nat, t: nat)
    requires HonouredAt(db, f, s) && HonouredAt(db, g, t) && f.runId == g.runId
    ensures f == g
  {
  }

  /** A token that stopped being honoured is never honoured again, and one that stopped
      being current is never current again. */
  lemma StaleFenceStaysStale(db: Db, xs: seq<Op>, ys: seq<Op>, f: Fence)
    requires Current(db, f)
    ensures !Current(Exec(db, xs), f) ==> !Current(Exec(db, xs + ys), f)
    ensures Honoured(db, f) && !Honoured(Exec(db, xs), f) ==> !Honoured(Exec(db, xs + ys), f)
  {
    hide Exec;
    RunEvolves(db, xs);
    RunEvolves(Exec(db, xs), ys);
    ExecAppend(db, xs, ys);
    hide LedgerEvolves, FramesEvolve, ApprovalsEvolve, RepairsEvolve, SubMap, Prefix;
  }

  ghost predicate LeaseSteady(db: Db, ops: seq<Op>, r: Id) {
    forall n | 0 <= n <= |ops| ::
      r in db.leases && r in Exec(db, ops[..n]).leases && Exec(db, ops[..n]).leases[r] == db.leases[r]
  }

  /** One version current at both ends of a run: the lease row never changed. */
  lemma OneVersionOneLease(db: Db, ops: seq<Op>, f: Fence, g: Fence)
    requires Current(db, f) && Current(Exec(db, ops), g) && f.runId == g.runId
    ensures f.version <= g.version
    ensures f.version == g.version ==> f == g && LeaseSteady(db, ops, f.runId)
    ensures f.version != g.version ==> !Current(Exec(db, ops), f)
  {
    hide Exec, LedgerEvolves, FramesEvolve, ApprovalsEvolve, RepairsEvolve, SubMap, Prefix;
    RunEvolves(db, ops);
    if f.version == g.version {
      forall n | 0 <= n <= |ops|
        ensures f.runId in Exec(db, ops[..n]).leases && Exec(db, ops[..n]).leases[f.runId] == db.leases[f.runId]
      {
        RunEvolves(db, ops[..n]);
        RunEvolves(Exec(db, ops[..n]), ops[n..]);
        ExecAppend(db, ops[..n], ops[n..]);
        assert ops[..n] + ops[n..] == ops;
      }
    }
  }

  /** Two guarded writes of one run, accepted at two moments, whatever instants their
      verdicts compare. With one version they were written under one token and the lease
      row never changed in between; with two versions the older token is dead for good. */
  lemma GuardedWritesAreOrdered(db: Db, op: Op, ops: seq<Op>, later: Op, rest: seq<Op>)
    requires Guarded(op) && Accepted(db, op)
    requires Guarded(later) && Accepted(Exec(db, ops), later)
    requires FenceOf(db, op).Some? && FenceOf(Exec(db, ops), later).Some?
    requires FenceOf(db, op).value.runId == FenceOf(Exec(db, ops), later).value.runId
    ensures var f, g := FenceOf(db, op).value, FenceOf(Exec(db, ops), later).value;
      if f.version == g.version then f == g && LeaseSteady(db, ops, f.runId)
      else f.version < g.version && !Current(Exec(db, ops + rest), f)
  {
    GuardIsFence(db, op);
    GuardIsFence(Exec(db, ops), later);
    hide Guarded, Accepted, FenceOf, Apply, Exec, Current, HonouredAt, Instant, LeaseSteady;
    var f, g := FenceOf(db, op).value, FenceOf(Exec(db, ops), later).value;
    OneVersionOneLease(db, ops, f, g);
    if f.version != g.version {
      StaleFenceStaysStale(db, ops, rest, f);
    }
  }

  /** Fencing: between two guarded writes of a run under one version, no guarded write
      of that run is accepted from anybody else. */
  lemma GuardedWritesAreFenced(db: Db, op: Op, xs: seq<Op>, mid: Op, ys: seq<Op>, later: Op)
    requires Guarded(op) && Accepted(db, op)
    requires Guarded(mid) && Accepted(Exec(db, xs), mid)
    requires Guarded(later) && Accepted(Exec(db, xs + ys), later)
    requires FenceOf(db, op).Some? && FenceOf(Exec(db, xs), mid).Some? && FenceOf(Exec(db, xs + ys), later).Some?
    requires FenceOf(db, op).value.runId == FenceOf(Exec(db, xs), mid).value.runId
    requires FenceOf(db, op).value.runId == FenceOf(Exec(db, xs + ys), later).value.runId
    requires FenceOf(db, op).value.version == FenceOf(Exec(db, xs + ys), later).value.version
    ensures FenceOf(Exec(db, xs), mid) == FenceOf(db, op) == FenceOf(Exec(db, xs + ys), later)
  {
    GuardIsFence(db, op);
    GuardIsFence(Exec(db, xs), mid);
    GuardIsFence(Exec(db, xs + ys), later);
    hide Guarded, Accepted, FenceOf, Apply, Exec, HonouredAt, Instant, LeaseSteady;
    var f := FenceOf(db, op).value;
    OneVersionOneLease(db, xs + ys, f, FenceOf(Exec(db, xs + ys), later).value);
    assert (xs + ys)[..|xs|] == xs;
    SteadyAt(db, xs + ys, f.runId, |xs|);
  }

  lemma SteadyAt(db: Db, ops: seq<Op>, r: Id, n: nat)
    requires LeaseSteady(db, ops, r) && n <= |ops|
    ensures r in db.leases && r in Exec(db, ops[..n]).leases && Exec(db, ops[..n]).leases[r] == db.leases[r]
  {
    hide Exec;
  }
}
