// Approval authority is conserved: what is consumed is exactly what was bound, it is
// counted exactly once, and it never exceeds what the approvals of the effect allow.

module Conservation {
  import opened Tables
  import opened CapsuleStore
  import opened EffectProtocol
  import opened DurableRuntime
  import opened IngressReview
  import R = RepairPlans
  import opened Kernel
  import opened Evolution
  import opened Replay
  import opened Lineage

  function UsesOf(consumptions: map<ConsumptionKey, nat>, a: Id): set<ConsumptionKey> {
    set k | k in consumptions && k.approvalId == a
  }

  function ConsumedBy(consumptions: map<ConsumptionKey, nat>, e: Id): set<ConsumptionKey> {
    set k | k in consumptions && k.effectId == e
  }

  /** Bindings and consumptions are the same facts, row for row. */
  ghost predicate OneToOne(bindings: map<AttemptKey, Binding>, consumptions: map<ConsumptionKey, nat>) {
    && (forall k :: k in consumptions ==>
          && AttemptKey(k.effectId, k.attemptNo) in bindings
          && bindings[AttemptKey(k.effectId, k.attemptNo)].approvalId == k.approvalId
          && bindings[AttemptKey(k.effectId, k.attemptNo)].approvalRevision == consumptions[k])
    && (forall n :: n in bindings ==> ConsumptionKey(bindings[n].approvalId, n.effectId, n.attemptNo) in consumptions)
  }

  /** Every consumption names an approval of its own effect. */
  ghost predicate OwnApproval(approvals: map<Id, Approval>, consumptions: map<ConsumptionKey, nat>) {
    forall k :: k in consumptions ==>
      k.approvalId in approvals && approvals[k.approvalId].effectId == Some(k.effectId)
  }

  ghost predicate Counted(approvals: map<Id, Approval>, consumptions: map<ConsumptionKey, nat>) {
    forall a :: a in approvals ==>
      |UsesOf(consumptions, a)| == approvals[a].usesConsumed <= approvals[a].useLimit
  }

  ghost predicate Conserved(
    approvals: map<Id, Approval>, bindings: map<AttemptKey, Binding>, consumptions: map<ConsumptionKey, nat>)
  {
    OneToOne(bindings, consumptions) && OwnApproval(approvals, consumptions) && Counted(approvals, consumptions)
  }

  /* ---------- steps that consume nothing ---------- */

  /** No approval was used: counters and effects of the old rows stand, new rows are unused. */
  ghost predicate NothingUsed(a: map<Id, Approval>, b: map<Id, Approval>) {
    && (forall p :: p in a ==>
          && p in b && b[p].useLimit == a[p].useLimit && b[p].usesConsumed == a[p].usesConsumed
          && (a[p].effectId.Some? ==> b[p].effectId == a[p].effectId))
    && (forall p :: p in b && p !in a ==> b[p].usesConsumed == 0)
  }

  lemma UnusedKeepsConserved(
    a: map<Id, Approval>, b: map<Id, Approval>, bindings: map<AttemptKey, Binding>, consumptions: map<ConsumptionKey, nat>)
    requires Conserved(a, bindings, consumptions) && NothingUsed(a, b)
    ensures Conserved(b, bindings, consumptions)
  {
    forall p | p in b && p !in a ensures |UsesOf(consumptions, p)| == 0 {
      assert UsesOf(consumptions, p) == {};
    }
  }

  lemma WriteKeepsConserved(db: Db, a: Id, row: Approval, note: Option<EventKind>)
    requires Conserved(db.approvals, db.bindings, db.consumptions)
    requires if a in db.approvals
      then db.approvals[a].useLimit == row.useLimit && db.approvals[a].usesConsumed == row.usesConsumed
           && db.approvals[a].effectId == row.effectId
      else row.usesConsumed == 0
    ensures var b := WriteApproval(db, a, row, note); Conserved(b.approvals, b.bindings, b.consumptions)
  {
    hide Conserved;
    UnusedKeepsConserved(db.approvals, db.approvals[a := row], db.bindings, db.consumptions);
  }

  lemma AuthorityKeepsConserved(db: Db, op: AuthorityOp)
    requires Conserved(db.approvals, db.bindings, db.consumptions)
    ensures var b := ApplyAuthority(db, op); Conserved(b.approvals, b.bindings, b.consumptions)
  {
    AuthorityOpsAreAtomic(db, op);
    hide ApplyAuthority, WriteApproval, Conserved, AcquiredLease, RenewedLease, AcquireError;
    if AuthorityOpEnabled(db, op) {
      match op
      case RequestOp(a, row) => WriteKeepsConserved(db, a, row, RequestNote(a, row));
      case DecideOp(a, yes) =>
        WriteKeepsConserved(db, a, db.approvals[a].(decision := Verdict(yes)), None);
      case RevokeOp(a) =>
        var row := db.approvals[a];
        WriteKeepsConserved(db, a, row.(decision := Revoked, revision := row.revision + 1), Some(ApprovalDecided(a)));
      case NoteOp(_, _) =>
      case AcquireOp(_, _, _) =>
      case RenewOp(_, _, _, _) =>
      case ReleaseOp(_, _, _) =>
    }
  }

  lemma PrepareKeepsConserved(db: Db, i: PrepareInput)
    requires PrepareError(db, i).None?
    requires Conserved(db.approvals, db.bindings, db.consumptions)
    ensures var b := PreparePost(db, i); Conserved(b.approvals, b.bindings, b.consumptions)
  {
    if Existing(db, i).None? {
      assert NothingUsed(db.approvals, BindApproval(db.approvals, i.approvalId, i.newEffectId));
      hide PrepareError, BindApproval;
      UnusedKeepsConserved(db.approvals, PreparePost(db, i).approvals, db.bindings, db.consumptions);
    }
  }

  /* ---------- the consuming step ---------- */

  lemma ConsumeKeepsOneToOne(
    bindings: map<AttemptKey, Binding>, consumptions: map<ConsumptionKey, nat>, e: Id, n: int, b: Binding)
    requires OneToOne(bindings, consumptions) && AttemptKey(e, n) !in bindings
    ensures ConsumptionKey(b.approvalId, e, n) !in consumptions
    ensures OneToOne(bindings[AttemptKey(e, n) := b], consumptions[ConsumptionKey(b.approvalId, e, n) := b.approvalRevision])
  {
  }

  lemma ConsumeKeepsCount(
    approvals: map<Id, Approval>, consumptions: map<ConsumptionKey, nat>, a: Id, k: ConsumptionKey, revision: nat)
    requires Counted(approvals, consumptions)
    requires k !in consumptions && k.approvalId == a
    requires a in approvals && approvals[a].usesConsumed < approvals[a].useLimit
    ensures Counted(ConsumeOne(approvals, Some(a)), consumptions[k := revision])
  {
    var after := consumptions[k := revision];
    assert UsesOf(after, a) == UsesOf(consumptions, a) + {k};
    forall p | p in approvals && p != a ensures UsesOf(after, p) == UsesOf(consumptions, p) {
    }
  }

  lemma ConsumeKeepsConserved(
    approvals: map<Id, Approval>, bindings: map<AttemptKey, Binding>, consumptions: map<ConsumptionKey, nat>,
    a: Id, e: Id, n: int, b: Binding)
    requires Conserved(approvals, bindings, consumptions)
    requires a in approvals && approvals[a].effectId == Some(e) && approvals[a].usesConsumed < approvals[a].useLimit
    requires AttemptKey(e, n) !in bindings && b.approvalId == a
    ensures Conserved(ConsumeOne(approvals, Some(a)), bindings[AttemptKey(e, n) := b],
                      consumptions[ConsumptionKey(a, e, n) := b.approvalRevision])
  {
    ConsumeKeepsOneToOne(bindings, consumptions, e, n, b);
    ConsumeKeepsCount(approvals, consumptions, a, ConsumptionKey(a, e, n), b.approvalRevision);
    hide OneToOne, Counted, UsesOf;
  }

  lemma CasKeepsConserved(db: Db, i: CasInput)
    requires CasGuard(db, i)
    requires Conserved(db.approvals, db.bindings, db.consumptions)
    ensures var b := CasPost(db, i); Conserved(b.approvals, b.bindings, b.consumptions)
  {
    CasMayCall(db, i);
    if i.approvalId.Some? {
      ApprovalAdmits(db, i);
    }
    CasAuthority(db, i);
    hide CasGuard, CasPost, Conserved, ConsumeOne;
    if i.approvalId.Some? {
      var a := i.approvalId.value;
      ConsumeKeepsConserved(db.approvals, db.bindings, db.consumptions, a, i.effectId, i.attemptNo,
        Binding(a, db.approvals[a].revision, if i.retry then RetryBinding else InitialBinding));
    }
  }

  /* ---------- every step, every run ---------- */

  lemma LedgerKeepsConserved(db: Db, op: LedgerOp)
    requires Conserved(db.approvals, db.bindings, db.consumptions)
    ensures var b := ApplyLedger(db, op); Conserved(b.approvals, b.bindings, b.consumptions)
  {
    LedgerOpsAreAtomic(db, op);
    hide ApplyLedger, Conserved, PrepareError, PreparePost, CasGuard, CasPost, ReceiptError, ReceiptPost;
    hide UnknownError, UnknownPost, CancelError, CancelPost, CommitGuard, LateCommitGuard, CommitPost;
    hide FinalizeError, FinalizePost;
    hide PlanError, PlanPost, TransitionError, TransitionPost;
    if LedgerOpEnabled(db, op) {
      match op
      case PrepareOp(i) => PrepareKeepsConserved(db, i);
      case CasOp(i) => CasKeepsConserved(db, i);
      case _ =>
    }
  }

  lemma EnvKeepsApprovals(db: Db, op: EnvOp)
    ensures AuthorityUntouched(db, ApplyEnv(db, op))
  {
    hide Insert;
  }

  lemma FramesKeepApprovals(db: Db, op: FrameOp)
    ensures AuthorityUntouched(db, ApplyFrame(db, op))
  {
    FrameOpsAreAtomic(db, op);
    hide ApplyFrame, RootError, ChildError, FrameError;
  }

  lemma RepairsKeepApprovals(db: Db, op: RepairOp)
    ensures AuthorityUntouched(db, ApplyRepair(db, op))
  {
    RepairOpsAreAtomic(db, op);
    hide ApplyRepair, R.CreateError, R.CrossFrameFor, R.RepairError, AppendEdge;
  }

  lemma IndexKeepsApprovals(db: Db, op: IndexOp)
    ensures AuthorityUntouched(db, ApplyIndex(db, op))
  {
    IndexOpsTouchEdges(db, op);
    hide ApplyIndex;
  }

  lemma StepKeepsConserved(db: Db, op: Op)
    requires Conserved(db.approvals, db.bindings, db.consumptions)
    ensures var b := Apply(db, op); Conserved(b.approvals, b.bindings, b.consumptions)
  {
    hide Conserved, ApplyEnv, ApplyFrame, ApplyAuthority, ApplyLedger, ApplyRepair, ApplyIndex;
    match op
    case Env(o) => EnvKeepsApprovals(db, o);
    case Frames(o) => FramesKeepApprovals(db, o);
    case Authority(o) => AuthorityKeepsConserved(db, o);
    case Ledger(o) => LedgerKeepsConserved(db, o);
    case Repairs(o) => RepairsKeepApprovals(db, o);
    case Index(o) => IndexKeepsApprovals(db, o);
  }

  /** Approval conservation: in every reachable state bindings and consumptions
      correspond one to one, every consumption uses an approval of its own effect, and
      an approval's consumptions number exactly uses_consumed, at most use_limit. */
  lemma {:induction false} AuthorityIsConserved(ops: seq<Op>)
    ensures var db := Exec(EmptyDb, ops); Conserved(db.approvals, db.bindings, db.consumptions)
    decreases |ops|
  {
    hide Apply;
    if ops != [] {
      AuthorityIsConserved(ops[..|ops| - 1]);
      hide Conserved;
      StepKeepsConserved(Exec(EmptyDb, ops[..|ops| - 1]), ops[|ops| - 1]);
    }
  }

  /* ---------- how often an approved effect can be called ---------- */

  function BoundApprovals(approvals: map<Id, Approval>, e: Id): set<Id> {
    set a | a in approvals && approvals[a].effectId == Some(e)
  }

  ghost function Pick(s: set<Id>): (a: Id)
    requires s != {}
    ensures a in s
  {
    var a :| a in s; a
  }

  ghost function SumUsed(approvals: map<Id, Approval>, s: set<Id>): nat
    requires s <= approvals.Keys
  {
    if s == {} then 0 else approvals[Pick(s)].usesConsumed + SumUsed(approvals, s - {Pick(s)})
  }

  ghost function SumLimits(approvals: map<Id, Approval>, s: set<Id>): nat
    requires s <= approvals.Keys
  {
    if s == {} then 0 else approvals[Pick(s)].useLimit + SumLimits(approvals, s - {Pick(s)})
  }

  function UsesAmong(consumptions: map<ConsumptionKey, nat>, s: set<Id>): set<ConsumptionKey> {
    set k | k in consumptions && k.approvalId in s
  }

  lemma {:induction false} UsesAddUp(approvals: map<Id, Approval>, consumptions: map<ConsumptionKey, nat>, s: set<Id>)
    requires Counted(approvals, consumptions) && s <= approvals.Keys
    ensures |UsesAmong(consumptions, s)| == SumUsed(approvals, s) <= SumLimits(approvals, s)
    decreases s
  {
    if s == {} {
      assert UsesAmong(consumptions, s) == {};
    } else {
      var a := Pick(s);
      UsesAddUp(approvals, consumptions, s - {a});
      assert UsesAmong(consumptions, s) == UsesAmong(consumptions, s - {a}) + UsesOf(consumptions, a);
      assert UsesAmong(consumptions, s - {a}) !! UsesOf(consumptions, a);
    }
  }

  ghost predicate UsedAt(uses: set<ConsumptionKey>, n: int) { exists u :: u in uses && u.attemptNo == n }

  lemma {:induction false} AttemptsAreUses(e: Id, uses: set<ConsumptionKey>, k: nat)
    requires forall u :: u in uses ==> u.effectId == e && 1 <= u.attemptNo <= k
    requires forall u, v :: u in uses && v in uses && u.attemptNo == v.attemptNo ==> u == v
    requires forall n :: 1 <= n <= k ==> UsedAt(uses, n)
    ensures |uses| == k
  {
    if k == 0 {
      assert uses == {};
    } else {
      assert UsedAt(uses, k);
      var last :| last in uses && last.attemptNo == k;
      var fewer := uses - {last};
      forall n | 1 <= n <= k - 1 ensures UsedAt(fewer, n) {
        assert UsedAt(uses, n);
        var u :| u in uses && u.attemptNo == n;
        assert u in fewer;
      }
      AttemptsAreUses(e, fewer, k - 1);
    }
  }

  lemma IntentsAreUses(
    e: Id, capsules: map<CapsuleKey, Capsule>, approvals: map<Id, Approval>, bindings: map<AttemptKey, Binding>,
    consumptions: map<ConsumptionKey, nat>, intents: seq<Intent>)
    requires CalledInOrder(e, capsules, bindings, intents) && OneToOne(bindings, consumptions)
    ensures |ConsumedBy(consumptions, e)| == |intents|
  {
    var uses := ConsumedBy(consumptions, e);
    forall n | 1 <= n <= |intents| ensures UsedAt(uses, n) {
      assert AttemptKey(e, n) in bindings;
      assert ConsumptionKey(bindings[AttemptKey(e, n)].approvalId, e, n) in uses;
    }
    AttemptsAreUses(e, uses, |intents|);
  }

  /** An effect that was under approval from its first intent is called exactly as
      often as its approvals have been consumed, so never more often than the use
      limits of the approvals bound to it add up to. */
  lemma ApprovedCallsAreBounded(ops: seq<Op>, e: Id)
    requires var db := Exec(EmptyDb, ops);
      e in db.effects && Intents(e, db.events) != [] && Intents(e, db.events)[0].approval.Some?
    ensures var db := Exec(EmptyDb, ops);
      var bound := BoundApprovals(db.approvals, e);
      && |Intents(e, db.events)| == |ConsumedBy(db.consumptions, e)| == SumUsed(db.approvals, bound)
      && SumUsed(db.approvals, bound) <= SumLimits(db.approvals, bound)
  {
    var db := Exec(EmptyDb, ops);
    var bound := BoundApprovals(db.approvals, e);
    AuthorityIsConserved(ops);
    ApprovedAttemptsInOrder(ops, e);
    hide Exec, Intents, CalledInOrder;
    IntentsAreUses(e, db.capsules, db.approvals, db.bindings, db.consumptions, Intents(e, db.events));
    UsesAddUp(db.approvals, db.consumptions, bound);
    hide OneToOne, Counted;
    assert ConsumedBy(db.consumptions, e) == UsesAmong(db.consumptions, bound);
  }
}
