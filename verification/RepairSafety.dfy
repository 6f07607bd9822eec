// What an admitted repair plan looks like, and what commits it: the verifier's loops
// characterised, the order they enforce, and the world a committed repair found.

module RepairSafety {
  import opened Tables
  import opened EffectProtocol
  import opened DurableRuntime
  import opened RepairPlans
  import opened Kernel
  import opened Evolution
  import opened Replay
  import opened Forest
  import S = SplitRuns

  /* ---------- the verifier, declaratively ---------- */

  /** Effect e is in the plan before step k. */
  predicate Before(q: Request, e: Id, k: nat)
    requires k <= |q.plan|
  {
    exists j :: 0 <= j < k && q.plan[j].effectId == e
  }

  /** What may be done about an effect in each state. */
  function ActionsIn(s: EffectState): set<RepairAction> {
    match s
    case Planned => {Retry, Amend, Preserve, Escalate}
    case InFlight => {Reconcile, Preserve, Escalate}
    case Unknown => {Retry, Amend, Reconcile, Preserve, Escalate}
    case Received => {Reconcile, Preserve, Escalate}
    case Failed => {Retry, Preserve, Escalate}
    case Committed => {Compensate, Preserve, Escalate}
    case Compensated => {Escalate}
    case CancelledBeforeSend => {Escalate}
    case _ => {Preserve, Escalate}
  }

  lemma ActionsByState(a: RepairAction, s: EffectState)
    ensures ActionAllowedInState(a, s) <==> a in ActionsIn(s)
  {
  }

  /** An approval for exactly this effect, at this revision, seen from this frame. */
  predicate CrossFramePermit(a: Approval, q: Request, effectId: Id, e: Effect, revision: nat, now: nat) {
    && a.decision == Approved && a.approvalType == RepairCrossFrame
    && (a.expiresAt == None || now < a.expiresAt.value)
    && a.runId == q.runId && a.effectId == Some(effectId) && a.effectRevision == Some(revision)
    && a.payloadFingerprint == Some(e.payloadFingerprint) && a.scopeHash == e.scopeHash
    && a.policyVersionHash == e.policyVersionHash && a.scope.Some?
    && a.scope.value.runId == q.runId && a.scope.value.targetFrameId == q.targetFrameId
    && a.scope.value.effectId == effectId && a.scope.value.effectRevision == revision
  }

  predicate OutsidePermitted(db: Db, q: Request, effectId: Id, e: Effect, revision: nat) {
    && effectId !in q.requestLocal && effectId in q.crossFrame && q.crossFrame[effectId] in db.approvals
    && CrossFramePermit(db.approvals[q.crossFrame[effectId]], q, effectId, e, revision, db.clock)
  }

  /** The frame is the target or has it on its stored path. */
  predicate Inside(frames: map<Id, Frame>, f: Id, target: Id) {
    f == target || (f in frames && target in frames[f].path)
  }

  lemma CrossFrameIff(db: Db, q: Request, effectId: Id, e: Effect, revision: nat)
    ensures (effectId !in q.requestLocal && CrossFrameApproved(db, q, effectId, e, revision)) <==>
      OutsidePermitted(db, q, effectId, e, revision)
  {
  }

  /** One step on its own: a known effect of this run, inside the target's subtree or
      under an exact-scope approval, at the snapshotted revision, in a state that
      admits the action, with intact evidence. */
  predicate StepAdmitted(db: Db, q: Request, s: RepairStep) {
    && s.effectId in db.effects
    && var e := db.effects[s.effectId];
    && e.runId == q.runId
    && (Inside(db.frames, e.ownerFrameId, q.targetFrameId)
        || OutsidePermitted(db, q, s.effectId, e, s.expectedRevision))
    && s.effectId in q.authorized && q.authorized[s.effectId] == s.expectedRevision == e.revision
    && s.action in e.repairActions && s.action in ActionsIn(e.state)
    && s.effectId in q.evidence
  }

  ghost predicate PlanAdmitted(db: Db, q: Request) {
    && (forall k :: 0 <= k < |q.plan| ==> StepAdmitted(db, q, q.plan[k]))
    && (forall j, k :: 0 <= j < k < |q.plan| ==> q.plan[j].effectId != q.plan[k].effectId)
    && (forall k, d :: 0 <= k < |q.plan| && d in Dependencies(db, q.plan[k].effectId) ==> Before(q, d, k))
  }

  lemma StepErrorIff(db: Db, q: Request, k: nat)
    requires k < |q.plan|
    ensures StepError(db, q, k).None? <==> StepAdmitted(db, q, q.plan[k]) && !Before(q, q.plan[k].effectId, k)
  {
    var s := q.plan[k];
    ActionsByStates(s.action);
    if s.effectId in db.effects {
      CrossFrameIff(db, q, s.effectId, db.effects[s.effectId], s.expectedRevision);
    }
    hide CrossFrameApproved, OutsidePermitted, ActionAllowedInState, ActionsIn;
  }

  lemma ActionsByStates(a: RepairAction)
    ensures forall s :: ActionAllowedInState(a, s) <==> a in ActionsIn(s)
  {
    forall s ensures ActionAllowedInState(a, s) <==> a in ActionsIn(s) {
      ActionsByState(a, s);
    }
  }

  lemma {:induction false} FirstStepErrorIff(db: Db, q: Request, k: nat)
    requires k <= |q.plan|
    ensures FirstStepError(db, q, k).None? <==>
      forall j :: k <= j < |q.plan| ==> StepAdmitted(db, q, q.plan[j]) && !Before(q, q.plan[j].effectId, j)
    decreases |q.plan| - k
  {
    if k < |q.plan| {
      StepErrorIff(db, q, k);
      FirstStepErrorIff(db, q, k + 1);
      hide StepError, StepAdmitted, Before;
    }
  }

  lemma DependencyErrorIff(q: Request, k: nat, d: Id)
    requires k < |q.plan|
    ensures DependencyError(q, k, d).None? <==> Before(q, d, k)
  {
  }

  lemma {:induction false} FirstDependencyErrorIff(q: Request, k: nat, deps: seq<Id>)
    requires k < |q.plan|
    ensures FirstDependencyError(q, k, deps).None? <==> forall d :: d in deps ==> Before(q, d, k)
  {
    if deps != [] {
      DependencyErrorIff(q, k, deps[0]);
      FirstDependencyErrorIff(q, k, deps[1..]);
      hide DependencyError, Before;
      assert forall d :: d in deps <==> d == deps[0] || d in deps[1..];
    }
  }

  lemma {:induction false} FirstOrderErrorIff(db: Db, q: Request, k: nat)
    requires k <= |q.plan|
    ensures FirstOrderError(db, q, k).None? <==>
      forall j, d :: k <= j < |q.plan| && d in Dependencies(db, q.plan[j].effectId) ==> Before(q, d, j)
    decreases |q.plan| - k
  {
    if k < |q.plan| {
      FirstDependencyErrorIff(q, k, Dependencies(db, q.plan[k].effectId));
      FirstOrderErrorIff(db, q, k + 1);
      hide Before, Dependencies, FirstDependencyError;
    }
  }

  /** verifyRepairInvariants accepts exactly the admitted plans on the snapshotted frame. */
  lemma RepairVerifiedIff(db: Db, q: Request)
    ensures RepairError(db, q).None? <==>
      && q.targetFrameId in db.frames && db.frames[q.targetFrameId].subtreeRevision == q.subtreeRevision
      && PlanAdmitted(db, q)
  {
    FirstStepErrorIff(db, q, 0);
    FirstOrderErrorIff(db, q, 0);
    hide StepAdmitted, FirstStepError, FirstOrderError, Dependencies;
  }

  /* ---------- order ---------- */

  /** d is reached from e by n + 1 dependency edges. */
  ghost predicate DependsOn(db: Db, e: Id, d: Id, n: nat)
    decreases n
  {
    if n == 0 then d in Dependencies(db, e)
    else exists mid :: mid in Dependencies(db, e) && DependsOn(db, mid, d, n - 1)
  }

  /** Every transitive dependency of a step occurs strictly earlier in the plan. */
  lemma {:induction false} DependenciesComeFirst(db: Db, q: Request, k: nat, d: Id, n: nat)
    requires PlanAdmitted(db, q) && k < |q.plan| && DependsOn(db, q.plan[k].effectId, d, n)
    ensures Before(q, d, k)
    decreases n
  {
    hide StepAdmitted, Dependencies;
    if n > 0 {
      var mid :| mid in Dependencies(db, q.plan[k].effectId) && DependsOn(db, mid, d, n - 1);
      assert Before(q, mid, k);
      var j :| 0 <= j < k && q.plan[j].effectId == mid;
      DependenciesComeFirst(db, q, j, d, n - 1);
    }
  }

  /** So an admitted plan is closed under dependencies and they are acyclic on it. */
  lemma AdmittedPlansAreAcyclic(db: Db, q: Request, k: nat, n: nat)
    requires PlanAdmitted(db, q) && k < |q.plan|
    ensures !DependsOn(db, q.plan[k].effectId, q.plan[k].effectId, n)
  {
    if DependsOn(db, q.plan[k].effectId, q.plan[k].effectId, n) {
      DependenciesComeFirst(db, q, k, q.plan[k].effectId, n);
    }
  }

  /* ---------- the world of a committed repair ---------- */

  /** The plan's effects and the target frame are untouched, and the frame has no new
      direct child. */
  ghost predicate SameWorld(a: Db, b: Db, plan: seq<RepairStep>, target: Id) {
    && (forall k :: 0 <= k < |plan| ==>
          plan[k].effectId in a.effects && plan[k].effectId in b.effects
          && b.effects[plan[k].effectId] == a.effects[plan[k].effectId])
    && target in a.frames && target in b.frames && b.frames[target] == a.frames[target]
    && Children(b.frames, target) == Children(a.frames, target)
  }

  lemma SandwichedFrames(a: map<Id, Frame>, m: map<Id, Frame>, b: map<Id, Frame>, f: Id)
    requires FramesEvolve(a, m) && FramesEvolve(m, b)
    requires f in a && f in b && a[f].subtreeRevision == b[f].subtreeRevision
    ensures f in m && m[f] == a[f] && Children(m, f) == Children(a, f)
  {
    assert FrameEvolves(a[f], m[f]) && FrameEvolves(m[f], b[f]);
    forall c | c in Children(m, f) ensures c in Children(a, f) {
    }
  }

  /** Between two moments at which the same revisions hold, nothing has moved. */
  lemma SandwichedWorld(a: Db, m: Db, b: Db, q: Request)
    requires Evolves(a, m) && Evolves(m, b)
    requires q.targetFrameId in a.frames && a.frames[q.targetFrameId].subtreeRevision == q.subtreeRevision
    requires q.targetFrameId in b.frames && b.frames[q.targetFrameId].subtreeRevision == q.subtreeRevision
    requires forall k :: 0 <= k < |q.plan| ==> q.plan[k].effectId in a.effects && q.plan[k].effectId in b.effects
    requires forall k :: 0 <= k < |q.plan| ==>
      a.effects[q.plan[k].effectId].revision == b.effects[q.plan[k].effectId].revision
    ensures SameWorld(a, m, q.plan, q.targetFrameId)
  {
    SandwichedFrames(a.frames, m.frames, b.frames, q.targetFrameId);
    assert EffectsEvolve(a.effects, m.effects) && EffectsEvolve(m.effects, b.effects);
    hide Evolves, FramesEvolve, Children;
  }

  /** The commit of a repair was accepted. */
  predicate CommitsRepair(db: Db, i: StatusInput) {
    i.next == CommittedRepair && StatusError(db, i).None?
  }

  lemma CommitChecks(db: Db, i: StatusInput)
    requires CommitsRepair(db, i)
    ensures i.repairId in db.repairs
    ensures var r := db.repairs[i.repairId];
      && r.status == AcceptedRepair
      && i.authority.Some? && ActiveLease(db, r.runId, i.authority.value.holderId, i.authority.value.leaseVersion, db.clock)
      && r.targetFrameId in db.frames && db.frames[r.targetFrameId].subtreeRevision == r.subtreeRevision
      && PlanAdmitted(db, StoredRequest(r, i.evidence))
  {
    RepairVerifiedIff(db, StoredRequest(db.repairs[i.repairId], i.evidence));
    hide RepairError, PlanAdmitted;
  }

  /** A repair commits against the world it was verified in. Let a request be verified
      at `a`, its row be inserted at any later moment, and its commit be accepted at
      `b`: then at every moment m between, no plan effect has moved, and the target
      frame has neither changed status nor gained a direct child; and the commit came
      from `accepted`, under an active lease of the presented version. */
  lemma CommittedInVerifiedWorld(a: Db, m: Db, b: Db, q: Request, i: StatusInput)
    requires Evolves(a, m) && Evolves(m, b)
    requires RepairError(a, q).None? && CommitsRepair(b, i) && i.repairId in b.repairs
    requires var r := b.repairs[i.repairId];
      r.plan == q.plan && r.targetFrameId == q.targetFrameId && r.subtreeRevision == q.subtreeRevision
    ensures SameWorld(a, m, q.plan, q.targetFrameId)
    ensures var r := b.repairs[i.repairId];
      && r.status == AcceptedRepair
      && i.authority.Some?
      && ActiveLease(b, r.runId, i.authority.value.holderId, i.authority.value.leaseVersion, b.clock)
  {
    RepairVerifiedIff(a, q);
    CommitChecks(b, i);
    var r := b.repairs[i.repairId];
    forall k | 0 <= k < |q.plan|
      ensures q.plan[k].effectId in a.effects && q.plan[k].effectId in b.effects
      ensures a.effects[q.plan[k].effectId].revision == b.effects[q.plan[k].effectId].revision
    {
      assert StepAdmitted(a, q, q.plan[k]);
      assert StepAdmitted(b, StoredRequest(r, i.evidence), r.plan[k]);
      hide Inside, OutsidePermitted, ActionsIn, Dependencies;
    }
    hide Evolves, RepairError, PlanAdmitted, CommitsRepair, ActiveLease;
    SandwichedWorld(a, m, b, q);
  }

  predicate HoldsPlan(db: Db, r: Id, q: Request) {
    && r in db.repairs && db.repairs[r].plan == q.plan && db.repairs[r].targetFrameId == q.targetFrameId
    && db.repairs[r].subtreeRevision == q.subtreeRevision
  }

  lemma PlansAreKept(a: Db, b: Db, r: Id, q: Request)
    requires Evolves(a, b) && HoldsPlan(a, r, q)
    ensures HoldsPlan(b, r, q)
  {
    hide LedgerEvolves, FramesEvolve, SubMap, Prefix, ApprovalsEvolve, LeasesEvolve;
  }

  lemma CreatedRow(a: Db, q: Request, r: Id)
    requires CreateError(a, q, r).None?
    ensures Evolves(a, CreatePost(a, q, r)) && HoldsPlan(CreatePost(a, q, r), r, q) && RepairError(a, q).None?
  {
    CreateEvolves(a, q, r);
    hide Evolves, CrossFrameFor, RepairError;
  }

  /** The same along a run: a repair created by an accepted request and committed
      later found every intermediate state in the world of its creation. */
  lemma CommittedRepairsFoundTheirWorld(a: Db, q: Request, r: Id, ops: seq<Op>, i: StatusInput, n: nat)
    requires CreateError(a, q, r).None? && i.repairId == r
    requires CommitsRepair(Exec(CreatePost(a, q, r), ops), i) && n <= |ops|
    ensures SameWorld(a, Exec(CreatePost(a, q, r), ops[..n]), q.plan, q.targetFrameId)
  {
    hide *;
    CreatedRow(a, q, r);
    var start := CreatePost(a, q, r);
    var m, b := Exec(start, ops[..n]), Exec(start, ops);
    RunEvolves(start, ops[..n]);
    RunEvolves(m, ops[n..]);
    ExecAppend(start, ops[..n], ops[n..]);
    assert ops[..n] + ops[n..] == ops;
    EvolvesTransitive(a, start, m);
    RunEvolves(start, ops);
    PlansAreKept(start, b, r, q);
    CommittedWithPlan(a, m, b, q, i);
  }

  lemma CommittedWithPlan(a: Db, m: Db, b: Db, q: Request, i: StatusInput)
    requires Evolves(a, m) && Evolves(m, b)
    requires RepairError(a, q).None? && CommitsRepair(b, i) && HoldsPlan(b, i.repairId, q)
    ensures SameWorld(a, m, q.plan, q.targetFrameId)
  {
    hide Evolves, RepairError, CommitsRepair, SameWorld;
    CommittedInVerifiedWorld(a, m, b, q, i);
  }

  /** And when pre-reads and transactions interleave: let the plan be verified by a
      creation's pre-read, its row be inserted by a transaction at any later moment, and
      a commit of that row be accepted in the end; then the world never moved since the
      pre-read, although the insertion itself verified nothing. */
  lemma SplitRepairsFoundTheirWorld(
    before: seq<S.HalfStep>, mid: seq<S.HalfStep>, after: seq<S.HalfStep>, q: Request, i: StatusInput)
    requires RepairError(S.Run(before).db, q).None?
    requires var b := S.Run(before + mid + after).db; CommitsRepair(b, i) && HoldsPlan(b, i.repairId, q)
    ensures SameWorld(S.Run(before).db, S.Run(before + mid).db, q.plan, q.targetFrameId)
  {
    hide *;
    S.SplitRunEvolves(before, mid);
    S.SplitRunEvolves(before + mid, after);
    CommittedWithPlan(S.Run(before).db, S.Run(before + mid).db, S.Run(before + mid + after).db, q, i);
  }
}
