// The runtime kernel as it runs: frames, planned effects, leases and repairs, with
// the loops of the repair verifier and the walk up the frame tree.

module RuntimeService {
  import opened Tables
  import opened CapsuleStore
  import opened Database
  import opened Kernel
  import opened Forest
  import P = EffectProtocol
  import D = DurableRuntime
  import R = RepairPlans
  import S = SplitStep
  import V = RepairSafety
  import X = AuditIndex
  import A = AuditRebuild

  class DurableRuntimeService {
    const odb: OgraDatabase

    constructor (odb: OgraDatabase)
      ensures this.odb == odb
    {
      this.odb := odb;
    }

    /** The frames form a forest, as they do in every reachable state. */
    ghost predicate Valid()
      reads odb
    {
      InForest(odb.tables.frames, odb.tables.workspaces, odb.tables.events)
    }

    /* ---------- frames ---------- */

    method CreateChildFrame(runId: Id, parentId: Id, newId: Id, others: seq<Op>) returns (r: Result<Id>)
      modifies odb
      ensures var before := old(odb.tables);
        match S.ChildPre(before, runId, parentId)
        case Err(e) => r == Err(e) && odb.tables == before
        case Ok(row) => Step(r, odb.tables) == S.ChildTxn(Exec(before, others), runId, parentId, newId, row)
    {
      hide Exec;
      if parentId !in odb.tables.frames {
        return Err(FrameNotFound);
      }
      var parent := odb.tables.frames[parentId];
      if parent.runId != runId {
        return Err(EffectOwnerMismatch);
      }
      var path := parent.path + [parentId];
      odb.OthersRun(others);
      var saved := odb.tables;
      odb.tables := odb.tables.(events := Log(odb.tables, runId, FrameCreated(newId, Some(parentId))));
      if newId in odb.tables.frames {
        odb.tables := saved;
        return Err(ConstraintViolation);
      }
      odb.tables := odb.tables.(frames := odb.tables.frames[newId := Frame(runId, Some(parentId), FPending, path, 1)]);
      if parentId in odb.tables.frames {
        var row := odb.tables.frames[parentId];
        odb.tables := odb.tables.(frames :=
          odb.tables.frames[parentId := row.(subtreeRevision := row.subtreeRevision + 1)]);
      }
      return Ok(newId);
    }

    method TransitionFrame(frameId: Id, expected: Option<FrameStatus>, next: FrameStatus) returns (r: Result<Id>)
      modifies odb
      ensures Step(r, odb.tables) == D.TransitionFrame(old(odb.tables), frameId, expected, next)
    {
      if frameId !in odb.tables.frames {
        return Err(FrameNotFound);
      }
      var saved := odb.tables;
      var row := odb.tables.frames[frameId];
      odb.tables := odb.tables.(events := Log(odb.tables, row.runId, FrameTransitioned(frameId, next)));
      if next !in D.FrameTransitions(row.status) {
        odb.tables := saved;
        return Err(FrameInvalidTransition);
      }
      if expected.Some? && expected.value != row.status {
        odb.tables := saved;
        return Err(RevisionConflict);
      }
      odb.tables := odb.tables.(frames :=
        odb.tables.frames[frameId := row.(status := next, subtreeRevision := row.subtreeRevision + 1)]);
      return Ok(frameId);
    }

    /** The walk over parent_frame_id. It ends because the stored paths shrink, and it
        finds exactly the frame itself and the ids on its stored path. */
    method IsInSubtree(candidate: Id, target: Id) returns (inside: bool)
      requires Valid()
      ensures inside <==> R.InSubtree(odb.tables.frames, candidate, target)
    {
      var frames := odb.tables.frames;
      ghost var workspaces := odb.tables.workspaces;
      assert WellFormed(frames, workspaces);
      var cur := Some(candidate);
      while cur.Some?
        invariant cur.None? ==> !R.InSubtree(frames, candidate, target)
        invariant cur.Some? ==> (R.InSubtree(frames, candidate, target) <==> R.InSubtree(frames, cur.value, target))
        decreases if cur.None? then -1 else if cur.value !in frames then 0 else 1 + |frames[cur.value].path|
      {
        if cur.value == target {
          return true;
        }
        if cur.value !in frames {
          return false;
        }
        assert WellPlaced(frames, workspaces, cur.value);
        cur := frames[cur.value].parent;
      }
      return false;
    }

    /* ---------- leases ---------- */

    method AcquireLease(runId: Id, holderId: Id, ttlMs: int) returns (r: Result<Lease>)
      modifies odb
      ensures Step(r, odb.tables) == D.AcquireLease(old(odb.tables), runId, holderId, ttlMs)
    {
      var expires := odb.tables.clock + (if ttlMs < 1 then 1 else ttlMs);
      var saved := odb.tables;
      odb.tables := odb.tables.(events := Log(odb.tables, runId, LeaseAcquired(holderId)));
      if runId in odb.tables.leases {
        var existing := odb.tables.leases[runId];
        if !existing.released {
          if odb.tables.clock < existing.expiresAt {
            if existing.holderId == holderId {
              assert odb.tables.leases[runId := existing] == odb.tables.leases;
              return Ok(existing);
            }
            odb.tables := saved;
            return Err(LeaseVersionConflict);
          }
        }
        var taken := Lease(holderId, existing.version + 1, expires, false);
        odb.tables := odb.tables.(leases := odb.tables.leases[runId := taken]);
        return Ok(taken);
      }
      if runId !in odb.tables.workspaces {
        odb.tables := saved;
        return Err(ConstraintViolation);
      }
      var fresh_ := Lease(holderId, 1, expires, false);
      odb.tables := odb.tables.(leases := odb.tables.leases[runId := fresh_]);
      return Ok(fresh_);
    }

    method RenewLease(runId: Id, holderId: Id, expectedVersion: nat, ttlMs: int) returns (r: Result<Lease>)
      modifies odb
      ensures Step(r, odb.tables) == D.RenewLease(old(odb.tables), runId, holderId, expectedVersion, ttlMs)
    {
      var saved := odb.tables;
      odb.tables := odb.tables.(events := Log(odb.tables, runId, LeaseRenewed(holderId)));
      if runId !in odb.tables.leases || odb.tables.leases[runId].holderId != holderId {
        odb.tables := saved;
        return Err(LeaseNotHeld);
      }
      var existing := odb.tables.leases[runId];
      if existing.version != expectedVersion {
        odb.tables := saved;
        return Err(LeaseVersionConflict);
      }
      if existing.released {
        odb.tables := saved;
        return Err(LeaseNotHeld);
      }
      if existing.expiresAt <= odb.tables.clock {
        odb.tables := saved;
        return Err(LeaseTakenOver);
      }
      var expires := odb.tables.clock + (if ttlMs < 1 then 1 else ttlMs);
      var renewed := existing.(version := existing.version + 1, expiresAt := expires);
      odb.tables := odb.tables.(leases := odb.tables.leases[runId := renewed]);
      return Ok(renewed);
    }

    method ReleaseLease(runId: Id, holderId: Id, expectedVersion: nat) returns (r: Result<()>)
      modifies odb
      ensures Step(r, odb.tables) == D.ReleaseLease(old(odb.tables), runId, holderId, expectedVersion)
    {
      if runId !in odb.tables.leases || odb.tables.leases[runId].holderId != holderId {
        return Ok(());
      }
      var existing := odb.tables.leases[runId];
      if existing.version != expectedVersion {
        return Err(LeaseVersionConflict);
      }
      odb.tables := odb.tables.(events := Log(odb.tables, runId, LeaseReleased(holderId)));
      odb.tables := odb.tables.(leases :=
        odb.tables.leases[runId := existing.(version := existing.version + 1, released := true)]);
      return Ok(());
    }

    /* ---------- planned effects and the generic transition ---------- */

    method PlanEffect(i: D.PlanInput, others: seq<Op>) returns (r: Result<Id>)
      modifies odb
      ensures var before := old(odb.tables);
        match S.PlanPre(before, i)
        case Some(e) => r == Err(e) && odb.tables == before
        case None => Step(r, odb.tables) == S.PlanTxn(Exec(before, others), i)
    {
      hide Exec;
      if i.ownerFrameId !in odb.tables.frames {
        return Err(FrameNotFound);
      }
      if odb.tables.frames[i.ownerFrameId].runId != i.runId {
        return Err(EffectOwnerMismatch);
      }
      if i.keyHash in odb.tables.keyIndex && odb.tables.keyIndex[i.keyHash] in odb.tables.effects {
        var dup := odb.tables.effects[odb.tables.keyIndex[i.keyHash]];
        if dup.ownerFrameId != i.ownerFrameId {
          return Err(EffectIdempotencyReused);
        }
        if dup.payloadFingerprint != i.payloadFingerprint {
          return Err(EffectPayloadFingerprintChanged);
        }
      }
      odb.OthersRun(others);
      var saved := odb.tables;
      odb.tables := odb.tables.(events := Log(odb.tables, i.runId, EffectPlanned(i.newEffectId)));
      if i.newEffectId in odb.tables.effects || i.keyHash in odb.tables.keyIndex {
        odb.tables := saved;
        return Err(EffectIdempotencyReused);
      }
      odb.tables := odb.tables.(effects := odb.tables.effects[i.newEffectId := D.PlannedEffect(i)],
                                keyIndex := odb.tables.keyIndex[i.keyHash := i.newEffectId]);
      odb.tables := odb.tables.(edges :=
        AppendEdge(odb.tables.edges, Edge(i.ownerFrameId, OwnsEffect, i.newEffectId), i.runId));
      return Ok(i.newEffectId);
    }

    method TransitionEffect(
      effectId: Id, expectedRevision: nat, expected: EffectState, next: EffectState, others: seq<Op>)
      returns (r: Result<Id>)
      modifies odb
      ensures var before := old(odb.tables);
        match S.MovePre(before, effectId, expectedRevision, expected, next)
        case Err(e) => r == Err(e) && odb.tables == before
        case Ok(row) => Step(r, odb.tables) == S.MoveTxn(Exec(before, others), effectId, next, row)
    {
      var refusal := CheckTransition(effectId, expectedRevision, expected, next);
      hide Exec, S.MovePre, S.MoveTxn;
      if refusal.Some? {
        return Err(refusal.value);
      }
      var current := odb.tables.effects[effectId];
      odb.OthersRun(others);
      r := MoveTransaction(effectId, next, current);
    }

    method CheckTransition(effectId: Id, expectedRevision: nat, expected: EffectState, next: EffectState)
      returns (refusal: Option<Error>)
      ensures refusal.None? ==> effectId in odb.tables.effects
      ensures S.MovePre(odb.tables, effectId, expectedRevision, expected, next) ==
        if refusal.Some? then Err(refusal.value) else Ok(odb.tables.effects[effectId])
    {
      if effectId !in odb.tables.effects {
        return Some(EffectNotFound);
      }
      var current := odb.tables.effects[effectId];
      if current.revision != expectedRevision {
        return Some(RevisionConflict);
      }
      if current.state != expected {
        return Some(EffectInvalidTransition);
      }
      if next !in D.EffectTransitions(current.state) {
        return Some(EffectInvalidTransition);
      }
      if next == InFlight && (current.state == Planned || current.state == Unknown) {
        return Some(EffectInvalidTransition);
      }
      return None;
    }

    method MoveTransaction(effectId: Id, next: EffectState, captured: Effect) returns (r: Result<Id>)
      modifies odb
      ensures Step(r, odb.tables) == S.MoveTxn(old(odb.tables), effectId, next, captured)
    {
      var saved := odb.tables;
      odb.tables := odb.tables.(events :=
        Log(odb.tables, captured.runId, EffectTransitioned(effectId, captured.state, next)));
      if effectId !in odb.tables.effects || odb.tables.effects[effectId].revision != captured.revision {
        odb.tables := saved;
        return Err(RevisionConflict);
      }
      if next == AwaitingCallbackVerification {
        odb.tables := saved;
        return Err(ConstraintViolation);
      }
      var row := odb.tables.effects[effectId];
      odb.tables := odb.tables.(effects :=
        odb.tables.effects[effectId := row.(state := next, revision := row.revision + 1)]);
      return Ok(effectId);
    }

    /* ---------- repairs ---------- */

    /** verifyRepairInvariants: the step loop with its set of seen effects, then the
        order loop over an index from effect to step. */
    method VerifyRepairInvariants(q: R.Request) returns (err: Option<Error>)
      requires Valid()
      ensures err == R.RepairError(odb.tables, q)
    {
      if q.targetFrameId !in odb.tables.frames {
        return Some(FrameNotFound);
      }
      if odb.tables.frames[q.targetFrameId].subtreeRevision != q.subtreeRevision {
        return Some(RepairSubtreeRevisionDrift);
      }
      err := VerifySteps(q);
      if err.None? {
        err := VerifyOrder(q);
      }
    }

    method VerifySteps(q: R.Request) returns (err: Option<Error>)
      requires Valid()
      ensures err == R.FirstStepError(odb.tables, q, 0)
    {
      hide InForest, R.InSubtree, R.CrossFrameApproved, R.ActionAllowedInState;
      var seen: set<Id> := {};
      for k := 0 to |q.plan|
        invariant forall e :: e in seen <==> exists j :: 0 <= j < k && q.plan[j].effectId == e
        invariant R.FirstStepError(odb.tables, q, 0) == R.FirstStepError(odb.tables, q, k)
      {
        var step := q.plan[k];
        if step.effectId in seen {
          return Some(RepairInvalid);
        }
        seen := seen + {step.effectId};
        if step.effectId !in odb.tables.effects {
          return Some(EffectNotFound);
        }
        var effect := odb.tables.effects[step.effectId];
        if effect.runId != q.runId {
          return Some(EffectOwnerMismatch);
        }
        var inside := IsInSubtree(effect.ownerFrameId, q.targetFrameId);
        if !inside {
          if step.effectId in q.requestLocal {
            return Some(RepairInvalid);
          }
          if step.effectId !in q.crossFrame {
            return Some(RepairSiblingOverreach);
          }
          if !R.CrossFrameApproved(odb.tables, q, step.effectId, effect, step.expectedRevision) {
            return Some(RepairInvalid);
          }
        }
        if step.effectId !in q.authorized || q.authorized[step.effectId] != step.expectedRevision
          || effect.revision != step.expectedRevision {
          return Some(RepairInvalid);
        }
        if step.action !in effect.repairActions || !R.ActionAllowedInState(step.action, effect.state) {
          return Some(RepairInvalid);
        }
        if step.effectId !in q.evidence {
          return Some(RepairInvalid);
        }
      }
      return None;
    }

    method VerifyOrder(q: R.Request) returns (err: Option<Error>)
      requires R.FirstStepError(odb.tables, q, 0).None?
      ensures err == R.FirstOrderError(odb.tables, q, 0)
    {
      V.FirstStepErrorIff(odb.tables, q, 0);
      assert forall k :: 0 <= k < |q.plan| ==> q.plan[k].effectId in odb.tables.effects;
      var index := IndexSteps(q);
      hide R.FirstStepError, R.FirstDependencyError, V.StepAdmitted, V.Before;
      for k := 0 to |q.plan|
        invariant R.FirstOrderError(odb.tables, q, 0) == R.FirstOrderError(odb.tables, q, k)
      {
        err := VerifyDependencies(q, k, index, odb.tables.effects[q.plan[k].effectId].dependencies);
        if err.Some? {
          return err;
        }
      }
      return None;
    }

    /** The inner loop: every dependency is in the plan, and before the step. */
    method VerifyDependencies(q: R.Request, k: nat, index: map<Id, int>, deps: seq<Id>) returns (err: Option<Error>)
      requires k < |q.plan|
      requires forall e :: e in index <==> exists j :: 0 <= j < |q.plan| && q.plan[j].effectId == e
      requires forall j :: 0 <= j < |q.plan| ==> q.plan[j].effectId in index && index[q.plan[j].effectId] == j
      ensures err == R.FirstDependencyError(q, k, deps)
    {
      assert deps[0..] == deps;
      for d := 0 to |deps|
        invariant R.FirstDependencyError(q, k, deps) == R.FirstDependencyError(q, k, deps[d..])
      {
        assert deps[d..][0] == deps[d] && deps[d..][1..] == deps[d + 1..];
        if deps[d] !in index {
          return Some(RepairInvalid);
        }
        if index[deps[d]] >= index[q.plan[k].effectId] {
          return Some(RepairDependencyReversed);
        }
      }
      return None;
    }

    /** A map from each effect of the plan to its position. */
    method IndexSteps(q: R.Request) returns (index: map<Id, int>)
      requires R.FirstStepError(odb.tables, q, 0).None?
      ensures forall e :: e in index <==> exists j :: 0 <= j < |q.plan| && q.plan[j].effectId == e
      ensures forall j :: 0 <= j < |q.plan| ==> q.plan[j].effectId in index && index[q.plan[j].effectId] == j
    {
      V.FirstStepErrorIff(odb.tables, q, 0);
      forall j, k | 0 <= j < k < |q.plan| ensures q.plan[j].effectId != q.plan[k].effectId {
        assert !V.Before(q, q.plan[k].effectId, k);
      }
      hide R.FirstStepError, V.StepAdmitted, V.Before;
      index := map[];
      for k := 0 to |q.plan|
        invariant forall e :: e in index <==> exists j :: 0 <= j < k && q.plan[j].effectId == e
        invariant forall j :: 0 <= j < k ==> q.plan[j].effectId in index && index[q.plan[j].effectId] == j
      {
        index := index[q.plan[k].effectId := k];
      }
    }

    /** The plan is verified first and not again: the transaction only inserts. */
    method CreateRepair(q: R.Request, newId: Id, others: seq<Op>) returns (r: Result<Id>)
      requires Valid()
      modifies odb
      ensures var before := old(odb.tables);
        match S.CreatePre(before, q)
        case Some(e) => r == Err(e) && odb.tables == before
        case None => Step(r, odb.tables) == S.CreateTxn(Exec(before, others), q, newId)
    {
      hide Exec, InForest, R.RepairError;
      if q.targetFrameId !in odb.tables.frames {
        return Err(FrameNotFound);
      }
      if odb.tables.frames[q.targetFrameId].runId != q.runId {
        return Err(InvalidArgument);
      }
      var refusal := VerifyRepairInvariants(q);
      if refusal.Some? {
        return Err(refusal.value);
      }
      odb.OthersRun(others);
      var saved := odb.tables;
      odb.tables := odb.tables.(events := Log(odb.tables, q.runId, RepairCreated(newId)));
      if newId in odb.tables.repairs {
        odb.tables := saved;
        return Err(ConstraintViolation);
      }
      var row := Repair(q.runId, q.targetFrameId, q.subtreeRevision, q.authorized, R.CrossFrameFor(q), q.plan, Open);
      odb.tables := odb.tables.(repairs := odb.tables.repairs[newId := row]);
      odb.tables := odb.tables.(edges := AppendEdge(odb.tables.edges, Edge(q.targetFrameId, HasRepair, newId), q.runId));
      return Ok(newId);
    }

    /** The status machine. A commit verifies the plan before its transaction, and the
        lease and the plan again inside it; the status CAS is on the captured status. */
    method SetRepairStatus(i: R.StatusInput, others: seq<Op>) returns (r: Result<RepairStatus>)
      requires Valid()
      modifies odb
      ensures var before := old(odb.tables);
        if i.repairId !in before.repairs then r == Err(RepairNotFound) && odb.tables == before
        else
          var captured := before.repairs[i.repairId];
          if i.next !in D.RepairTransitions(captured.status) then r == Err(RepairInvalid) && odb.tables == before
          else if i.next == CommittedRepair && R.RepairError(before, R.StoredRequest(captured, i.evidence)).Some? then
            r == Err(R.RepairError(before, R.StoredRequest(captured, i.evidence)).value) && odb.tables == before
          else if i.next == CommittedRepair && i.authority.None? then r == Err(LeaseNotHeld) && odb.tables == before
          else Step(r, odb.tables) == S.StatusTxn(Exec(before, others), i, captured)
    {
      hide Exec, R.RepairError;
      if i.repairId !in odb.tables.repairs {
        return Err(RepairNotFound);
      }
      var row := odb.tables.repairs[i.repairId];
      if i.next !in D.RepairTransitions(row.status) {
        return Err(RepairInvalid);
      }
      if i.next == CommittedRepair {
        var refusal := VerifyRepairInvariants(R.StoredRequest(row, i.evidence));
        if refusal.Some? {
          return Err(refusal.value);
        }
        if i.authority.None? {
          return Err(LeaseNotHeld);
        }
      }
      RunStaysInForest(odb.tables, others);
      odb.OthersRun(others);
      r := StatusTransaction(i, row);
    }

    method StatusTransaction(i: R.StatusInput, captured: Repair) returns (r: Result<RepairStatus>)
      requires Valid()
      modifies odb
      ensures Step(r, odb.tables) == S.StatusTxn(old(odb.tables), i, captured)
    {
      hide R.RepairError, P.ActiveLease;
      if i.next == CommittedRepair {
        if i.authority.None? || !P.ActiveLease(odb.tables, captured.runId, i.authority.value.holderId,
                                               i.authority.value.leaseVersion, odb.tables.clock) {
          return Err(LeaseNotHeld);
        }
        var refusal := VerifyRepairInvariants(R.StoredRequest(captured, i.evidence));
        if refusal.Some? {
          return Err(refusal.value);
        }
      }
      if i.repairId !in odb.tables.repairs || odb.tables.repairs[i.repairId].status != captured.status {
        return Err(RevisionConflict);
      }
      var row := odb.tables.repairs[i.repairId];
      odb.tables := odb.tables.(repairs := odb.tables.repairs[i.repairId := row.(status := i.next)]);
      odb.tables := odb.tables.(events :=
        Log(odb.tables, captured.runId, RepairStatusChanged(i.repairId, captured.status, i.next)));
      return Ok(i.next);
    }

    /* ---------- audit edges ---------- */

    /** What is expected and absent, and what is present and not expected. */
    method VerifyAuditEdgesForRun(runId: Id) returns (missing: set<Edge>, extra: set<Edge>)
      ensures missing == X.Missing(odb.tables, runId) && extra == X.Extra(odb.tables, runId)
    {
      var expected := X.Expected(odb.tables.effects, odb.tables.repairs, odb.tables.receipts, runId);
      var actual := X.Actual(odb.tables.edges, runId);
      missing := set x | x in expected && x !in actual;
      extra := set x | x in actual && x !in expected;
    }

    /** rebuildAuditEdgesForRun: the DELETE, then one loop of inserts for each relation, over
        rows read just before that loop. Before each insert other callers take their turn;
        when there is no further turn, this process has died. */
    method RebuildAuditEdgesForRun(runId: Id, turns: seq<seq<Op>>)
      returns (inserted: Option<nat>, ghost rows: seq<Edge>)
      requires Valid()
      modifies odb
      ensures Valid() && |rows| <= |turns|
      ensures odb.tables == Exec(old(odb.tables), A.Statements(runId, rows, turns))
      ensures A.Distinct(rows) && A.AllExpected(odb.tables, runId, rows)
      ensures inserted.None? ==> |rows| == |turns| && !A.Covers(odb.tables, runId, rows)
      ensures inserted.Some? ==> inserted.value == |rows| && A.Covers(old(odb.tables), runId, rows)
      ensures A.Alone(turns) && inserted.Some? ==>
        && odb.tables == old(odb.tables).(edges := X.Rebuilt(old(odb.tables), runId))
        && inserted.value == |A.ExpectedOf(old(odb.tables), runId)|
    {
      ghost var before := odb.tables;
      odb.tables := X.DropEdges(odb.tables, runId);
      A.StatementsBegin(before, runId, turns);
      var owned := X.OwnedEdges(odb.tables.effects, runId);
      var n, alive;
      A.OwnedAre(odb.tables, runId);
      n, alive, rows := AppendEdges(runId, owned, 0, turns, before, []);
      A.RunKeepsExpectations(before, A.Statements(runId, rows, turns), runId);
      if alive {
        ghost var done := rows;
        var repaired := X.RepairEdges(odb.tables.repairs, runId);
        A.RepairsAre(odb.tables, runId);
        n, alive, rows := AppendEdges(runId, repaired, n, turns, before, done);
        A.RunKeepsExpectations(before, A.Statements(runId, rows, turns), runId);
      }
      if alive {
        ghost var done := rows;
        var receipted := X.ReceiptEdges(odb.tables.effects, odb.tables.receipts, runId);
        A.ReceiptsAre(odb.tables, runId);
        n, alive, rows := AppendEdges(runId, receipted, n, turns, before, done);
      }
      RunStaysInForest(before, A.Statements(runId, rows, turns));
      if alive && A.Alone(turns) {
        A.AloneTouchesEdges(before, runId, rows, turns);
        A.RanAlone(before, runId, rows, turns);
      }
      inserted := if alive then Some(n) else None;
    }

    /** One loop of inserts. */
    method AppendEdges(
      runId: Id, edges: set<Edge>, start: nat, turns: seq<seq<Op>>, ghost before: Db, ghost done: seq<Edge>)
      returns (n: nat, alive: bool, ghost rows: seq<Edge>)
      requires start == |done| <= |turns| && A.Distinct(done) && A.AllExpected(odb.tables, runId, done)
      requires odb.tables == Exec(before, A.Statements(runId, done, turns))
      requires forall x :: x in edges ==> x !in done
      requires A.SetExpected(odb.tables, runId, edges)
      modifies odb
      ensures n == |rows| <= |turns| && A.Distinct(rows) && A.AllExpected(odb.tables, runId, rows)
      ensures odb.tables == Exec(before, A.Statements(runId, rows, turns))
      ensures forall x :: x in rows ==> x in done || x in edges
      ensures alive ==> forall x :: x in done || x in edges ==> x in rows
      ensures !alive ==> n == |turns| && !A.Covers(odb.tables, runId, rows)
    {
      hide *;
      n, alive, rows := start, true, done;
      var todo := edges;
      while todo != {}
        invariant n == |rows| <= |turns| && A.Distinct(rows) && A.AllExpected(odb.tables, runId, rows)
        invariant todo <= edges && A.SetExpected(odb.tables, runId, todo)
        invariant odb.tables == Exec(before, A.Statements(runId, rows, turns))
        invariant forall x :: x in rows <==> x in done || x in edges - todo
        invariant forall x :: x in todo ==> x !in rows
        decreases |todo|
      {
        if n == |turns| {
          A.StillToDo(odb.tables, runId, rows, todo);
          return n, false, rows;
        }
        ghost var at := odb.tables;
        odb.OthersRun(turns[n]);
        var x :| x in todo;
        ghost var between := odb.tables;
        A.TurnKeepsExpectations(at, turns[n], runId, rows, todo, x);
        odb.tables := odb.tables.(edges := AppendEdge(odb.tables.edges, x, runId));
        A.StatementsGrow(before, runId, rows, turns, x);
        A.InsertIsRestore(between, runId, rows, todo, x);
        rows, n, todo := rows + [x], n + 1, todo - {x};
      }
    }
  }
}
