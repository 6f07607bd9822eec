// Ingress finalization as it runs: the instant is taken from the caller or the clock
// first, everything else happens in one transaction, and a capsule failure is logged
// after the rollback.

module ReviewService {
  import opened Tables
  import opened CapsuleStore
  import opened Database
  import opened Kernel
  import P = EffectProtocol
  import I = IngressReview
  import E = Evolution

  class IngressReviewService {
    const odb: OgraDatabase

    constructor (odb: OgraDatabase)
      ensures this.odb == odb
    {
      this.odb := odb;
    }

    method FinalizeIngressDecision(i: I.FinalizeInput, asOf: Option<nat>, others: seq<Op>)
      returns (r: Result<EffectState>)
      modifies odb
      ensures var before := old(odb.tables);
        if i.leaseVersion == 0 then r == Err(InvalidArgument) && odb.tables == before
        else if i.effectId !in before.effects || before.effects[i.effectId].runId !in before.workspaces then
          r == Err(EffectNotFound) && odb.tables == before
        else
          Step(r, odb.tables) ==
            I.FinalizeAt(Exec(before, others), i, if asOf.Some? then asOf.value else before.clock)
    {
      hide Exec;
      if i.leaseVersion == 0 {
        return Err(InvalidArgument);
      }
      var now := if asOf.Some? then asOf.value else odb.tables.clock;
      if i.effectId !in odb.tables.effects || odb.tables.effects[i.effectId].runId !in odb.tables.workspaces {
        return Err(EffectNotFound);
      }
      EffectStays(odb.tables, others, i.effectId);
      odb.OthersRun(others);
      r := ReviewTransaction(i, now);
      if r == Err(CapsuleInvalid) || r == Err(CapsuleExpired) {
        odb.tables := odb.tables.(failures := odb.tables.failures + [CapsuleFailure(i.effectId, 0)]);
      }
    }

    /** The transaction body: the checks, the rows, the hook. */
    method ReviewTransaction(i: I.FinalizeInput, now: nat) returns (r: Result<EffectState>)
      requires i.leaseVersion != 0
      requires i.effectId in odb.tables.effects && odb.tables.effects[i.effectId].runId in odb.tables.workspaces
      modifies odb
      ensures var at := old(odb.tables);
        match I.FinalizeError(at, i, now)
        case Some(e) => r == Err(e) && odb.tables == at
        case None =>
          at.effects[i.effectId].receiptId.Some?
          && r == Ok(I.StateAfter(i.outcome)) && odb.tables == I.FinalizePost(at, i)
    {
      var refusal := ReviewGate(i, now);
      if refusal.Some? {
        return Err(refusal.value);
      }
      I.FinalizeAdmits(odb.tables, i, now);
      var row := odb.tables.effects[i.effectId];
      hide I.FinalizeError;
      odb.tables := odb.tables.(events := Log(odb.tables, row.runId, IngressFinalized(i.effectId, i.outcome)));
      WriteVerdict(i, row);
      return Ok(I.StateAfter(i.outcome));
    }

    /** Lease, state, authoritative receipt, sealed result, reviewer's digest, and the
        caller's hook; the first that fails decides. */
    method ReviewGate(i: I.FinalizeInput, now: nat) returns (refusal: Option<Error>)
      requires i.leaseVersion != 0
      requires i.effectId in odb.tables.effects && odb.tables.effects[i.effectId].runId in odb.tables.workspaces
      ensures refusal == I.FinalizeError(odb.tables, i, now)
    {
      var row := odb.tables.effects[i.effectId];
      if !P.ActiveLease(odb.tables, row.runId, i.leaseHolder, i.leaseVersion, now) {
        return Some(LeaseNotHeld);
      }
      if row.state != Received && row.state != AwaitingCallbackVerification {
        return Some(EffectInvalidTransition);
      }
      var payload := I.AuthoritativePayload(odb.tables, i.effectId);
      hide I.AuthoritativePayload, P.ActiveLease;
      if payload.Err? {
        return Some(payload.error);
      }
      if DigestOf(payload.value) != i.reviewerDigest {
        return Some(CapsuleInvalid);
      }
      if i.newFindingId in odb.tables.findings || i.newDecisionId in odb.tables.decisions {
        return Some(ConstraintViolation);
      }
      if i.hookThrows {
        return Some(HookFailed);
      }
      return None;
    }

    /** The rows of an admitted verdict. */
    method WriteVerdict(i: I.FinalizeInput, row: Effect)
      requires i.effectId in odb.tables.effects && odb.tables.effects[i.effectId] == row && row.receiptId.Some?
      modifies odb
      ensures odb.tables == I.FinalizePost(old(odb.tables), i).(events := old(odb.tables).events)
    {
      var receiptId := row.receiptId.value;
      odb.tables := odb.tables.(
        findings := odb.tables.findings[i.newFindingId := Finding(i.effectId, receiptId, i.outcome)],
        decisions := odb.tables.decisions[i.newDecisionId :=
          ReviewDecision(i.newFindingId, receiptId, i.effectId, i.outcome, i.reviewerDigest)]);
      odb.tables := odb.tables.(effects := odb.tables.effects[i.effectId :=
        row.(state := I.StateAfter(i.outcome), revision := row.revision + 1)]);
      var finding, decision := Edge(i.effectId, HasReviewFinding, i.newFindingId),
                               Edge(i.effectId, HasReviewDecision, i.newDecisionId);
      odb.tables := odb.tables.(edges := AppendEdge(odb.tables.edges, finding, row.runId));
      odb.tables := odb.tables.(edges := AppendEdge(odb.tables.edges, decision, row.runId));
    }

    static lemma EffectStays(db: Db, ops: seq<Op>, e: Id)
      requires e in db.effects && db.effects[e].runId in db.workspaces
      ensures var at := Exec(db, ops); e in at.effects && at.effects[e].runId in at.workspaces
    {
      E.RunEvolves(db, ops);
      hide Exec, E.FramesEvolve, E.LeasesEvolve, E.ApprovalsEvolve, E.RepairsEvolve, E.Prefix;
    }
  }
}
