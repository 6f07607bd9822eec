// How long a lease lasts, who can end it early, and who can have it next.

module LeaseTerms {
  import opened Tables
  import opened EffectProtocol
  import opened DurableRuntime
  import opened Kernel
  import opened Evolution
  import opened LeaseFencing

  /** At least one millisecond. */
  function Term(ttlMs: int): nat { if ttlMs < 1 then 1 else ttlMs }

  predicate Live(db: Db, r: Id) { r in db.leases && !db.leases[r].released && db.clock < db.leases[r].expiresAt }

  /** The row still has this version. */
  predicate StillAt(db: Db, r: Id, version: nat) { r in db.leases && db.leases[r].version == version }

  /** A lease whose row is written now, until `end`: its token is honoured in a later state
      exactly while nobody has written the row since and the end has not come. */
  lemma LastsUntil(after: Db, r: Id, lease: Lease, end: nat, more: seq<Op>)
    requires r in after.leases && after.leases[r] == lease && !lease.released && lease.expiresAt == end
    ensures var b := Exec(after, more);
      Honoured(b, Fence(r, lease.holderId, lease.version)) <==> StillAt(b, r, lease.version) && b.clock < end
  {
    RunEvolves(after, more);
    hide Exec, LedgerEvolves, FramesEvolve, ApprovalsEvolve, RepairsEvolve, SubMap, Prefix;
  }

  /** A renewal is accepted exactly from the holder of an honoured token, and its term runs
      from now. */
  lemma RenewalLasts(db: Db, r: Id, h: Id, v: nat, ttlMs: int, more: seq<Op>)
    ensures var step := RenewLease(db, r, h, v, ttlMs);
      && (step.result.Ok? <==> Honoured(db, Fence(r, h, v)))
      && (step.result.Ok? ==>
            var lease, b := step.result.value, Exec(step.db, more);
            && lease.holderId == h && lease.version == v + 1
            && (Honoured(b, Fence(r, h, v + 1)) <==> StillAt(b, r, v + 1) && b.clock < db.clock + Term(ttlMs)))
      && (step.result.Err? ==> step.db == db)
  {
    RenewWrites(db, r, h, v, ttlMs);
    var step := RenewLease(db, r, h, v, ttlMs);
    hide Exec, RenewLease, Honoured;
    if step.result.Ok? {
      LastsUntil(step.db, r, step.result.value, db.clock + Term(ttlMs), more);
    }
  }

  lemma RenewWrites(db: Db, r: Id, h: Id, v: nat, ttlMs: int)
    ensures var step := RenewLease(db, r, h, v, ttlMs);
      && (step.result.Ok? <==> Honoured(db, Fence(r, h, v)))
      && (step.result.Ok? ==>
            && r in step.db.leases && step.db.leases[r] == step.result.value
            && step.result.value == Lease(h, v + 1, db.clock + Term(ttlMs), false))
      && (step.result.Err? ==> step.db == db)
  {
  }

  /** An acquisition is accepted exactly if nobody else holds an honoured token. The live
      holder gets the lease as it stands; anybody else a new version, from now. */
  lemma AcquisitionLasts(db: Db, r: Id, h: Id, ttlMs: int, more: seq<Op>)
    ensures var step := AcquireLease(db, r, h, ttlMs);
      && (step.result.Ok? <==>
            && (Live(db, r) ==> db.leases[r].holderId == h)
            && (r in db.leases || r in db.workspaces))
      && (step.result.Ok? ==>
            var lease, b := step.result.value, Exec(step.db, more);
            && lease.holderId == h && Honoured(step.db, Fence(r, h, lease.version))
            && (Live(db, r) ==> lease == db.leases[r] && step.db.leases == db.leases)
            && (!Live(db, r) ==>
                  && lease.version == (if r in db.leases then db.leases[r].version + 1 else 1)
                  && (Honoured(b, Fence(r, h, lease.version)) <==>
                        StillAt(b, r, lease.version) && b.clock < db.clock + Term(ttlMs))))
      && (step.result.Err? ==> step.db == db)
  {
    AcquireWrites(db, r, h, ttlMs);
    var step := AcquireLease(db, r, h, ttlMs);
    hide Exec, AcquireLease, Live;
    if step.result.Ok? && !Live(db, r) {
      LastsUntil(step.db, r, step.result.value, db.clock + Term(ttlMs), more);
    }
  }

  lemma AcquireWrites(db: Db, r: Id, h: Id, ttlMs: int)
    ensures var step := AcquireLease(db, r, h, ttlMs);
      && (step.result.Ok? <==>
            && (Live(db, r) ==> db.leases[r].holderId == h)
            && (r in db.leases || r in db.workspaces))
      && (step.result.Ok? ==>
            && r in step.db.leases && step.db.leases[r] == step.result.value
            && step.result.value.holderId == h && Honoured(step.db, Fence(r, h, step.result.value.version))
            && (Live(db, r) ==> step.result.value == db.leases[r] && step.db.leases == db.leases)
            && (!Live(db, r) ==>
                  step.result.value ==
                  Lease(h, if r in db.leases then db.leases[r].version + 1 else 1, db.clock + Term(ttlMs), false)))
      && (step.result.Err? ==> step.db == db)
  {
  }

  /** A release by the holder under the current version ends the token for good and leaves
      the lease to anybody; under another version it is refused; by anybody else it does
      nothing. */
  lemma ReleaseEnds(db: Db, r: Id, h: Id, v: nat, more: seq<Op>, next: Id, ttlMs: int)
    ensures var step := ReleaseLease(db, r, h, v);
      if r !in db.leases || db.leases[r].holderId != h then step == Step(Ok(()), db)
      else if db.leases[r].version != v then step == Step(Err(LeaseVersionConflict), db)
      else
        && step.result.Ok?
        && !Current(Exec(step.db, more), Fence(r, h, v))
        && AcquireLease(step.db, r, next, ttlMs).result.Ok?
  {
    ReleaseWrites(db, r, h, v);
    var step := ReleaseLease(db, r, h, v);
    RunEvolves(step.db, more);
    AcquireWrites(step.db, r, next, ttlMs);
    hide Exec, ReleaseLease, AcquireLease, LedgerEvolves, FramesEvolve, ApprovalsEvolve, RepairsEvolve, SubMap, Prefix;
  }

  lemma ReleaseWrites(db: Db, r: Id, h: Id, v: nat)
    ensures var step := ReleaseLease(db, r, h, v);
      if r !in db.leases || db.leases[r].holderId != h then step == Step(Ok(()), db)
      else if db.leases[r].version != v then step == Step(Err(LeaseVersionConflict), db)
      else
        && step.result.Ok? && r in step.db.leases
        && step.db.leases[r] == db.leases[r].(version := v + 1, released := true)
  {
  }

  /** A live lease is only ever changed by its holder, under its version. */
  lemma OnlyTheHolderMoves(db: Db, op: Op, r: Id)
    requires Live(db, r) && r in Apply(db, op).leases && Apply(db, op).leases[r] != db.leases[r]
    ensures op.Authority?
    ensures var lease := db.leases[r];
      || (op.authority.RenewOp? && op.authority.runId == r && op.authority.holderId == lease.holderId
          && op.authority.version == lease.version)
      || (op.authority.ReleaseOp? && op.authority.runId == r && op.authority.holderId == lease.holderId
          && op.authority.version == lease.version)
  {
    if !op.Authority? {
      OtherOpsKeepLeases(db, op);
      assert false;
    } else {
      AuthorityMovesOwn(db, op.authority, r);
    }
  }

  lemma AuthorityMovesOwn(db: Db, op: AuthorityOp, r: Id)
    requires Live(db, r) && r in ApplyAuthority(db, op).leases && ApplyAuthority(db, op).leases[r] != db.leases[r]
    ensures var lease := db.leases[r];
      || (op.RenewOp? && op.runId == r && op.holderId == lease.holderId && op.version == lease.version)
      || (op.ReleaseOp? && op.runId == r && op.holderId == lease.holderId && op.version == lease.version)
  {
    AuthorityOpsAreAtomic(db, op);
    hide ApplyAuthority, ExpiryFor, RequestError;
  }
}
