// End to end: the kernel, the callers that carry its commands to the outside, and an
// adapter that deduplicates on the idempotency key. Calls may be delivered late, more
// than once, or never; a crash is a caller that never delivers.

module ExactlyOnce {
  import opened Tables
  import opened CapsuleStore
  import opened EffectProtocol
  import opened Kernel
  import opened Evolution
  import opened Replay
  import opened Lineage
  import opened Acceptance
  import P = Provenance

  /** A callback command that casToInFlight has handed to its caller. */
  datatype Call = Call(effectId: Id, attemptNo: int, command: Command)

  /** One physical application. The adapter sees the key hash and the payload; the
      effect is recorded for the theorem. */
  datatype Application = Application(effectId: Id, keyHash: Digest, payload: Text)

  datatype Sys = Sys(db: Db, issued: seq<Call>, applied: seq<Application>)

  datatype SysStep = Kernel(op: Op) | Deliver(call: nat)

  /** The calls after an operation: an accepted intent issues its sealed command. */
  function Issued(db: Db, op: Op, issued: seq<Call>): seq<Call> {
    if op.Ledger? && op.ledger.CasOp? then
      match CasToInFlight(db, op.ledger.cas).result
      case Ok(out) => issued + [Call(out.effectId, out.attemptNo, out.command)]
      case Err(_) => issued
    else issued
  }

  predicate Seen(applied: seq<Application>, keyHash: Digest) {
    exists i :: 0 <= i < |applied| && applied[i].keyHash == keyHash
  }

  /** The adapter: the same key is applied at most once. */
  function Invoke(applied: seq<Application>, call: Call): seq<Application> {
    var h := OfKey(call.command.idempotencyKey);
    if Seen(applied, h) then applied else applied + [Application(call.effectId, h, call.command.payload)]
  }

  function Next(s: Sys, step: SysStep): Sys {
    match step
    case Kernel(op) => Sys(Apply(s.db, op), Issued(s.db, op, s.issued), s.applied)
    case Deliver(k) => if k < |s.issued| then s.(applied := Invoke(s.applied, s.issued[k])) else s
  }

  function Run(steps: seq<SysStep>): Sys
    decreases |steps|
  {
    if steps == [] then Sys(EmptyDb, [], []) else Next(Run(steps[..|steps| - 1]), steps[|steps| - 1])
  }

  function KernelOps(steps: seq<SysStep>): seq<Op>
    decreases |steps|
  {
    if steps == [] then []
    else
      var ops := KernelOps(steps[..|steps| - 1]);
      match steps[|steps| - 1]
      case Kernel(op) => ops + [op]
      case Deliver(_) => ops
  }

  lemma {:induction false} DbIsReachable(steps: seq<SysStep>)
    ensures Run(steps).db == Exec(EmptyDb, KernelOps(steps))
    decreases |steps|
  {
    hide Apply, Issued, Invoke;
    if steps != [] {
      DbIsReachable(steps[..|steps| - 1]);
      match steps[|steps| - 1]
      case Kernel(op) =>
        var ops := KernelOps(steps[..|steps| - 1]);
        assert (ops + [op])[..|ops|] == ops;
      case Deliver(_) =>
    }
  }

  /* ---------- the invariant ---------- */

  /** A call carries the key and the command that prepare sealed for its effect. */
  predicate Genuine(effects: map<Id, Effect>, c: Call) {
    && c.effectId in effects
    && effects[c.effectId].capsuleFingerprint == Some(OfCommand(c.command))
    && effects[c.effectId].keyHash == OfKey(c.command.idempotencyKey)
  }

  /** An application is of a call's effect, under that effect's key. */
  predicate Justified(effects: map<Id, Effect>, issued: seq<Call>, a: Application) {
    && a.effectId in effects && a.keyHash == effects[a.effectId].keyHash
    && exists k :: 0 <= k < |issued| && issued[k].effectId == a.effectId && issued[k].command.payload == a.payload
  }

  predicate AtMostOnce(applied: seq<Application>) {
    forall i, j :: 0 <= i < j < |applied| ==> applied[i].keyHash != applied[j].keyHash
  }

  predicate Sound(effects: map<Id, Effect>, issued: seq<Call>, applied: seq<Application>) {
    && (forall k :: 0 <= k < |issued| ==> Genuine(effects, issued[k]))
    && (forall i :: 0 <= i < |applied| ==> Justified(effects, issued, applied[i]))
    && AtMostOnce(applied)
  }

  lemma EvolutionKeepsSound(a: map<Id, Effect>, b: map<Id, Effect>, issued: seq<Call>, more: seq<Call>,
    applied: seq<Application>)
    requires Sound(a, issued, applied) && EffectsEvolve(a, b)
    requires more == issued || (more != [] && more == issued + [more[|more| - 1]] && Genuine(b, more[|more| - 1]))
    ensures Sound(b, more, applied)
  {
    forall i | 0 <= i < |applied| ensures Justified(b, more, applied[i]) {
      assert Justified(a, issued, applied[i]);
      var k :| 0 <= k < |issued| && issued[k].effectId == applied[i].effectId
        && issued[k].command.payload == applied[i].payload;
      assert more[k] == issued[k];
    }
  }

  lemma InvokeKeepsSound(effects: map<Id, Effect>, issued: seq<Call>, applied: seq<Application>, k: nat)
    requires Sound(effects, issued, applied) && k < |issued|
    ensures Sound(effects, issued, Invoke(applied, issued[k]))
  {
    assert Genuine(effects, issued[k]);
  }

  lemma IssuedIsGenuine(ops: seq<Op>, op: Op, issued: seq<Call>)
    ensures var db := Exec(EmptyDb, ops);
      var more := Issued(db, op, issued);
      more == issued || (more != [] && more == issued + [more[|more| - 1]]
                         && Genuine(db.effects, more[|more| - 1]))
  {
    var db := Exec(EmptyDb, ops);
    if op.Ledger? && op.ledger.CasOp? && CasToInFlight(db, op.ledger.cas).result.Ok? {
      var i := op.ledger.cas;
      IntentAcceptedIff(ops, i);
      CapsulesAreOneToK(ops, i.effectId);
      hide Exec, CasToInFlight, IntentConditions;
    }
  }

  lemma {:induction false} RunIsSound(steps: seq<SysStep>)
    ensures Sound(Run(steps).db.effects, Run(steps).issued, Run(steps).applied)
    decreases |steps|
  {
    hide Apply, Issued, Invoke;
    if steps != [] {
      var before := Run(steps[..|steps| - 1]);
      RunIsSound(steps[..|steps| - 1]);
      hide Sound;
      match steps[|steps| - 1]
      case Kernel(op) =>
        DbIsReachable(steps[..|steps| - 1]);
        var ops := KernelOps(steps[..|steps| - 1]);
        IssuedIsGenuine(ops, op, before.issued);
        StepEvolves(before.db, op);
        assert EffectsEvolve(before.db.effects, Apply(before.db, op).effects);
        hide Evolves;
        EvolutionKeepsSound(before.db.effects, Apply(before.db, op).effects, before.issued,
                            Issued(before.db, op, before.issued), before.applied);
      case Deliver(k) =>
        if k < |before.issued| {
          InvokeKeepsSound(before.db.effects, before.issued, before.applied, k);
        }
    }
  }

  /* ---------- the theorem ---------- */

  /** How often an effect has been physically applied. */
  function Applications(applied: seq<Application>, e: Id): set<int> {
    set i | 0 <= i < |applied| && applied[i].effectId == e
  }

  /** Exactly once: whatever the interleaving of preparations, intents, deliveries,
      lost deliveries, unknown outcomes and retries, an effect is physically applied at
      most once; every issued call carries the command sealed at prepare; and no other
      effect can use up its key. */
  lemma AppliedAtMostOnce(steps: seq<SysStep>, e: Id)
    ensures var s := Run(steps);
      && (forall i, j :: i in Applications(s.applied, e) && j in Applications(s.applied, e) ==> i == j)
      && (forall k :: 0 <= k < |s.issued| ==> Genuine(s.db.effects, s.issued[k]))
      && (forall i :: 0 <= i < |s.applied| ==> Justified(s.db.effects, s.issued, s.applied[i]))
      && (forall i :: 0 <= i < |s.applied| && e in s.db.effects && s.applied[i].keyHash == s.db.effects[e].keyHash ==>
            s.applied[i].effectId == e)
  {
    var s := Run(steps);
    RunIsSound(steps);
    DbIsReachable(steps);
    LedgerIsReplay(KernelOps(steps));
    hide Run, Exec, KernelOps;
    assert KeysIndexed(s.db.effects, s.db.keyIndex);
    forall i | 0 <= i < |s.applied| ensures Justified(s.db.effects, s.issued, s.applied[i]) {
    }
  }

  lemma SeenIsApplied(effects: map<Id, Effect>, keyIndex: map<Digest, Id>, issued: seq<Call>,
                      applied: seq<Application>, call: Call)
    requires Sound(effects, issued, applied) && KeysIndexed(effects, keyIndex)
    requires call in issued && Seen(applied, OfKey(call.command.idempotencyKey))
    ensures exists i :: Applications(applied, call.effectId) == {i} && applied[i].payload == call.command.payload
  {
    assert Genuine(effects, call);
    var i :| 0 <= i < |applied| && applied[i].keyHash == OfKey(call.command.idempotencyKey);
    assert Justified(effects, issued, applied[i]);
    var j :| 0 <= j < |issued| && issued[j].effectId == applied[i].effectId
      && issued[j].command.payload == applied[i].payload;
    assert Genuine(effects, issued[j]);
    assert applied[i].effectId == call.effectId;
    forall m | m in Applications(applied, call.effectId) ensures m == i {
      assert Justified(effects, issued, applied[m]);
    }
    assert i in Applications(applied, call.effectId);
  }

  lemma InvokedIsSeen(applied: seq<Application>, call: Call)
    ensures Seen(Invoke(applied, call), OfKey(call.command.idempotencyKey))
  {
    var after := Invoke(applied, call);
    if !Seen(applied, OfKey(call.command.idempotencyKey)) {
      assert after[|applied|].keyHash == OfKey(call.command.idempotencyKey);
    }
  }

  /** A delivery always takes: afterwards its effect has been applied exactly once,
      with the payload of the delivered command. */
  lemma DeliveredMeansAppliedOnce(steps: seq<SysStep>, k: nat)
    requires k < |Run(steps).issued|
    ensures var s, call := Run(steps + [Deliver(k)]), Run(steps).issued[k];
      exists i :: Applications(s.applied, call.effectId) == {i} && s.applied[i].payload == call.command.payload
  {
    var s, call := Run(steps), Run(steps).issued[k];
    assert (steps + [Deliver(k)])[..|steps|] == steps;
    assert Run(steps + [Deliver(k)]) == s.(applied := Invoke(s.applied, call));
    hide Run, Exec;
    RunIsSound(steps);
    InvokeKeepsSound(s.db.effects, s.issued, s.applied, k);
    InvokedIsSeen(s.applied, call);
    DbIsReachable(steps);
    LedgerIsReplay(KernelOps(steps));
    hide Sound, KeysIndexed, Invoke, StateIsReplay;
    SeenIsApplied(s.db.effects, s.db.keyIndex, s.issued, Invoke(s.applied, call), call);
  }

  /* ---------- what is applied ---------- */

  /** The call carries what operation n, the prepare of its effect, was given. */
  predicate CallPrepared(ops: seq<Op>, n: nat, c: Call) {
    P.PreparedAt(ops, n, c.effectId) && P.Carries(c.command, ops[n].ledger.prepare)
  }

  predicate ApplicationPrepared(ops: seq<Op>, n: nat, a: Application) {
    && P.PreparedAt(ops, n, a.effectId)
    && a.payload == ops[n].ledger.prepare.payload && a.keyHash == OfKey(ops[n].ledger.prepare.idempotencyKey)
  }

  ghost predicate CallHasPrepare(ops: seq<Op>, c: Call) { exists n: nat :: CallPrepared(ops, n, c) }

  ghost predicate ApplicationHasPrepare(ops: seq<Op>, a: Application) { exists n: nat :: ApplicationPrepared(ops, n, a) }

  lemma GenuineIsPrepared(ops: seq<Op>, c: Call) returns (n: nat)
    requires Genuine(Exec(EmptyDb, ops).effects, c)
    ensures CallPrepared(ops, n, c)
    ensures P.PreparedRow(Exec(EmptyDb, ops).effects[c.effectId], ops[n].ledger.prepare)
  {
    hide Exec;
    var row := Exec(EmptyDb, ops).effects[c.effectId];
    n := P.EveryEffectWasCreated(ops, c.effectId);
    P.AtCreation(ops, n, c.effectId);
    P.CreatorPrepared(ops[n], c.effectId, row);
    P.IsPreparedAt(ops, n, c.effectId);
  }

  /** Every call and every application carries, field by field, what the one prepare of its
      effect was given. */
  lemma CallsCarryTheirPrepare(steps: seq<SysStep>)
    ensures var s, ops := Run(steps), KernelOps(steps);
      && (forall k :: 0 <= k < |s.issued| ==> CallHasPrepare(ops, s.issued[k]))
      && (forall i :: 0 <= i < |s.applied| ==> ApplicationHasPrepare(ops, s.applied[i]))
  {
    var s, ops := Run(steps), KernelOps(steps);
    RunIsSound(steps);
    DbIsReachable(steps);
    hide Run, Exec, KernelOps, Genuine, Justified, CallPrepared, ApplicationPrepared;
    forall k | 0 <= k < |s.issued| ensures CallHasPrepare(ops, s.issued[k]) {
      var n := GenuineIsPrepared(ops, s.issued[k]);
    }
    forall i | 0 <= i < |s.applied| ensures ApplicationHasPrepare(ops, s.applied[i]) {
      assert Justified(s.db.effects, s.issued, s.applied[i]);
      var n := JustifiedIsPrepared(ops, s.issued, s.applied[i]);
    }
  }

  lemma JustifiedIsPrepared(ops: seq<Op>, issued: seq<Call>, a: Application) returns (n: nat)
    requires Justified(Exec(EmptyDb, ops).effects, issued, a)
    requires forall k :: 0 <= k < |issued| ==> Genuine(Exec(EmptyDb, ops).effects, issued[k])
    ensures ApplicationPrepared(ops, n, a)
  {
    hide Exec, Genuine;
    var k :| 0 <= k < |issued| && issued[k].effectId == a.effectId && issued[k].command.payload == a.payload;
    n := GenuineIsPrepared(ops, issued[k]);
    hide P.PreparedAt;
    PreparedMeans(ops, n, a.effectId);
  }

  lemma PreparedMeans(ops: seq<Op>, n: nat, e: Id)
    requires P.PreparedAt(ops, n, e)
    ensures n < |ops| && ops[n].Ledger? && ops[n].ledger.PrepareOp?
  {
    P.PreparedMeans(ops, n, e);
  }
}
