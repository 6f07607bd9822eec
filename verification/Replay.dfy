// The audit log determines the ledger: in every reachable state an effect's state
// and revision are the fold of its own state-changing events, every one of those
// events is an edge of the transition table, and no key belongs to two effects.

module Replay {
  import opened Tables
  import opened CapsuleStore
  import opened EffectProtocol
  import opened DurableRuntime
  import opened IngressReview
  import R = RepairPlans
  import opened Kernel
  import opened Evolution

  /** The effect an event reports on, if its kind moves an effect's state. */
  function Moves(k: EventKind): Option<Id> {
    match k
    case CallbackIntent(e, _, _) => Some(e)
    case EffectReceived(e, _) => Some(e)
    case EffectUnknownState(e, _) => Some(e)
    case EffectCancelled(e) => Some(e)
    case EffectCommitted(e, _) => Some(e)
    case IngressFinalized(e, _) => Some(e)
    case EffectTransitioned(e, _, _) => Some(e)
    case _ => None
  }

  function Target(k: EventKind): EffectState
    requires Moves(k).Some?
  {
    match k
    case CallbackIntent(_, _, _) => InFlight
    case EffectReceived(_, _) => Received
    case EffectUnknownState(_, _) => Unknown
    case EffectCancelled(_) => CancelledBeforeSend
    case EffectCommitted(_, _) => Committed
    case IngressFinalized(_, outcome) => StateAfter(outcome)
    case EffectTransitioned(_, _, to) => to
  }

  datatype Stage = Stage(state: EffectState, revision: nat)

  /** Replaying the log from (planned, 1). */
  function Replayed(e: Id, events: seq<Event>): Stage {
    if events == [] then Stage(Planned, 1)
    else
      var prior, k := Replayed(e, events[..|events| - 1]), events[|events| - 1].kind;
      if Moves(k) == Some(e) then Stage(Target(k), prior.revision + 1) else prior
  }

  /** Every event of the effect is an edge of EFFECT_TRANSITIONS. */
  predicate Lawful(e: Id, events: seq<Event>) {
    events == []
    || (var init, k := events[..|events| - 1], events[|events| - 1].kind;
        && Lawful(e, init)
        && (Moves(k) == Some(e) ==> Target(k) in EffectTransitions(Replayed(e, init).state)))
  }

  ghost predicate OneMore(e: Id, events: seq<Event>, ev: Event) {
    if Moves(ev.kind) == Some(e) then
      && Replayed(e, events + [ev]) == Stage(Target(ev.kind), Replayed(e, events).revision + 1)
      && (Lawful(e, events + [ev]) <==>
            Lawful(e, events) && Target(ev.kind) in EffectTransitions(Replayed(e, events).state))
    else
      Replayed(e, events + [ev]) == Replayed(e, events) && Lawful(e, events + [ev]) == Lawful(e, events)
  }

  lemma ReplayOneMore(e: Id, events: seq<Event>, ev: Event)
    ensures OneMore(e, events, ev)
  {
    assert (events + [ev])[..|events|] == events;
  }

  /* ---------- what one step does to the ledger ---------- */

  datatype Change =
    | Same
    | Logged(event: Event)
    | Born(id: Id, event: Event)
    | Moved(id: Id, event: Event)

  predicate NewRow(db: Db, row: Effect) {
    && row.state == Planned && row.revision == 1 && row.receiptId == None
    && row.ownerFrameId in db.frames && db.frames[row.ownerFrameId].runId == row.runId
    && row.keyHash !in db.keyIndex
  }

  /** The row after its effect has moved by one event. */
  predicate MovedRow(x: Effect, y: Effect, ev: Event) {
    && Moves(ev.kind).Some?
    && y.state == Target(ev.kind)
    && y.state in EffectTransitions(x.state)
    && (x.state != AwaitingCallbackVerification ==> y.state != AwaitingCallbackVerification)
    && y.revision == x.revision + 1
    && y.runId == x.runId == ev.runId && y.ownerFrameId == x.ownerFrameId && y.keyHash == x.keyHash
  }

  ghost predicate Describes(a: Db, b: Db, c: Change) {
    match c
    case Same => b.effects == a.effects && b.keyIndex == a.keyIndex && b.events == a.events
    case Logged(ev) =>
      b.effects == a.effects && b.keyIndex == a.keyIndex && b.events == a.events + [ev] && Moves(ev.kind) == None
    case Born(e, ev) =>
      && (ev.kind.EffectPlanned? || ev.kind.EffectPrepared?)
      && e !in a.effects && e in b.effects && b.effects == a.effects[e := b.effects[e]]
      && NewRow(a, b.effects[e]) && b.keyIndex == a.keyIndex[b.effects[e].keyHash := e]
      && b.events == a.events + [ev] && ev.runId == b.effects[e].runId
    case Moved(e, ev) =>
      && e in a.effects && e in b.effects && b.effects == a.effects[e := b.effects[e]]
      && MovedRow(a.effects[e], b.effects[e], ev) && Moves(ev.kind) == Some(e)
      && b.keyIndex == a.keyIndex && b.events == a.events + [ev]
  }

  lemma PrepareChange(db: Db, i: PrepareInput) returns (c: Change)
    requires PrepareError(db, i).None?
    ensures Describes(db, PreparePost(db, i), c) && !c.Moved?
    ensures c.Logged? ==> c.event.kind.EffectPrepared?
  {
    var ev := Event(i.runId, EffectPrepared(i.ownerFrameId, OfKey(i.idempotencyKey)));
    c := if Existing(db, i).Some? then Logged(ev) else Born(i.newEffectId, ev);
    hide NewCallbackCapsule, BindApproval, RunHook, UnboundApproval, AppendEdge;
  }

  lemma CasChange(db: Db, i: CasInput) returns (c: Change)
    requires CasGuard(db, i)
    ensures Describes(db, CasPost(db, i), c)
    ensures c.Moved? && c.id == i.effectId && c.event.kind.CallbackIntent?
  {
    hide CasCommand, CasLeaseError, ApprovalError, ConsumeOne, CasCapsules, AppendEdge;
    if i.approvalId.Some? {
      ApprovalAdmits(db, i);
    }
    c := Moved(i.effectId, Event(db.effects[i.effectId].runId, CallbackIntent(i.effectId, i.attemptNo, i.approvalId)));
  }

  lemma ReceiptChange(db: Db, i: ReceiptInput) returns (c: Change)
    requires ReceiptError(db, i).None?
    ensures Describes(db, ReceiptPost(db, i), c)
    ensures c.Moved? && c.id == i.effectId && c.event.kind.EffectReceived?
  {
    hide ReceiptExists, NewReceipt, NewResultCapsule, AppendEdge;
    c := Moved(i.effectId, Event(db.effects[i.effectId].runId, EffectReceived(i.effectId, i.attemptNo)));
  }

  lemma CommitChange(db: Db, i: CommitInput) returns (c: Change)
    requires LateCommitGuard(db, i)
    ensures Describes(db, CommitPost(db, i), c)
    ensures !c.Logged?
  {
    hide OpenAuthoritativeResult, AppendEdge;
    c := Moved(i.effectId, Event(db.effects[i.effectId].runId, EffectCommitted(i.effectId, i.receiptId)));
  }

  lemma FinalizeChange(db: Db, i: FinalizeInput, now: nat) returns (c: Change)
    requires FinalizeError(db, i, now).None?
    ensures i.effectId in db.effects && db.effects[i.effectId].receiptId.Some?
    ensures Describes(db, FinalizePost(db, i), c)
    ensures !c.Logged?
  {
    FinalizeAdmits(db, i, now);
    hide FinalizeError, AppendEdge;
    c := Moved(i.effectId, Event(db.effects[i.effectId].runId, IngressFinalized(i.effectId, i.outcome)));
  }

  lemma UnknownChange(db: Db, i: UnknownInput) returns (c: Change)
    requires UnknownError(db, i).None?
    ensures Describes(db, UnknownPost(db, i), c)
    ensures c.Moved? && c.event.kind.EffectUnknownState?
  {
    hide AppendEdge;
    c := Moved(i.effectId, Event(db.effects[i.effectId].runId, EffectUnknownState(i.effectId, i.attemptNo)));
  }

  lemma CancelChange(db: Db, e: Id, rev: nat) returns (c: Change)
    requires CancelError(db, e, rev).None?
    ensures Describes(db, CancelPost(db, e), c)
    ensures c.Moved? && c.event.kind.EffectCancelled?
  {
    hide AppendEdge;
    c := Moved(e, Event(db.effects[e].runId, EffectCancelled(e)));
  }

  lemma PlanChange(db: Db, i: PlanInput) returns (c: Change)
    requires PlanError(db, i).None?
    ensures Describes(db, PlanPost(db, i), c)
    ensures c.Born?
  {
    hide AppendEdge;
    c := Born(i.newEffectId, Event(i.runId, EffectPlanned(i.newEffectId)));
  }

  lemma TransitionChange(db: Db, e: Id, rev: nat, s: EffectState, n: EffectState) returns (c: Change)
    requires TransitionError(db, e, rev, s, n).None?
    ensures Describes(db, TransitionPost(db, e, n), c)
    ensures c.Moved?
  {
    c := Moved(e, Event(db.effects[e].runId, EffectTransitioned(e, s, n)));
  }

  lemma LedgerChange(db: Db, op: LedgerOp) returns (c: Change)
    ensures Describes(db, ApplyLedger(db, op), c)
    ensures c.Logged? ==> c.event.kind.EffectPrepared?
  {
    LedgerOpsAreAtomic(db, op);
    hide ApplyLedger;
    if !LedgerOpEnabled(db, op) {
      c := Same;
    } else {
      hide Describes, PrepareError, PreparePost, CasGuard, CasPost, ReceiptError, ReceiptPost, UnknownError, UnknownPost;
      hide CancelError, CancelPost, CommitGuard, LateCommitGuard, CommitPost, FinalizeError, FinalizePost, PlanError, PlanPost;
      hide TransitionError, TransitionPost, OnlyFailuresLogged;
      match op
      case PrepareOp(i) => c := PrepareChange(db, i);
      case CasOp(i) => c := CasChange(db, i);
      case ReceiptOp(i) => c := ReceiptChange(db, i);
      case CommitOp(i) => CommitGuardSplits(db, i); c := CommitChange(db, i);
      case LateCommitOp(i) => c := CommitChange(db, i);
      case FinalizeOp(i, t) => c := FinalizeChange(db, i, t);
      case PlanOp(i) => c := PlanChange(db, i);
      case TransitionOp(e, rev, x, n) => c := TransitionChange(db, e, rev, x, n);
      case UnknownOp(i) => c := UnknownChange(db, i);
      case CancelOp(e, rev) => c := CancelChange(db, e, rev);
    }
  }

  /** Outside the ledger nothing that belongs to an effect is written. */
  ghost predicate LedgerUntouched(a: Db, b: Db) {
    && b.effects == a.effects && b.keyIndex == a.keyIndex && b.capsules == a.capsules
    && b.receipts == a.receipts && b.findings == a.findings && b.decisions == a.decisions
    && b.bindings == a.bindings && b.consumptions == a.consumptions && b.tools == a.tools
    && (b.events == a.events || exists ev: Event :: Moves(ev.kind) == None && b.events == a.events + [ev])
  }

  lemma EnvKeepsLedger(db: Db, op: EnvOp)
    ensures LedgerUntouched(db, ApplyEnv(db, op))
  {
    hide Insert;
  }

  lemma FramesKeepLedger(db: Db, op: FrameOp)
    ensures LedgerUntouched(db, ApplyFrame(db, op))
  {
    FrameOpsAreAtomic(db, op);
    hide ApplyFrame, RootError;
  }

  lemma AuthorityKeepsLedger(db: Db, op: AuthorityOp)
    ensures LedgerUntouched(db, ApplyAuthority(db, op))
  {
    AuthorityOpsAreAtomic(db, op);
    hide ApplyAuthority, RequestError, AcquireError, AcquiredLease, RenewedLease;
  }

  lemma RepairsKeepLedger(db: Db, op: RepairOp)
    ensures LedgerUntouched(db, ApplyRepair(db, op))
  {
    RepairOpsAreAtomic(db, op);
    hide ApplyRepair, R.CreateError, R.RepairError, R.CrossFrameFor, AppendEdge;
  }

  lemma IndexKeepsLedger(db: Db, op: IndexOp)
    ensures LedgerUntouched(db, ApplyIndex(db, op))
  {
    IndexOpsTouchEdges(db, op);
    hide ApplyIndex;
  }

  lemma OthersKeepLedger(db: Db, op: Op)
    requires !op.Ledger?
    ensures LedgerUntouched(db, Apply(db, op))
  {
    hide LedgerUntouched, ApplyEnv, ApplyFrame, ApplyAuthority, ApplyLedger, ApplyRepair, ApplyIndex;
    match op
    case Env(o) => EnvKeepsLedger(db, o);
    case Frames(o) => FramesKeepLedger(db, o);
    case Authority(o) => AuthorityKeepsLedger(db, o);
    case Repairs(o) => RepairsKeepLedger(db, o);
    case Index(o) => IndexKeepsLedger(db, o);
  }

  lemma StepChange(db: Db, op: Op) returns (c: Change)
    ensures Describes(db, Apply(db, op), c)
  {
    hide *;
    if op.Ledger? {
      c := LedgerChange(db, op.ledger);
      LedgerApplied(db, op);
    } else {
      OthersKeepLedger(db, op);
      c := UntouchedChange(db, Apply(db, op));
    }
  }

  lemma LedgerApplied(db: Db, op: Op)
    requires op.Ledger?
    ensures Apply(db, op) == ApplyLedger(db, op.ledger)
  {
    hide ApplyLedger;
  }

  lemma UntouchedChange(a: Db, b: Db) returns (c: Change)
    requires LedgerUntouched(a, b)
    ensures Describes(a, b, c)
  {
    if b.events == a.events {
      c := Same;
    } else {
      var ev: Event :| Moves(ev.kind) == None && b.events == a.events + [ev];
      c := Logged(ev);
    }
  }

  /* ---------- the invariant and the theorems ---------- */

  /** The ledger row of e is what the log says, and the log is lawful. */
  ghost predicate RowReplays(e: Id, row: Effect, events: seq<Event>) {
    && Replayed(e, events) == Stage(row.state, row.revision)
    && Lawful(e, events)
    && row.state != AwaitingCallbackVerification
  }

  ghost predicate StateIsReplay(effects: map<Id, Effect>, events: seq<Event>) {
    && (forall e :: e in effects ==> RowReplays(e, effects[e], events))
    && (forall e :: e !in effects ==> Replayed(e, events) == Stage(Planned, 1) && Lawful(e, events))
    && (forall i :: 0 <= i < |events| && Moves(events[i].kind).Some? ==>
          var e := Moves(events[i].kind).value; e in effects && effects[e].runId == events[i].runId)
  }

  /** uniq_effects_idem_hash, both ways: a key hash names exactly one effect. */
  ghost predicate KeysIndexed(effects: map<Id, Effect>, keyIndex: map<Digest, Id>) {
    && (forall e :: e in effects ==> effects[e].keyHash in keyIndex && keyIndex[effects[e].keyHash] == e)
    && (forall h :: h in keyIndex ==> keyIndex[h] in effects && effects[keyIndex[h]].keyHash == h)
  }

  lemma StepKeepsReplay(a: Db, b: Db, c: Change)
    requires StateIsReplay(a.effects, a.events) && Describes(a, b, c)
    ensures StateIsReplay(b.effects, b.events)
  {
    if !c.Same? {
      forall e: Id ensures OneMore(e, a.events, c.event) {
        ReplayOneMore(e, a.events, c.event);
      }
      hide Replayed, Lawful;
    }
  }

  lemma StepKeepsKeys(a: Db, b: Db, c: Change)
    requires KeysIndexed(a.effects, a.keyIndex) && Describes(a, b, c)
    ensures KeysIndexed(b.effects, b.keyIndex)
  {
  }

  /** In every reachable state the ledger is the replay of the audit log, every
      logged step is an edge of EFFECT_TRANSITIONS, `awaiting_callback_verification`
      is never entered, and no two effects share an idempotency key. */
  lemma {:induction false} LedgerIsReplay(ops: seq<Op>)
    ensures StateIsReplay(Exec(EmptyDb, ops).effects, Exec(EmptyDb, ops).events)
    ensures KeysIndexed(Exec(EmptyDb, ops).effects, Exec(EmptyDb, ops).keyIndex)
    decreases |ops|
  {
    hide Apply, Describes;
    if ops != [] {
      var before := Exec(EmptyDb, ops[..|ops| - 1]);
      LedgerIsReplay(ops[..|ops| - 1]);
      hide StateIsReplay, KeysIndexed;
      var c := StepChange(before, ops[|ops| - 1]);
      StepKeepsReplay(before, Exec(EmptyDb, ops), c);
      StepKeepsKeys(before, Exec(EmptyDb, ops), c);
    }
  }

  /** A chain of n edges of EFFECT_TRANSITIONS from one state to another. */
  ghost predicate Path(from: EffectState, n: nat, to: EffectState) {
    if n == 0 then from == to
    else exists mid :: Path(from, n - 1, mid) && to in EffectTransitions(mid)
  }

  lemma {:induction false} StepsFollowTable(db: Db, ops: seq<Op>, e: Id)
    requires e in db.effects
    ensures e in Exec(db, ops).effects
    ensures var x, y := db.effects[e], Exec(db, ops).effects[e];
      x.revision <= y.revision && Path(x.state, y.revision - x.revision, y.state)
    decreases |ops|
  {
    hide Apply, EffectTransitions;
    if ops != [] {
      var before, after := Exec(db, ops[..|ops| - 1]), Exec(db, ops);
      StepsFollowTable(db, ops[..|ops| - 1], e);
      var c := StepChange(before, ops[|ops| - 1]);
      var x, y, z := db.effects[e], before.effects[e], after.effects[e];
      if c.Moved? && c.id == e {
        assert Path(x.state, y.revision - x.revision, y.state) && z.state in EffectTransitions(y.state);
      } else {
        assert z == y;
      }
    }
  }

  /** Along any run an effect walks the transition table, one edge for each
      revision: two moments with one revision show one row, and a terminal state
      is never left. */
  lemma RevisionFixesRow(db: Db, ops: seq<Op>, e: Id)
    requires e in db.effects
    ensures e in Exec(db, ops).effects
    ensures var x, y := db.effects[e], Exec(db, ops).effects[e];
      && x.revision <= y.revision && Path(x.state, y.revision - x.revision, y.state)
      && (x.revision == y.revision ==> x == y)
      && (Terminal(x.state) ==> x == y)
  {
    hide Apply, Path;
    StepsFollowTable(db, ops, e);
    RunEvolves(db, ops);
  }
}
