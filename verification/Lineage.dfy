// Retries: which callback capsules exist, what they open to, and in which order an
// effect's callback intents happen.

module Lineage {
  import opened Tables
  import opened CapsuleStore
  import opened EffectProtocol
  import opened DurableRuntime
  import opened IngressReview
  import opened Kernel
  import opened Evolution
  import opened Replay

  datatype Intent = Intent(attemptNo: int, approval: Option<Id>)

  /** The callback intents of an effect, in the order of the log. */
  function Intents(e: Id, events: seq<Event>): seq<Intent> {
    if events == [] then []
    else
      var prior := Intents(e, events[..|events| - 1]);
      match events[|events| - 1].kind
      case CallbackIntent(e', n, a) => if e' == e then prior + [Intent(n, a)] else prior
      case _ => prior
  }

  lemma IntentsOneMore(e: Id, events: seq<Event>, ev: Event)
    ensures Intents(e, events + [ev]) ==
      if ev.kind.CallbackIntent? && ev.kind.effectId == e
      then Intents(e, events) + [Intent(ev.kind.attemptNo, ev.kind.approval)]
      else Intents(e, events)
  {
    assert (events + [ev])[..|events|] == events;
  }

  /** The highest attempt so far; prepare itself seals attempt 1. */
  function Top(intents: seq<Intent>): (k: int)
    ensures k >= 1
    ensures forall i :: 0 <= i < |intents| ==> intents[i].attemptNo <= k
  {
    if intents == [] then 1
    else
      var k, n := Top(intents[..|intents| - 1]), intents[|intents| - 1].attemptNo;
      if n > k then n else k
  }

  /** The callback capsules of a prepared effect: exactly attempts 1..k, every one a
      copy of the row sealed at prepare, opening to the command in the ledger. */
  ghost predicate InLine(e: Id, row: Effect, capsules: map<CapsuleKey, Capsule>, k: int) {
    && row.capsuleFingerprint.Some?
    && (forall n :: CallbackKey(e, n) in capsules <==> 1 <= n <= k)
    && (forall n :: 1 <= n <= k ==> capsules[CallbackKey(e, n)] == capsules[CallbackKey(e, 1)])
    && (1 <= k ==>
          var c := capsules[CallbackKey(e, 1)];
          && c.body.SealedCommand?
          && OfCommand(c.body.command) == row.capsuleFingerprint.value == c.fingerprint == c.hash
          && OfKey(c.body.command.idempotencyKey) == row.keyHash)
  }

  ghost predicate NoCallbacks(e: Id, capsules: map<CapsuleKey, Capsule>) {
    forall n :: CallbackKey(e, n) !in capsules
  }

  /** The states an effect can only be in after a callback intent. */
  predicate Called(s: EffectState) { s != Planned && s != Failed && s != CancelledBeforeSend }

  /** An effect whose first intent was approved: attempts 1, 2, .., k in order, every
      one approved. */
  ghost predicate InOrder(row: Effect, intents: seq<Intent>) {
    intents != [] && intents[0].approval.Some? ==>
      && row.approvalId.Some?
      && forall i :: 0 <= i < |intents| ==> intents[i].attemptNo == i + 1 && intents[i].approval.Some?
  }

  /** No attempt number is skipped. */
  ghost predicate Dense(intents: seq<Intent>) {
    intents != [] ==> forall n :: 1 <= n <= Top(intents) ==> Attempted(intents, n)
  }

  ghost predicate Attempted(intents: seq<Intent>, n: int) {
    exists i :: 0 <= i < |intents| && intents[i].attemptNo == n
  }

  ghost predicate Bound(e: Id, intents: seq<Intent>, bindings: map<AttemptKey, Binding>) {
    && (forall i :: 0 <= i < |intents| && intents[i].approval.Some? ==>
          && AttemptKey(e, intents[i].attemptNo) in bindings
          && bindings[AttemptKey(e, intents[i].attemptNo)].approvalId == intents[i].approval.value)
    && (forall n :: AttemptKey(e, n) in bindings ==>
          exists i :: 0 <= i < |intents| && intents[i].attemptNo == n && intents[i].approval.Some?)
  }

  ghost predicate RowInLine(
    e: Id, row: Effect, capsules: map<CapsuleKey, Capsule>, bindings: map<AttemptKey, Binding>, intents: seq<Intent>)
  {
    && (if row.capsuleFingerprint.Some? then InLine(e, row, capsules, Top(intents))
        else NoCallbacks(e, capsules) && intents == [])
    && (row.state == Planned ==> intents == [])
    && (Called(row.state) ==> intents != [])
    && Dense(intents)
    && InOrder(row, intents)
    && Bound(e, intents, bindings)
  }

  ghost predicate AllInLine(
    effects: map<Id, Effect>, capsules: map<CapsuleKey, Capsule>, bindings: map<AttemptKey, Binding>, events: seq<Event>)
  {
    && (forall e :: e in effects ==> RowInLine(e, effects[e], capsules, bindings, Intents(e, events)))
    && (forall e :: e !in effects ==>
          NoCallbacks(e, capsules) && Intents(e, events) == [] && Bound(e, [], bindings))
  }

  /* ---------- steps without a callback intent ---------- */

  predicate SameStanding(x: Effect, y: Effect) {
    && y.capsuleFingerprint == x.capsuleFingerprint && y.keyHash == x.keyHash && y.approvalId == x.approvalId
    && (y.state == Planned ==> x.state == Planned) && (Called(y.state) ==> Called(x.state))
  }

  predicate FreshlyPlanned(y: Effect) { y.capsuleFingerprint == None && y.state == Planned }

  /** Both stores hold the same callback capsules for effect e. */
  ghost predicate SameCallbacks(e: Id, a: map<CapsuleKey, Capsule>, b: map<CapsuleKey, Capsule>) {
    forall n ::
      (CallbackKey(e, n) in a <==> CallbackKey(e, n) in b)
      && (CallbackKey(e, n) in a && CallbackKey(e, n) in b ==> a[CallbackKey(e, n)] == b[CallbackKey(e, n)])
  }

  ghost predicate NoIntent(a: Db, b: Db) {
    && (forall e :: SameCallbacks(e, a.capsules, b.capsules))
    && b.bindings == a.bindings
    && (b.events == a.events || exists ev: Event :: b.events == a.events + [ev] && !ev.kind.CallbackIntent?)
    && (forall e :: e in a.effects ==> e in b.effects && SameStanding(a.effects[e], b.effects[e]))
    && (forall e :: e in b.effects && e !in a.effects ==> FreshlyPlanned(b.effects[e]))
  }

  /** Both tables hold the same bindings for effect e. */
  ghost predicate SameBindings(e: Id, a: map<AttemptKey, Binding>, b: map<AttemptKey, Binding>) {
    forall n ::
      (AttemptKey(e, n) in a <==> AttemptKey(e, n) in b)
      && (AttemptKey(e, n) in a && AttemptKey(e, n) in b ==> a[AttemptKey(e, n)] == b[AttemptKey(e, n)])
  }

  lemma RowStaysInLine(
    e: Id, x: Effect, y: Effect, a: map<CapsuleKey, Capsule>, b: map<CapsuleKey, Capsule>,
    ba: map<AttemptKey, Binding>, bb: map<AttemptKey, Binding>, intents: seq<Intent>)
    requires RowInLine(e, x, a, ba, intents)
    requires SameStanding(x, y) && SameCallbacks(e, a, b) && SameBindings(e, ba, bb)
    ensures RowInLine(e, y, b, bb, intents)
  {
    assert Bound(e, intents, bb);
    hide Bound;
  }

  lemma IntentsUnchanged(e: Id, a: Db, b: Db)
    requires NoIntent(a, b)
    ensures Intents(e, b.events) == Intents(e, a.events)
  {
    if b.events != a.events {
      var ev: Event :| b.events == a.events + [ev] && !ev.kind.CallbackIntent?;
      IntentsOneMore(e, a.events, ev);
    }
  }

  lemma NoIntentKeepsLine(a: Db, b: Db)
    requires AllInLine(a.effects, a.capsules, a.bindings, a.events) && NoIntent(a, b)
    ensures AllInLine(b.effects, b.capsules, b.bindings, b.events)
  {
    forall e | e in b.effects ensures RowInLine(e, b.effects[e], b.capsules, b.bindings, Intents(e, b.events)) {
      IntentsUnchanged(e, a, b);
      assert SameCallbacks(e, a.capsules, b.capsules);
      if e in a.effects {
        hide RowInLine;
        RowStaysInLine(e, a.effects[e], b.effects[e], a.capsules, b.capsules, a.bindings, b.bindings, Intents(e, a.events));
      }
    }
    forall e | e !in b.effects
      ensures NoCallbacks(e, b.capsules) && Intents(e, b.events) == [] && Bound(e, [], b.bindings)
    {
      IntentsUnchanged(e, a, b);
      assert SameCallbacks(e, a.capsules, b.capsules);
    }
  }

  /* ---------- prepare and the callback intent ---------- */

  /** Only effect e, its capsules, its bindings and its intents changed. */
  lemma OneRowChanges(a: Db, b: Db, e: Id, ev: Event)
    requires AllInLine(a.effects, a.capsules, a.bindings, a.events)
    requires e in b.effects && b.effects == a.effects[e := b.effects[e]] && b.events == a.events + [ev]
    requires ev.kind.CallbackIntent? ==> ev.kind.effectId == e
    requires forall e' :: e' != e ==> SameCallbacks(e', a.capsules, b.capsules) && SameBindings(e', a.bindings, b.bindings)
    requires RowInLine(e, b.effects[e], b.capsules, b.bindings, Intents(e, b.events))
    ensures AllInLine(b.effects, b.capsules, b.bindings, b.events)
  {
    forall e' | e' in b.effects ensures RowInLine(e', b.effects[e'], b.capsules, b.bindings, Intents(e', b.events)) {
      if e' != e {
        OtherRowKept(a, b, e', ev);
      }
    }
    forall e' | e' !in b.effects
      ensures NoCallbacks(e', b.capsules) && Intents(e', b.events) == [] && Bound(e', [], b.bindings)
    {
      OtherRowKept(a, b, e', ev);
    }
  }

  lemma OtherRowKept(a: Db, b: Db, e: Id, ev: Event)
    requires AllInLine(a.effects, a.capsules, a.bindings, a.events)
    requires b.events == a.events + [ev] && (ev.kind.CallbackIntent? ==> ev.kind.effectId != e)
    requires SameCallbacks(e, a.capsules, b.capsules) && SameBindings(e, a.bindings, b.bindings)
    requires (e in b.effects <==> e in a.effects) && (e in a.effects ==> b.effects[e] == a.effects[e])
    ensures if e in a.effects then RowInLine(e, b.effects[e], b.capsules, b.bindings, Intents(e, b.events))
            else NoCallbacks(e, b.capsules) && Intents(e, b.events) == [] && Bound(e, [], b.bindings)
  {
    IntentsOneMore(e, a.events, ev);
    hide RowInLine, Intents;
    if e in a.effects {
      RowStaysInLine(e, a.effects[e], b.effects[e], a.capsules, b.capsules, a.bindings, b.bindings, Intents(e, a.events));
    }
  }

  lemma NewRowInLine(db: Db, i: PrepareInput)
    requires PrepareError(db, i).None? && Existing(db, i).None?
    requires AllInLine(db.effects, db.capsules, db.bindings, db.events)
    ensures RowInLine(i.newEffectId, NewEffect(i), PreparePost(db, i).capsules, db.bindings, [])
  {
    assert NoCallbacks(i.newEffectId, db.capsules) && Bound(i.newEffectId, [], db.bindings);
    assert PreparePost(db, i).capsules == db.capsules[CallbackKey(i.newEffectId, 1) := NewCallbackCapsule(db, i)];
    hide PreparePost, PrepareError, AllInLine, Bound;
  }

  lemma PrepareKeepsLine(db: Db, i: PrepareInput)
    requires PrepareError(db, i).None? && Existing(db, i).None?
    requires AllInLine(db.effects, db.capsules, db.bindings, db.events)
    ensures var b := PreparePost(db, i); AllInLine(b.effects, b.capsules, b.bindings, b.events)
  {
    var b, e := PreparePost(db, i), i.newEffectId;
    NewRowInLine(db, i);
    var ev := Event(i.runId, EffectPrepared(i.ownerFrameId, OfKey(i.idempotencyKey)));
    assert b.events == db.events + [ev] && b.bindings == db.bindings && b.effects == db.effects[e := NewEffect(i)];
    assert b.capsules == db.capsules[CallbackKey(e, 1) := NewCallbackCapsule(db, i)];
    hide PreparePost, PrepareError, NewEffect, NewCallbackCapsule, RowInLine;
    IntentsOneMore(e, db.events, ev);
    assert Intents(e, db.events) == [];
    OneRowChanges(db, b, e, ev);
  }

  lemma TopOneMore(intents: seq<Intent>, x: Intent)
    ensures Top(intents + [x]) == if x.attemptNo > Top(intents) then x.attemptNo else Top(intents)
  {
    assert (intents + [x])[..|intents|] == intents;
  }

  lemma {:induction false} TopInOrder(intents: seq<Intent>)
    requires forall i :: 0 <= i < |intents| ==> intents[i].attemptNo == i + 1
    ensures Top(intents) == if intents == [] then 1 else |intents|
  {
    if intents != [] {
      TopInOrder(intents[..|intents| - 1]);
    }
  }

  /** What the guard of a callback intent says about attempts. */
  predicate MayCall(
    e: Id, x: Effect, capsules: map<CapsuleKey, Capsule>, bindings: map<AttemptKey, Binding>, n: int, a: Option<Id>)
  {
    && (x.state == Planned || x.state == Unknown)
    && (x.state == Planned ==> n == 1)
    && (x.state == Unknown ==> n > 1)
    && (CallbackKey(e, n) in capsules || (x.state == Unknown && CallbackKey(e, n - 1) in capsules))
    && (x.approvalId.Some? ==> a.Some?)
    && (a.Some? ==> AttemptKey(e, n) !in bindings)
  }

  /** The next attempt either reuses a sealed attempt or is the one after the last. */
  lemma NextAttempt(
    e: Id, x: Effect, capsules: map<CapsuleKey, Capsule>, bindings: map<AttemptKey, Binding>, intents: seq<Intent>,
    n: int, a: Option<Id>)
    requires RowInLine(e, x, capsules, bindings, intents) && MayCall(e, x, capsules, bindings, n, a)
    ensures x.capsuleFingerprint.Some?
    ensures 1 <= n <= Top(intents) + 1
    ensures CallbackKey(e, n) in capsules <==> n <= Top(intents)
    ensures CallbackKey(e, n) !in capsules ==> CallbackKey(e, n - 1) in capsules
    ensures intents == [] ==> n == 1
    ensures intents != [] && intents[0].approval.Some? ==> a.Some? && n == |intents| + 1
  {
    if intents != [] && intents[0].approval.Some? {
      TopInOrder(intents);
      forall m | 1 <= m <= |intents| ensures AttemptKey(e, m) in bindings {
        assert intents[m - 1].attemptNo == m && intents[m - 1].approval.Some?;
      }
    }
  }

  ghost predicate CopiedIfNew(e: Id, a: map<CapsuleKey, Capsule>, b: map<CapsuleKey, Capsule>, n: int) {
    if CallbackKey(e, n) in a || CallbackKey(e, n - 1) !in a then b == a
    else b == a[CallbackKey(e, n) := a[CallbackKey(e, n - 1)]]
  }

  ghost predicate BoundIfApproved(
    e: Id, a: map<AttemptKey, Binding>, b: map<AttemptKey, Binding>, n: int, approval: Option<Id>)
  {
    if approval.None? then b == a
    else AttemptKey(e, n) in b && b == a[AttemptKey(e, n) := b[AttemptKey(e, n)]]
         && b[AttemptKey(e, n)].approvalId == approval.value
  }

  predicate CalledRow(x: Effect, y: Effect, approval: Option<Id>) {
    && y.state == InFlight && y.capsuleFingerprint == x.capsuleFingerprint && y.keyHash == x.keyHash
    && y.approvalId == if approval.Some? then approval else x.approvalId
  }

  lemma CalledRowInLine(
    e: Id, x: Effect, y: Effect, a: map<CapsuleKey, Capsule>, b: map<CapsuleKey, Capsule>,
    ba: map<AttemptKey, Binding>, bb: map<AttemptKey, Binding>, intents: seq<Intent>, n: int, approval: Option<Id>)
    requires RowInLine(e, x, a, ba, intents) && MayCall(e, x, a, ba, n, approval)
    requires CopiedIfNew(e, a, b, n) && BoundIfApproved(e, ba, bb, n, approval)
    requires CalledRow(x, y, approval)
    ensures RowInLine(e, y, b, bb, intents + [Intent(n, approval)])
  {
    hide Bound, Dense, InLine, CopiedIfNew, BoundIfApproved, InOrder, Top;
    NextAttempt(e, x, a, ba, intents, n, approval);
    TopOneMore(intents, Intent(n, approval));
    CalledRowBound(e, ba, bb, intents, n, approval);
    CalledRowDense(intents, n, approval);
    CalledRowCapsules(e, x, y, a, b, Top(intents), n);
    CalledRowOrder(x, y, intents, n, approval);
  }

  lemma CalledRowOrder(x: Effect, y: Effect, intents: seq<Intent>, n: int, approval: Option<Id>)
    requires InOrder(x, intents) && CalledRow(x, y, approval)
    requires intents == [] ==> n == 1
    requires intents != [] && intents[0].approval.Some? ==> approval.Some? && n == |intents| + 1
    ensures InOrder(y, intents + [Intent(n, approval)])
  {
  }

  lemma CalledRowCapsules(
    e: Id, x: Effect, y: Effect, a: map<CapsuleKey, Capsule>, b: map<CapsuleKey, Capsule>, k: int, n: int)
    requires InLine(e, x, a, k) && 1 <= k && 1 <= n <= k + 1 && CopiedIfNew(e, a, b, n)
    requires y.capsuleFingerprint == x.capsuleFingerprint && y.keyHash == x.keyHash
    ensures InLine(e, y, b, if n > k then n else k)
  {
  }

  lemma CalledRowDense(intents: seq<Intent>, n: int, approval: Option<Id>)
    requires Dense(intents) && 1 <= n <= Top(intents) + 1 && (intents == [] ==> n == 1)
    ensures Dense(intents + [Intent(n, approval)])
  {
    var longer := intents + [Intent(n, approval)];
    TopOneMore(intents, Intent(n, approval));
    forall m | 1 <= m <= Top(longer) ensures Attempted(longer, m) {
      if m == n {
        assert longer[|intents|].attemptNo == n;
      } else {
        assert Attempted(intents, m);
        var i :| 0 <= i < |intents| && intents[i].attemptNo == m;
        assert longer[i] == intents[i];
      }
    }
  }

  lemma CalledRowBound(
    e: Id, ba: map<AttemptKey, Binding>, bb: map<AttemptKey, Binding>, intents: seq<Intent>, n: int, approval: Option<Id>)
    requires Bound(e, intents, ba) && BoundIfApproved(e, ba, bb, n, approval)
    requires approval.Some? ==> AttemptKey(e, n) !in ba
    ensures Bound(e, intents + [Intent(n, approval)], bb)
  {
    var longer := intents + [Intent(n, approval)];
    forall m | AttemptKey(e, m) in bb
      ensures exists i :: 0 <= i < |longer| && longer[i].attemptNo == m && longer[i].approval.Some?
    {
      if AttemptKey(e, m) in ba {
        var i :| 0 <= i < |intents| && intents[i].attemptNo == m && intents[i].approval.Some?;
        assert longer[i] == intents[i];
      } else {
        assert longer[|intents|] == Intent(n, approval);
      }
    }
  }

  lemma CasMayCall(db: Db, i: CasInput)
    requires CasGuard(db, i)
    ensures i.effectId in db.effects
    ensures MayCall(i.effectId, db.effects[i.effectId], db.capsules, db.bindings, i.attemptNo, i.approvalId)
  {
    hide CasLeaseError, ApprovalCovers, OpenVerifiedCallback;
  }

  lemma CasLineTables(db: Db, i: CasInput)
    requires i.effectId in db.effects && (i.approvalId.Some? ==> i.approvalId.value in db.approvals)
    ensures var b, e := CasPost(db, i), i.effectId;
      && e in b.effects && b.effects == db.effects[e := b.effects[e]]
      && b.events == db.events + [Event(db.effects[e].runId, CallbackIntent(e, i.attemptNo, i.approvalId))]
      && CopiedIfNew(e, db.capsules, b.capsules, i.attemptNo)
      && BoundIfApproved(e, db.bindings, b.bindings, i.attemptNo, i.approvalId)
      && CalledRow(db.effects[e], b.effects[e], i.approvalId)
  {
    CasTables(db, i);
    CasAuthority(db, i);
    hide CasPost, ConsumeOne;
  }

  lemma CasKeepsLine(db: Db, i: CasInput)
    requires CasGuard(db, i)
    requires AllInLine(db.effects, db.capsules, db.bindings, db.events)
    ensures var b := CasPost(db, i); AllInLine(b.effects, b.capsules, b.bindings, b.events)
  {
    CasMayCall(db, i);
    if i.approvalId.Some? {
      ApprovalAdmits(db, i);
    }
    hide CasGuard;
    CasLineTables(db, i);
    hide CasPost, CopiedIfNew, BoundIfApproved, CalledRow, MayCall, AllInLine;
    IntentKeepsLine(db, CasPost(db, i), i.effectId, i.attemptNo, i.approvalId);
  }

  lemma IntentKeepsLine(a: Db, b: Db, e: Id, n: int, approval: Option<Id>)
    requires AllInLine(a.effects, a.capsules, a.bindings, a.events)
    requires e in a.effects && MayCall(e, a.effects[e], a.capsules, a.bindings, n, approval)
    requires e in b.effects && b.effects == a.effects[e := b.effects[e]]
    requires b.events == a.events + [Event(a.effects[e].runId, CallbackIntent(e, n, approval))]
    requires CopiedIfNew(e, a.capsules, b.capsules, n) && BoundIfApproved(e, a.bindings, b.bindings, n, approval)
    requires CalledRow(a.effects[e], b.effects[e], approval)
    ensures AllInLine(b.effects, b.capsules, b.bindings, b.events)
  {
    hide *;
    var ev := Event(a.effects[e].runId, CallbackIntent(e, n, approval));
    IntentsOneMore(e, a.events, ev);
    OthersKeepCallbacks(e, a.capsules, b.capsules, a.bindings, b.bindings, n, approval);
    RowFromLine(a, e);
    CalledRowInLine(e, a.effects[e], b.effects[e], a.capsules, b.capsules, a.bindings, b.bindings,
                    Intents(e, a.events), n, approval);
    OneRowChanges(a, b, e, ev);
  }

  lemma RowFromLine(db: Db, e: Id)
    requires AllInLine(db.effects, db.capsules, db.bindings, db.events) && e in db.effects
    ensures RowInLine(e, db.effects[e], db.capsules, db.bindings, Intents(e, db.events))
  {
    hide RowInLine, Intents, NoCallbacks, Bound;
  }

  lemma OthersKeepCallbacks(
    e: Id, a: map<CapsuleKey, Capsule>, b: map<CapsuleKey, Capsule>, ba: map<AttemptKey, Binding>,
    bb: map<AttemptKey, Binding>, n: int, approval: Option<Id>)
    requires CopiedIfNew(e, a, b, n) && BoundIfApproved(e, ba, bb, n, approval)
    ensures forall e' :: e' != e ==> SameCallbacks(e', a, b) && SameBindings(e', ba, bb)
  {
  }

  /* ---------- the other operations ---------- */

  lemma PlanHasNoIntent(db: Db, i: PlanInput)
    requires PlanError(db, i).None?
    ensures NoIntent(db, PlanPost(db, i))
  {
    hide AppendEdge;
  }

  lemma TransitionHasNoIntent(db: Db, e: Id, rev: nat, s: EffectState, n: EffectState)
    requires TransitionError(db, e, rev, s, n).None?
    ensures NoIntent(db, TransitionPost(db, e, n))
  {
  }

  lemma UnknownHasNoIntent(db: Db, i: UnknownInput)
    requires UnknownError(db, i).None?
    ensures NoIntent(db, UnknownPost(db, i))
  {
    hide AppendEdge;
  }

  lemma CancelHasNoIntent(db: Db, e: Id, rev: nat)
    requires CancelError(db, e, rev).None?
    ensures NoIntent(db, CancelPost(db, e))
  {
    hide AppendEdge;
  }

  lemma ReceiptHasNoIntent(db: Db, i: ReceiptInput)
    requires ReceiptError(db, i).None?
    ensures NoIntent(db, ReceiptPost(db, i))
  {
    hide AppendEdge, NewReceipt, NewResultCapsule, ReceiptExists;
  }

  lemma CommitHasNoIntent(db: Db, i: CommitInput)
    requires LateCommitGuard(db, i)
    ensures NoIntent(db, CommitPost(db, i))
  {
    hide AppendEdge, OpenAuthoritativeResult;
  }

  lemma FinalizeHasNoIntent(db: Db, i: FinalizeInput, now: nat)
    requires FinalizeError(db, i, now).None?
    ensures i.effectId in db.effects && db.effects[i.effectId].receiptId.Some?
    ensures NoIntent(db, FinalizePost(db, i))
  {
    FinalizeAdmits(db, i, now);
    hide AppendEdge, FinalizeError;
  }

  lemma PrepareAgainHasNoIntent(db: Db, i: PrepareInput)
    requires PrepareError(db, i).None? && Existing(db, i).Some?
    ensures NoIntent(db, PreparePost(db, i))
  {
    hide CommandOf;
  }

  lemma UntouchedHasNoIntent(a: Db, b: Db)
    requires LedgerUntouched(a, b) || OnlyFailuresLogged(a, b)
    ensures NoIntent(a, b)
  {
  }

  lemma LedgerKeepsLine(db: Db, op: LedgerOp)
    requires AllInLine(db.effects, db.capsules, db.bindings, db.events)
    ensures var b := ApplyLedger(db, op); AllInLine(b.effects, b.capsules, b.bindings, b.events)
  {
    LedgerOpsAreAtomic(db, op);
    hide ApplyLedger, NoIntent, AllInLine, PrepareError, PreparePost, CasGuard, CasPost, ReceiptError, ReceiptPost;
    hide UnknownError, UnknownPost, CancelError, CancelPost, CommitGuard, LateCommitGuard, CommitPost;
    hide FinalizeError, FinalizePost;
    hide PlanError, PlanPost, TransitionError, TransitionPost, OnlyFailuresLogged, Existing;
    if LedgerOpEnabled(db, op) && op.CasOp? {
      CasKeepsLine(db, op.cas);
    } else if LedgerOpEnabled(db, op) && op.PrepareOp? && Existing(db, op.prepare).None? {
      PrepareKeepsLine(db, op.prepare);
    } else {
      if !LedgerOpEnabled(db, op) {
        UntouchedHasNoIntent(db, ApplyLedger(db, op));
      } else {
        match op
        case PrepareOp(i) => PrepareAgainHasNoIntent(db, i);
        case ReceiptOp(i) => ReceiptHasNoIntent(db, i);
        case CommitOp(i) => CommitGuardSplits(db, i); CommitHasNoIntent(db, i);
        case LateCommitOp(i) => CommitHasNoIntent(db, i);
        case FinalizeOp(i, t) => FinalizeHasNoIntent(db, i, t);
        case UnknownOp(i) => UnknownHasNoIntent(db, i);
        case CancelOp(e, rev) => CancelHasNoIntent(db, e, rev);
        case PlanOp(i) => PlanHasNoIntent(db, i);
        case TransitionOp(e, rev, x, n) => TransitionHasNoIntent(db, e, rev, x, n);
      }
      NoIntentKeepsLine(db, ApplyLedger(db, op));
    }
  }

  lemma StepKeepsLine(db: Db, op: Op)
    requires AllInLine(db.effects, db.capsules, db.bindings, db.events)
    ensures var b := Apply(db, op); AllInLine(b.effects, b.capsules, b.bindings, b.events)
  {
    hide AllInLine, NoIntent, ApplyEnv, ApplyFrame, ApplyAuthority, ApplyLedger, ApplyRepair, ApplyIndex;
    if op.Ledger? {
      LedgerKeepsLine(db, op.ledger);
    } else {
      OthersKeepLedger(db, op);
      UntouchedHasNoIntent(db, Apply(db, op));
      NoIntentKeepsLine(db, Apply(db, op));
    }
  }

  /* ---------- the theorems ---------- */

  lemma {:induction false} ReachableInLine(ops: seq<Op>)
    ensures var db := Exec(EmptyDb, ops); AllInLine(db.effects, db.capsules, db.bindings, db.events)
    decreases |ops|
  {
    hide Apply, RowInLine;
    if ops != [] {
      ReachableInLine(ops[..|ops| - 1]);
      hide AllInLine;
      StepKeepsLine(Exec(EmptyDb, ops[..|ops| - 1]), ops[|ops| - 1]);
    }
  }

  /** Retry lineage, capsules: in every reachable state the callback capsules of a
      prepared effect are exactly attempts 1..k for the highest intent k, and every
      one is a copy of the row sealed at prepare, with its plaintext and its expiry.
      An effect that was only planned has none, and never runs. */
  lemma CapsulesAreOneToK(ops: seq<Op>, e: Id)
    ensures var db := Exec(EmptyDb, ops); e in db.effects ==>
      if db.effects[e].capsuleFingerprint.Some? then InLine(e, db.effects[e], db.capsules, Top(Intents(e, db.events)))
      else NoCallbacks(e, db.capsules) && Intents(e, db.events) == []
  {
    ReachableInLine(ops);
    hide Exec, InLine, NoCallbacks, InOrder, Bound;
  }

  /** Attempts 1, 2, .., k in this order, each under an approval bound to it, and
      exactly k callback capsules and k bindings. */
  ghost predicate CalledInOrder(
    e: Id, capsules: map<CapsuleKey, Capsule>, bindings: map<AttemptKey, Binding>, intents: seq<Intent>)
  {
    && (forall i :: 0 <= i < |intents| ==> intents[i].attemptNo == i + 1 && intents[i].approval.Some?)
    && (forall n :: AttemptKey(e, n) in bindings <==> 1 <= n <= |intents|)
    && (forall n :: 1 <= n <= |intents| ==> bindings[AttemptKey(e, n)].approvalId == intents[n - 1].approval.value)
    && (forall n :: CallbackKey(e, n) in capsules <==> 1 <= n <= |intents|)
  }

  lemma RowCalledInOrder(
    e: Id, row: Effect, capsules: map<CapsuleKey, Capsule>, bindings: map<AttemptKey, Binding>, intents: seq<Intent>)
    requires RowInLine(e, row, capsules, bindings, intents) && intents != [] && intents[0].approval.Some?
    ensures CalledInOrder(e, capsules, bindings, intents)
  {
    hide Dense, Bound, InLine, CalledInOrder;
    assert InOrder(row, intents);
    TopInOrder(intents);
    assert InLine(e, row, capsules, |intents|);
    hide RowInLine, Top, InOrder;
    OrderedRow(e, row, capsules, bindings, intents);
  }

  lemma OrderedRow(
    e: Id, row: Effect, capsules: map<CapsuleKey, Capsule>, bindings: map<AttemptKey, Binding>, intents: seq<Intent>)
    requires InLine(e, row, capsules, |intents|) && Bound(e, intents, bindings)
    requires forall i :: 0 <= i < |intents| ==> intents[i].attemptNo == i + 1 && intents[i].approval.Some?
    ensures CalledInOrder(e, capsules, bindings, intents)
  {
    OrderedIsBound(e, bindings, intents);
    hide Bound;
  }

  lemma OrderedIsBound(e: Id, bindings: map<AttemptKey, Binding>, intents: seq<Intent>)
    requires Bound(e, intents, bindings)
    requires forall i :: 0 <= i < |intents| ==> intents[i].attemptNo == i + 1 && intents[i].approval.Some?
    ensures forall n :: AttemptKey(e, n) in bindings <==> 1 <= n <= |intents|
    ensures forall n :: 1 <= n <= |intents| ==> bindings[AttemptKey(e, n)].approvalId == intents[n - 1].approval.value
  {
    forall n | 1 <= n <= |intents|
      ensures AttemptKey(e, n) in bindings && bindings[AttemptKey(e, n)].approvalId == intents[n - 1].approval.value
    {
      assert intents[n - 1].attemptNo == n;
    }
  }

  /** Retry lineage, order: an effect whose first intent was approved is called in
      order, one approval binding and one capsule for each attempt. */
  lemma ApprovedAttemptsInOrder(ops: seq<Op>, e: Id)
    requires var db := Exec(EmptyDb, ops);
      e in db.effects && Intents(e, db.events) != [] && Intents(e, db.events)[0].approval.Some?
    ensures var db := Exec(EmptyDb, ops); CalledInOrder(e, db.capsules, db.bindings, Intents(e, db.events))
  {
    ReachableInLine(ops);
    hide Exec, RowInLine, CalledInOrder, Intents;
    var db := Exec(EmptyDb, ops);
    RowCalledInOrder(e, db.effects[e], db.capsules, db.bindings, Intents(e, db.events));
  }

  /** Attempt numbers are not distinct in general. An accepted intent repeats the
      number of an earlier one if and only if it is a retry whose capsule is already
      sealed, and then the effect has never been under approval from its start. */
  lemma RepeatsIffAlreadySealed(ops: seq<Op>, i: CasInput)
    requires CasGuard(Exec(EmptyDb, ops), i)
    ensures var db := Exec(EmptyDb, ops);
      && (Attempted(Intents(i.effectId, db.events), i.attemptNo) <==>
            i.retry && CallbackKey(i.effectId, i.attemptNo) in db.capsules)
      && (Attempted(Intents(i.effectId, db.events), i.attemptNo) ==> Intents(i.effectId, db.events)[0].approval.None?)
  {
    var db := Exec(EmptyDb, ops);
    ReachableInLine(ops);
    CasMayCall(db, i);
    assert db.effects[i.effectId].state == ExpectedState(i);
    hide CasGuard, Exec;
    var intents := Intents(i.effectId, db.events);
    NextAttempt(i.effectId, db.effects[i.effectId], db.capsules, db.bindings, intents, i.attemptNo, i.approvalId);
  }
}
