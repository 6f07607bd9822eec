// The frame forest: parents, stored paths and subtree revisions agree with each
// other and with the audit log.

module Forest {
  import opened Tables
  import opened CapsuleStore
  import opened EffectProtocol
  import opened DurableRuntime
  import opened IngressReview
  import R = RepairPlans
  import opened Kernel
  import opened Evolution
  import opened Replay

  /** Run, parent and stored path of one frame. */
  ghost predicate WellPlaced(frames: map<Id, Frame>, workspaces: map<Id, Id>, f: Id)
    requires f in frames
  {
    && frames[f].runId in workspaces
    && match frames[f].parent
       case None => frames[f].path == []
       case Some(p) => p in frames && frames[p].runId == frames[f].runId && frames[f].path == frames[p].path + [p]
  }

  /** uniq_root_frame_per_run */
  ghost predicate OneRoot(frames: map<Id, Frame>) {
    forall f, g | f in frames && g in frames ::
      frames[f].parent == None && frames[g].parent == None && frames[f].runId == frames[g].runId ==> f == g
  }

  ghost predicate WellFormed(frames: map<Id, Frame>, workspaces: map<Id, Id>) {
    && (forall f {:trigger WellPlaced(frames, workspaces, f)} | f in frames :: WellPlaced(frames, workspaces, f))
    && OneRoot(frames)
  }

  function Children(frames: map<Id, Frame>, f: Id): set<Id> {
    set c | c in frames && frames[c].parent == Some(f)
  }

  /** How often the frame itself changed status. */
  function Transitions(f: Id, events: seq<Event>): nat {
    if events == [] then 0
    else
      var k := events[|events| - 1].kind;
      Transitions(f, events[..|events| - 1]) + (if k.FrameTransitioned? && k.frameId == f then 1 else 0)
  }

  lemma TransitionsOneMore(f: Id, events: seq<Event>, ev: Event)
    ensures Transitions(f, events + [ev]) ==
      Transitions(f, events) + (if ev.kind.FrameTransitioned? && ev.kind.frameId == f then 1 else 0)
  {
    assert (events + [ev])[..|events|] == events;
  }

  /** subtree_revision counts the frame's own transitions and its direct children. */
  ghost predicate RevisionsCount(frames: map<Id, Frame>, events: seq<Event>) {
    && (forall f :: f in frames ==>
          frames[f].subtreeRevision == 1 + Transitions(f, events) + |Children(frames, f)|)
    && (forall f :: f !in frames ==> Transitions(f, events) == 0)
  }

  ghost predicate InForest(frames: map<Id, Frame>, workspaces: map<Id, Id>, events: seq<Event>) {
    WellFormed(frames, workspaces) && RevisionsCount(frames, events)
  }

  /* ---------- frame operations ---------- */

  lemma NewChildCounts(a: map<Id, Frame>, b: map<Id, Frame>, events: seq<Event>, ev: Event, p: Id, c: Id)
    requires RevisionsCount(a, events) && p in a && c !in a && !ev.kind.FrameTransitioned?
    requires forall f :: f in a ==> a[f].parent != Some(c)
    requires forall f :: f in b <==> f in a || f == c
    requires b[c].parent == Some(p) && b[c].subtreeRevision == 1
    requires forall f :: f in a ==> b[f].parent == a[f].parent
    requires forall f :: f in a ==> b[f].subtreeRevision == a[f].subtreeRevision + (if f == p then 1 else 0)
    ensures RevisionsCount(b, events + [ev])
  {
    forall f ensures Transitions(f, events + [ev]) == Transitions(f, events) {
      TransitionsOneMore(f, events, ev);
    }
    hide Transitions, Children;
    forall f | f in b ensures b[f].subtreeRevision == 1 + Transitions(f, events + [ev]) + |Children(b, f)| {
      ChildrenGrow(a, b, p, c, f);
      if f == c {
        assert b[f].subtreeRevision == 1;
      } else {
        assert a[f].subtreeRevision == 1 + Transitions(f, events) + |Children(a, f)|;
      }
    }
  }

  lemma ChildrenGrow(a: map<Id, Frame>, b: map<Id, Frame>, p: Id, c: Id, f: Id)
    requires p in a && c !in a && f in b
    requires forall f :: f in a ==> a[f].parent != Some(c)
    requires forall f :: f in b <==> f in a || f == c
    requires b[c].parent == Some(p)
    requires forall f :: f in a ==> b[f].parent == a[f].parent
    ensures |Children(b, f)| == if f == c then 0 else |Children(a, f)| + (if f == p then 1 else 0)
  {
    if f == c {
      assert Children(b, f) == {};
    } else if f == p {
      assert Children(b, f) == Children(a, f) + {c};
    } else {
      assert Children(b, f) == Children(a, f);
    }
  }

  lemma SameRoots(a: map<Id, Frame>, b: map<Id, Frame>)
    requires OneRoot(a)
    requires forall f :: f in b && b[f].parent == None ==> f in a && a[f].parent == None && a[f].runId == b[f].runId
    ensures OneRoot(b)
  {
  }

  /** Rows that keep their place keep the forest well formed. */
  lemma PlacesKept(a: map<Id, Frame>, b: map<Id, Frame>, workspaces: map<Id, Id>)
    requires WellFormed(a, workspaces)
    requires forall f :: f in a ==>
      f in b && b[f].parent == a[f].parent && b[f].path == a[f].path && b[f].runId == a[f].runId
    requires forall f :: f in b && f !in a ==> b[f].parent.Some? && WellPlaced(b, workspaces, f)
    ensures WellFormed(b, workspaces)
  {
    SameRoots(a, b);
    hide OneRoot;
    forall f | f in b ensures WellPlaced(b, workspaces, f) {
      if f in a {
        assert WellPlaced(a, workspaces, f);
      }
    }
  }

  lemma ParentsExist(frames: map<Id, Frame>, workspaces: map<Id, Id>, c: Id)
    requires WellFormed(frames, workspaces) && c !in frames
    ensures forall f :: f in frames ==> frames[f].parent != Some(c)
  {
    forall f | f in frames ensures frames[f].parent != Some(c) {
      assert WellPlaced(frames, workspaces, f);
    }
  }

  lemma NewChildPlaced(a: map<Id, Frame>, b: map<Id, Frame>, workspaces: map<Id, Id>, p: Id, c: Id)
    requires WellFormed(a, workspaces) && p in a && c !in a
    requires b == a[c := Frame(a[p].runId, Some(p), FPending, a[p].path + [p], 1)]
                   [p := a[p].(subtreeRevision := a[p].subtreeRevision + 1)]
    ensures WellFormed(b, workspaces)
  {
    assert WellPlaced(a, workspaces, p);
    assert WellPlaced(b, workspaces, c);
    hide WellFormed, WellPlaced;
    PlacesKept(a, b, workspaces);
  }

  lemma ChildTables(db: Db, r: Id, p: Id, c: Id)
    requires ChildError(db, r, p, c).None?
    ensures p in db.frames && c !in db.frames
    ensures var a, b := db.frames, ChildPost(db, r, p, c);
      && b.frames == a[c := Frame(a[p].runId, Some(p), FPending, a[p].path + [p], 1)]
                      [p := a[p].(subtreeRevision := a[p].subtreeRevision + 1)]
      && b.events == db.events + [Event(r, FrameCreated(c, Some(p)))] && b.workspaces == db.workspaces
  {
  }

  lemma ChildStaysInForest(db: Db, r: Id, p: Id, c: Id)
    requires ChildError(db, r, p, c).None? && InForest(db.frames, db.workspaces, db.events)
    ensures var b := ChildPost(db, r, p, c); InForest(b.frames, b.workspaces, b.events)
  {
    hide ChildPost, ChildError, WellFormed, RevisionsCount, WellPlaced, OneRoot, Children, Transitions;
    ChildTables(db, r, p, c);
    var b := ChildPost(db, r, p, c);
    ParentsExist(db.frames, db.workspaces, c);
    NewChildPlaced(db.frames, b.frames, db.workspaces, p, c);
    NewChildCounts(db.frames, b.frames, db.events, Event(r, FrameCreated(c, Some(p))), p, c);
  }

  lemma NewRootCounts(a: map<Id, Frame>, events: seq<Event>, ev: Event, r: Id, c: Id)
    requires RevisionsCount(a, events) && c !in a && !ev.kind.FrameTransitioned?
    requires forall f :: f in a ==> a[f].parent != Some(c)
    ensures RevisionsCount(a[c := Frame(r, None, FPending, [], 1)], events + [ev])
  {
    var b := a[c := Frame(r, None, FPending, [], 1)];
    forall f ensures Transitions(f, events + [ev]) == Transitions(f, events) {
      TransitionsOneMore(f, events, ev);
    }
    forall f | f in a ensures Children(b, f) == Children(a, f) {
    }
    assert Children(b, c) == {};
  }

  lemma NewRootPlaced(a: map<Id, Frame>, workspaces: map<Id, Id>, r: Id, c: Id)
    requires WellFormed(a, workspaces) && c !in a && r in workspaces
    requires forall f :: f in a ==> !(a[f].runId == r && a[f].parent == None)
    ensures WellFormed(a[c := Frame(r, None, FPending, [], 1)], workspaces)
  {
    var b := a[c := Frame(r, None, FPending, [], 1)];
    assert OneRoot(b);
    hide OneRoot;
    forall f | f in b ensures WellPlaced(b, workspaces, f) {
      if f != c {
        assert WellPlaced(a, workspaces, f);
      }
    }
  }

  lemma RootStaysInForest(db: Db, r: Id, c: Id)
    requires RootError(db, r, c).None? && InForest(db.frames, db.workspaces, db.events)
    ensures var b := RootPost(db, r, c); InForest(b.frames, b.workspaces, b.events)
  {
    assert forall f :: f in db.frames ==> !(db.frames[f].runId == r && db.frames[f].parent == None);
    hide WellFormed, RevisionsCount;
    ParentsExist(db.frames, db.workspaces, c);
    NewRootPlaced(db.frames, db.workspaces, r, c);
    NewRootCounts(db.frames, db.events, Event(r, FrameCreated(c, None)), r, c);
  }

  lemma MoveCounts(a: map<Id, Frame>, b: map<Id, Frame>, events: seq<Event>, ev: Event, f: Id)
    requires RevisionsCount(a, events) && f in a && ev.kind.FrameTransitioned? && ev.kind.frameId == f
    requires forall g :: g in b <==> g in a
    requires forall g :: g in a ==>
      b[g].parent == a[g].parent && b[g].subtreeRevision == a[g].subtreeRevision + (if g == f then 1 else 0)
    ensures RevisionsCount(b, events + [ev])
  {
    forall g ensures Transitions(g, events + [ev]) == Transitions(g, events) + (if g == f then 1 else 0) {
      TransitionsOneMore(g, events, ev);
    }
    forall g ensures Children(b, g) == Children(a, g) {
    }
  }

  lemma MoveStaysInForest(db: Db, f: Id, e: Option<FrameStatus>, n: FrameStatus)
    requires FrameError(db, f, e, n).None? && InForest(db.frames, db.workspaces, db.events)
    ensures var b := FramePost(db, f, n); InForest(b.frames, b.workspaces, b.events)
  {
    var b := FramePost(db, f, n);
    MoveCounts(db.frames, b.frames, db.events, Event(db.frames[f].runId, FrameTransitioned(f, n)), f);
    hide RevisionsCount, WellFormed;
    PlacesKept(db.frames, b.frames, db.workspaces);
  }

  lemma FrameOpStaysInForest(db: Db, op: FrameOp)
    requires InForest(db.frames, db.workspaces, db.events)
    ensures var b := ApplyFrame(db, op); InForest(b.frames, b.workspaces, b.events)
  {
    FrameOpsAreAtomic(db, op);
    hide ApplyFrame, InForest, RootError, RootPost, ChildError, ChildPost, FrameError, FramePost;
    if FrameOpEnabled(db, op) {
      match op
      case RootOp(r, f) => RootStaysInForest(db, r, f);
      case ChildOp(r, p, f) => ChildStaysInForest(db, r, p, f);
      case MoveOp(f, e, n) => MoveStaysInForest(db, f, e, n);
    }
  }

  /* ---------- the other operations ---------- */

  ghost predicate FramesUntouched(a: Db, b: Db) {
    && b.frames == a.frames && SubMap(a.workspaces, b.workspaces)
    && (b.events == a.events || exists ev: Event :: b.events == a.events + [ev] && !ev.kind.FrameTransitioned?)
  }

  lemma UntouchedStaysInForest(a: Db, b: Db)
    requires FramesUntouched(a, b) && InForest(a.frames, a.workspaces, a.events)
    ensures InForest(b.frames, b.workspaces, b.events)
  {
    forall f ensures Transitions(f, b.events) == Transitions(f, a.events) {
      if b.events != a.events {
        var ev: Event :| b.events == a.events + [ev] && !ev.kind.FrameTransitioned?;
        TransitionsOneMore(f, a.events, ev);
      }
    }
    hide Transitions, Children;
    forall f | f in b.frames ensures WellPlaced(b.frames, b.workspaces, f) {
      assert WellPlaced(a.frames, a.workspaces, f);
    }
  }

  lemma EnvKeepsFrames(db: Db, op: EnvOp)
    ensures FramesUntouched(db, ApplyEnv(db, op))
  {
  }

  lemma AuthorityKeepsFrames(db: Db, op: AuthorityOp)
    ensures FramesUntouched(db, ApplyAuthority(db, op))
  {
    AuthorityOpsAreAtomic(db, op);
    hide ApplyAuthority, RequestError, AcquireError, AcquiredLease, RenewedLease;
  }

  lemma RepairsKeepFrames(db: Db, op: RepairOp)
    ensures FramesUntouched(db, ApplyRepair(db, op))
  {
    RepairOpsAreAtomic(db, op);
    hide ApplyRepair, R.CreateError, R.RepairError, R.CrossFrameFor, AppendEdge;
  }

  lemma LedgerKeepsFrames(db: Db, op: LedgerOp)
    ensures FramesUntouched(db, ApplyLedger(db, op))
  {
    hide ApplyLedger;
    LedgerOpsKeepRuntime(db, op);
    var c := LedgerChange(db, op);
    hide MovedRow, NewRow;
    if !c.Same? {
      assert !c.event.kind.FrameTransitioned?;
    }
  }

  lemma IndexKeepsFrames(db: Db, op: IndexOp)
    ensures FramesUntouched(db, ApplyIndex(db, op))
  {
    IndexOpsTouchEdges(db, op);
    hide ApplyIndex;
  }

  lemma StepStaysInForest(db: Db, op: Op)
    requires InForest(db.frames, db.workspaces, db.events)
    ensures var b := Apply(db, op); InForest(b.frames, b.workspaces, b.events)
  {
    hide InForest, FramesUntouched, ApplyEnv, ApplyFrame, ApplyAuthority, ApplyLedger, ApplyRepair, ApplyIndex;
    if op.Frames? {
      FrameOpStaysInForest(db, op.frame);
    } else {
      match op {
        case Env(o) => EnvKeepsFrames(db, o);
        case Authority(o) => AuthorityKeepsFrames(db, o);
        case Ledger(o) => LedgerKeepsFrames(db, o);
        case Repairs(o) => RepairsKeepFrames(db, o);
        case Index(o) => IndexKeepsFrames(db, o);
      }
      UntouchedStaysInForest(db, Apply(db, op));
    }
  }

  /* ---------- the theorems ---------- */

  /** In every reachable state the frames form a forest with one root for each run,
      every stored path is the path of the parents, and every subtree revision is one
      plus the frame's own transitions plus its direct children. */
  lemma {:induction false} ReachableForest(ops: seq<Op>)
    ensures var db := Exec(EmptyDb, ops); InForest(db.frames, db.workspaces, db.events)
    decreases |ops|
  {
    hide Apply;
    if ops != [] {
      ReachableForest(ops[..|ops| - 1]);
      hide InForest;
      StepStaysInForest(Exec(EmptyDb, ops[..|ops| - 1]), ops[|ops| - 1]);
    }
  }

  /** Every prefix of a stored path is the stored path of the frame that ends it. */
  lemma {:induction false} PathsNest(frames: map<Id, Frame>, workspaces: map<Id, Id>, f: Id, k: nat)
    requires WellFormed(frames, workspaces) && f in frames && k < |frames[f].path|
    ensures frames[f].path[k] in frames && frames[frames[f].path[k]].path == frames[f].path[..k]
    ensures frames[frames[f].path[k]].runId == frames[f].runId
    decreases |frames[f].path|
  {
    assert WellPlaced(frames, workspaces, f);
    var p := frames[f].parent.value;
    if k < |frames[p].path| {
      PathsNest(frames, workspaces, p, k);
    }
  }

  /** No frame is its own ancestor, and no frame is on a path twice. */
  lemma PathsAreSimple(frames: map<Id, Frame>, workspaces: map<Id, Id>, f: Id)
    requires WellFormed(frames, workspaces) && f in frames
    ensures f !in frames[f].path
    ensures forall i, j :: 0 <= i < j < |frames[f].path| ==> frames[f].path[i] != frames[f].path[j]
  {
    var path := frames[f].path;
    forall i | 0 <= i < |path| ensures path[i] in frames && |frames[path[i]].path| == i {
      PathsNest(frames, workspaces, f, i);
    }
  }

  lemma {:induction false} RunStaysInForest(db: Db, ops: seq<Op>)
    requires InForest(db.frames, db.workspaces, db.events)
    ensures var b := Exec(db, ops); InForest(b.frames, b.workspaces, b.events)
    decreases |ops|
  {
    hide Apply, InForest;
    if ops != [] {
      RunStaysInForest(db, ops[..|ops| - 1]);
      StepStaysInForest(Exec(db, ops[..|ops| - 1]), ops[|ops| - 1]);
    }
  }
}
