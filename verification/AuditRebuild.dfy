// rebuildAuditEdgesForRun as a sequence of statements among those of other callers: what
// it leaves behind when it runs to its end, and when it does not.

module AuditRebuild {
  import opened Tables
  import opened AuditIndex
  import opened Kernel
  import opened Evolution
  import opened AuditEdges

  /** Expected once, expected ever after: rows are neither deleted nor moved. */
  lemma ExpectationsStand(a: Db, b: Db, runId: Id, x: Edge)
    requires Evolves(a, b) && Expects(a.effects, a.repairs, a.receipts, runId, x)
    ensures Expects(b.effects, b.repairs, b.receipts, runId, x)
  {
    hide FramesEvolve, ApprovalsEvolve, LeasesEvolve;
  }

  /** The DELETE, then the inserts of the rows, with other callers' turns before each. */
  function Statements(runId: Id, rows: seq<Edge>, turns: seq<seq<Op>>): (ops: seq<Op>)
    requires |rows| <= |turns|
    ensures ops != [] && ops[0] == Index(DropOp(runId))
    decreases |rows|
  {
    if rows == [] then [Index(DropOp(runId))]
    else
      var n := |rows| - 1;
      Statements(runId, rows[..n], turns) + turns[n] + [Index(RestoreOp(runId, rows[n]))]
  }

  lemma StatementsBegin(db: Db, runId: Id, turns: seq<seq<Op>>)
    ensures Exec(db, Statements(runId, [], turns)) == DropEdges(db, runId)
  {
    DropApplied(db, runId);
    ExecNone(db);
    hide Exec, Apply, DropEdges;
    var drop := Index(DropOp(runId));
    ExecOne(db, [], drop);
    assert Statements(runId, [], turns) == [] + [drop];
  }

  lemma DropApplied(db: Db, runId: Id)
    ensures Apply(db, Index(DropOp(runId))) == DropEdges(db, runId)
  {
    hide DropEdges, ApplyEnv, ApplyFrame, ApplyAuthority, ApplyLedger, ApplyRepair;
  }

  lemma StatementsGrow(db: Db, runId: Id, rows: seq<Edge>, turns: seq<seq<Op>>, x: Edge)
    requires |rows| < |turns|
    ensures Exec(db, Statements(runId, rows + [x], turns)) ==
      RestoreEdge(Exec(Exec(db, Statements(runId, rows, turns)), turns[|rows|]), runId, x)
  {
    var ops, insert := Statements(runId, rows, turns), Index(RestoreOp(runId, x));
    assert (rows + [x])[..|rows|] == rows;
    assert Statements(runId, rows + [x], turns) == ops + turns[|rows|] + [insert];
    hide Exec, RestoreEdge, Statements;
    ExecOne(db, ops + turns[|rows|], insert);
    ExecAppend(db, ops, turns[|rows|]);
  }

  lemma {:induction false} RowsAreRestored(runId: Id, rows: seq<Edge>, turns: seq<seq<Op>>, x: Edge)
    requires |rows| <= |turns| && x in rows
    ensures Index(RestoreOp(runId, x)) in Statements(runId, rows, turns)[1..]
    decreases |rows|
  {
    var n := |rows| - 1;
    var ops := Statements(runId, rows, turns);
    if x == rows[n] {
      assert ops[|ops| - 1] == Index(RestoreOp(runId, x));
    } else {
      RowsAreRestored(runId, rows[..n], turns, x);
      var before := Statements(runId, rows[..n], turns);
      assert ops[1..] == before[1..] + turns[n] + [Index(RestoreOp(runId, rows[n]))];
    }
  }

  predicate NoDrop(ops: seq<Op>, runId: Id) { Index(DropOp(runId)) !in ops }

  lemma {:induction false} OneDrop(runId: Id, rows: seq<Edge>, turns: seq<seq<Op>>)
    requires |rows| <= |turns| && forall k :: 0 <= k < |rows| ==> NoDrop(turns[k], runId)
    ensures NoDrop(Statements(runId, rows, turns)[1..], runId)
    decreases |rows|
  {
    if rows != [] {
      var n := |rows| - 1;
      OneDrop(runId, rows[..n], turns);
      var before := Statements(runId, rows[..n], turns);
      assert NoDrop(turns[n], runId);
      assert Statements(runId, rows, turns)[1..] == before[1..] + turns[n] + [Index(RestoreOp(runId, rows[n]))];
    }
  }

  lemma DroppedLast(ops: seq<Op>, own: seq<Op>, runId: Id)
    requires own != [] && own[0] == Index(DropOp(runId)) && NoDrop(own[1..], runId)
    ensures var all := ops + own;
      LastDrop(all, runId) == |ops| && all[|ops| + 1..] == own[1..] && all[..|ops|] == ops
  {
    var all := ops + own;
    assert all[|ops|] == Index(DropOp(runId)) && all[|ops| + 1..] == own[1..] && all[..|ops|] == ops;
  }

  /** A rebuild that puts back everything that was expected at its DELETE leaves nothing
      missing, whatever other callers do meanwhile, as long as they do not drop the run's
      edges again. */
  lemma CompleteRebuildLosesNothing(ops: seq<Op>, runId: Id, rows: seq<Edge>, turns: seq<seq<Op>>)
    requires |rows| <= |turns| && forall k :: 0 <= k < |rows| ==> NoDrop(turns[k], runId)
    requires forall x :: ExpectedThen(ops, runId, x) ==> x in rows
    ensures Missing(Exec(EmptyDb, ops + Statements(runId, rows, turns)), runId) == {}
  {
    hide Missing, Exec, ExpectedThen, Statements;
    var own := Statements(runId, rows, turns);
    NothingIsMissingIff(ops + own, runId);
    OneDrop(runId, rows, turns);
    DroppedLast(ops, own, runId);
    forall x | ExpectedThen(ops, runId, x) ensures Index(RestoreOp(runId, x)) in own[1..] {
      RowsAreRestored(runId, rows, turns, x);
    }
  }

  function Elements(rows: seq<Edge>): set<Edge> { set x | x in rows }

  predicate Alone(turns: seq<seq<Op>>) { forall k :: 0 <= k < |turns| ==> turns[k] == [] }

  lemma {:induction false} OnlyRowsAreRestored(runId: Id, rows: seq<Edge>, turns: seq<seq<Op>>, x: Edge)
    requires |rows| <= |turns| && Alone(turns) && Index(RestoreOp(runId, x)) in Statements(runId, rows, turns)[1..]
    ensures x in rows
    decreases |rows|
  {
    if rows != [] {
      var n := |rows| - 1;
      var before := Statements(runId, rows[..n], turns);
      assert turns[n] == [];
      assert Statements(runId, rows, turns)[1..] == before[1..] + [Index(RestoreOp(runId, rows[n]))];
      if x != rows[n] {
        OnlyRowsAreRestored(runId, rows[..n], turns, x);
      }
    }
  }

  /** A rebuild that dies after some of its inserts has lost exactly the others. */
  lemma CutRebuildLosesTheRest(ops: seq<Op>, runId: Id, rows: seq<Edge>, turns: seq<seq<Op>>, x: Edge)
    requires |rows| <= |turns| && Alone(turns)
    ensures x in Missing(Exec(EmptyDb, ops + Statements(runId, rows, turns)), runId) <==>
      ExpectedThen(ops, runId, x) && x !in rows
  {
    hide Missing, Exec, ExpectedThen, Statements;
    var own := Statements(runId, rows, turns);
    forall k | 0 <= k < |rows| ensures NoDrop(turns[k], runId) {
      assert turns[k] == [];
    }
    OneDrop(runId, rows, turns);
    DroppedLast(ops, own, runId);
    MissingIffLost(ops + own, runId, x);
    if x in rows {
      RowsAreRestored(runId, rows, turns, x);
    } else if Index(RestoreOp(runId, x)) in own[1..] {
      OnlyRowsAreRestored(runId, rows, turns, x);
    }
  }

  lemma {:induction false} AloneRuns(db: Db, runId: Id, rows: seq<Edge>, turns: seq<seq<Op>>)
    requires |rows| <= |turns| && Alone(turns)
    requires forall x :: x in rows ==> Expects(db.effects, db.repairs, db.receipts, runId, x)
    ensures Exec(db, Statements(runId, rows, turns)) ==
      db.(edges := Appended(WithoutRun(db.edges, runId), Elements(rows), runId))
    decreases |rows|
  {
    hide *;
    if rows == [] {
      DropAlone(db, runId, turns);
    } else {
      var n := |rows| - 1;
      var x := rows[n];
      AloneRuns(db, runId, rows[..n], turns);
      StatementsGrow(db, runId, rows[..n], turns, x);
      NobodyBetween(Exec(db, Statements(runId, rows[..n], turns)), turns, n);
      assert rows[..n] + [x] == rows;
      InsertAlone(db, Appended(WithoutRun(db.edges, runId), Elements(rows[..n]), runId), runId, x);
      AppendedOne(WithoutRun(db.edges, runId), Elements(rows[..n]), x, runId);
      LastElement(rows);
    }
  }

  lemma DropAlone(db: Db, runId: Id, turns: seq<seq<Op>>)
    ensures Exec(db, Statements(runId, [], turns)) ==
      db.(edges := Appended(WithoutRun(db.edges, runId), Elements([]), runId))
  {
    StatementsBegin(db, runId, turns);
    hide WithoutRun, Exec, Statements;
    assert Appended(WithoutRun(db.edges, runId), {}, runId) == WithoutRun(db.edges, runId);
  }

  lemma NobodyTurns()
    ensures Alone([])
  {
  }

  lemma NobodyBetween(db: Db, turns: seq<seq<Op>>, n: nat)
    requires Alone(turns) && n < |turns|
    ensures Exec(db, turns[n]) == db
  {
  }

  lemma InsertAlone(db: Db, edges: map<Edge, Id>, runId: Id, x: Edge)
    requires Expects(db.effects, db.repairs, db.receipts, runId, x)
    ensures RestoreEdge(db.(edges := edges), runId, x) == db.(edges := AppendEdge(edges, x, runId))
  {
    hide Expects, AppendEdge;
  }

  lemma LastElement(rows: seq<Edge>)
    requires rows != []
    ensures Elements(rows) == Elements(rows[..|rows| - 1]) + {rows[|rows| - 1]}
  {
  }

  /** A rebuild that runs to its end with nobody in between: the run has exactly the
      expected edges, having lost every edge of another relation; the other runs are as
      they were, and nothing else has changed. */
  lemma RebuildIsExact(ops: seq<Op>, runId: Id, rows: seq<Edge>, turns: seq<seq<Op>>)
    requires |rows| <= |turns| && Alone(turns) && forall x :: x in rows <==> ExpectedThen(ops, runId, x)
    ensures var db, after := Exec(EmptyDb, ops), Exec(EmptyDb, ops + Statements(runId, rows, turns));
      && after == db.(edges := Rebuilt(db, runId))
      && Missing(after, runId) == {} && Extra(after, runId) == {}
      && (forall x :: x in db.edges && db.edges[x] == runId && !Derived(x) ==> x !in after.edges)
      && (forall r :: r != runId ==> Actual(after.edges, r) == Actual(db.edges, r))
  {
    var db := Exec(EmptyDb, ops);
    ExecAppend(EmptyDb, ops, Statements(runId, rows, turns));
    hide Exec, Statements;
    AloneRuns(db, runId, rows, turns);
    var expected := Expected(db.effects, db.repairs, db.receipts, runId);
    assert Elements(rows) == expected by {
      forall x ensures x in expected <==> x in rows {
        ExpectedIs(db.effects, db.repairs, db.receipts, runId, x);
      }
    }
    ReachableSound(ops);
    RebuiltEdges(db, runId);
  }

  ghost predicate Covers(db: Db, runId: Id, rows: seq<Edge>) {
    forall x :: Expects(db.effects, db.repairs, db.receipts, runId, x) ==> x in rows
  }

  ghost predicate AllExpected(db: Db, runId: Id, rows: seq<Edge>) {
    forall x :: x in rows ==> Expects(db.effects, db.repairs, db.receipts, runId, x)
  }

  predicate Distinct(rows: seq<Edge>) { forall i, j :: 0 <= i < j < |rows| ==> rows[i] != rows[j] }

  function ExpectedOf(db: Db, runId: Id): set<Edge> { Expected(db.effects, db.repairs, db.receipts, runId) }

  ghost predicate SetExpected(db: Db, runId: Id, rows: set<Edge>) {
    forall x :: x in rows ==> Expects(db.effects, db.repairs, db.receipts, runId, x)
  }

  lemma {:induction false} DistinctSize(rows: seq<Edge>)
    requires Distinct(rows)
    ensures |Elements(rows)| == |rows|
    decreases |rows|
  {
    if rows != [] {
      DistinctSize(rows[..|rows| - 1]);
      LastElement(rows);
    }
  }

  /** What a rebuild among nobody did, from what it inserted. */
  lemma RanAlone(db: Db, runId: Id, rows: seq<Edge>, turns: seq<seq<Op>>)
    requires |rows| <= |turns| && Alone(turns) && Distinct(rows) && Covers(db, runId, rows) && AllExpected(db, runId, rows)
    ensures Exec(db, Statements(runId, rows, turns)) == db.(edges := Rebuilt(db, runId))
    ensures |rows| == |ExpectedOf(db, runId)|
  {
    hide Exec, Statements, Expects, Expected;
    AloneRuns(db, runId, rows, turns);
    DistinctSize(rows);
    forall x ensures x in ExpectedOf(db, runId) <==> x in rows {
      ExpectedIs(db.effects, db.repairs, db.receipts, runId, x);
    }
    assert Elements(rows) == ExpectedOf(db, runId);
  }

  lemma {:induction false} AloneTouchesEdges(db: Db, runId: Id, rows: seq<Edge>, turns: seq<seq<Op>>)
    requires |rows| <= |turns| && Alone(turns)
    ensures Exec(db, Statements(runId, rows, turns)) == db.(edges := Exec(db, Statements(runId, rows, turns)).edges)
    decreases |rows|
  {
    hide *;
    if rows == [] {
      StatementsBegin(db, runId, turns);
      DropTouchesEdges(db, runId);
    } else {
      var n := |rows| - 1;
      AloneTouchesEdges(db, runId, rows[..n], turns);
      StatementsGrow(db, runId, rows[..n], turns, rows[n]);
      NobodyBetween(Exec(db, Statements(runId, rows[..n], turns)), turns, n);
      RestoreTouchesEdges(db, Exec(db, Statements(runId, rows[..n], turns)), runId, rows[n]);
      assert rows[..n] + [rows[n]] == rows;
    }
  }

  lemma DropTouchesEdges(db: Db, runId: Id)
    ensures DropEdges(db, runId) == db.(edges := DropEdges(db, runId).edges)
  {
    hide WithoutRun;
  }

  lemma RestoreTouchesEdges(db: Db, at: Db, runId: Id, x: Edge)
    requires at == db.(edges := at.edges)
    ensures RestoreEdge(at, runId, x) == db.(edges := RestoreEdge(at, runId, x).edges)
  {
    hide Expects, AppendEdge;
  }

  /* ---------- the rows that each loop reads ---------- */

  lemma OwnedAre(db: Db, runId: Id)
    ensures forall x :: x in OwnedEdges(db.effects, runId) <==>
      x.relation == OwnsEffect && Expects(db.effects, db.repairs, db.receipts, runId, x)
  {
  }

  lemma RepairsAre(db: Db, runId: Id)
    ensures forall x :: x in RepairEdges(db.repairs, runId) <==>
      x.relation == HasRepair && Expects(db.effects, db.repairs, db.receipts, runId, x)
  {
  }

  lemma ReceiptsAre(db: Db, runId: Id)
    ensures forall x :: x in ReceiptEdges(db.effects, db.receipts, runId) <==>
      x.relation == Relation.HasReceipt && Expects(db.effects, db.repairs, db.receipts, runId, x)
  {
  }

  lemma RunKeepsExpectations(db: Db, ops: seq<Op>, runId: Id)
    ensures forall x :: Expects(db.effects, db.repairs, db.receipts, runId, x) ==>
      var b := Exec(db, ops); Expects(b.effects, b.repairs, b.receipts, runId, x)
  {
    RunEvolves(db, ops);
    hide Exec, Expects, Evolves;
    var b := Exec(db, ops);
    forall x | Expects(db.effects, db.repairs, db.receipts, runId, x)
      ensures Expects(b.effects, b.repairs, b.receipts, runId, x)
    {
      ExpectationsStand(db, b, runId, x);
    }
  }

  lemma TurnKeepsExpectations(db: Db, ops: seq<Op>, runId: Id, rows: seq<Edge>, todo: set<Edge>, x: Edge)
    requires AllExpected(db, runId, rows) && SetExpected(db, runId, todo) && x in todo
    ensures var b := Exec(db, ops);
      && AllExpected(b, runId, rows) && SetExpected(b, runId, todo)
      && Expects(b.effects, b.repairs, b.receipts, runId, x)
  {
    RunKeepsExpectations(db, ops, runId);
    hide Exec, Expects;
  }

  lemma StillToDo(db: Db, runId: Id, rows: seq<Edge>, todo: set<Edge>)
    requires todo != {} && SetExpected(db, runId, todo) && forall x :: x in todo ==> x !in rows
    ensures !Covers(db, runId, rows)
  {
    var x :| x in todo;
    assert Expects(db.effects, db.repairs, db.receipts, runId, x);
  }

  lemma InsertIsRestore(db: Db, runId: Id, rows: seq<Edge>, todo: set<Edge>, x: Edge)
    requires AllExpected(db, runId, rows) && SetExpected(db, runId, todo) && x in todo && x !in rows && Distinct(rows)
    ensures RestoreEdge(db, runId, x) == db.(edges := AppendEdge(db.edges, x, runId))
    ensures AllExpected(RestoreEdge(db, runId, x), runId, rows + [x])
    ensures SetExpected(RestoreEdge(db, runId, x), runId, todo - {x}) && Distinct(rows + [x])
  {
    hide Expects, AppendEdge;
  }

  lemma RebuiltEdges(db: Db, runId: Id)
    requires Sound(db)
    ensures var after := db.(edges := Rebuilt(db, runId));
      && Missing(after, runId) == {} && Extra(after, runId) == {}
      && (forall x :: x in db.edges && db.edges[x] == runId && !Derived(x) ==> x !in after.edges)
      && (forall r :: r != runId ==> Actual(after.edges, r) == Actual(db.edges, r))
  {
    var kept, expected := WithoutRun(db.edges, runId), Expected(db.effects, db.repairs, db.receipts, runId);
    forall x
      ensures x in kept <==> x in db.edges && db.edges[x] != runId
      ensures x in kept ==> kept[x] == db.edges[x]
      ensures x in expected ==> x !in kept && Derived(x)
    {
      WithoutRunAt(db.edges, runId, x);
      ExpectedIs(db.effects, db.repairs, db.receipts, runId, x);
      if x in expected && x in db.edges {
        OneRun(db, runId, db.edges[x], x);
      }
    }
    hide WithoutRun, Expected, Sound;
  }
}
