// The audit-edge index: what verifyAuditEdgesForRun expects of it, and the statements
// of rebuildAuditEdgesForRun, which share no transaction.

module AuditIndex {
  import opened Tables

  /** The relations that the verifier derives from the authoritative tables. */
  predicate Derived(x: Edge) { x.relation == OwnsEffect || x.relation == HasRepair || x.relation == Relation.HasReceipt }

  function OwnedEdges(effects: map<Id, Effect>, runId: Id): set<Edge> {
    set e | e in effects && effects[e].runId == runId :: Edge(effects[e].ownerFrameId, OwnsEffect, e)
  }

  function RepairEdges(repairs: map<Id, Repair>, runId: Id): set<Edge> {
    set r | r in repairs && repairs[r].runId == runId :: Edge(repairs[r].targetFrameId, HasRepair, r)
  }

  /** The receipts join run_effects to find their run. */
  function ReceiptEdges(effects: map<Id, Effect>, receipts: map<Id, Receipt>, runId: Id): set<Edge> {
    set r | r in receipts && receipts[r].effectId in effects && effects[receipts[r].effectId].runId == runId
      :: Edge(receipts[r].effectId, Relation.HasReceipt, r)
  }

  /** The edges expected for one run. */
  function Expected(effects: map<Id, Effect>, repairs: map<Id, Repair>, receipts: map<Id, Receipt>, runId: Id): set<Edge> {
    OwnedEdges(effects, runId) + RepairEdges(repairs, runId) + ReceiptEdges(effects, receipts, runId)
  }

  function Actual(edges: map<Edge, Id>, runId: Id): set<Edge> { set x | x in edges && edges[x] == runId }

  function Missing(db: Db, runId: Id): set<Edge> {
    Expected(db.effects, db.repairs, db.receipts, runId) - Actual(db.edges, runId)
  }

  function Extra(db: Db, runId: Id): set<Edge> {
    Actual(db.edges, runId) - Expected(db.effects, db.repairs, db.receipts, runId)
  }

  /** The edge of a stored row of the run. */
  predicate Expects(effects: map<Id, Effect>, repairs: map<Id, Repair>, receipts: map<Id, Receipt>, runId: Id, x: Edge) {
    match x.relation
    case OwnsEffect => x.toId in effects && effects[x.toId].runId == runId && x.fromId == effects[x.toId].ownerFrameId
    case HasRepair => x.toId in repairs && repairs[x.toId].runId == runId && x.fromId == repairs[x.toId].targetFrameId
    case HasReceipt =>
      x.toId in receipts && x.fromId == receipts[x.toId].effectId && x.fromId in effects
      && effects[x.fromId].runId == runId
    case _ => false
  }

  lemma ExpectedIs(effects: map<Id, Effect>, repairs: map<Id, Repair>, receipts: map<Id, Receipt>, runId: Id, x: Edge)
    ensures x in Expected(effects, repairs, receipts, runId) <==> Expects(effects, repairs, receipts, runId, x)
  {
  }

  /* ---------- the statements of a rebuild ---------- */

  function WithoutRun(edges: map<Edge, Id>, runId: Id): map<Edge, Id> {
    map x | x in edges && edges[x] != runId :: edges[x]
  }

  /** DELETE FROM audit_edges WHERE run_id = ? */
  function DropEdges(db: Db, runId: Id): Db { db.(edges := WithoutRun(db.edges, runId)) }

  /** One insert of a rebuild. Its row was read before, and rows that are expected stay so. */
  function RestoreEdge(db: Db, runId: Id, x: Edge): Db {
    if Expects(db.effects, db.repairs, db.receipts, runId, x) then db.(edges := AppendEdge(db.edges, x, runId)) else db
  }

  /** The index once the given edges are present; existing rows win. */
  function Appended(edges: map<Edge, Id>, rows: set<Edge>, runId: Id): map<Edge, Id> {
    map x | x in edges.Keys + rows :: if x in edges then edges[x] else runId
  }

  /** The index after a rebuild that nothing interrupts. */
  function Rebuilt(db: Db, runId: Id): map<Edge, Id> {
    Appended(WithoutRun(db.edges, runId), Expected(db.effects, db.repairs, db.receipts, runId), runId)
  }

  lemma WithoutRunAt(edges: map<Edge, Id>, runId: Id, x: Edge)
    ensures x in WithoutRun(edges, runId) <==> x in edges && edges[x] != runId
    ensures x in WithoutRun(edges, runId) ==> WithoutRun(edges, runId)[x] == edges[x]
  {
  }

  lemma AppendedAt(edges: map<Edge, Id>, rows: set<Edge>, runId: Id, x: Edge)
    ensures x in Appended(edges, rows, runId) <==> x in edges || x in rows
    ensures x in Appended(edges, rows, runId) ==>
      Appended(edges, rows, runId)[x] == if x in edges then edges[x] else runId
  {
  }

  /** Appending the rows one at a time. */
  lemma AppendedOne(edges: map<Edge, Id>, rows: set<Edge>, x: Edge, runId: Id)
    ensures AppendEdge(Appended(edges, rows, runId), x, runId) == Appended(edges, rows + {x}, runId)
  {
    var one, all := AppendEdge(Appended(edges, rows, runId), x, runId), Appended(edges, rows + {x}, runId);
    forall y
      ensures y in one <==> y in all
      ensures y in all ==> one[y] == all[y]
    {
      AppendedAt(edges, rows, runId, y);
      AppendedAt(edges, rows + {x}, runId, y);
      hide Appended;
    }
    hide Appended, AppendEdge;
  }
}
