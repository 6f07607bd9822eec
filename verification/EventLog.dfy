// What the event table says happened: every stored row is the event of one append that
// committed, column for column, and a run's chain is the list of those events.

module EventLog {
  import opened Json
  import opened JsonRoundTrip
  import opened CanonicalJson
  import opened AuditEnvelope
  import opened AuditChain
  import opened EventOrder
  import opened EventStore

  /** Who appended, and whether the version column was there. */
  datatype Appender = Database(versioned: bool) | Runtime | Legacy

  datatype Committed = Committed(appender: Appender, entry: Entry)

  /** Events of the runtime that belong to no run go to the chain of their event type. */
  function RunOf(c: Committed): Str {
    if c.appender == Runtime && c.entry.runId == [] then Ascii("__admin__:") + c.entry.eventType else c.entry.runId
  }

  function VersionBy(appender: Appender): Option<Str> {
    match appender
    case Database(versioned) => if versioned then Some(Ascii("v2")) else None
    case Runtime => Some(Ascii("v2"))
    case Legacy => Some(Ascii("v1"))
  }

  /** The row is the caller's event, column by column. Only the database appender stores an
      empty policy hash or redaction version as null. */
  predicate Records(h: Hash, r: Row, c: Committed) {
    && r.id == c.entry.id
    && r.runId == RunOf(c)
    && r.workspaceId == c.entry.workspaceId
    && r.eventType == c.entry.eventType
    && r.payloadJson == CanonicalJSON(c.entry.payload)
    && r.payloadHash == Some(h(CanonicalJSON(c.entry.payload)))
    && r.envelopeVersion == VersionBy(c.appender)
    && r.policyVersionHash ==
         (if c.appender.Database? && c.entry.policyVersionHash == Some([]) then None else c.entry.policyVersionHash)
    && r.redactionRuleVersion ==
         (if c.appender.Database? && c.entry.redactionRuleVersion == Some([]) then None else c.entry.redactionRuleVersion)
    && r.createdAt == c.entry.createdAt
  }

  lemma DatabaseRecords(h: Hash, st: Store, e: Entry)
    ensures Records(h, DatabaseRow(h, st, e), Committed(Database(st.versioned), e))
  {
    hide Input, CanonicalJSON, Chain;
  }

  lemma RuntimeRecords(h: Hash, st: Store, e: Entry)
    ensures Records(h, AuditedRow(h, st, e), Committed(Runtime, e))
  {
    hide Input, CanonicalJSON, Chain;
  }

  lemma LegacyRecords(h: Hash, st: Store, e: Entry)
    ensures Records(h, LegacyRow(h, st, e), Committed(Legacy, e))
  {
    hide Input, CanonicalJSON, Chain;
  }

  /* ---------- programs ---------- */

  /** The appends of a program that committed, in order: what threw, or was rolled back by
      a transaction around it, is not among them. */
  function Log(h: Hash, st: Store, s: Script): seq<Committed>
    decreases s
  {
    match s
    case Append(e) => if Perform(h, st, s).threw then [] else [Committed(Database(st.versioned), e)]
    case AppendLegacy(e) => if Perform(h, st, s).threw then [] else [Committed(Legacy, e)]
    case Then(a, b) =>
      var first := Perform(h, st, a);
      Log(h, st, a) + if first.threw then [] else Log(h, first.store, b)
    case Transaction(body) => if Perform(h, st, s).threw then [] else Log(h, st, body)
    case Audited(e, body) =>
      if Perform(h, st, s).threw then [] else [Committed(Runtime, e)] + Log(h, AuditedAppend(h, st, e).store, body)
    case Caught(body) => Log(h, st, body)
    case _ => []
  }

  /** The table has grown by exactly these events. */
  predicate Grows(h: Hash, a: seq<Row>, b: seq<Row>, log: seq<Committed>) {
    a <= b && |b| == |a| + |log| && forall i :: 0 <= i < |log| ==> Records(h, b[|a| + i], log[i])
  }

  lemma GrowsOn(h: Hash, a: seq<Row>, b: seq<Row>, c: seq<Row>, log: seq<Committed>, more: seq<Committed>)
    requires Grows(h, a, b, log) && Grows(h, b, c, more)
    ensures Grows(h, a, c, log + more)
  {
    hide Records;
    forall i | 0 <= i < |log + more| ensures Records(h, c[|a| + i], (log + more)[i]) {
      if i < |log| {
        assert b[|a| + i] == c[|a| + i];
      } else {
        assert c[|b| + (i - |log|)] == c[|a| + i];
      }
    }
  }

  lemma AppendsGrow(h: Hash, st: Store, e: Entry)
    ensures var o := DatabaseAppend(h, st, e);
      Grows(h, st.rows, o.store.rows, if o.threw then [] else [Committed(Database(st.versioned), e)])
    ensures var o := AuditedAppend(h, st, e);
      Grows(h, st.rows, o.store.rows, if o.threw then [] else [Committed(Runtime, e)])
    ensures var o := LegacyAppend(h, st, e);
      Grows(h, st.rows, o.store.rows, if o.threw then [] else [Committed(Legacy, e)])
  {
    DatabaseRecords(h, st, e);
    RuntimeRecords(h, st, e);
    LegacyRecords(h, st, e);
    hide Records, DatabaseRow, AuditedRow, LegacyRow, Violates;
  }

  /** Every program leaves the table with exactly the events of its committed appends
      added, in order. */
  lemma {:induction false} PerformLogs(h: Hash, st: Store, s: Script)
    ensures Grows(h, st.rows, Perform(h, st, s).store.rows, Log(h, st, s))
    decreases s
  {
    hide Grows, DatabaseAppend, LegacyAppend, AuditedAppend;
    match s
    case Append(e) => AppendsGrow(h, st, e);
    case AppendLegacy(e) => AppendsGrow(h, st, e);
    case Then(a, b) =>
      var first := Perform(h, st, a);
      PerformLogs(h, st, a);
      if first.threw {
        NothingMore(Log(h, st, a));
      } else {
        PerformLogs(h, first.store, b);
        GrowsOn(h, st.rows, first.store.rows, Perform(h, first.store, b).store.rows, Log(h, st, a), Log(h, first.store, b));
      }
    case Transaction(body) =>
      PerformLogs(h, st, body);
      NothingGrows(h, st.rows);
    case Audited(e, body) =>
      var first := AuditedAppend(h, st, e);
      AppendsGrow(h, st, e);
      PerformLogs(h, first.store, body);
      NothingGrows(h, st.rows);
      if !first.threw {
        GrowsOn(h, st.rows, first.store.rows, Perform(h, first.store, body).store.rows, [Committed(Runtime, e)],
                Log(h, first.store, body));
      }
    case Caught(body) => PerformLogs(h, st, body);
    case _ => NothingGrows(h, st.rows);
  }

  lemma NothingGrows(h: Hash, rows: seq<Row>)
    ensures Grows(h, rows, rows, [])
  {
  }

  lemma NothingMore(log: seq<Committed>)
    ensures log + [] == log
  {
  }

  /* ---------- one run ---------- */

  /** Event by event. */
  predicate Lists(h: Hash, rows: seq<Row>, log: seq<Committed>) {
    |rows| == |log| && forall i :: 0 <= i < |rows| ==> Records(h, rows[i], log[i])
  }

  lemma {:induction false} RunsLine(h: Hash, rows: seq<Row>, log: seq<Committed>, run: Str)
    requires Lists(h, rows, log)
    ensures Lists(h, RowsOf(rows, run), Where(log, RunOf, run))
  {
    if rows != [] {
      var n := |rows| - 1;
      assert rows[..n] + [rows[n]] == rows && log[..n] + [log[n]] == log;
      RunsLine(h, rows[..n], log[..n], run);
      RowsOfPush(rows[..n], rows[n], run);
      WherePush(log[..n], log[n], RunOf, run);
      assert Records(h, rows[n], log[n]);
      assert rows[n].runId == RunOf(log[n]);
      hide Records, RowsOf, RunOf;
    }
  }

  /** Whatever programs append to an empty table: the chain of a run, as both verifiers read
      it, lists exactly the events that were committed for the run, in their order. */
  lemma ChainIsLog(h: Hash, versioned: bool, s: Script, run: Str)
    requires ProperScript(s)
    ensures var st := Store([], versioned);
      Lists(h, Chain(Perform(h, st, s).store.rows, run), Where(Log(h, st, s), RunOf, run))
  {
    var st := Store([], versioned);
    var rows := Perform(h, st, s).store.rows;
    assert EventStore.Sound(h, []);
    PerformKeepsSound(h, st, s);
    assert SoundChain(h, run, RowsOf(rows, run));
    PerformLogs(h, st, s);
    GrownFromNothing(h, st.rows, rows, Log(h, st, s));
    hide *;
    SoundIsOrdered(h, run, rows);
    RunsLine(h, rows, Log(h, st, s), run);
  }

  lemma GrownFromNothing(h: Hash, nothing: seq<Row>, rows: seq<Row>, log: seq<Committed>)
    requires nothing == [] && Grows(h, nothing, rows, log)
    ensures Lists(h, rows, log)
  {
    hide Records;
    forall i | 0 <= i < |rows| ensures Records(h, rows[i], log[i]) {
      assert rows[|nothing| + i] == rows[i];
    }
  }
}
