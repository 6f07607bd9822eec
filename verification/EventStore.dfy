// run_events as a table, its three appenders, and programs that nest them in SQLite
// transactions which commit, throw, or are caught.

module EventStore {
  import opened Json
  import opened JsonRoundTrip
  import opened CanonicalJson
  import opened AuditEnvelope
  import opened AuditChain
  import opened EventOrder

  /* ---------- a run's chain: SELECT ... WHERE run_id = ? ORDER BY sequence ASC ---------- */

  function RunIdOf(r: Row): Str { r.runId }

  function SequenceOf(r: Row): int { r.sequence }

  function RowsOf(rows: seq<Row>, run: Str): seq<Row> { Where(rows, RunIdOf, run) }

  function Chain(rows: seq<Row>, run: Str): seq<Row> { OrderBy(RowsOf(rows, run), SequenceOf) }

  /** MAX(sequence), or 0. */
  function LastSequence(chain: seq<Row>): int { if chain == [] then 0 else chain[|chain| - 1].sequence }

  function LastHash(chain: seq<Row>): Str { if chain == [] then GENESIS else chain[|chain| - 1].eventHash }

  /* ---------- one append ---------- */

  /** What a caller and the clock supply for one event. */
  datatype Entry = Entry(
    id: Str,
    runId: Str,
    workspaceId: Option<Str>,
    eventType: Str,
    payload: Value,
    policyVersionHash: Option<Str>,
    redactionRuleVersion: Option<Str>,
    createdAt: Str
  )

  /** The table, and whether the migration that added hash_envelope_version has run. */
  datatype Store = Store(rows: seq<Row>, versioned: bool)

  /** Sequence, previous hash, payload text and payload hash, as every appender sets them. */
  function Draft(h: Hash, rows: seq<Row>, run: Str, e: Entry, version: Option<Str>): Row {
    var chain := Chain(rows, run);
    var text := CanonicalJSON(e.payload);
    Row(e.id, run, e.workspaceId, LastSequence(chain) + 1, e.eventType, text, Some(h(text)), LastHash(chain), [],
        version, e.policyVersionHash, e.redactionRuleVersion, e.createdAt)
  }

  function Seal(h: Hash, r: Row): Row { r.(eventHash := h(Input(r))) }

  function NullIfEmpty(s: Option<Str>): Option<Str> { if s == Some([]) then None else s }

  /** appendRunEventInTransaction hashes the versions it was given and stores '' as null. */
  function DatabaseRow(h: Hash, st: Store, e: Entry): Row {
    Seal(h, Draft(h, st.rows, e.runId, e, if st.versioned then Some(V2) else None))
      .(policyVersionHash := NullIfEmpty(e.policyVersionHash),
        redactionRuleVersion := NullIfEmpty(e.redactionRuleVersion))
  }

  /** Events without a run go to the chain of their event type. */
  function RunKey(e: Entry): Str { if e.runId == [] then Ascii("__admin__:") + e.eventType else e.runId }

  function AuditedRow(h: Hash, st: Store, e: Entry): Row { Seal(h, Draft(h, st.rows, RunKey(e), e, Some(V2))) }

  function LegacyRow(h: Hash, st: Store, e: Entry): Row { Seal(h, Draft(h, st.rows, e.runId, e, Some(V1))) }

  datatype Outcome = Outcome(store: Store, threw: bool)

  predicate Clash(r: Row, s: Row) {
    r.id == s.id || r.eventHash == s.eventHash || (r.runId == s.runId && r.sequence == s.sequence)
  }

  predicate Violates(rows: seq<Row>, r: Row) { exists i :: 0 <= i < |rows| && Clash(rows[i], r) }

  /** INSERT: the primary key, UNIQUE(event_hash) and UNIQUE(run_id, sequence). */
  function Insert(st: Store, r: Row): Outcome {
    if Violates(st.rows, r) then Outcome(st, true) else Outcome(st.(rows := st.rows + [r]), false)
  }

  function DatabaseAppend(h: Hash, st: Store, e: Entry): Outcome { Insert(st, DatabaseRow(h, st, e)) }

  /** The statements of the other two name the version column. */
  function AuditedAppend(h: Hash, st: Store, e: Entry): Outcome {
    if !st.versioned then Outcome(st, true) else Insert(st, AuditedRow(h, st, e))
  }

  function LegacyAppend(h: Hash, st: Store, e: Entry): Outcome {
    if !st.versioned then Outcome(st, true) else Insert(st, LegacyRow(h, st, e))
  }

  /* ---------- programs ---------- */

  /** Code that uses the store: statements in order, db.transaction around some of them
      (a savepoint when nested), transactionalAppend around a body, a caught exception,
      a thrown one, and the migration. */
  datatype Script =
    | Skip
    | Throw
    | Migrate
    | Append(entry: Entry)
    | AppendLegacy(entry: Entry)
    | Then(first: Script, second: Script)
    | Transaction(body: Script)
    | Audited(entry: Entry, body: Script)
    | Caught(body: Script)

  function AndThen(h: Hash, o: Outcome, s: Script): Outcome
    decreases s, 1
  {
    if o.threw then o else Perform(h, o.store, s)
  }

  /** A transaction that throws restores the store and throws on. */
  function Atomic(before: Store, o: Outcome): Outcome { if o.threw then Outcome(before, true) else o }

  function Perform(h: Hash, st: Store, s: Script): Outcome
    decreases s, 0
  {
    match s
    case Skip => Outcome(st, false)
    case Throw => Outcome(st, true)
    case Migrate => Outcome(st.(versioned := true), false)
    case Append(e) => DatabaseAppend(h, st, e)
    case AppendLegacy(e) => LegacyAppend(h, st, e)
    case Then(a, b) => AndThen(h, Perform(h, st, a), b)
    case Transaction(body) => Atomic(st, Perform(h, st, body))
    case Audited(e, body) => Atomic(st, AndThen(h, AuditedAppend(h, st, e), body))
    case Caught(body) => Outcome(Perform(h, st, body).store, false)
  }

  /** Payloads are JavaScript objects: their keys are distinct. */
  ghost predicate ProperScript(s: Script) {
    match s
    case Append(e) => Proper(e.payload)
    case AppendLegacy(e) => Proper(e.payload)
    case Then(a, b) => ProperScript(a) && ProperScript(b)
    case Transaction(body) => ProperScript(body)
    case Audited(e, body) => Proper(e.payload) && ProperScript(body)
    case Caught(body) => ProperScript(body)
    case _ => true
  }

  /* ---------- what every append keeps ---------- */

  predicate KnownVersion(r: Row) { r.envelopeVersion == None || r.envelopeVersion == Some(V1) || r.envelopeVersion == Some(V2) }

  /** A row that both verifiers accept at position i of its run's chain. */
  predicate SoundRow(h: Hash, run: Str, chain: seq<Row>, i: nat)
    requires i < |chain|
  {
    var r := chain[i];
    && r.runId == run
    && r.sequence == i + 1
    && r.previousHash == Previous(chain, i)
    && KnownVersion(r)
    && StoresCanonical(h, r)
    && r.eventHash == h(Input(r))
  }

  predicate SoundChain(h: Hash, run: Str, chain: seq<Row>) {
    forall i :: 0 <= i < |chain| ==> SoundRow(h, run, chain, i)
  }

  ghost predicate Sound(h: Hash, rows: seq<Row>) { forall run: Str :: SoundChain(h, run, RowsOf(rows, run)) }

  lemma SoundIsOrdered(h: Hash, run: Str, rows: seq<Row>)
    requires SoundChain(h, run, RowsOf(rows, run))
    ensures Chain(rows, run) == RowsOf(rows, run)
    ensures LastSequence(Chain(rows, run)) == |Chain(rows, run)|
  {
    hide Input, StoresCanonical, RowsOf, OrderBy, Previous;
    var chain := RowsOf(rows, run);
    forall i | 0 <= i < |chain| ensures chain[i].sequence == i + 1 {
      assert SoundRow(h, run, chain, i);
    }
    NumberedIsOrdered(chain, SequenceOf);
  }

  lemma RowsOfPush(rows: seq<Row>, r: Row, run: Str)
    ensures RowsOf(rows + [r], run) == if r.runId == run then RowsOf(rows, run) + [r] else RowsOf(rows, run)
  {
    WherePush(rows, r, RunIdOf, run);
  }

  /** The row that extends a sound chain. */
  predicate Extends(h: Hash, chain: seq<Row>, r: Row) {
    && r.sequence == |chain| + 1
    && r.previousHash == LastHash(chain)
    && KnownVersion(r)
    && StoresCanonical(h, r)
    && r.eventHash == h(Input(r))
  }

  lemma SoundPush(h: Hash, run: Str, chain: seq<Row>, r: Row)
    requires SoundChain(h, run, chain) && Extends(h, chain, r) && r.runId == run
    ensures SoundChain(h, run, chain + [r])
  {
    hide Input, StoresCanonical, KnownVersion;
    var longer := chain + [r];
    forall i | 0 <= i < |longer| ensures SoundRow(h, run, longer, i) {
      if i < |chain| {
        assert SoundRow(h, run, chain, i);
      }
    }
  }

  lemma PushKeepsSound(h: Hash, rows: seq<Row>, r: Row)
    requires Sound(h, rows) && Extends(h, RowsOf(rows, r.runId), r)
    ensures Sound(h, rows + [r])
  {
    hide SoundChain, RowsOf, Extends;
    forall run: Str ensures SoundChain(h, run, RowsOf(rows + [r], run)) {
      RowsOfPush(rows, r, run);
      if r.runId == run {
        SoundPush(h, run, RowsOf(rows, run), r);
      }
    }
  }

  lemma CanonicalTextIsStored(h: Hash, payload: Value)
    requires Proper(payload)
    ensures Canonical(CanonicalJSON(payload)) == Some(CanonicalJSON(payload))
  {
    CanonicalIsStable(payload);
    hide CanonicalJSON, Parse;
  }

  lemma SealExtends(h: Hash, rows: seq<Row>, run: Str, e: Entry, version: Option<Str>)
    requires Sound(h, rows) && Proper(e.payload)
    requires version == None || version == Some(V1) || version == Some(V2)
    ensures var r := Seal(h, Draft(h, rows, run, e, version));
      r.runId == run && Extends(h, RowsOf(rows, run), r)
  {
    assert SoundChain(h, run, RowsOf(rows, run));
    hide Sound, Input, CanonicalJSON, RowsOf, Chain, Canonical, SoundChain;
    CanonicalTextIsStored(h, e.payload);
    SoundIsOrdered(h, run, rows);
    SealIsSealed(h, Draft(h, rows, run, e, version));
  }

  /** The event hash is not part of its own input. */
  lemma SealIsSealed(h: Hash, r: Row)
    ensures Seal(h, r).eventHash == h(Input(Seal(h, r)))
  {
    hide CanonicalJSON, Members;
  }

  lemma NullIsEmpty(r: Row)
    ensures var n := r.(policyVersionHash := NullIfEmpty(r.policyVersionHash),
                        redactionRuleVersion := NullIfEmpty(r.redactionRuleVersion));
      Input(n) == Input(r)
  {
    hide CanonicalJSON, Members;
  }

  lemma DatabaseRowExtends(h: Hash, st: Store, e: Entry)
    requires Sound(h, st.rows) && Proper(e.payload)
    ensures DatabaseRow(h, st, e).runId == e.runId
    ensures Extends(h, RowsOf(st.rows, e.runId), DatabaseRow(h, st, e))
  {
    hide Sound, RowsOf, Canonical, Draft;
    var version := if st.versioned then Some(V2) else None;
    SealExtends(h, st.rows, e.runId, e, version);
    var r := Seal(h, Draft(h, st.rows, e.runId, e, version));
    NullIsEmpty(r);
    assert r.policyVersionHash == e.policyVersionHash && r.redactionRuleVersion == e.redactionRuleVersion by {
      DraftVersions(h, st.rows, e.runId, e, version);
    }
    hide Input;
  }

  lemma DraftVersions(h: Hash, rows: seq<Row>, run: Str, e: Entry, version: Option<Str>)
    ensures var r := Draft(h, rows, run, e, version);
      r.policyVersionHash == e.policyVersionHash && r.redactionRuleVersion == e.redactionRuleVersion
  {
  }

  lemma AppendsKeepSound(h: Hash, st: Store, e: Entry)
    requires Sound(h, st.rows) && Proper(e.payload)
    ensures Sound(h, DatabaseAppend(h, st, e).store.rows)
    ensures Sound(h, AuditedAppend(h, st, e).store.rows)
    ensures Sound(h, LegacyAppend(h, st, e).store.rows)
  {
    DatabaseRowExtends(h, st, e);
    SealExtends(h, st.rows, RunKey(e), e, Some(V2));
    SealExtends(h, st.rows, e.runId, e, Some(V1));
    hide Sound, Extends, RowsOf, DatabaseRow, Draft, Seal, Violates, RunKey;
    PushKeepsSound(h, st.rows, DatabaseRow(h, st, e));
    PushKeepsSound(h, st.rows, AuditedRow(h, st, e));
    PushKeepsSound(h, st.rows, LegacyRow(h, st, e));
  }

  lemma {:induction false} PerformKeepsSound(h: Hash, st: Store, s: Script)
    requires Sound(h, st.rows) && ProperScript(s)
    ensures Sound(h, Perform(h, st, s).store.rows)
    decreases s
  {
    hide Sound, Proper, DatabaseAppend, LegacyAppend, AuditedAppend;
    match s
    case Append(e) => AppendsKeepSound(h, st, e);
    case AppendLegacy(e) => AppendsKeepSound(h, st, e);
    case Then(a, b) =>
      PerformKeepsSound(h, st, a);
      PerformKeepsSound(h, Perform(h, st, a).store, b);
    case Transaction(body) => PerformKeepsSound(h, st, body);
    case Audited(e, body) =>
      AppendsKeepSound(h, st, e);
      PerformKeepsSound(h, AuditedAppend(h, st, e).store, body);
    case Caught(body) => PerformKeepsSound(h, st, body);
    case _ =>
  }

  lemma SoundIsAccepted(h: Hash, run: Str, chain: seq<Row>)
    requires SoundChain(h, run, chain)
    ensures RunOk(h, chain) && (chain != [] ==> AuditOk(h, run, chain))
  {
    hide Input, Canonical;
    forall i | 0 <= i < |chain| ensures RunRowOk(h, chain, i) && AuditRowOk(h, run, chain, i) && chain[i].sequence == i + 1 {
      assert SoundRow(h, run, chain, i);
      assert WithText(chain[i], chain[i].payloadJson) == chain[i];
    }
  }

  /** Whatever programs append from an empty table, in whatever nesting, with whatever
      rollbacks: both verifiers accept every run's chain that is not empty. */
  lemma EveryChainVerifies(h: Hash, versioned: bool, s: Script, run: Str)
    requires ProperScript(s)
    ensures var chain := Chain(Perform(h, Store([], versioned), s).store.rows, run);
      RunOk(h, chain) && (chain != [] ==> AuditOk(h, run, chain))
  {
    assert Sound(h, []);
    PerformKeepsSound(h, Store([], versioned), s);
    var rows := Perform(h, Store([], versioned), s).store.rows;
    assert SoundChain(h, run, RowsOf(rows, run));
    hide *;
    SoundIsOrdered(h, run, rows);
    SoundIsAccepted(h, run, RowsOf(rows, run));
  }

  /* ---------- append only, all or nothing ---------- */

  /** No program rewrites or drops a row that was there before it. */
  lemma {:induction false} PerformAppendsOnly(h: Hash, st: Store, s: Script)
    ensures st.rows <= Perform(h, st, s).store.rows
    decreases s
  {
    hide DatabaseRow, AuditedRow, LegacyRow, Violates;
    match s
    case Then(a, b) =>
      PerformAppendsOnly(h, st, a);
      PerformAppendsOnly(h, Perform(h, st, a).store, b);
    case Transaction(body) => PerformAppendsOnly(h, st, body);
    case Audited(e, body) => PerformAppendsOnly(h, AuditedAppend(h, st, e).store, body);
    case Caught(body) => PerformAppendsOnly(h, st, body);
    case _ =>
  }

  /** transactionalAppend: the event is stored first if the body commits, and nothing at
      all changes if it throws. */
  lemma AuditedIsAtomic(h: Hash, st: Store, e: Entry, body: Script)
    ensures var o := Perform(h, st, Audited(e, body));
      if o.threw then o.store == st
      else |o.store.rows| > |st.rows| && o.store.rows[|st.rows|] == AuditedRow(h, st, e) && st.versioned
  {
    hide AuditedRow, Violates;
    var first := AuditedAppend(h, st, e);
    PerformAppendsOnly(h, first.store, body);
    AuditedIs(h, st, e, body);
    hide Perform;
  }

  lemma AuditedIs(h: Hash, st: Store, e: Entry, body: Script)
    ensures Perform(h, st, Audited(e, body)) == Atomic(st, AndThen(h, AuditedAppend(h, st, e), body))
  {
    hide AuditedAppend;
  }

  /* ---------- when an append is refused ---------- */

  lemma SoundStoredRow(h: Hash, rows: seq<Row>, i: nat)
    requires Sound(h, rows) && HexDigests(h) && i < |rows|
    ensures IsDigest(rows[i].previousHash) && rows[i].eventHash == h(Input(rows[i]))
    ensures rows[i].sequence <= |RowsOf(rows, rows[i].runId)|
  {
    var run := rows[i].runId;
    var k := WhereFinds(rows, RunIdOf, i);
    assert SoundChain(h, run, RowsOf(rows, run));
    hide Input, IsHexDigit, StoresCanonical, RowsOf, KnownVersion, Sound;
    assert SoundRow(h, run, RowsOf(rows, run), k);
    GenesisIsDigest();
    if k > 0 {
      assert SoundRow(h, run, RowsOf(rows, run), k - 1);
    }
  }

  lemma SoundLastHash(h: Hash, run: Str, chain: seq<Row>)
    requires SoundChain(h, run, chain) && HexDigests(h)
    ensures IsDigest(LastHash(chain))
  {
    hide Input, IsHexDigit, StoresCanonical, KnownVersion, IsDigest;
    GenesisIsDigest();
    if chain != [] {
      assert SoundRow(h, run, chain, |chain| - 1);
    }
  }

  /** A stored row stands in the way of the next row of some chain only with the id or
      with the whole signed part. */
  lemma ClashesAre(h: Hash, rows: seq<Row>, r: Row, i: nat)
    requires Sound(h, rows) && HexDigests(h) && Extends(h, RowsOf(rows, r.runId), r) && i < |rows|
    requires NoCollision(h, Inputs(rows) + {Input(r)})
    ensures rows[i].eventHash == r.eventHash <==> SignedPart(rows[i]) == SignedPart(r)
    ensures !(rows[i].runId == r.runId && rows[i].sequence == r.sequence)
  {
    SoundStoredRow(h, rows, i);
    SoundLastHash(h, r.runId, RowsOf(rows, r.runId));
    InInputs(rows, i);
    hide Sound, HexDigests, RowsOf, Input, Inputs, NoCollision, SignedPart, IsDigest, StoresCanonical;
    var stored := rows[i];
    if stored.eventHash == r.eventHash {
      Uncollided(h, Inputs(rows) + {Input(r)}, Input(stored), Input(r));
      InputIsInjective(stored, r);
    }
    if SignedPart(stored) == SignedPart(r) {
      SignedPartFixesInput(stored, r);
    }
  }

  lemma SignedIds(r: Row, s: Row)
    requires SignedPart(r) == SignedPart(s) && Version(s) == V2
    ensures r.id == s.id
  {
    assert Envelope(r)[1] == Envelope(s)[1];
  }

  predicate IdTaken(rows: seq<Row>, id: Str) { exists i :: 0 <= i < |rows| && rows[i].id == id }

  lemma DraftIs(h: Hash, rows: seq<Row>, run: Str, e: Entry, version: Option<Str>)
    ensures var r := Seal(h, Draft(h, rows, run, e, version));
      r.id == e.id && r.envelopeVersion == version && r.runId == run && r.payloadJson == CanonicalJSON(e.payload)
  {
  }

  /** The audit log never gets in the way of a v2 event: as long as no two of the inputs
      that occur collide, the append fails exactly if the event id is taken. */
  lemma AuditedRefusedIff(h: Hash, st: Store, e: Entry)
    requires Sound(h, st.rows) && HexDigests(h) && Proper(e.payload) && st.versioned
    requires NoCollision(h, Inputs(st.rows) + {Input(AuditedRow(h, st, e))})
    ensures AuditedAppend(h, st, e).threw <==> IdTaken(st.rows, e.id)
  {
    var r := AuditedRow(h, st, e);
    SealExtends(h, st.rows, RunKey(e), e, Some(V2));
    DraftIs(h, st.rows, RunKey(e), e, Some(V2));
    assert Violates(st.rows, r) <==> IdTaken(st.rows, e.id) by {
      hide Sound, HexDigests, AuditedRow, Draft, RowsOf, Extends, RunKey, SignedPart, NoCollision, Input, Inputs;
      forall i | 0 <= i < |st.rows|
        ensures Clash(st.rows[i], r) <==> st.rows[i].id == r.id
      {
        ClashesAre(h, st.rows, r, i);
        if SignedPart(st.rows[i]) == SignedPart(r) {
          SignedIds(st.rows[i], r);
        }
      }
    }
  }

  /** The stored v1 event with this payload and this predecessor. */
  predicate TwinStored(rows: seq<Row>, text: Str, previousHash: Str) {
    exists i :: 0 <= i < |rows| && SignedPart(rows[i]) == SignedV1(text, previousHash)
  }

  /** A legacy event is also refused when any run, this one or another, already stores
      the same payload after the same hash: v1 hashes carry no run id. */
  lemma LegacyRefusedIff(h: Hash, st: Store, e: Entry)
    requires Sound(h, st.rows) && HexDigests(h) && Proper(e.payload) && st.versioned
    requires NoCollision(h, Inputs(st.rows) + {Input(LegacyRow(h, st, e))})
    ensures LegacyAppend(h, st, e).threw <==>
      IdTaken(st.rows, e.id) || TwinStored(st.rows, CanonicalJSON(e.payload), LastHash(Chain(st.rows, e.runId)))
  {
    var r := LegacyRow(h, st, e);
    SealExtends(h, st.rows, e.runId, e, Some(V1));
    LegacySigned(h, st, e);
    hide Sound, HexDigests, LegacyRow, RowsOf, Chain, Extends, SignedPart, NoCollision, Input, Inputs, CanonicalJSON;
    forall i | 0 <= i < |st.rows|
      ensures Clash(st.rows[i], r) <==> st.rows[i].id == r.id || SignedPart(st.rows[i]) == SignedPart(r)
    {
      ClashesAre(h, st.rows, r, i);
    }
    assert Violates(st.rows, r) <==> IdTaken(st.rows, e.id) || TwinStored(st.rows, r.payloadJson, r.previousHash);
  }

  lemma LegacySigned(h: Hash, st: Store, e: Entry)
    ensures var r := LegacyRow(h, st, e);
      && r.id == e.id && r.payloadJson == CanonicalJSON(e.payload) && r.previousHash == LastHash(Chain(st.rows, e.runId))
      && r.runId == e.runId && SignedPart(r) == SignedV1(r.payloadJson, r.previousHash)
  {
    assert V1[1] != V2[1];
    hide CanonicalJSON, Chain;
  }

  lemma EmptyRun(r: Row, run: Str)
    requires r.runId != run
    ensures Chain([r], run) == [] && Chain([], run) == []
  {
    RowsOfPush([], r, run);
    assert [] + [r] == [r];
  }

  lemma TwoLegacy(h: Hash, st: Store, e: Entry, f: Entry)
    ensures var first := LegacyAppend(h, st, e);
      Perform(h, st, Then(AppendLegacy(e), AppendLegacy(f))) ==
        if first.threw then first else LegacyAppend(h, first.store, f)
  {
    hide LegacyAppend;
    assert Perform(h, st, AppendLegacy(e)) == LegacyAppend(h, st, e);
    assert forall st: Store :: Perform(h, st, AppendLegacy(f)) == LegacyAppend(h, st, f);
  }

  /** So runs are not independent: the second of two runs that begin with the same
      legacy payload cannot be begun. */
  lemma SecondLegacyRunRefused(h: Hash, e: Entry, f: Entry)
    requires e.runId != f.runId && e.id != f.id && CanonicalJSON(e.payload) == CanonicalJSON(f.payload)
    ensures var o := Perform(h, Store([], true), Then(AppendLegacy(e), AppendLegacy(f)));
      o.threw && |o.store.rows| == 1
  {
    var first := LegacyRow(h, Store([], true), e);
    var st := Store([first], true);
    var second := LegacyRow(h, st, f);
    TwoLegacy(h, Store([], true), e, f);
    LegacySigned(h, Store([], true), e);
    LegacySigned(h, st, f);
    EmptyRun(first, f.runId);
    EmptyRun(second, e.runId);
    SealIsSealed(h, Draft(h, [], e.runId, e, Some(V1)));
    SealIsSealed(h, Draft(h, [first], f.runId, f, Some(V1)));
    hide Seal, Draft, Chain, SignedPart, Input, CanonicalJSON, Perform;
    SignedPartFixesInput(second, first);
    assert Clash(st.rows[0], second);
    assert LegacyAppend(h, Store([], true), e) == Outcome(st, false);
  }
}
