// The two database verifiers of a run's chain as predicates on its rows, how they
// relate, and what an accepted chain proves about the stored rows.

module AuditChain {
  import opened Json
  import opened JsonRoundTrip
  import opened CanonicalJson
  import opened AuditEnvelope

  /** The stored text parsed and printed again; None when it is not JSON. */
  function Canonical(text: Str): Option<Str> {
    match Parse(text)
    case None => None
    case Some(v) => Some(CanonicalJSON(v))
  }

  function Previous(rows: seq<Row>, i: nat): Str
    requires i < |rows|
  {
    if i == 0 then GENESIS else rows[i - 1].eventHash
  }

  /** The hashes of a row whose payload reads canonically as the given text. */
  predicate RunHashesOk(h: Hash, r: Row, text: Str) {
    && (Version(r) == V2 ==> r.payloadJson == text)
    && r.payloadHash == Some(h(text))
    && (Version(r) == V2 || Version(r) == V1)
    && r.eventHash == h(Input(WithText(r, text)))
  }

  function WithText(r: Row, text: Str): Row { r.(payloadJson := text) }

  /** verifyRunChain on one row, apart from the sequence number: both versions hash the
      canonical form of the stored text. */
  predicate RunRowOk(h: Hash, rows: seq<Row>, i: nat)
    requires i < |rows|
  {
    && rows[i].previousHash == Previous(rows, i)
    && Canonical(rows[i].payloadJson).Some?
    && RunHashesOk(h, rows[i], Canonical(rows[i].payloadJson).value)
  }

  predicate Numbered(rows: seq<Row>) { forall i :: 0 <= i < |rows| ==> rows[i].sequence == i + 1 }

  predicate RunOk(h: Hash, rows: seq<Row>) {
    Numbered(rows) && forall i :: 0 <= i < |rows| ==> RunRowOk(h, rows, i)
  }

  /** verifyAuditChain on one row: a v1 row is hashed as it was written. */
  predicate AuditRowOk(h: Hash, run: Str, rows: seq<Row>, i: nat)
    requires i < |rows|
  {
    var r := rows[i];
    && r.runId == run
    && r.previousHash == Previous(rows, i)
    && (if Version(r) == V2 then
          Canonical(r.payloadJson) == Some(r.payloadJson) && r.payloadHash == Some(h(r.payloadJson))
        else Version(r) == V1)
    && r.eventHash == h(Input(r))
  }

  predicate AuditOk(h: Hash, run: Str, rows: seq<Row>) {
    rows != [] && forall i :: 0 <= i < |rows| ==> AuditRowOk(h, run, rows, i)
  }

  /* ---------- the two verifiers compared ---------- */

  /** The row stores canonical JSON and its hash, as every appender writes it. */
  predicate StoresCanonical(h: Hash, r: Row) {
    Canonical(r.payloadJson) == Some(r.payloadJson) && r.payloadHash == Some(h(r.payloadJson))
  }

  lemma RowsAgree(h: Hash, run: Str, rows: seq<Row>, i: nat)
    requires i < |rows| && rows[i].runId == run
    requires Version(rows[i]) == V1 ==> StoresCanonical(h, rows[i])
    ensures RunRowOk(h, rows, i) <==> AuditRowOk(h, run, rows, i)
  {
    hide Canonical, Input;
    var r := rows[i];
    assert WithText(r, r.payloadJson) == r;
  }

  /** On a non-empty chain of the run whose v1 rows store canonical JSON, the verifiers
      differ in one thing: only verifyRunChain numbers the events. */
  lemma VerifiersAgreeIffNumbered(h: Hash, run: Str, rows: seq<Row>)
    requires rows != [] && forall i :: 0 <= i < |rows| ==> rows[i].runId == run
    requires forall i :: 0 <= i < |rows| && Version(rows[i]) == V1 ==> StoresCanonical(h, rows[i])
    ensures RunOk(h, rows) <==> AuditOk(h, run, rows) && Numbered(rows)
  {
    hide RunRowOk, AuditRowOk, StoresCanonical;
    forall i | 0 <= i < |rows| ensures RunRowOk(h, rows, i) <==> AuditRowOk(h, run, rows, i) {
      RowsAgree(h, run, rows, i);
    }
  }

  /** A legacy chain of one event whose stored text is not JSON at all. */
  function RawLegacy(h: Hash, run: Str, text: Str): Row {
    Row([], run, None, 1, [], text, None, GENESIS, h(V1Input(text, GENESIS)), None, None, None, [])
  }

  /** Without canonical v1 rows they do not agree: verifyAuditChain accepts a legacy
      text that verifyRunChain cannot even parse. */
  lemma LegacyTextDivides(h: Hash, run: Str)
    ensures var rows := [RawLegacy(h, run, Ascii("x"))];
      AuditOk(h, run, rows) && !RunOk(h, rows) && Numbered(rows)
  {
    var rows := [RawLegacy(h, run, Ascii("x"))];
    assert Parse(Ascii("x")) == None;
    assert !RunRowOk(h, rows, 0);
    assert V1 != V2 by { assert V1[1] != V2[1]; }
  }

  /* ---------- tamper evidence ---------- */

  ghost function Inputs(rows: seq<Row>): set<Str> { set i | 0 <= i < |rows| :: Input(rows[i]) }

  /** No event's hash is the genesis constant. */
  ghost predicate NoneIsGenesis(h: Hash, inputs: set<Str>) { forall x :: x in inputs ==> h(x) != GENESIS }

  /** What verifyRunChain hashes instead of the stored input: the canonical form. */
  function CanonicalInput(r: Row): Str {
    if Canonical(r.payloadJson).Some? then Input(WithText(r, Canonical(r.payloadJson).value)) else Input(r)
  }

  ghost function CanonicalInputs(rows: seq<Row>): set<Str> { set i | 0 <= i < |rows| :: CanonicalInput(rows[i]) }

  lemma CanonicalLegacyRow(h: Hash, run: Str, rows: seq<Row>, i: nat)
    requires i < |rows| && AuditRowOk(h, run, rows, i) && RunRowOk(h, rows, i) && Version(rows[i]) == V1
    requires NoCollision(h, Inputs(rows) + CanonicalInputs(rows))
    ensures StoresCanonical(h, rows[i])
  {
    var r := rows[i];
    var text := Canonical(r.payloadJson).value;
    assert V1 != V2 by { assert V1[1] != V2[1]; }
    assert Input(r) in Inputs(rows) && CanonicalInput(r) in CanonicalInputs(rows);
    hide Canonical, V2Input, Inputs, CanonicalInputs, NoCollision;
    Uncollided(h, Inputs(rows) + CanonicalInputs(rows), Input(r), CanonicalInput(r));
    V1InputIsInjective(r.payloadJson, r.previousHash, text, r.previousHash);
  }

  /** Exactly which accepted chains the other verifier accepts too: a numbered chain that
      verifyAuditChain accepts passes verifyRunChain if and only if every v1 row stores
      canonical JSON and its hash. */
  lemma RunAcceptsIffCanonical(h: Hash, run: Str, rows: seq<Row>)
    requires AuditOk(h, run, rows) && Numbered(rows) && NoCollision(h, Inputs(rows) + CanonicalInputs(rows))
    ensures RunOk(h, rows) <==>
      forall i :: 0 <= i < |rows| && Version(rows[i]) == V1 ==> StoresCanonical(h, rows[i])
  {
    hide RunRowOk, StoresCanonical, Version, Numbered, NoCollision, Inputs, CanonicalInputs;
    if RunOk(h, rows) {
      forall i | 0 <= i < |rows| && Version(rows[i]) == V1 ensures StoresCanonical(h, rows[i]) {
        CanonicalLegacyRow(h, run, rows, i);
      }
    }
    if forall i :: 0 <= i < |rows| && Version(rows[i]) == V1 ==> StoresCanonical(h, rows[i]) {
      forall i | 0 <= i < |rows| ensures rows[i].runId == run {
        assert AuditRowOk(h, run, rows, i);
      }
      hide AuditRowOk;
      VerifiersAgreeIffNumbered(h, run, rows);
    }
  }

  lemma AcceptedPrefix(h: Hash, run: Str, rows: seq<Row>)
    requires AuditOk(h, run, rows) && |rows| > 1
    ensures AuditOk(h, run, rows[..|rows| - 1]) && Inputs(rows[..|rows| - 1]) <= Inputs(rows)
    ensures rows[|rows| - 1].previousHash == rows[|rows| - 2].eventHash
  {
    hide Input, Canonical, Version;
    var init := rows[..|rows| - 1];
    assert AuditRowOk(h, run, rows, |rows| - 1);
    forall i | 0 <= i < |init| ensures AuditRowOk(h, run, init, i) {
      assert AuditRowOk(h, run, rows, i);
    }
  }

  lemma LastAccepted(h: Hash, run: Str, rows: seq<Row>)
    requires AuditOk(h, run, rows) && HexDigests(h)
    ensures var r := rows[|rows| - 1];
      && IsDigest(r.previousHash) && r.eventHash == h(Input(r)) && Input(r) in Inputs(rows)
      && (|rows| == 1 ==> r.previousHash == GENESIS)
  {
    hide Input, Canonical, Version, IsHexDigit, IsDigest;
    var n := |rows| - 1;
    assert AuditRowOk(h, run, rows, n);
    GenesisIsDigest();
    if n > 0 {
      assert AuditRowOk(h, run, rows, n - 1);
    }
  }

  lemma SignedPrevious(a: Row, b: Row)
    requires SignedPart(a) == SignedPart(b)
    ensures a.previousHash == b.previousHash
  {
    if Version(a) == V2 {
      assert Envelope(a)[11] == Envelope(b)[11];
    }
  }

  /** Two last rows with one hash are signed alike. */
  lemma SameLastRow(h: Hash, runA: Str, a: seq<Row>, runB: Str, b: seq<Row>)
    requires AuditOk(h, runA, a) && AuditOk(h, runB, b) && HexDigests(h)
    requires NoCollision(h, Inputs(a) + Inputs(b))
    requires a[|a| - 1].eventHash == b[|b| - 1].eventHash
    ensures SignedPart(a[|a| - 1]) == SignedPart(b[|b| - 1])
    ensures a[|a| - 1].previousHash == b[|b| - 1].previousHash
  {
    assert a != [] && b != [];
    hide *;
    LastAccepted(h, runA, a);
    LastAccepted(h, runB, b);
    var x, y := a[|a| - 1], b[|b| - 1];
    Uncollided(h, Inputs(a) + Inputs(b), Input(x), Input(y));
    InputIsInjective(x, y);
    SignedPrevious(x, y);
  }

  lemma Uncollided(h: Hash, inputs: set<Str>, x: Str, y: Str)
    requires NoCollision(h, inputs) && x in inputs && y in inputs && h(x) == h(y)
    ensures x == y
  {
  }

  lemma NeverGenesis(h: Hash, run: Str, rows: seq<Row>)
    requires AuditOk(h, run, rows) && HexDigests(h) && NoneIsGenesis(h, Inputs(rows))
    ensures rows[|rows| - 1].eventHash != GENESIS
  {
    hide AuditOk, Input, Inputs, HexDigests, IsDigest;
    LastAccepted(h, run, rows);
  }

  /** Equal length, and row by row equal in everything signed. */
  ghost predicate SignedAlike(a: seq<Row>, b: seq<Row>) {
    |a| == |b| && forall i :: 0 <= i < |a| ==> SignedPart(a[i]) == SignedPart(b[i])
  }

  /** Tamper evidence: two accepted chains, of whatever versions, that end in the same
      event hash have the same length and agree event by event on everything signed. */
  lemma {:induction false} SameLastHashSameChain(h: Hash, runA: Str, a: seq<Row>, runB: Str, b: seq<Row>)
    requires AuditOk(h, runA, a) && AuditOk(h, runB, b) && HexDigests(h)
    requires NoCollision(h, Inputs(a) + Inputs(b)) && NoneIsGenesis(h, Inputs(a) + Inputs(b))
    requires a[|a| - 1].eventHash == b[|b| - 1].eventHash
    ensures SignedAlike(a, b)
  {
    AuditNonEmpty(h, runA, a);
    AuditNonEmpty(h, runB, b);
    hide *;
    SameLastRow(h, runA, a, runB, b);
    var all := Inputs(a) + Inputs(b);
    if |a| == 1 && |b| == 1 {
      SameOnlyRow(a, b);
    } else if |a| == 1 {
      AcceptedPrefix(h, runB, b);
      FewerInputs(h, all, Inputs(b[..|b| - 1]));
      NeverGenesis(h, runB, b[..|b| - 1]);
      LastAccepted(h, runA, a);
    } else if |b| == 1 {
      AcceptedPrefix(h, runA, a);
      FewerInputs(h, all, Inputs(a[..|a| - 1]));
      NeverGenesis(h, runA, a[..|a| - 1]);
      LastAccepted(h, runB, b);
    } else {
      AcceptedPrefix(h, runA, a);
      AcceptedPrefix(h, runB, b);
      FewerInputs(h, all, Inputs(a[..|a| - 1]) + Inputs(b[..|b| - 1]));
      SameLastHashSameChain(h, runA, a[..|a| - 1], runB, b[..|b| - 1]);
      SameBeforeLast(a, b);
    }
  }

  lemma AuditNonEmpty(h: Hash, run: Str, rows: seq<Row>)
    requires AuditOk(h, run, rows)
    ensures rows != []
  {
  }

  lemma FewerInputs(h: Hash, all: set<Str>, some: set<Str>)
    requires NoCollision(h, all) && NoneIsGenesis(h, all) && some <= all
    ensures NoCollision(h, some) && NoneIsGenesis(h, some)
  {
  }

  lemma SameOnlyRow(a: seq<Row>, b: seq<Row>)
    requires |a| == 1 && |b| == 1 && SignedPart(a[|a| - 1]) == SignedPart(b[|b| - 1])
    ensures SignedAlike(a, b)
  {
    hide SignedPart;
  }

  lemma SameBeforeLast(a: seq<Row>, b: seq<Row>)
    requires |a| > 1 && |b| > 1
    requires SignedAlike(a[..|a| - 1], b[..|b| - 1]) && SignedPart(a[|a| - 1]) == SignedPart(b[|b| - 1])
    ensures SignedAlike(a, b)
  {
    hide SignedPart;
    forall i | 0 <= i < |a| ensures SignedPart(a[i]) == SignedPart(b[i]) {
      if i < |a| - 1 {
        assert a[..|a| - 1][i] == a[i] && b[..|b| - 1][i] == b[i];
      }
    }
  }

  /** What can be rewritten behind an unchanged event hash without being noticed. */
  predicate Unnoticed(r: Row, s: Row) {
    SignedPart(r) == SignedPart(s) && (Version(r) == V2 ==> r.payloadHash == s.payloadHash)
  }

  /** A stored chain rewritten with its event hashes and run ids left alone is still
      accepted exactly if nothing signed changed: on v2 rows null and '' of the nullable
      columns are interchangeable and nothing else is; on v1 rows everything but the
      payload text and the previous hash is. */
  lemma RewriteAcceptedIff(h: Hash, run: Str, a: seq<Row>, b: seq<Row>)
    requires AuditOk(h, run, a) && |b| == |a| && HexDigests(h) && NoCollision(h, Inputs(a) + Inputs(b))
    requires SameHashes(run, a, b)
    ensures AuditOk(h, run, b) <==>
      forall i :: 0 <= i < |a| ==> Unnoticed(a[i], b[i]) && KnownVersion(b[i])
  {
    AuditNonEmpty(h, run, a);
    hide *;
    forall i | 0 <= i < |a|
      ensures AuditRowOk(h, run, b, i) <==> Unnoticed(a[i], b[i]) && KnownVersion(b[i])
    {
      RewrittenRow(h, run, a, b, i);
    }
    AcceptedMeans(h, run, b);
  }

  predicate KnownVersion(r: Row) { Version(r) == V2 || Version(r) == V1 }

  /** The rewrite leaves event hashes and run ids alone. */
  ghost predicate SameHashes(run: Str, a: seq<Row>, b: seq<Row>) {
    |a| == |b| && forall i :: 0 <= i < |a| ==> b[i].eventHash == a[i].eventHash && b[i].runId == run
  }

  lemma InInputs(rows: seq<Row>, i: nat)
    requires i < |rows|
    ensures Input(rows[i]) in Inputs(rows)
  {
    hide Input;
  }

  lemma AcceptedMeans(h: Hash, run: Str, rows: seq<Row>)
    ensures AuditOk(h, run, rows) <==> rows != [] && forall i :: 0 <= i < |rows| ==> AuditRowOk(h, run, rows, i)
  {
  }

  lemma PreviousIsDigest(h: Hash, run: Str, rows: seq<Row>, i: nat)
    requires AuditOk(h, run, rows) && HexDigests(h) && i < |rows|
    ensures IsDigest(Previous(rows, i))
  {
    hide IsDigest, Input, Canonical;
    GenesisIsDigest();
    if i > 0 {
      assert AuditRowOk(h, run, rows, i - 1);
    }
  }

  lemma RewrittenRow(h: Hash, run: Str, a: seq<Row>, b: seq<Row>, i: nat)
    requires AuditOk(h, run, a) && |a| == |b| && i < |a| && HexDigests(h)
    requires NoCollision(h, Inputs(a) + Inputs(b)) && SameHashes(run, a, b)
    ensures AuditRowOk(h, run, b, i) <==> Unnoticed(a[i], b[i]) && KnownVersion(b[i])
  {
    PreviousIsDigest(h, run, a, i);
    InInputs(a, i);
    InInputs(b, i);
    assert AuditRowOk(h, run, a, i);
    assert Previous(b, i) == Previous(a, i);
    hide Input, Inputs, Canonical, IsDigest, NoCollision, HexDigests, SignedPart, Version, AuditOk;
    var r, s := a[i], b[i];
    if AuditRowOk(h, run, b, i) {
      Uncollided(h, Inputs(a) + Inputs(b), Input(r), Input(s));
      InputIsInjective(r, s);
      SignedVersions(r, s);
    }
    if Unnoticed(r, s) {
      SignedPartFixesInput(r, s);
      SignedPrevious(r, s);
      SignedVersions(r, s);
    }
  }

  lemma SignedVersions(r: Row, s: Row)
    requires SignedPart(r) == SignedPart(s)
    ensures (Version(r) == V2 <==> Version(s) == V2) && r.payloadJson == s.payloadJson
  {
    if Version(r) == V2 {
      assert Envelope(r)[6] == Envelope(s)[6];
    }
  }
}
