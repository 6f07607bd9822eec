// One row of run_events, what its hash covers in the v1 and the v2 envelope, and why
// two rows with one hash input carry the same signed fields.

module AuditEnvelope {
  import opened Json
  import opened JsonRoundTrip
  import opened CanonicalJson
  import opened KeyOrder

  /** SHA-256 in hexadecimal, as an arbitrary function. Where a theorem needs it, the
      absence of collisions is assumed of the inputs that occur, never of all strings. */
  type Hash = Str -> Str

  const V1: Str := Ascii("v1")
  const V2: Str := Ascii("v2")
  const GENESIS: Str := Zeros(64)

  function Zeros(n: nat): (r: Str)
    ensures |r| == n && forall i :: 0 <= i < n ==> r[i] == 48
  {
    seq(n, _ => 48)
  }

  datatype Row = Row(
    id: Str,
    runId: Str,
    workspaceId: Option<Str>,
    sequence: int,
    eventType: Str,
    payloadJson: Str,
    payloadHash: Option<Str>,
    previousHash: Str,
    eventHash: Str,
    envelopeVersion: Option<Str>,
    policyVersionHash: Option<Str>,
    redactionRuleVersion: Option<Str>,
    createdAt: Str
  )

  function OrEmpty(s: Option<Str>): Str { if s.Some? then s.value else [] }

  /** A row without a version is a legacy row. */
  function Version(r: Row): Str { if r.envelopeVersion.Some? then r.envelopeVersion.value else V1 }

  function V1Input(payloadJson: Str, previousHash: Str): Str { payloadJson + previousHash }

  const KEYS: seq<string> := [
    "hash_envelope_version", "id", "run_id", "workspace_id", "sequence", "event_type",
    "event_payload_json", "payload_hash", "policy_version_hash", "redaction_rule_version",
    "created_at", "previous_hash"
  ]

  /** The signed fields of a v2 row, in the order of KEYS; null and '' are one value. */
  function Envelope(r: Row): (vs: seq<Value>)
    ensures |vs| == 12
  {
    [Text(V2), Text(r.id), Text(r.runId), Text(OrEmpty(r.workspaceId)), Num(r.sequence), Text(r.eventType),
     Text(r.payloadJson), Text(OrEmpty(r.payloadHash)), Text(OrEmpty(r.policyVersionHash)),
     Text(OrEmpty(r.redactionRuleVersion)), Text(r.createdAt), Text(r.previousHash)]
  }

  function Key(i: nat): Str
    requires i < 12
  {
    AsciiKeys();
    Ascii(KEYS[i])
  }

  lemma AsciiKeys()
    ensures forall i :: 0 <= i < 12 ==> forall c :: 0 <= c < |KEYS[i]| ==> KEYS[i][c] as int < 128
  {
  }

  function Members(vs: seq<Value>): (fs: seq<Field>)
    requires |vs| == 12
    ensures |fs| == 12 && forall i :: 0 <= i < 12 ==> fs[i] == Field(Key(i), vs[i])
  {
    seq(12, i requires 0 <= i < 12 => Field(Key(i), vs[i]))
  }

  function V2Input(r: Row): Str { CanonicalJSON(Obj(Members(Envelope(r)))) }

  /** What the hash of a row covers. */
  function Input(r: Row): Str {
    if Version(r) == V2 then V2Input(r) else V1Input(r.payloadJson, r.previousHash)
  }

  /** The part of a row its hash determines. */
  datatype Signed = SignedV1(payloadJson: Str, previousHash: Str) | SignedV2(fields: seq<Value>)

  function SignedPart(r: Row): Signed {
    if Version(r) == V2 then SignedV2(Envelope(r)) else SignedV1(r.payloadJson, r.previousHash)
  }

  predicate IsHexDigit(c: Unit) { 48 <= c <= 57 || 97 <= c <= 102 }

  ghost predicate IsDigest(s: Str) { |s| == 64 && forall i :: 0 <= i < 64 ==> IsHexDigit(s[i]) }

  ghost predicate HexDigests(h: Hash) { forall s :: IsDigest(h(s)) }

  ghost predicate NoCollision(h: Hash, inputs: set<Str>) {
    forall x, y :: x in inputs && y in inputs && h(x) == h(y) ==> x == y
  }

  /* ---------- the keys of the v2 envelope ---------- */

  /** Twelve different names: lengths tell most of them apart, first letters the rest. */
  lemma KeysDiffer(i: nat, j: nat)
    requires i < j < 12
    ensures Key(i) != Key(j)
  {
    AsciiKeys();
    if |KEYS[i]| == |KEYS[j]| {
      assert (i, j) == (3, 7) || (i, j) == (5, 10);
      assert KEYS[i][0] != KEYS[j][0];
      assert Key(i)[0] as int == KEYS[i][0] as int && Key(j)[0] as int == KEYS[j][0] as int;
    }
  }

  lemma MembersProper(vs: seq<Value>)
    requires |vs| == 12 && forall i :: 0 <= i < 12 ==> vs[i].Text? || vs[i].Num?
    ensures Proper(Obj(Members(vs))) && DistinctKeys(Members(vs))
  {
    hide Key;
    forall i, j | 0 <= i < j < 12 ensures Members(vs)[i].key != Members(vs)[j].key {
      KeysDiffer(i, j);
    }
  }

  lemma SameLeaf(v: Value, w: Value)
    requires SameTree(v, w) && (v.Text? || v.Num?)
    ensures v == w
  {
  }

  lemma TwinOf(fields: seq<Field>, others: seq<Field>, i: nat) returns (j: nat)
    requires i < |fields| && SameTree(Obj(fields), Obj(others))
    ensures j < |others| && others[j].key == fields[i].key && SameTree(fields[i].value, others[j].value)
  {
    assert HasTwin(fields[i], others);
    j :| 0 <= j < |others| && others[j].key == fields[i].key && SameTree(fields[i].value, others[j].value);
  }

  lemma SameMembersSameValues(vs: seq<Value>, ws: seq<Value>, i: nat)
    requires |vs| == 12 && |ws| == 12 && i < 12
    requires vs[i].Text? || vs[i].Num?
    requires SameTree(Obj(Members(vs)), Obj(Members(ws)))
    ensures vs[i] == ws[i]
  {
    hide *;
    var j := TwinOf(Members(vs), Members(ws), i);
    if j < i {
      KeysDiffer(j, i);
    } else if i < j {
      KeysDiffer(i, j);
    }
    SameLeaf(vs[i], ws[j]);
  }

  /** The v2 envelope determines every signed field. */
  lemma V2InputIsInjective(a: Row, b: Row)
    requires V2Input(a) == V2Input(b)
    ensures Envelope(a) == Envelope(b)
  {
    var vs, ws := Envelope(a), Envelope(b);
    MembersProper(vs);
    MembersProper(ws);
    CanonicalIff(Obj(Members(vs)), Obj(Members(ws)));
    hide *;
    forall i | 0 <= i < 12 ensures vs[i] == ws[i] {
      SameMembersSameValues(vs, ws, i);
    }
  }

  predicate Spells(key: Str, name: string) {
    |key| == |name| && forall i :: 0 <= i < |key| ==> key[i] as int == name[i] as int
  }

  /** The object has a member of this name with this value. */
  predicate Member(v: Value, name: string, value: Value) {
    v.Obj? && exists j :: 0 <= j < |v.fields| && Spells(v.fields[j].key, name) && v.fields[j].value == value
  }

  /** What a v2 hash covers, read as JSON. */
  predicate Reads(r: Row, name: string, value: Value) {
    Parse(V2Input(r)).Some? && Member(Parse(V2Input(r)).value, name, value)
  }

  lemma EnvelopeReadsBack(r: Row, i: nat)
    requires i < 12
    ensures Reads(r, KEYS[i], Envelope(r)[i])
  {
    var vs := Envelope(r);
    MembersProper(vs);
    CanonicalReadsBack(Obj(Members(vs)));
    assert vs[i].Text? || vs[i].Num?;
    assert SortKeys(Obj(Members(vs))).Obj?;
    KeySpells(i);
    hide *;
    var read := SortKeys(Obj(Members(vs)));
    var j := TwinOf(Members(vs), read.fields, i);
    SameLeaf(vs[i], read.fields[j].value);
    MemberAt(r, i, read, j);
  }

  lemma KeySpells(i: nat)
    requires i < 12
    ensures Spells(Key(i), KEYS[i])
  {
    AsciiKeys();
  }

  lemma MemberAt(r: Row, i: nat, read: Value, j: nat)
    requires i < 12 && read.Obj? && j < |read.fields|
    requires Parse(V2Input(r)) == Some(read)
    requires Spells(read.fields[j].key, KEYS[i]) && read.fields[j].value == Envelope(r)[i]
    ensures Reads(r, KEYS[i], Envelope(r)[i])
  {
    hide Parse, V2Input, Spells;
  }

  /** What a v2 hash covers: twelve members, each under its own name. */
  lemma V2InputNames(r: Row)
    ensures Reads(r, "hash_envelope_version", Text(V2))
    ensures Reads(r, "id", Text(r.id))
    ensures Reads(r, "run_id", Text(r.runId))
    ensures Reads(r, "workspace_id", Text(OrEmpty(r.workspaceId)))
    ensures Reads(r, "sequence", Num(r.sequence))
    ensures Reads(r, "event_type", Text(r.eventType))
    ensures Reads(r, "event_payload_json", Text(r.payloadJson))
    ensures Reads(r, "payload_hash", Text(OrEmpty(r.payloadHash)))
    ensures Reads(r, "policy_version_hash", Text(OrEmpty(r.policyVersionHash)))
    ensures Reads(r, "redaction_rule_version", Text(OrEmpty(r.redactionRuleVersion)))
    ensures Reads(r, "created_at", Text(r.createdAt))
    ensures Reads(r, "previous_hash", Text(r.previousHash))
  {
    hide Reads, OrEmpty;
    forall k | 0 <= k < 12 ensures Reads(r, KEYS[k], Envelope(r)[k]) {
      EnvelopeReadsBack(r, k);
    }
    assert Reads(r, KEYS[0], Envelope(r)[0]) && Reads(r, KEYS[1], Envelope(r)[1]) && Reads(r, KEYS[2], Envelope(r)[2]);
    assert Reads(r, KEYS[3], Envelope(r)[3]) && Reads(r, KEYS[4], Envelope(r)[4]) && Reads(r, KEYS[5], Envelope(r)[5]);
    assert Reads(r, KEYS[6], Envelope(r)[6]) && Reads(r, KEYS[7], Envelope(r)[7]) && Reads(r, KEYS[8], Envelope(r)[8]);
    assert Reads(r, KEYS[9], Envelope(r)[9]) && Reads(r, KEYS[10], Envelope(r)[10]) && Reads(r, KEYS[11], Envelope(r)[11]);
  }

  /* ---------- v1 and v2 never meet ---------- */

  lemma PrintedObjectEnds(fields: seq<Field>)
    ensures Print(Obj(fields)) != [] && Print(Obj(fields))[|Print(Obj(fields))| - 1] == CLOSE_BRACE
  {
    hide PrintFields;
  }

  lemma V2InputEnds(r: Row)
    ensures V2Input(r) != [] && V2Input(r)[|V2Input(r)| - 1] == CLOSE_BRACE
  {
    hide Print, SortMembers, SortFields, Members, Envelope;
    PrintedObjectEnds(Enumerate(SortFields(LexLess, SortMembers(Members(Envelope(r))))));
  }

  /** A v1 input ends in a digest, a v2 input in a brace: no v1 input is a v2 input. */
  lemma V1InputIsNoV2Input(payloadJson: Str, previousHash: Str, r: Row)
    requires IsDigest(previousHash)
    ensures V1Input(payloadJson, previousHash) != V2Input(r)
  {
    V2InputEnds(r);
    hide V2Input;
    var s := V1Input(payloadJson, previousHash);
    assert s[|s| - 1] == previousHash[63];
  }

  lemma V1InputIsInjective(p: Str, prev: Str, q: Str, prev': Str)
    requires |prev| == |prev'| && V1Input(p, prev) == V1Input(q, prev')
    ensures p == q && prev == prev'
  {
    assert V1Input(p, prev)[..|p|] == p && V1Input(q, prev')[..|q|] == q;
    assert V1Input(p, prev)[|p|..] == prev && V1Input(q, prev')[|q|..] == prev';
  }

  /** One input, one signed part, whatever the versions. */
  lemma InputIsInjective(a: Row, b: Row)
    requires IsDigest(a.previousHash) && IsDigest(b.previousHash)
    requires Input(a) == Input(b)
    ensures SignedPart(a) == SignedPart(b)
  {
    hide V2Input, V1Input, Envelope;
    if Version(a) == V2 && Version(b) == V2 {
      V2InputIsInjective(a, b);
    } else if Version(a) == V2 {
      V1InputIsNoV2Input(b.payloadJson, b.previousHash, a);
    } else if Version(b) == V2 {
      V1InputIsNoV2Input(a.payloadJson, a.previousHash, b);
    } else {
      V1InputIsInjective(a.payloadJson, a.previousHash, b.payloadJson, b.previousHash);
    }
  }

  /** And conversely: the input depends on nothing but the signed part. */
  lemma SignedPartFixesInput(a: Row, b: Row)
    requires SignedPart(a) == SignedPart(b)
    ensures Input(a) == Input(b)
  {
    hide Members, CanonicalJSON;
  }

  lemma GenesisIsDigest()
    ensures IsDigest(GENESIS)
  {
  }
}
