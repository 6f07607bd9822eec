// knowledge.search: what the adapter returns for an invocation, and what the independent
// verifier accepts before the result may be sealed.

module KnowledgeSearch {
  import opened Json
  import opened JsonRoundTrip
  import opened CanonicalJson
  import opened AuditEnvelope
  import opened Utf8

  datatype Classification = Public | Internal | Confidential | Restricted

  function Rank(c: Classification): nat {
    match c
    case Public => 0
    case Internal => 1
    case Confidential => 2
    case Restricted => 3
  }

  /** From public to restricted. */
  predicate AtMost(c: Classification, cap: Classification) {
    match cap
    case Public => c == Public
    case Internal => c == Public || c == Internal
    case Confidential => c != Restricted
    case Restricted => true
  }

  lemma RankIsOrder(c: Classification, cap: Classification)
    ensures Rank(c) <= Rank(cap) <==> AtMost(c, cap)
  {
  }

  /** The stored spelling. */
  function Spelled(c: Classification): string {
    match c
    case Public => "Public"
    case Internal => "Internal"
    case Confidential => "Confidential"
    case Restricted => "Restricted"
  }

  /** Two spellings are known; anything else stays unknown. */
  function Normalise(raw: Option<string>): Option<Classification> {
    match raw
    case None => None
    case Some(s) =>
      if s == "Public" || s == "public" then Some(Public)
      else if s == "Internal" || s == "internal" then Some(Internal)
      else if s == "Confidential" || s == "confidential" then Some(Confidential)
      else if s == "Restricted" || s == "restricted" then Some(Restricted)
      else None
  }

  /** The spelling with a small first letter. */
  function Uncapitalised(s: string): string {
    if s != [] && 'A' <= s[0] <= 'Z' then [s[0] + 32 as char] + s[1..] else s
  }

  /** The spellings that are known are the stored one and the uncapitalised one, each of
      one classification. */
  lemma NormaliseIff(raw: string, c: Classification)
    ensures Normalise(Some(raw)) == Some(c) <==> raw == Spelled(c) || raw == Uncapitalised(Spelled(c))
    ensures forall d: Classification :: Spelled(d) == Spelled(c) ==> d == c
  {
    assert Spelled(Public)[0] != Spelled(Internal)[0] && Spelled(Public)[0] != Spelled(Confidential)[0];
    assert Spelled(Public)[0] != Spelled(Restricted)[0] && Spelled(Internal)[0] != Spelled(Confidential)[0];
    assert Spelled(Internal)[0] != Spelled(Restricted)[0] && Spelled(Confidential)[0] != Spelled(Restricted)[0];
    assert Uncapitalised("Public") == "public" && Uncapitalised("Internal") == "internal";
    assert Uncapitalised("Confidential") == "confidential" && Uncapitalised("Restricted") == "restricted";
  }

  /** The three values the argument schema allows. */
  datatype MaxClassification = MaxPublic | MaxInternal | MaxConfidential

  /** The arguments of an invocation, with the types its schema gives them. */
  datatype Arguments = Arguments(
    query: Str,
    topK: Option<int>,
    workspaceId: Option<Str>,
    maxClassification: Option<MaxClassification>,
    knowledgeBaseIds: Option<seq<Str>>,
    maxBytes: Option<nat>
  )

  datatype Hit = Hit(
    knowledgeBaseId: Str,
    documentId: Str,
    chunkId: Str,
    snippet: Chars,
    snippetHash: Str,
    classification: Classification,
    score: int
  )

  datatype SearchResult = SearchResult(
    workspaceId: Str,
    knowledgeBaseIds: seq<Str>,
    maxClassification: Classification,
    queryDigest: Str,
    topK: int,
    totalHits: int,
    hits: seq<Hit>
  )

  /** The Core-injected configuration of the adapter. */
  datatype AdapterConfig = AdapterConfig(workspaceId: Str, enabledKnowledgeBaseIds: seq<Str>, maxSnippetBytes: nat)

  /* ---------- shared by producer and verifier ---------- */

  function Kept(requested: seq<Str>, enabled: seq<Str>): seq<Str> {
    if requested == [] then []
    else
      var rest := Kept(requested[..|requested| - 1], enabled);
      var id := requested[|requested| - 1];
      if id in enabled && id !in rest then rest + [id] else rest
  }

  /** [...new Set(requested.filter(allowed.has))]: first occurrences, in order. */
  function AuthorizedScope(args: Arguments, enabled: seq<Str>): seq<Str> {
    Kept(if args.knowledgeBaseIds.Some? then args.knowledgeBaseIds.value else enabled, enabled)
  }

  function SnippetByteCap(args: Arguments, bindingMax: nat): nat {
    if args.maxBytes.Some? && args.maxBytes.value < bindingMax then args.maxBytes.value else bindingMax
  }

  function MaxClassificationOf(args: Arguments): Classification {
    if args.maxClassification == Some(MaxPublic) then Public
    else if args.maxClassification == Some(MaxInternal) then Internal
    else Confidential
  }

  function QueryDigest(h: Hash, query: Str): Str { h(CanonicalJSON(Text(query))) }

  function SnippetHash(h: Hash, snippet: Chars): Str { h(CanonicalJSON(Text(Utf16(snippet)))) }

  predicate Distinct<T(==)>(s: seq<T>) { forall i, j :: 0 <= i < j < |s| ==> s[i] != s[j] }

  lemma {:induction false} KeptIs(requested: seq<Str>, enabled: seq<Str>)
    ensures Distinct(Kept(requested, enabled))
    ensures forall id :: id in Kept(requested, enabled) <==> id in requested && id in enabled
  {
    if requested != [] {
      KeptIs(requested[..|requested| - 1], enabled);
      assert requested == requested[..|requested| - 1] + [requested[|requested| - 1]];
    }
  }

  /** The scope of an invocation: the requested knowledge bases that are enabled, each
      once; all the enabled ones when none are requested. */
  lemma ScopeIs(args: Arguments, enabled: seq<Str>)
    ensures Distinct(AuthorizedScope(args, enabled))
    ensures forall id :: id in AuthorizedScope(args, enabled) <==>
      id in enabled && (args.knowledgeBaseIds.Some? ==> id in args.knowledgeBaseIds.value)
  {
    KeptIs(if args.knowledgeBaseIds.Some? then args.knowledgeBaseIds.value else enabled, enabled);
  }

  /* ---------- the port's filter loop ---------- */

  /** One row of RagEngine.retrieve; the engine itself is not part of this model. */
  datatype Retrieval = Retrieval(
    documentId: Str,
    chunkId: Str,
    snippet: Chars,
    classification: Option<string>,
    score: Option<int>
  )

  /** What the port's two joins find for chunk ids, and whether it looks at the flag. */
  datatype ChunkIndex = ChunkIndex(knowledgeBaseOf: map<Str, Str>, allowed: map<Str, int>, enforceAllowed: bool)

  /** The hit the port builds from a retrieved chunk, if it may pass. */
  function PortHit(r: Retrieval, index: ChunkIndex, kbIds: seq<Str>, cap: Classification, maxBytes: nat): Option<Hit> {
    if r.chunkId !in index.knowledgeBaseOf || index.knowledgeBaseOf[r.chunkId] == [] then None
    else if |kbIds| > 0 && index.knowledgeBaseOf[r.chunkId] !in kbIds then None
    else if index.enforceAllowed && (if r.chunkId in index.allowed then index.allowed[r.chunkId] else 0) == 0 then None
    else
      match Normalise(r.classification)
      case None => None
      case Some(cls) =>
        if Rank(cls) > Rank(cap) then None
        else
          Some(Hit(index.knowledgeBaseOf[r.chunkId], r.documentId, r.chunkId, Truncated(r.snippet, maxBytes), [], cls,
                   if r.score.Some? then r.score.value else 0))
  }

  function PortHitsOf(rs: seq<Retrieval>, index: ChunkIndex, kbIds: seq<Str>, cap: Classification, maxBytes: nat): seq<Hit> {
    if rs == [] then []
    else
      var rest := PortHitsOf(rs[..|rs| - 1], index, kbIds, cap, maxBytes);
      match PortHit(rs[|rs| - 1], index, kbIds, cap, maxBytes)
      case None => rest
      case Some(hit) => rest + [hit]
  }

  /** At most topK of them, but never fewer than one that passes. */
  function FirstHits(hits: seq<Hit>, topK: int): seq<Hit> {
    var n := if topK < 1 then 1 else topK;
    if |hits| <= n then hits else hits[..n]
  }

  /** String.prototype.trim leaves nothing. */
  predicate Blank(query: Str) { forall i :: 0 <= i < |query| ==> IsSpace(query[i]) }

  predicate IsSpace(c: Unit) {
    9 <= c <= 13 || c == 32 || c == 0xA0 || c == 0x1680 || 0x2000 <= c <= 0x200A || c == 0x2028 || c == 0x2029
    || c == 0x202F || c == 0x205F || c == 0x3000 || c == 0xFEFF
  }

  function PortHits(query: Str, rs: seq<Retrieval>, index: ChunkIndex, kbIds: seq<Str>, topK: int, cap: Classification,
    maxBytes: nat): seq<Hit>
  {
    if Blank(query) then [] else FirstHits(PortHitsOf(rs, index, kbIds, cap, maxBytes), topK)
  }

  method SearchPort(query: Str, rs: seq<Retrieval>, index: ChunkIndex, kbIds: seq<Str>, topK: int, cap: Classification,
    maxBytes: nat) returns (hits: seq<Hit>)
    ensures hits == PortHits(query, rs, index, kbIds, topK, cap, maxBytes)
  {
    hits := [];
    if Blank(query) {
      return;
    }
    assert rs[..|rs|] == rs;
    hide Blank, PortHit;
    for i := 0 to |rs|
      invariant hits == PortHitsOf(rs[..i], index, kbIds, cap, maxBytes)
      invariant hits != [] ==> |hits| < topK
    {
      assert rs[..i + 1][..i] == rs[..i];
      var hit := FilterChunk(rs[i], index, kbIds, cap, maxBytes);
      if hit == None {
        continue;
      }
      hits := hits + [hit.value];
      if |hits| >= topK {
        HitsGrow(rs, i + 1, index, kbIds, cap, maxBytes);
        return;
      }
    }
  }

  /** One turn of the loop: the reasons to continue, in order, or the hit to push. */
  method FilterChunk(r: Retrieval, index: ChunkIndex, kbIds: seq<Str>, cap: Classification, maxBytes: nat)
    returns (hit: Option<Hit>)
    ensures hit == PortHit(r, index, kbIds, cap, maxBytes)
  {
    if r.chunkId !in index.knowledgeBaseOf || index.knowledgeBaseOf[r.chunkId] == [] {
      return None;
    }
    var kbId := index.knowledgeBaseOf[r.chunkId];
    if |kbIds| > 0 && kbId !in kbIds {
      return None;
    }
    if index.enforceAllowed && (if r.chunkId in index.allowed then index.allowed[r.chunkId] else 0) == 0 {
      return None;
    }
    var cls := Normalise(r.classification);
    if cls == None || Rank(cls.value) > Rank(cap) {
      return None;
    }
    var safeSnippet := TruncateUtf8ToBytes(r.snippet, maxBytes);
    return Some(Hit(kbId, r.documentId, r.chunkId, safeSnippet, [], cls.value, if r.score.Some? then r.score.value else 0));
  }

  lemma {:induction false} HitsGrow(rs: seq<Retrieval>, k: nat, index: ChunkIndex, kbIds: seq<Str>, cap: Classification,
    maxBytes: nat)
    requires k <= |rs|
    ensures PortHitsOf(rs[..k], index, kbIds, cap, maxBytes) <= PortHitsOf(rs, index, kbIds, cap, maxBytes)
    decreases |rs| - k
  {
    hide PortHit;
    if k == |rs| {
      assert rs[..k] == rs;
    } else {
      assert rs[..k + 1][..k] == rs[..k];
      HitsGrow(rs, k + 1, index, kbIds, cap, maxBytes);
    }
  }

  /* ---------- the adapter ---------- */

  datatype Invocation = Denied | Returned(result: SearchResult)

  /** The constructor's check, assertReady, the query check and the rejection of a
      caller's workspace id. */
  predicate Invocable(cfg: AdapterConfig, args: Arguments) {
    && cfg.workspaceId != []
    && cfg.workspaceId != Ascii("__t1_unbound__")
    && 1 <= |cfg.enabledKnowledgeBaseIds| <= 32
    && Distinct(cfg.enabledKnowledgeBaseIds)
    && args.query != []
    && args.workspaceId == None
  }

  function TopK(args: Arguments): int {
    var k := if args.topK.Some? then args.topK.value else 5;
    var atLeast := if k < 1 then 1 else k;
    if atLeast > 20 then 20 else atLeast
  }

  /** The adapter bounds every snippet again and hashes what is left. */
  function Bounded(h: Hash, hits: seq<Hit>, cap: nat): (r: seq<Hit>)
    ensures |r| == |hits|
    ensures forall i :: 0 <= i < |hits| ==> r[i] == BoundedHit(h, hits[i], cap)
  {
    seq(|hits|, i requires 0 <= i < |hits| => BoundedHit(h, hits[i], cap))
  }

  function BoundedHit(h: Hash, hit: Hit, cap: nat): Hit {
    hit.(snippet := Truncated(hit.snippet, cap), snippetHash := SnippetHash(h, Truncated(hit.snippet, cap)))
  }

  function AdapterHits(h: Hash, cfg: AdapterConfig, args: Arguments, rs: seq<Retrieval>, index: ChunkIndex): seq<Hit> {
    var scope := AuthorizedScope(args, cfg.enabledKnowledgeBaseIds);
    var cap := SnippetByteCap(args, cfg.maxSnippetBytes);
    if scope == [] then []
    else Bounded(h, PortHits(args.query, rs, index, scope, TopK(args), MaxClassificationOf(args), cap), cap)
  }

  function Invoke(h: Hash, cfg: AdapterConfig, args: Arguments, rs: seq<Retrieval>, index: ChunkIndex): Invocation {
    if !Invocable(cfg, args) then Denied
    else
      var hits := AdapterHits(h, cfg, args, rs, index);
      Returned(SearchResult(cfg.workspaceId, AuthorizedScope(args, cfg.enabledKnowledgeBaseIds), MaxClassificationOf(args),
                            QueryDigest(h, args.query), TopK(args), |hits|, hits))
  }

  method InvokeAdapter(h: Hash, cfg: AdapterConfig, args: Arguments, rs: seq<Retrieval>, index: ChunkIndex)
    returns (r: Invocation)
    ensures r == Invoke(h, cfg, args, rs, index)
  {
    if !Invocable(cfg, args) {
      return Denied;
    }
    var kbIds := AuthorizedScope(args, cfg.enabledKnowledgeBaseIds);
    var max := MaxClassificationOf(args);
    var hits := [];
    if |kbIds| > 0 {
      var maxSnippetBytes := SnippetByteCap(args, cfg.maxSnippetBytes);
      var portHits := SearchPort(args.query, rs, index, kbIds, TopK(args), max, maxSnippetBytes);
      hits := BoundHits(h, portHits, maxSnippetBytes);
    }
    hide AuthorizedScope, MaxClassificationOf, SnippetByteCap, PortHits, QueryDigest, TopK;
    return Returned(SearchResult(cfg.workspaceId, kbIds, max, QueryDigest(h, args.query), TopK(args), |hits|, hits));
  }

  method BoundHits(h: Hash, hits: seq<Hit>, cap: nat) returns (r: seq<Hit>)
    ensures r == Bounded(h, hits, cap)
  {
    hide SnippetHash, Truncated, LongestPrefix;
    r := [];
    for i := 0 to |hits|
      invariant |r| == i && forall k :: 0 <= k < i ==> r[k] == BoundedHit(h, hits[k], cap)
    {
      var safeSnippet := TruncateUtf8ToBytes(hits[i].snippet, cap);
      r := r + [hits[i].(snippet := safeSnippet, snippetHash := SnippetHash(h, safeSnippet))];
    }
  }

  /* ---------- the verifier ---------- */

  datatype Binding = Binding(
    workspaceId: Str,
    toolVersionId: Str,
    preparedToolVersionId: Str,
    bindingHash: Str,
    preparedBindingHash: Str,
    policyId: Option<Str>,
    approvalMode: Str,
    constraints: Value
  )

  function Member(fields: seq<Field>, key: Str): Option<Value> {
    if fields == [] then None
    else if fields[0].key == key then Some(fields[0].value)
    else Member(fields[1..], key)
  }

  const ENABLED_KEY: Str := Ascii("enabledKnowledgeBaseIds")
  const MAX_BYTES_KEY: Str := Ascii("maxSnippetBytes")

  function Texts(items: seq<Value>): Option<seq<Str>> {
    if items == [] then Some([])
    else
      match (items[0], Texts(items[1..]))
      case (Text(s), Some(rest)) => Some([s] + rest)
      case _ => None
  }

  /** The two constraints, if the binding's JSON has them in the shape the verifier asks for. */
  function ConstraintsOf(v: Value): Option<(seq<Str>, nat)> {
    match v
    case Obj(fields) =>
      (match (Member(fields, ENABLED_KEY), Member(fields, MAX_BYTES_KEY))
       case (Some(Arr(items)), Some(Num(n))) =>
         (match Texts(items)
          case Some(ids) =>
            if 1 <= |ids| <= 32 && [] !in ids && Distinct(ids) && 1 <= n <= 4096 then Some((ids, n)) else None
          case None => None)
       case _ => None)
    case _ => None
  }

  /** The members of a binding that its hash covers. */
  function BindingMembers(b: Binding): (fields: seq<Field>)
    ensures |fields| == 5
  {
    [Field(Ascii("workspaceId"), Text(b.workspaceId)),
     Field(Ascii("toolVersionId"), Text(b.toolVersionId)),
     Field(Ascii("policyId"), if b.policyId.Some? then Text(b.policyId.value) else Null),
     Field(Ascii("approvalMode"), Text(b.approvalMode)),
     Field(Ascii("constraints"), b.constraints)]
  }

  function BindingInput(b: Binding): Str { CanonicalJSON(Obj(BindingMembers(b))) }

  function BindingHash(h: Hash, b: Binding): Str { h(BindingInput(b)) }

  /** Five names: the length tells all but two apart. */
  lemma BindingKeysDiffer(b: Binding, i: nat, c: Binding, j: nat)
    requires i < 5 && j < 5
    ensures BindingMembers(b)[i].key == BindingMembers(c)[j].key <==> i == j
  {
    assert Ascii("workspaceId")[0] as int == 'w' as int && Ascii("constraints")[0] as int == 'c' as int;
  }

  lemma BindingProper(b: Binding)
    requires Proper(b.constraints)
    ensures Proper(Obj(BindingMembers(b)))
  {
    forall i, j | 0 <= i < j < 5 ensures BindingMembers(b)[i].key != BindingMembers(b)[j].key {
      BindingKeysDiffer(b, i, b, j);
    }
  }

  lemma SameMember(b: Binding, c: Binding, i: nat)
    requires i < 5 && SameTree(Obj(BindingMembers(b)), Obj(BindingMembers(c)))
    ensures SameTree(BindingMembers(b)[i].value, BindingMembers(c)[i].value)
  {
    hide BindingMembers;
    var j := TwinOf(BindingMembers(b), BindingMembers(c), i);
    BindingKeysDiffer(b, i, c, j);
  }

  /** The hash of a binding stands for all of it: bindings that hash the same text are for
      the same workspace and tool version, under the same policy and approval mode, with the
      same constraints up to the order of their keys. */
  lemma BindingIsHashed(b: Binding, c: Binding)
    requires Proper(b.constraints) && Proper(c.constraints) && BindingInput(b) == BindingInput(c)
    ensures b.workspaceId == c.workspaceId && b.toolVersionId == c.toolVersionId
    ensures b.policyId == c.policyId && b.approvalMode == c.approvalMode
    ensures SameTree(b.constraints, c.constraints)
  {
    BindingProper(b);
    BindingProper(c);
    CanonicalIff(Obj(BindingMembers(b)), Obj(BindingMembers(c)));
    hide CanonicalJSON, Proper;
    forall i | 0 <= i < 5 ensures SameTree(BindingMembers(b)[i].value, BindingMembers(c)[i].value) {
      SameMember(b, c, i);
    }
    assert SameTree(BindingMembers(b)[0].value, BindingMembers(c)[0].value);
    assert SameTree(BindingMembers(b)[1].value, BindingMembers(c)[1].value);
    assert SameTree(BindingMembers(b)[2].value, BindingMembers(c)[2].value);
    assert SameTree(BindingMembers(b)[3].value, BindingMembers(c)[3].value);
    assert SameTree(BindingMembers(b)[4].value, BindingMembers(c)[4].value);
  }

  predicate BindingMatches(h: Hash, b: Binding, workspaceId: Str) {
    && b.workspaceId == workspaceId
    && b.toolVersionId == b.preparedToolVersionId
    && BindingHash(h, b) == b.bindingHash
    && BindingHash(h, b) == b.preparedBindingHash
  }

  /** The classification the database holds for a hit's chunk in the workspace. */
  type Lookup = Hit -> Option<string>

  predicate HeaderOk(h: Hash, r: SearchResult, args: Arguments, workspaceId: Str, scope: seq<Str>) {
    var topK := if args.topK.Some? then args.topK.value else 5;
    && r.workspaceId == workspaceId
    && r.queryDigest == QueryDigest(h, args.query)
    && r.topK == topK
    && r.maxClassification == MaxClassificationOf(args)
    && r.totalHits == |r.hits|
    && r.totalHits <= topK
    && r.knowledgeBaseIds == scope
  }

  predicate HitOk(h: Hash, hit: Hit, scope: seq<Str>, max: Classification, cap: nat, lookup: Lookup) {
    && hit.knowledgeBaseId in scope
    && Rank(hit.classification) <= Rank(max)
    && ByteLength(hit.snippet) <= cap
    && SnippetHash(h, hit.snippet) == hit.snippetHash
    && lookup(hit) == Some(Spelled(hit.classification))
  }

  predicate HitsOk(h: Hash, hits: seq<Hit>, scope: seq<Str>, max: Classification, cap: nat, lookup: Lookup) {
    && (forall i :: 0 <= i < |hits| ==> HitOk(h, hits[i], scope, max, cap, lookup))
    && forall i, j :: 0 <= i < j < |hits| ==> hits[i].chunkId != hits[j].chunkId
  }

  predicate Authorized(h: Hash, r: SearchResult, args: Arguments, workspaceId: Str, b: Binding, lookup: Lookup) {
    && ConstraintsOf(b.constraints).Some?
    && BindingMatches(h, b, workspaceId)
    && var (enabled, bindingMax) := ConstraintsOf(b.constraints).value;
       var scope := AuthorizedScope(args, enabled);
       && HeaderOk(h, r, args, workspaceId, scope)
       && HitsOk(h, r.hits, scope, MaxClassificationOf(args), SnippetByteCap(args, bindingMax), lookup)
  }

  /** verifyKnowledgeSearchResultAuthority: true if it returns, false if it rejects. */
  method Verify(h: Hash, r: SearchResult, args: Arguments, workspaceId: Str, b: Binding, lookup: Lookup)
    returns (accepted: bool)
    ensures accepted <==> Authorized(h, r, args, workspaceId, b, lookup)
  {
    var constraints := ConstraintsOf(b.constraints);
    if constraints == None {
      return false;
    }
    var (enabled, bindingMax) := constraints.value;
    if !BindingMatches(h, b, workspaceId) {
      return false;
    }
    var scope := AuthorizedScope(args, enabled);
    if !HeaderOk(h, r, args, workspaceId, scope) {
      return false;
    }
    accepted := CheckHits(h, r.hits, scope, MaxClassificationOf(args), SnippetByteCap(args, bindingMax), lookup);
  }

  method CheckHits(h: Hash, hits: seq<Hit>, scope: seq<Str>, max: Classification, cap: nat, lookup: Lookup)
    returns (accepted: bool)
    ensures accepted <==> HitsOk(h, hits, scope, max, cap, lookup)
  {
    hide SnippetHash, ByteLength, Spelled, Rank;
    var seenChunks: set<Str> := {};
    for i := 0 to |hits|
      invariant forall k :: 0 <= k < i ==> HitOk(h, hits[k], scope, max, cap, lookup)
      invariant forall j, k :: 0 <= j < k < i ==> hits[j].chunkId != hits[k].chunkId
      invariant seenChunks == set k | 0 <= k < i :: hits[k].chunkId
    {
      var hit := hits[i];
      if hit.knowledgeBaseId !in scope
        || hit.chunkId in seenChunks
        || Rank(hit.classification) > Rank(max)
        || ByteLength(hit.snippet) > cap
        || SnippetHash(h, hit.snippet) != hit.snippetHash
      {
        assert hit.chunkId in seenChunks ==> exists k :: 0 <= k < i && hits[k].chunkId == hits[i].chunkId;
        return false;
      }
      seenChunks := seenChunks + {hit.chunkId};
      var authority := lookup(hit);
      if authority != Some(Spelled(hit.classification)) {
        return false;
      }
    }
    return true;
  }

  /* ---------- what an accepted result cannot exceed ---------- */

  function TotalBytes(hits: seq<Hit>): nat {
    if hits == [] then 0 else TotalBytes(hits[..|hits| - 1]) + ByteLength(hits[|hits| - 1].snippet)
  }

  lemma {:induction false} TotalIsBounded(hits: seq<Hit>, cap: nat)
    requires forall i :: 0 <= i < |hits| ==> ByteLength(hits[i].snippet) <= cap
    ensures TotalBytes(hits) <= |hits| * cap
  {
    hide ByteLength;
    if hits != [] {
      TotalIsBounded(hits[..|hits| - 1], cap);
      assert |hits| * cap == (|hits| - 1) * cap + cap;
    }
  }

  lemma Budget(n: nat, topK: nat, cap: nat, max: nat)
    requires n <= topK && cap <= max
    ensures n * cap <= topK * cap <= topK * max
  {
  }

  lemma AcceptedHit(h: Hash, hits: seq<Hit>, args: Arguments, enabled: seq<Str>, max: Classification, cap: nat,
    lookup: Lookup, i: nat)
    requires HitsOk(h, hits, AuthorizedScope(args, enabled), max, cap, lookup) && i < |hits|
    ensures ByteLength(hits[i].snippet) <= cap && Rank(hits[i].classification) <= Rank(max)
    ensures hits[i].knowledgeBaseId in enabled
    ensures args.knowledgeBaseIds.Some? ==> hits[i].knowledgeBaseId in args.knowledgeBaseIds.value
  {
    ScopeIs(args, enabled);
    hide AuthorizedScope, ByteLength, SnippetHash, Rank, Spelled;
    assert HitOk(h, hits[i], AuthorizedScope(args, enabled), max, cap, lookup);
  }

  /** A result is accepted only under the binding it was prepared with: if the prepared hash
      is that of binding p and does not collide, the binding now is p up to key order. */
  lemma AcceptedUnderPrepared(h: Hash, r: SearchResult, args: Arguments, workspaceId: Str, b: Binding, lookup: Lookup,
    p: Binding)
    requires Authorized(h, r, args, workspaceId, b, lookup) && Proper(b.constraints) && Proper(p.constraints)
    requires b.preparedBindingHash == BindingHash(h, p) && NoCollision(h, {BindingInput(b), BindingInput(p)})
    ensures p.workspaceId == b.workspaceId == workspaceId && p.toolVersionId == b.toolVersionId == b.preparedToolVersionId
    ensures p.policyId == b.policyId && p.approvalMode == b.approvalMode && SameTree(b.constraints, p.constraints)
  {
    hide BindingInput, ConstraintsOf, HeaderOk, HitsOk, AuthorizedScope, Proper;
    BindingIsHashed(b, p);
  }

  /** Whoever produced it: an accepted result stays within the requested and enabled
      knowledge bases and the classification, repeats no chunk, and carries at most topK
      times the byte cap of text. */
  lemma AcceptedIsBounded(h: Hash, r: SearchResult, args: Arguments, workspaceId: Str, b: Binding, lookup: Lookup)
    requires Authorized(h, r, args, workspaceId, b, lookup)
    ensures var (enabled, bindingMax) := ConstraintsOf(b.constraints).value;
      var topK := if args.topK.Some? then args.topK.value else 5;
      && |r.hits| <= topK && bindingMax <= 4096
      && TotalBytes(r.hits) <= topK * SnippetByteCap(args, bindingMax) <= topK * bindingMax
      && DistinctChunks(r.hits)
      && forall i :: 0 <= i < |r.hits| ==>
           && r.hits[i].knowledgeBaseId in enabled
           && (args.knowledgeBaseIds.Some? ==> r.hits[i].knowledgeBaseId in args.knowledgeBaseIds.value)
           && AtMost(r.hits[i].classification, MaxClassificationOf(args))
  {
    var (enabled, bindingMax) := ConstraintsOf(b.constraints).value;
    var cap := SnippetByteCap(args, bindingMax);
    var max := MaxClassificationOf(args);
    var topK := if args.topK.Some? then args.topK.value else 5;
    ConstraintsAreBounded(b.constraints);
    hide ConstraintsOf, BindingMatches, Rank, AuthorizedScope, ByteLength, TotalBytes, MaxClassificationOf, QueryDigest, HitOk;
    forall i | 0 <= i < |r.hits|
      ensures ByteLength(r.hits[i].snippet) <= cap && AtMost(r.hits[i].classification, max)
      ensures r.hits[i].knowledgeBaseId in enabled
      ensures args.knowledgeBaseIds.Some? ==> r.hits[i].knowledgeBaseId in args.knowledgeBaseIds.value
    {
      AcceptedHit(h, r.hits, args, enabled, max, cap, lookup, i);
      RankIsOrder(r.hits[i].classification, max);
    }
    TotalIsBounded(r.hits, cap);
    Budget(|r.hits|, topK, cap, bindingMax);
  }

  lemma ConstraintsAreBounded(v: Value)
    requires ConstraintsOf(v).Some?
    ensures 1 <= ConstraintsOf(v).value.1 <= 4096 && 1 <= |ConstraintsOf(v).value.0| <= 32
    ensures Distinct(ConstraintsOf(v).value.0)
  {
  }

  /* ---------- the producer and the verifier ---------- */

  lemma {:induction false} PortHitsAreFrom(rs: seq<Retrieval>, index: ChunkIndex, kbIds: seq<Str>, cap: Classification,
    maxBytes: nat, k: nat) returns (i: nat)
    requires k < |PortHitsOf(rs, index, kbIds, cap, maxBytes)|
    ensures i < |rs| && PortHit(rs[i], index, kbIds, cap, maxBytes) == Some(PortHitsOf(rs, index, kbIds, cap, maxBytes)[k])
  {
    hide PortHit;
    var init := rs[..|rs| - 1];
    if k < |PortHitsOf(init, index, kbIds, cap, maxBytes)| {
      i := PortHitsAreFrom(init, index, kbIds, cap, maxBytes, k);
    } else {
      i := |rs| - 1;
    }
  }

  lemma PortHitIs(r: Retrieval, index: ChunkIndex, kbIds: seq<Str>, cap: Classification, maxBytes: nat)
    requires PortHit(r, index, kbIds, cap, maxBytes).Some?
    ensures var hit := PortHit(r, index, kbIds, cap, maxBytes).value;
      && r.chunkId in index.knowledgeBaseOf && hit.knowledgeBaseId == index.knowledgeBaseOf[r.chunkId]
      && hit.chunkId == r.chunkId && hit.documentId == r.documentId
      && (kbIds != [] ==> hit.knowledgeBaseId in kbIds)
      && Normalise(r.classification) == Some(hit.classification) && Rank(hit.classification) <= Rank(cap)
      && hit.snippet == Truncated(r.snippet, maxBytes)
  {
    hide Normalise, Rank, Truncated;
  }

  /** What the port may let through: a chunk of a known knowledge base in scope, not
      withheld from context, of a known classification within the cap. */
  predicate Eligible(r: Retrieval, index: ChunkIndex, kbIds: seq<Str>, cap: Classification) {
    && r.chunkId in index.knowledgeBaseOf
    && index.knowledgeBaseOf[r.chunkId] != []
    && (kbIds == [] || index.knowledgeBaseOf[r.chunkId] in kbIds)
    && (index.enforceAllowed ==> r.chunkId in index.allowed && index.allowed[r.chunkId] != 0)
    && Normalise(r.classification).Some?
    && AtMost(Normalise(r.classification).value, cap)
  }

  lemma {:induction false} EligibleIsKept(rs: seq<Retrieval>, index: ChunkIndex, kbIds: seq<Str>, cap: Classification,
    maxBytes: nat, i: nat) returns (k: nat)
    requires i < |rs| && Eligible(rs[i], index, kbIds, cap)
    ensures k < |PortHitsOf(rs, index, kbIds, cap, maxBytes)|
    ensures PortHitsOf(rs, index, kbIds, cap, maxBytes)[k].chunkId == rs[i].chunkId
  {
    hide Normalise, Rank, AtMost, Truncated;
    var init := rs[..|rs| - 1];
    if i == |rs| - 1 {
      RankIsOrder(Normalise(rs[i].classification).value, cap);
      k := |PortHitsOf(init, index, kbIds, cap, maxBytes)|;
    } else {
      k := EligibleIsKept(init, index, kbIds, cap, maxBytes, i);
    }
  }

  ghost predicate FromEligible(hit: Hit, rs: seq<Retrieval>, index: ChunkIndex, kbIds: seq<Str>, cap: Classification) {
    exists i :: 0 <= i < |rs| && rs[i].chunkId == hit.chunkId && Eligible(rs[i], index, kbIds, cap)
  }

  ghost predicate Among(r: Retrieval, hits: seq<Hit>) { exists k :: 0 <= k < |hits| && hits[k].chunkId == r.chunkId }

  /** The port returns only eligible chunks, and misses one only if topK hits are full. */
  lemma PortReturnsEligible(query: Str, rs: seq<Retrieval>, index: ChunkIndex, kbIds: seq<Str>, topK: int,
    cap: Classification, maxBytes: nat)
    requires !Blank(query) && topK >= 1
    ensures var hits := PortHits(query, rs, index, kbIds, topK, cap, maxBytes);
      && |hits| <= topK
      && (forall k :: 0 <= k < |hits| ==> FromEligible(hits[k], rs, index, kbIds, cap))
      && (|hits| < topK ==>
            forall i :: 0 <= i < |rs| && Eligible(rs[i], index, kbIds, cap) ==> Among(rs[i], hits))
  {
    hide Normalise, Rank, Truncated, Blank, PortHitsOf, FromEligible, Among;
    var hits := PortHits(query, rs, index, kbIds, topK, cap, maxBytes);
    var all := PortHitsOf(rs, index, kbIds, cap, maxBytes);
    forall k | 0 <= k < |hits| ensures FromEligible(hits[k], rs, index, kbIds, cap) {
      HitIsEligible(rs, index, kbIds, cap, maxBytes, k);
      assert hits[k] == all[k];
    }
    if |hits| < topK {
      forall i | 0 <= i < |rs| && Eligible(rs[i], index, kbIds, cap) ensures Among(rs[i], hits) {
        EligibleIsAmong(rs, index, kbIds, cap, maxBytes, i);
        assert hits == all;
      }
    }
  }

  lemma HitIsEligible(rs: seq<Retrieval>, index: ChunkIndex, kbIds: seq<Str>, cap: Classification, maxBytes: nat, k: nat)
    requires k < |PortHitsOf(rs, index, kbIds, cap, maxBytes)|
    ensures FromEligible(PortHitsOf(rs, index, kbIds, cap, maxBytes)[k], rs, index, kbIds, cap)
  {
    hide Normalise, Rank, AtMost, Truncated, PortHitsOf;
    var i := PortHitsAreFrom(rs, index, kbIds, cap, maxBytes, k);
    PassesIffEligible(rs[i], index, kbIds, cap, maxBytes);
    assert Eligible(rs[i], index, kbIds, cap);
  }

  lemma EligibleIsAmong(rs: seq<Retrieval>, index: ChunkIndex, kbIds: seq<Str>, cap: Classification, maxBytes: nat, i: nat)
    requires i < |rs| && Eligible(rs[i], index, kbIds, cap)
    ensures Among(rs[i], PortHitsOf(rs, index, kbIds, cap, maxBytes))
  {
    hide Eligible, PortHitsOf;
    var k := EligibleIsKept(rs, index, kbIds, cap, maxBytes, i);
  }

  /** The hit is made of this chunk, field by field. */
  predicate MadeOf(hit: Hit, r: Retrieval, index: ChunkIndex, maxBytes: nat) {
    && r.chunkId in index.knowledgeBaseOf && hit.knowledgeBaseId == index.knowledgeBaseOf[r.chunkId]
    && hit.documentId == r.documentId && hit.chunkId == r.chunkId
    && hit.snippet == Truncated(r.snippet, maxBytes) && hit.snippetHash == []
    && Normalise(r.classification) == Some(hit.classification)
    && hit.score == (match r.score case Some(n) => n case None => 0)
  }

  lemma PassesIffEligible(r: Retrieval, index: ChunkIndex, kbIds: seq<Str>, cap: Classification, maxBytes: nat)
    ensures PortHit(r, index, kbIds, cap, maxBytes).Some? <==> Eligible(r, index, kbIds, cap)
    ensures PortHit(r, index, kbIds, cap, maxBytes).Some? ==>
      MadeOf(PortHit(r, index, kbIds, cap, maxBytes).value, r, index, maxBytes)
  {
    if Normalise(r.classification).Some? {
      RankIsOrder(Normalise(r.classification).value, cap);
    }
    hide Normalise, Rank, AtMost, Truncated;
  }

  predicate Ascending(at: seq<nat>) { forall j, k :: 0 <= j < k < |at| ==> at[j] < at[k] }

  /** The hits are made of the eligible ones among the first n chunks, in their order. */
  predicate Takes(hits: seq<Hit>, at: seq<nat>, rs: seq<Retrieval>, n: nat, index: ChunkIndex, kbIds: seq<Str>,
    cap: Classification, maxBytes: nat)
    requires n <= |rs|
  {
    && |at| == |hits| && Ascending(at)
    && (forall k :: 0 <= k < |at| ==> at[k] < n && MadeOf(hits[k], rs[at[k]], index, maxBytes))
    && (forall i :: 0 <= i < n ==> (Eligible(rs[i], index, kbIds, cap) <==> i in at))
  }

  lemma TakesOneMore(hits: seq<Hit>, at: seq<nat>, rs: seq<Retrieval>, n: nat, index: ChunkIndex, kbIds: seq<Str>,
    cap: Classification, maxBytes: nat)
    requires n < |rs| && Takes(hits, at, rs, n, index, kbIds, cap, maxBytes)
    ensures var more := PortHit(rs[n], index, kbIds, cap, maxBytes);
      if more == None then Takes(hits, at, rs, n + 1, index, kbIds, cap, maxBytes)
      else Takes(hits + [more.value], at + [n], rs, n + 1, index, kbIds, cap, maxBytes)
  {
    PassesIffEligible(rs[n], index, kbIds, cap, maxBytes);
    hide PortHit, Eligible, MadeOf;
    var more := PortHit(rs[n], index, kbIds, cap, maxBytes);
    if more != None {
      var all, where := hits + [more.value], at + [n];
      forall k | 0 <= k < |where| ensures where[k] < n + 1 && MadeOf(all[k], rs[where[k]], index, maxBytes) {
        if k < |at| {
          assert all[k] == hits[k] && where[k] == at[k];
        }
      }
      forall i | 0 <= i < n + 1 ensures Eligible(rs[i], index, kbIds, cap) <==> i in where {
      }
    } else {
      forall i | 0 <= i < n + 1 ensures Eligible(rs[i], index, kbIds, cap) <==> i in at {
      }
    }
  }

  lemma {:induction false} AllTaken(rs: seq<Retrieval>, n: nat, index: ChunkIndex, kbIds: seq<Str>, cap: Classification,
    maxBytes: nat) returns (at: seq<nat>)
    requires n <= |rs|
    ensures Takes(PortHitsOf(rs[..n], index, kbIds, cap, maxBytes), at, rs, n, index, kbIds, cap, maxBytes)
  {
    hide PortHit, MadeOf, Eligible;
    if n == 0 {
      at := [];
    } else {
      assert rs[..n][..n - 1] == rs[..n - 1] && rs[..n][n - 1] == rs[n - 1];
      at := AllTaken(rs, n - 1, index, kbIds, cap, maxBytes);
      TakesOneMore(PortHitsOf(rs[..n - 1], index, kbIds, cap, maxBytes), at, rs, n - 1, index, kbIds, cap, maxBytes);
      if PortHit(rs[n - 1], index, kbIds, cap, maxBytes).Some? {
        at := at + [n - 1];
      }
    }
  }

  /** The port answers with the first eligible chunks, in the order of the retrieval, up to
      topK, each field by field. */
  lemma PortTakesFirst(query: Str, rs: seq<Retrieval>, index: ChunkIndex, kbIds: seq<Str>, topK: int,
    cap: Classification, maxBytes: nat) returns (at: seq<nat>)
    requires !Blank(query) && topK >= 1
    ensures Takes(PortHitsOf(rs, index, kbIds, cap, maxBytes), at, rs, |rs|, index, kbIds, cap, maxBytes)
    ensures var hits := PortHits(query, rs, index, kbIds, topK, cap, maxBytes);
      && |hits| == (if |at| < topK then |at| else topK)
      && forall k :: 0 <= k < |hits| ==> at[k] < |rs| && MadeOf(hits[k], rs[at[k]], index, maxBytes)
  {
    assert rs[..|rs|] == rs;
    at := AllTaken(rs, |rs|, index, kbIds, cap, maxBytes);
    hide PortHitsOf, Blank, MadeOf, Eligible, Ascending;
  }

  /** Where hit k of the adapter comes from, and that it was cut once. */
  lemma AdapterHitIs(h: Hash, cfg: AdapterConfig, args: Arguments, rs: seq<Retrieval>, index: ChunkIndex, k: nat)
    returns (i: nat)
    requires k < |AdapterHits(h, cfg, args, rs, index)|
    ensures i < |rs|
    ensures var hit := AdapterHits(h, cfg, args, rs, index)[k];
      var snippet := Truncated(rs[i].snippet, SnippetByteCap(args, cfg.maxSnippetBytes));
      && hit.knowledgeBaseId in AuthorizedScope(args, cfg.enabledKnowledgeBaseIds)
      && rs[i].chunkId in index.knowledgeBaseOf && hit.knowledgeBaseId == index.knowledgeBaseOf[rs[i].chunkId]
      && hit.chunkId == rs[i].chunkId && hit.documentId == rs[i].documentId
      && Normalise(rs[i].classification) == Some(hit.classification)
      && Rank(hit.classification) <= Rank(MaxClassificationOf(args))
      && hit.snippet == snippet && hit.snippetHash == SnippetHash(h, snippet)
  {
    var scope := AuthorizedScope(args, cfg.enabledKnowledgeBaseIds);
    var cap, max := SnippetByteCap(args, cfg.maxSnippetBytes), MaxClassificationOf(args);
    hide SnippetByteCap, MaxClassificationOf, AuthorizedScope, PortHitsOf, Blank, Truncated, SnippetHash, TopK;
    i := PortHitsAreFrom(rs, index, scope, max, cap, k);
    hide PortHit;
    PortHitIs(rs[i], index, scope, max, cap);
    TruncatedTwice(rs[i].snippet, cap, cap);
  }

  /** What the adapter answers, field by field: its own workspace, the digest of the query,
      topK brought between 1 and 20, and the port's hits with the hash of each snippet. */
  lemma AdapterAnswers(h: Hash, cfg: AdapterConfig, args: Arguments, rs: seq<Retrieval>, index: ChunkIndex)
    returns (at: seq<nat>)
    requires Invocable(cfg, args)
    ensures Invoke(h, cfg, args, rs, index).Returned?
    ensures var r, cap := Invoke(h, cfg, args, rs, index).result, SnippetByteCap(args, cfg.maxSnippetBytes);
      && r.workspaceId == cfg.workspaceId
      && r.queryDigest == h(CanonicalJSON(Text(args.query)))
      && r.knowledgeBaseIds == AuthorizedScope(args, cfg.enabledKnowledgeBaseIds)
      && r.maxClassification == (match args.maxClassification
           case Some(MaxPublic) => Public
           case Some(MaxInternal) => Internal
           case _ => Confidential)
      && r.topK == (match args.topK case None => 5 case Some(k) => if k < 1 then 1 else if k > 20 then 20 else k)
      && r.totalHits == |r.hits| <= |at| && r.totalHits <= r.topK
      && (r.knowledgeBaseIds == [] || Blank(args.query) ==> r.hits == [])
      && (r.knowledgeBaseIds != [] && !Blank(args.query) ==>
            |r.hits| == (if |at| < r.topK then |at| else r.topK) && Ascending(at)
            && forall i :: 0 <= i < |rs| ==> (Eligible(rs[i], index, r.knowledgeBaseIds, r.maxClassification) <==> i in at))
      && forall k :: 0 <= k < |r.hits| ==>
           && r.hits[k].snippetHash == h(CanonicalJSON(Text(Utf16(r.hits[k].snippet))))
           && at[k] < |rs| && MadeOf(r.hits[k].(snippetHash := []), rs[at[k]], index, cap)
    ensures var cap := SnippetByteCap(args, cfg.maxSnippetBytes);
      cap <= cfg.maxSnippetBytes && (args.maxBytes.Some? ==> cap <= args.maxBytes.value)
      && (cap == cfg.maxSnippetBytes || args.maxBytes == Some(cap))
  {
    var scope := AuthorizedScope(args, cfg.enabledKnowledgeBaseIds);
    var cap, max := SnippetByteCap(args, cfg.maxSnippetBytes), MaxClassificationOf(args);
    at := [];
    if scope != [] && !Blank(args.query) {
      at := PortTakesFirst(args.query, rs, index, scope, TopK(args), max, cap);
      var hits := PortHits(args.query, rs, index, scope, TopK(args), max, cap);
      forall k | 0 <= k < |hits|
        ensures MadeOf(BoundedHit(h, hits[k], cap).(snippetHash := []), rs[at[k]], index, cap)
      {
        TruncatedTwice(rs[at[k]].snippet, cap, cap);
      }
    }
    hide Blank, AuthorizedScope, Eligible, PortHitsOf, MadeOf, Truncated, Normalise, Ascending;
  }

  lemma FewHits(h: Hash, cfg: AdapterConfig, args: Arguments, rs: seq<Retrieval>, index: ChunkIndex)
    ensures 1 <= TopK(args) <= 20 && |AdapterHits(h, cfg, args, rs, index)| <= TopK(args)
  {
    hide PortHitsOf, AuthorizedScope, Blank;
  }

  predicate DistinctChunks(hits: seq<Hit>) { forall i, j :: 0 <= i < j < |hits| ==> hits[i].chunkId != hits[j].chunkId }

  predicate ClassifiedAsStored(hits: seq<Hit>, lookup: Lookup) {
    forall i :: 0 <= i < |hits| ==> lookup(hits[i]) == Some(Spelled(hits[i].classification))
  }

  /** The binding that the adapter was configured from. */
  predicate BoundTo(h: Hash, cfg: AdapterConfig, b: Binding) {
    && ConstraintsOf(b.constraints) == Some((cfg.enabledKnowledgeBaseIds, cfg.maxSnippetBytes))
    && BindingMatches(h, b, cfg.workspaceId)
  }

  lemma ProducedHits(h: Hash, cfg: AdapterConfig, args: Arguments, rs: seq<Retrieval>, index: ChunkIndex, lookup: Lookup)
    ensures var hits := AdapterHits(h, cfg, args, rs, index);
      HitsOk(h, hits, AuthorizedScope(args, cfg.enabledKnowledgeBaseIds), MaxClassificationOf(args),
             SnippetByteCap(args, cfg.maxSnippetBytes), lookup)
      <==> DistinctChunks(hits) && ClassifiedAsStored(hits, lookup)
  {
    var hits := AdapterHits(h, cfg, args, rs, index);
    var scope, max, cap := AuthorizedScope(args, cfg.enabledKnowledgeBaseIds), MaxClassificationOf(args),
      SnippetByteCap(args, cfg.maxSnippetBytes);
    hide AdapterHits, AuthorizedScope, MaxClassificationOf, SnippetByteCap, SnippetHash, ByteLength, Truncated;
    hide Normalise, Rank, Spelled;
    forall i | 0 <= i < |hits|
      ensures HitOk(h, hits[i], scope, max, cap, lookup) <==> lookup(hits[i]) == Some(Spelled(hits[i].classification))
    {
      var k := AdapterHitIs(h, cfg, args, rs, index, i);
      TruncatedIsLongest(rs[k].snippet, cap);
    }
    hide HitOk;
  }

  /** The producer against the verifier: for a matching binding, what the adapter returns
      is accepted exactly if topK respected the schema's bounds, the retrieval repeated no
      chunk among the hits, and the database spells their classifications alike. Port
      filter, bounds, digests and scope never fail. */
  lemma ProducerAcceptedIff(h: Hash, cfg: AdapterConfig, args: Arguments, rs: seq<Retrieval>, index: ChunkIndex,
    b: Binding, lookup: Lookup)
    requires Invocable(cfg, args) && BoundTo(h, cfg, b)
    ensures Authorized(h, Invoke(h, cfg, args, rs, index).result, args, cfg.workspaceId, b, lookup) <==>
      && (args.topK.Some? ==> 1 <= args.topK.value <= 20)
      && DistinctChunks(AdapterHits(h, cfg, args, rs, index))
      && ClassifiedAsStored(AdapterHits(h, cfg, args, rs, index), lookup)
  {
    ProducedHits(h, cfg, args, rs, index, lookup);
    FewHits(h, cfg, args, rs, index);
    hide AdapterHits, AuthorizedScope, MaxClassificationOf, SnippetByteCap, HitsOk, ConstraintsOf, BindingMatches, QueryDigest,
      DistinctChunks, ClassifiedAsStored, Distinct;
  }

  /** Every retrieved chunk is the stored chunk: the database finds it under the ids that
      the port gives it, in the classification and spelling that retrieval reported. */
  ghost predicate Stored(rs: seq<Retrieval>, index: ChunkIndex, lookup: Lookup) {
    forall i, hit: Hit ::
      0 <= i < |rs| && rs[i].chunkId in index.knowledgeBaseOf && hit.chunkId == rs[i].chunkId
      && hit.documentId == rs[i].documentId && hit.knowledgeBaseId == index.knowledgeBaseOf[rs[i].chunkId]
      && Normalise(rs[i].classification).Some?
      ==> lookup(hit) == Some(Spelled(Normalise(rs[i].classification).value))
  }

  lemma {:induction false} DistinctRetrieval(rs: seq<Retrieval>, index: ChunkIndex, kbIds: seq<Str>, cap: Classification,
    maxBytes: nat)
    requires forall i, j :: 0 <= i < j < |rs| ==> rs[i].chunkId != rs[j].chunkId
    ensures DistinctChunks(PortHitsOf(rs, index, kbIds, cap, maxBytes))
  {
    hide PortHit;
    if rs != [] {
      var init, last := rs[..|rs| - 1], rs[|rs| - 1];
      DistinctRetrieval(init, index, kbIds, cap, maxBytes);
      var rest := PortHitsOf(init, index, kbIds, cap, maxBytes);
      forall k | 0 <= k < |rest| ensures rest[k].chunkId != last.chunkId {
        var i := PortHitsAreFrom(init, index, kbIds, cap, maxBytes, k);
        PortHitIs(init[i], index, kbIds, cap, maxBytes);
        assert rs[i].chunkId != rs[|rs| - 1].chunkId;
      }
      if PortHit(last, index, kbIds, cap, maxBytes).Some? {
        PortHitIs(last, index, kbIds, cap, maxBytes);
      }
    }
  }

  /** So for schema-valid arguments and a retrieval of distinct stored chunks the adapter's
      result is never rejected. */
  lemma ProducerIsAccepted(h: Hash, cfg: AdapterConfig, args: Arguments, rs: seq<Retrieval>, index: ChunkIndex,
    b: Binding, lookup: Lookup)
    requires Invocable(cfg, args) && BoundTo(h, cfg, b) && (args.topK.Some? ==> 1 <= args.topK.value <= 20)
    requires forall i, j :: 0 <= i < j < |rs| ==> rs[i].chunkId != rs[j].chunkId
    requires Stored(rs, index, lookup)
    ensures Authorized(h, Invoke(h, cfg, args, rs, index).result, args, cfg.workspaceId, b, lookup)
  {
    var hits := AdapterHits(h, cfg, args, rs, index);
    ProducerAcceptedIff(h, cfg, args, rs, index, b, lookup);
    assert DistinctChunks(hits) by {
      DistinctHits(h, cfg, args, rs, index);
    }
    forall k | 0 <= k < |hits| ensures lookup(hits[k]) == Some(Spelled(hits[k].classification)) {
      var i := AdapterHitIs(h, cfg, args, rs, index, k);
    }
    AgreesEverywhere(hits, lookup);
  }

  lemma AgreesEverywhere(hits: seq<Hit>, lookup: Lookup)
    requires forall k :: 0 <= k < |hits| ==> lookup(hits[k]) == Some(Spelled(hits[k].classification))
    ensures ClassifiedAsStored(hits, lookup)
  {
  }

  lemma DistinctHits(h: Hash, cfg: AdapterConfig, args: Arguments, rs: seq<Retrieval>, index: ChunkIndex)
    requires forall i, j :: 0 <= i < j < |rs| ==> rs[i].chunkId != rs[j].chunkId
    ensures DistinctChunks(AdapterHits(h, cfg, args, rs, index))
  {
    var scope := AuthorizedScope(args, cfg.enabledKnowledgeBaseIds);
    DistinctRetrieval(rs, index, scope, MaxClassificationOf(args), SnippetByteCap(args, cfg.maxSnippetBytes));
    hide PortHitsOf, AuthorizedScope, Blank, MaxClassificationOf, SnippetByteCap, TopK, Truncated, SnippetHash;
  }
}
