// The other two canonical printers of the repository, compared with Core's: the
// replacer of AuditService and the one-pass printer of the ingress worker.

module Serializers {
  import opened Json
  import opened JsonRoundTrip
  import opened KeyOrder
  import opened CanonicalJson

  /* ---------- AuditService: a replacer that sorts one level at a time ---------- */

  /** Object.keys of an array: its indices. */
  function Indexed(items: seq<Value>, from: nat): seq<Field> {
    if items == [] then [] else [Field(Decimal(from), items[0])] + Indexed(items[1..], from + 1)
  }

  function SortedMembers(fields: seq<Field>): seq<Field> { Enumerate(SortFields(LexLess, fields)) }

  /** What the replacer makes of an array element: every object is copied sorted, and
      an array counts as an object. */
  function ReplaceItem(v: Value): Value {
    match v
    case Arr(items) => Obj(SortedMembers(Indexed(items, 0)))
    case Obj(fields) => Obj(SortedMembers(fields))
    case _ => v
  }

  function ReplaceItems(items: seq<Value>): (r: seq<Value>)
    ensures |r| == |items| && forall i :: 0 <= i < |items| ==> r[i] == ReplaceItem(items[i])
  {
    if items == [] then [] else [ReplaceItem(items[0])] + ReplaceItems(items[1..])
  }

  function Replace(v: Value): Value {
    match v
    case Arr(items) => Arr(ReplaceItems(items))
    case Obj(fields) => Obj(SortedMembers(fields))
    case _ => v
  }

  function Depth(v: Value): nat {
    match v
    case Arr(items) => 1 + DepthItems(items)
    case Obj(fields) => 1 + DepthFields(fields)
    case _ => 0
  }

  function DepthItems(items: seq<Value>): (d: nat)
    ensures forall i :: 0 <= i < |items| ==> Depth(items[i]) <= d
  {
    if items == [] then 0 else var a, b := Depth(items[0]), DepthItems(items[1..]); if a > b then a else b
  }

  function DepthFields(fields: seq<Field>): (d: nat)
    ensures forall i :: 0 <= i < |fields| ==> Depth(fields[i].value) <= d
  {
    if fields == [] then 0 else var a, b := Depth(fields[0].value), DepthFields(fields[1..]); if a > b then a else b
  }

  /** JSON.stringify visits the replaced value, so the replacer runs on every level. */
  function Replaced(v: Value): Value
    decreases Depth(v), 1
  {
    ReplaceIsNoDeeper(v);
    match Replace(v)
    case Arr(items) => Arr(ReplacedItems(items, Depth(v)))
    case Obj(fields) => Obj(ReplacedFields(fields, Depth(v)))
    case leaf => leaf
  }

  function ReplacedItems(items: seq<Value>, below: nat): (r: seq<Value>)
    requires forall i :: 0 <= i < |items| ==> Depth(items[i]) < below
    ensures |r| == |items| && forall i :: 0 <= i < |items| ==> r[i] == Replaced(items[i])
    decreases below, 0, |items|
  {
    if items == [] then [] else [Replaced(items[0])] + ReplacedItems(items[1..], below)
  }

  function ReplacedFields(fields: seq<Field>, below: nat): (r: seq<Field>)
    requires forall i :: 0 <= i < |fields| ==> Depth(fields[i].value) < below
    ensures |r| == |fields|
    ensures forall i :: 0 <= i < |fields| ==> r[i] == Field(fields[i].key, Replaced(fields[i].value))
    decreases below, 0, |fields|
  {
    if fields == [] then []
    else [Field(fields[0].key, Replaced(fields[0].value))] + ReplacedFields(fields[1..], below)
  }

  lemma {:induction false} SortMembersOf(less: (Str, Str) -> bool, fs: seq<Field>)
    ensures forall f :: f in SortFields(less, fs) <==> f in fs
  {
    if fs != [] {
      SortMembersOf(less, fs[1..]);
      InsertMembersOf(less, fs[0], SortFields(less, fs[1..]));
      assert forall f :: f in fs <==> f == fs[0] || f in fs[1..];
    }
  }

  lemma {:induction false} InsertMembersOf(less: (Str, Str) -> bool, f: Field, fs: seq<Field>)
    ensures forall g :: g in InsertField(less, f, fs) <==> g == f || g in fs
  {
    if fs != [] && !less(f.key, fs[0].key) {
      InsertMembersOf(less, f, fs[1..]);
      assert forall g :: g in fs <==> g == fs[0] || g in fs[1..];
    }
  }

  lemma SortedMembersOf(fs: seq<Field>)
    ensures forall f :: f in SortedMembers(fs) <==> f in fs
  {
    SortMembersOf(LexLess, fs);
    var sorted := SortFields(LexLess, fs);
    PickPicks(true, sorted);
    PickPicks(false, sorted);
    SortMembersOf(CoreLess, Pick(true, sorted));
    hide SortFields, Pick, LexLess, CoreLess, IsIndex;
  }

  lemma {:induction false} DepthOfIndexed(items: seq<Value>, from: nat)
    ensures forall f :: f in Indexed(items, from) ==> Depth(f.value) <= DepthItems(items)
  {
    if items != [] {
      DepthOfIndexed(items[1..], from + 1);
      assert forall f :: f in Indexed(items, from) <==> f == Field(Decimal(from), items[0]) || f in Indexed(items[1..], from + 1);
    }
  }

  lemma {:induction false} DepthFieldsAtMost(fields: seq<Field>, d: nat)
    requires forall f :: f in fields ==> Depth(f.value) <= d
    ensures DepthFields(fields) <= d
  {
    if fields != [] {
      assert forall f :: f in fields[1..] ==> f in fields;
      DepthFieldsAtMost(fields[1..], d);
    }
  }

  lemma ReplaceItemIsNoDeeper(v: Value)
    ensures Depth(ReplaceItem(v)) <= Depth(v)
  {
    match v
    case Arr(items) =>
      DepthOfIndexed(items, 0);
      SortedMembersOf(Indexed(items, 0));
      DepthFieldsAtMost(SortedMembers(Indexed(items, 0)), DepthItems(items));
    case Obj(fields) =>
      SortedMembersOf(fields);
      DepthFieldsAtMost(SortedMembers(fields), DepthFields(fields));
    case _ =>
  }

  lemma ReplaceIsNoDeeper(v: Value)
    ensures match Replace(v)
      case Arr(items) => forall i :: 0 <= i < |items| ==> Depth(items[i]) < Depth(v)
      case Obj(fields) => forall i :: 0 <= i < |fields| ==> Depth(fields[i].value) < Depth(v)
      case _ => true
  {
    match v
    case Arr(items) =>
      forall i | 0 <= i < |items| ensures Depth(ReplaceItem(items[i])) < Depth(v) {
        ReplaceItemIsNoDeeper(items[i]);
      }
    case Obj(fields) =>
      SortedMembersOf(fields);
      var sorted := SortedMembers(fields);
      forall i | 0 <= i < |sorted| ensures Depth(sorted[i].value) < Depth(v) {
        assert sorted[i] in fields;
      }
    case _ =>
  }

  function AuditJSON(v: Value): Str { Print(Replaced(v)) }

  /** No array is an element of an array. */
  ghost predicate Flat(v: Value) {
    match v
    case Arr(items) => forall i :: 0 <= i < |items| ==> !items[i].Arr? && Flat(items[i])
    case Obj(fields) => forall i :: 0 <= i < |fields| ==> Flat(fields[i].value)
    case _ => true
  }

  lemma {:induction false} IndexedKeys(items: seq<Value>, from: nat)
    ensures |Indexed(items, from)| == |items|
    ensures forall i :: 0 <= i < |items| ==> Indexed(items, from)[i] == Field(Decimal(from + i), items[i])
  {
    if items != [] {
      IndexedKeys(items[1..], from + 1);
    }
  }

  lemma IndexedIsDistinct(items: seq<Value>)
    ensures DistinctKeys(Indexed(items, 0))
  {
    IndexedKeys(items, 0);
    var fs := Indexed(items, 0);
    forall i, j | 0 <= i < j < |fs| ensures fs[i].key != fs[j].key {
      assert fs[i] == Field(Decimal(0 + i), items[i]) && fs[j] == Field(Decimal(0 + j), items[j]);
      ValueOfDecimal(i);
      ValueOfDecimal(j);
    }
  }

  /** A shallow sort: sorted by Core's order, with the same members. */
  lemma SortedMembersSort(fields: seq<Field>)
    requires DistinctKeys(fields)
    ensures var sorted := SortedMembers(fields);
      SortedBy(CoreLess, sorted) && SameMembers(sorted, fields) && DistinctKeys(sorted)
  {
    CoreIsOrder();
    EnumerateIsSort(fields);
    SortSorts(CoreLess, fields);
    SortedIsDistinct(CoreLess, SortFields(CoreLess, fields));
    hide CoreLess, LexLess, SortFields, Enumerate, StrictOrder;
  }

  lemma SortedMembersProper(fields: seq<Field>)
    requires DistinctKeys(fields) && forall i :: 0 <= i < |fields| ==> Proper(fields[i].value)
    ensures Proper(Obj(SortedMembers(fields)))
  {
    SortedMembersSort(fields);
    var sorted := SortedMembers(fields);
    hide SortedMembers, SortedBy;
    forall i | 0 <= i < |sorted| ensures Proper(sorted[i].value) {
      assert sorted[i] in fields;
    }
  }

  lemma ReplaceItemIsProper(v: Value)
    requires Proper(v)
    ensures Proper(ReplaceItem(v))
  {
    hide SortedMembers;
    match v
    case Arr(items) =>
      IndexedIsDistinct(items);
      IndexedKeys(items, 0);
      var fs := Indexed(items, 0);
      hide Indexed, DistinctKeys;
      forall i | 0 <= i < |fs| ensures Proper(fs[i].value) {
        assert fs[i] == Field(Decimal(0 + i), items[i]);
      }
      SortedMembersProper(fs);
    case Obj(fields) => SortedMembersProper(fields);
    case _ =>
  }

  lemma {:induction false} ReplacedIsProper(v: Value)
    requires Proper(v)
    ensures Proper(Replaced(v))
    decreases Depth(v)
  {
    ReplaceIsNoDeeper(v);
    match v
    case Arr(items) =>
      var replaced := ReplaceItems(items);
      forall i | 0 <= i < |items| ensures Proper(Replaced(replaced[i])) {
        ReplaceItemIsProper(items[i]);
        ReplacedIsProper(replaced[i]);
      }
    case Obj(fields) =>
      SortedMembersSort(fields);
      var sorted := SortedMembers(fields);
      hide SortedMembers, SortedBy;
      forall i | 0 <= i < |sorted| ensures Proper(Replaced(sorted[i].value)) {
        assert sorted[i] in fields;
        ReplacedIsProper(sorted[i].value);
      }
    case _ =>
  }

  /** Sorting a sorted object again changes nothing. */
  lemma ReplacedTwice(fields: seq<Field>)
    requires DistinctKeys(fields)
    ensures Replaced(Obj(SortedMembers(fields))) == Replaced(Obj(fields))
  {
    SortedMembersSort(fields);
    SortedMembersSort(SortedMembers(fields));
    CoreIsOrder();
    hide CoreLess, StrictOrder;
    SortedIsUnique(CoreLess, SortedMembers(SortedMembers(fields)), SortedMembers(fields));
  }

  lemma ReplacedObject(fields: seq<Field>)
    ensures Replaced(Obj(fields)).Obj?
    ensures var sorted, out := SortedMembers(fields), Replaced(Obj(fields)).fields;
      |out| == |sorted| && forall i :: 0 <= i < |sorted| ==> out[i] == Field(sorted[i].key, Replaced(sorted[i].value))
  {
    ReplaceIsNoDeeper(Obj(fields));
    hide SortedMembers;
  }

  lemma ReplacedArray(items: seq<Value>)
    ensures Replaced(Arr(items)).Arr? && |Replaced(Arr(items)).items| == |items|
    ensures forall i :: 0 <= i < |items| ==> Replaced(Arr(items)).items[i] == Replaced(ReplaceItem(items[i]))
  {
    ReplaceIsNoDeeper(Arr(items));
    hide ReplaceItem;
  }

  lemma ArrayLikeCore(items: seq<Value>)
    requires forall i :: 0 <= i < |items| ==> Replaced(ReplaceItem(items[i])) == SortKeys(items[i])
    ensures Replaced(Arr(items)) == SortKeys(Arr(items))
  {
    hide Replaced, SortKeys, ReplaceItem;
    ReplacedArray(items);
    ArraySorts(items);
    assert Replaced(Arr(items)).items == SortItems(items);
  }

  lemma ObjectLikeCore(fields: seq<Field>)
    requires DistinctKeys(fields)
    requires forall i :: 0 <= i < |fields| ==> Replaced(fields[i].value) == SortKeys(fields[i].value)
    ensures Replaced(Obj(fields)) == SortKeys(Obj(fields))
  {
    hide Replaced, SortKeys, SortedMembers, CoreLess, SortFields;
    ReplacedObject(fields);
    SortedObject(fields);
    SortedMembersSort(fields);
    var sorted, out, members := SortedMembers(fields), Replaced(Obj(fields)).fields, SortMembers(fields);
    forall i | 0 <= i < |sorted| ensures out[i] in members {
      assert sorted[i] in fields;
      var j :| 0 <= j < |fields| && fields[j] == sorted[i];
      assert members[j] == out[i];
    }
    forall j | 0 <= j < |fields| ensures members[j] in out {
      assert fields[j] in sorted;
      var i :| 0 <= i < |sorted| && sorted[i] == fields[j];
      assert out[i] == members[j];
    }
    CoreIsOrder();
    SortedIsUnique(CoreLess, out, SortFields(CoreLess, members));
  }

  /** On flat trees the replacer builds exactly Core's sorted tree. */
  lemma {:induction false} FlatIsReplacedLikeCore(v: Value)
    requires Proper(v) && Flat(v)
    ensures Replaced(v) == SortKeys(v)
    decreases v
  {
    match v
    case Arr(items) =>
      forall i | 0 <= i < |items| ensures Replaced(ReplaceItem(items[i])) == SortKeys(items[i]) {
        FlatIsReplacedLikeCore(items[i]);
        hide Replaced, SortKeys;
        if items[i].Obj? {
          ReplacedTwice(items[i].fields);
        }
      }
      ArrayLikeCore(items);
    case Obj(fields) =>
      forall i | 0 <= i < |fields| ensures Replaced(fields[i].value) == SortKeys(fields[i].value) {
        FlatIsReplacedLikeCore(fields[i].value);
      }
      ObjectLikeCore(fields);
    case _ =>
  }

  /** If the replacer builds Core's tree, the tree was flat. */
  lemma {:induction false} LikeCoreIsFlat(v: Value)
    requires Proper(v) && Replaced(v) == SortKeys(v)
    ensures Flat(v)
    decreases Depth(v)
  {
    match v
    case Arr(items) =>
      ReplacedArray(items);
      ArraySorts(items);
      hide Replaced, SortKeys;
      forall i | 0 <= i < |items| ensures !items[i].Arr? && Flat(items[i]) {
        assert Replaced(ReplaceItem(items[i])) == SortItems(items)[i] == SortKeys(items[i]);
        SortShape(items[i]);
        match items[i] {
          case Arr(inner) => ReplacedObject(SortedMembers(Indexed(inner, 0)));
          case Obj(fields) =>
            ReplacedTwice(fields);
            LikeCoreIsFlat(items[i]);
          case _ =>
        }
      }
    case Obj(fields) =>
      ReplacedObject(fields);
      SortedObject(fields);
      SortedMembersSort(fields);
      var sorted, out, members := SortedMembers(fields), Replaced(v).fields, SortMembers(fields);
      hide Replaced, SortKeys, SortedMembers, CoreLess, SortFields;
      forall j | 0 <= j < |fields| ensures Flat(fields[j].value) {
        assert fields[j] in sorted;
        var i :| 0 <= i < |sorted| && sorted[i] == fields[j];
        assert out[i] in members;
        var k :| 0 <= k < |members| && members[k] == out[i];
        assert fields[k].key == fields[j].key && k == j;
        LikeCoreIsFlat(fields[j].value);
      }
    case _ =>
  }

  /** AuditService's text is Core's text if and only if no array is an element of an
      array: the replacer copies such an element as an object with index keys. */
  lemma AuditAgreesIffFlat(v: Value)
    requires Proper(v)
    ensures AuditJSON(v) == CanonicalJSON(v) <==> Flat(v)
  {
    CanonicalIs(v);
    assert AuditJSON(v) == Print(Replaced(v));
    hide *;
    ReplacedIsProper(v);
    SortedIsSameTree(v);
    if Flat(v) {
      FlatIsReplacedLikeCore(v);
    }
    if AuditJSON(v) == CanonicalJSON(v) {
      PrintIsInjective(Replaced(v), SortKeys(v));
      LikeCoreIsFlat(v);
    }
  }

  /** So AuditService's text does not determine the tree: an array inside an array and
      the object with its indices as keys are printed alike. */
  lemma AuditTextIsAmbiguous(items: seq<Value>)
    ensures AuditJSON(Arr([Arr(items)])) == AuditJSON(Arr([Obj(Indexed(items, 0))]))
    ensures !SameTree(Arr([Arr(items)]), Arr([Obj(Indexed(items, 0))]))
  {
    var v, w := Arr([Arr(items)]), Arr([Obj(Indexed(items, 0))]);
    assert ReplaceItems(v.items)[0] == ReplaceItems(w.items)[0];
    assert Replace(v) == Replace(w);
    ReplacedArray(v.items);
    ReplacedArray(w.items);
    assert Replaced(v).items == Replaced(w).items;
    assert !SameTree(v.items[0], w.items[0]);
  }

  /* ---------- the worker: one pass, keys in code-unit order ---------- */

  lemma SortIsNoDeeper(fields: seq<Field>)
    ensures forall i :: 0 <= i < |SortFields(LexLess, fields)| ==>
      Depth(SortFields(LexLess, fields)[i].value) < Depth(Obj(fields))
  {
    SortMembersOf(LexLess, fields);
    var sorted := SortFields(LexLess, fields);
    forall i | 0 <= i < |sorted| ensures Depth(sorted[i].value) < Depth(Obj(fields)) {
      assert sorted[i] in fields;
    }
  }

  function WorkerJSON(v: Value): Str
    decreases Depth(v), 1
  {
    match v
    case Arr(items) => [OPEN_BRACKET] + WorkerItems(items, Depth(v)) + [CLOSE_BRACKET]
    case Obj(fields) =>
      SortIsNoDeeper(fields);
      [OPEN_BRACE] + WorkerFields(SortFields(LexLess, fields), Depth(v)) + [CLOSE_BRACE]
    case _ => Print(v)
  }

  function WorkerItems(items: seq<Value>, below: nat): Str
    requires forall i :: 0 <= i < |items| ==> Depth(items[i]) < below
    decreases below, 0, |items|
  {
    if items == [] then []
    else if |items| == 1 then WorkerJSON(items[0])
    else WorkerJSON(items[0]) + [COMMA] + WorkerItems(items[1..], below)
  }

  function WorkerFields(fields: seq<Field>, below: nat): Str
    requires forall i :: 0 <= i < |fields| ==> Depth(fields[i].value) < below
    decreases below, 0, |fields|
  {
    if fields == [] then []
    else
      var first := Quote(fields[0].key) + [COLON] + WorkerJSON(fields[0].value);
      if |fields| == 1 then first else first + [COMMA] + WorkerFields(fields[1..], below)
  }

  /** The tree whose plain printing the worker's text is. */
  function WorkerTree(v: Value): Value {
    match v
    case Arr(items) => Arr(WorkerTrees(items))
    case Obj(fields) => Obj(SortFields(LexLess, WorkerMembers(fields)))
    case _ => v
  }

  function WorkerTrees(items: seq<Value>): (r: seq<Value>)
    ensures |r| == |items| && forall i :: 0 <= i < |items| ==> r[i] == WorkerTree(items[i])
  {
    if items == [] then [] else [WorkerTree(items[0])] + WorkerTrees(items[1..])
  }

  function WorkerMembers(fields: seq<Field>): (r: seq<Field>)
    ensures |r| == |fields|
    ensures forall i :: 0 <= i < |fields| ==> r[i] == Field(fields[i].key, WorkerTree(fields[i].value))
  {
    if fields == [] then [] else [Field(fields[0].key, WorkerTree(fields[0].value))] + WorkerMembers(fields[1..])
  }

  lemma {:induction false} InsertCommutes(f: Field, fs: seq<Field>)
    ensures WorkerMembers(InsertField(LexLess, f, fs)) ==
      InsertField(LexLess, Field(f.key, WorkerTree(f.value)), WorkerMembers(fs))
  {
    if fs == [] {
    } else if LexLess(f.key, fs[0].key) {
      assert ([f] + fs)[1..] == fs;
    } else {
      InsertCommutes(f, fs[1..]);
      assert ([fs[0]] + InsertField(LexLess, f, fs[1..]))[1..] == InsertField(LexLess, f, fs[1..]);
    }
  }

  lemma {:induction false} SortCommutes(fs: seq<Field>)
    ensures WorkerMembers(SortFields(LexLess, fs)) == SortFields(LexLess, WorkerMembers(fs))
  {
    if fs != [] {
      SortCommutes(fs[1..]);
      InsertCommutes(fs[0], SortFields(LexLess, fs[1..]));
    }
  }

  lemma {:induction false} WorkerPrintsTree(v: Value)
    ensures WorkerJSON(v) == Print(WorkerTree(v))
    decreases Depth(v), 1
  {
    match v
    case Arr(items) => WorkerPrintsItems(items, Depth(v));
    case Obj(fields) =>
      SortIsNoDeeper(fields);
      SortCommutes(fields);
      WorkerPrintsFields(SortFields(LexLess, fields), Depth(v));
    case _ =>
  }

  lemma {:induction false} WorkerPrintsItems(items: seq<Value>, below: nat)
    requires forall i :: 0 <= i < |items| ==> Depth(items[i]) < below
    ensures WorkerItems(items, below) == PrintItems(WorkerTrees(items))
    decreases below, 0, |items|
  {
    if items != [] {
      WorkerPrintsTree(items[0]);
      WorkerPrintsItems(items[1..], below);
      hide WorkerJSON, Print;
      assert WorkerTrees(items)[1..] == WorkerTrees(items[1..]);
    }
  }

  lemma {:induction false} WorkerPrintsFields(fields: seq<Field>, below: nat)
    requires forall i :: 0 <= i < |fields| ==> Depth(fields[i].value) < below
    ensures WorkerFields(fields, below) == PrintFields(WorkerMembers(fields))
    decreases below, 0, |fields|
  {
    if fields != [] {
      WorkerPrintsTree(fields[0].value);
      WorkerPrintsFields(fields[1..], below);
      hide WorkerJSON, Print, Quote;
      assert WorkerMembers(fields)[1..] == WorkerMembers(fields[1..]);
    }
  }

  /** No object has two keys that the two orders list the other way round. */
  ghost predicate Straight(v: Value) {
    match v
    case Arr(items) => forall i :: 0 <= i < |items| ==> Straight(items[i])
    case Obj(fields) =>
      && NoInversion(fields)
      && forall i :: 0 <= i < |fields| ==> Straight(fields[i].value)
    case _ => true
  }

  ghost predicate NoInversion(fields: seq<Field>) {
    forall i, j :: 0 <= i < |fields| && 0 <= j < |fields| && LexLess(fields[i].key, fields[j].key) ==>
      CoreLess(fields[i].key, fields[j].key)
  }

  lemma {:induction false} WorkerTreeIsProper(v: Value)
    requires Proper(v)
    ensures Proper(WorkerTree(v))
  {
    match v
    case Arr(items) =>
      forall i | 0 <= i < |items| ensures Proper(WorkerTree(items[i])) { WorkerTreeIsProper(items[i]); }
    case Obj(fields) =>
      forall i | 0 <= i < |fields| ensures Proper(WorkerTree(fields[i].value)) { WorkerTreeIsProper(fields[i].value); }
      LexIsOrder();
      var members := WorkerMembers(fields);
      SortSorts(LexLess, members);
      var sorted := SortFields(LexLess, members);
      SortedIsDistinct(LexLess, sorted);
      hide LexLess, SortFields, StrictOrder, SortedBy;
      forall i | 0 <= i < |sorted| ensures Proper(sorted[i].value) {
        assert sorted[i] in members;
        var j :| 0 <= j < |members| && members[j] == sorted[i];
        assert members[j].value == WorkerTree(fields[j].value);
      }
    case _ =>
  }

  lemma {:induction false} StraightIsCore(v: Value)
    requires Proper(v) && Straight(v)
    ensures WorkerTree(v) == SortKeys(v)
  {
    match v
    case Arr(items) =>
      ArraySorts(items);
      hide SortKeys;
      forall i | 0 <= i < |items| ensures WorkerTree(items[i]) == SortKeys(items[i]) { StraightIsCore(items[i]); }
      assert WorkerTrees(items) == SortItems(items);
    case Obj(fields) =>
      SortedObject(fields);
      var members := SortMembers(fields);
      forall i | 0 <= i < |fields| ensures WorkerTree(fields[i].value) == SortKeys(fields[i].value) {
        StraightIsCore(fields[i].value);
      }
      hide SortKeys, LexLess, CoreLess;
      assert WorkerMembers(fields) == members;
      StraightSorts(members);
    case _ =>
  }

  lemma StraightSorts(members: seq<Field>)
    requires DistinctKeys(members) && NoInversion(members)
    ensures SortFields(LexLess, members) == SortFields(CoreLess, members)
  {
    LexIsOrder();
    CoreIsOrder();
    hide LexLess, CoreLess, SortFields, StrictOrder;
    SortSorts(LexLess, members);
    SortSorts(CoreLess, members);
    var sorted := SortFields(LexLess, members);
    forall i, j | 0 <= i < j < |sorted| ensures CoreLess(sorted[i].key, sorted[j].key) {
      assert sorted[i] in members && sorted[j] in members;
    }
    SortedIsUnique(CoreLess, sorted, SortFields(CoreLess, members));
  }

  /** A list sorted both ways has no inversion. */
  lemma SortedBothWays(fields: seq<Field>, sorted: seq<Field>)
    requires SortedBy(LexLess, sorted) && SortedBy(CoreLess, sorted)
    requires forall i :: 0 <= i < |fields| ==> HasKey(sorted, fields[i].key)
    ensures NoInversion(fields)
  {
    LexIsOrder();
    hide LexLess, CoreLess;
    forall i, j | 0 <= i < |fields| && 0 <= j < |fields| && LexLess(fields[i].key, fields[j].key)
      ensures CoreLess(fields[i].key, fields[j].key)
    {
      var x :| 0 <= x < |sorted| && sorted[x].key == fields[i].key;
      var y :| 0 <= y < |sorted| && sorted[y].key == fields[j].key;
      assert x < y by {
        assert !LexLess(sorted[y].key, sorted[x].key) && sorted[x].key != sorted[y].key;
      }
    }
  }

  lemma {:induction false} CoreIsStraight(v: Value)
    requires Proper(v) && WorkerTree(v) == SortKeys(v)
    ensures Straight(v)
  {
    match v
    case Arr(items) =>
      ArraySorts(items);
      hide SortKeys;
      forall i | 0 <= i < |items| ensures Straight(items[i]) {
        assert WorkerTrees(items)[i] == SortItems(items)[i];
        CoreIsStraight(items[i]);
      }
    case Obj(fields) =>
      SortedObject(fields);
      LexIsOrder();
      var ours, theirs := WorkerMembers(fields), SortMembers(fields);
      SortSorts(LexLess, ours);
      var sorted := SortFields(LexLess, ours);
      hide SortKeys, LexLess, CoreLess, SortFields, StrictOrder;
      forall i | 0 <= i < |fields| ensures HasKey(sorted, fields[i].key) && Straight(fields[i].value) {
        assert ours[i] in sorted && ours[i] in theirs;
        var k :| 0 <= k < |theirs| && theirs[k] == ours[i];
        assert fields[k].key == fields[i].key && k == i;
        CoreIsStraight(fields[i].value);
        var j :| 0 <= j < |sorted| && sorted[j] == ours[i];
      }
      SortedBothWays(fields, sorted);
    case _ =>
  }

  /** The worker prints Core's text if and only if no object has two keys that code
      units and object enumeration put in opposite orders. */
  lemma WorkerAgreesIffStraight(v: Value)
    requires Proper(v)
    ensures WorkerJSON(v) == CanonicalJSON(v) <==> Straight(v)
  {
    hide *;
    CanonicalIs(v);
    WorkerPrintsTree(v);
    WorkerTreeIsProper(v);
    SortedIsSameTree(v);
    if Straight(v) {
      StraightIsCore(v);
    }
    if WorkerJSON(v) == CanonicalJSON(v) {
      PrintIsInjective(WorkerTree(v), SortKeys(v));
      CoreIsStraight(v);
    }
  }

  /** In particular it does when no key of any object looks like an array index. */
  ghost predicate NoIndexKeys(v: Value) {
    match v
    case Arr(items) => forall i :: 0 <= i < |items| ==> NoIndexKeys(items[i])
    case Obj(fields) =>
      forall i :: 0 <= i < |fields| ==> !IsIndex(fields[i].key) && NoIndexKeys(fields[i].value)
    case _ => true
  }

  lemma {:induction false} NoIndexKeysIsStraight(v: Value)
    requires NoIndexKeys(v)
    ensures Straight(v)
  {
    match v
    case Arr(items) =>
      forall i | 0 <= i < |items| ensures Straight(items[i]) { NoIndexKeysIsStraight(items[i]); }
    case Obj(fields) =>
      forall i | 0 <= i < |fields| ensures Straight(fields[i].value) { NoIndexKeysIsStraight(fields[i].value); }
    case _ =>
  }
}
