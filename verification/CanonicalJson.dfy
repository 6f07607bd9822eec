// Core's canonical JSON: sort the keys of every object, then stringify. Its text reads
// back to the same tree, and is equal exactly for trees equal up to key order.

module CanonicalJson {
  import opened Json
  import opened JsonRoundTrip
  import opened KeyOrder

  /* ---------- Core: sortKeys, then stringify ---------- */

  function SortKeys(v: Value): Value
    decreases v, 0
  {
    match v
    case Arr(items) => Arr(SortItems(items))
    case Obj(fields) => Obj(Enumerate(SortFields(LexLess, SortMembers(fields))))
    case _ => v
  }

  function SortItems(items: seq<Value>): (r: seq<Value>)
    ensures |r| == |items| && forall i :: 0 <= i < |items| ==> r[i] == SortKeys(items[i])
  {
    if items == [] then [] else [SortKeys(items[0])] + SortItems(items[1..])
  }

  function SortMembers(fields: seq<Field>): (r: seq<Field>)
    ensures |r| == |fields|
    ensures forall i :: 0 <= i < |fields| ==> r[i] == Field(fields[i].key, SortKeys(fields[i].value))
  {
    if fields == [] then [] else [Field(fields[0].key, SortKeys(fields[0].value))] + SortMembers(fields[1..])
  }

  function CanonicalJSON(v: Value): Str { Print(SortKeys(v)) }

  /* ---------- equal up to key order ---------- */

  ghost predicate SameTree(v: Value, w: Value)
    decreases v
  {
    match v
    case Arr(items) =>
      w.Arr? && |w.items| == |items| && forall i :: 0 <= i < |items| ==> SameTree(items[i], w.items[i])
    case Obj(fields) =>
      && w.Obj?
      && (forall i :: 0 <= i < |fields| ==> HasTwin(fields[i], w.fields))
      && (forall j :: 0 <= j < |w.fields| ==> HasKey(fields, w.fields[j].key))
    case _ => v == w
  }

  /** A member of the same name with the same tree. */
  ghost predicate HasTwin(f: Field, others: seq<Field>)
    decreases f
  {
    exists j :: 0 <= j < |others| && others[j].key == f.key && SameTree(f.value, others[j].value)
  }

  /** The sorted form of an object: sorted by one order, with the sorted values. */
  lemma SortedObject(fields: seq<Field>)
    requires DistinctKeys(fields)
    ensures var members := SortMembers(fields);
      && DistinctKeys(members)
      && SortKeys(Obj(fields)) == Obj(SortFields(CoreLess, members))
      && SortedBy(CoreLess, SortFields(CoreLess, members))
      && SameMembers(SortFields(CoreLess, members), members)
  {
    hide SortKeys, CoreLess, LexLess, SortFields, Enumerate;
    var members := SortMembers(fields);
    CoreIsOrder();
    EnumerateIsSort(members);
    SortSorts(CoreLess, members);
    ObjectSorts(fields);
  }

  lemma ObjectSorts(fields: seq<Field>)
    ensures SortKeys(Obj(fields)) == Obj(Enumerate(SortFields(LexLess, SortMembers(fields))))
  {
  }

  lemma SortedArraySame(items: seq<Value>)
    requires forall i :: 0 <= i < |items| ==> Proper(SortKeys(items[i])) && SameTree(items[i], SortKeys(items[i]))
    ensures Proper(SortKeys(Arr(items))) && SameTree(Arr(items), SortKeys(Arr(items)))
  {
    ArraySorts(items);
    hide SortKeys;
  }

  lemma SortedObjectSame(fields: seq<Field>)
    requires DistinctKeys(fields)
    requires forall i :: 0 <= i < |fields| ==>
      Proper(SortKeys(fields[i].value)) && SameTree(fields[i].value, SortKeys(fields[i].value))
    ensures Proper(SortKeys(Obj(fields))) && SameTree(Obj(fields), SortKeys(Obj(fields)))
  {
    hide SortKeys, CoreLess, SortFields, StrictOrder, SortedBy;
    SortedObject(fields);
    CoreIsOrder();
    var members := SortMembers(fields);
    var sorted := SortFields(CoreLess, members);
    SortedIsDistinct(CoreLess, sorted);
    forall j | 0 <= j < |sorted| ensures Proper(sorted[j].value) && HasKey(fields, sorted[j].key) {
      assert sorted[j] in members;
      var i :| 0 <= i < |members| && members[i] == sorted[j];
      assert fields[i].key == sorted[j].key;
    }
    forall i | 0 <= i < |fields| ensures HasTwin(fields[i], sorted) {
      assert members[i] in sorted;
      var j :| 0 <= j < |sorted| && sorted[j] == members[i];
    }
  }

  /** Sorting keys keeps the tree, up to key order, and keeps keys distinct. */
  lemma {:induction false} SortedIsSameTree(v: Value)
    requires Proper(v)
    ensures Proper(SortKeys(v)) && SameTree(v, SortKeys(v))
  {
    match v
    case Arr(items) =>
      forall i | 0 <= i < |items| ensures Proper(SortKeys(items[i])) && SameTree(items[i], SortKeys(items[i])) {
        SortedIsSameTree(items[i]);
      }
      hide SortKeys, SameTree;
      SortedArraySame(items);
    case Obj(fields) =>
      forall i | 0 <= i < |fields|
        ensures Proper(SortKeys(fields[i].value)) && SameTree(fields[i].value, SortKeys(fields[i].value))
      {
        SortedIsSameTree(fields[i].value);
      }
      hide SortKeys, SameTree;
      SortedObjectSame(fields);
    case _ =>
  }

  lemma ArraySorts(items: seq<Value>)
    ensures SortKeys(Arr(items)) == Arr(SortItems(items))
  {
  }

  lemma AlikeArrays(items: seq<Value>, others: seq<Value>)
    requires |items| == |others| && forall i :: 0 <= i < |items| ==> SortKeys(items[i]) == SortKeys(others[i])
    ensures SortKeys(Arr(items)) == SortKeys(Arr(others))
  {
    ArraySorts(items);
    ArraySorts(others);
    hide SortKeys;
    assert SortItems(items) == SortItems(others);
  }

  /** Objects whose sorted members agree, key by key. */
  lemma AlikeObjects(fields: seq<Field>, others: seq<Field>)
    requires DistinctKeys(fields) && DistinctKeys(others)
    requires SameMembers(SortMembers(fields), SortMembers(others))
    ensures SortKeys(Obj(fields)) == SortKeys(Obj(others))
  {
    hide SortKeys, CoreLess, SortFields, StrictOrder;
    SortedObject(fields);
    SortedObject(others);
    CoreIsOrder();
    SortedIsUnique(CoreLess, SortFields(CoreLess, SortMembers(fields)), SortFields(CoreLess, SortMembers(others)));
  }

  /** A member of the same name whose value sorts alike. */
  ghost predicate HasMatch(f: Field, others: seq<Field>) {
    exists j :: 0 <= j < |others| && others[j].key == f.key && SortKeys(f.value) == SortKeys(others[j].value)
  }

  lemma MatchedMembers(fields: seq<Field>, others: seq<Field>)
    requires DistinctKeys(others)
    requires forall i :: 0 <= i < |fields| ==> HasMatch(fields[i], others)
    requires forall j :: 0 <= j < |others| ==> HasKey(fields, others[j].key)
    ensures SameMembers(SortMembers(fields), SortMembers(others))
  {
    var members, theirs := SortMembers(fields), SortMembers(others);
    forall i | 0 <= i < |fields| ensures members[i] in theirs {
      var j :| 0 <= j < |others| && others[j].key == fields[i].key
        && SortKeys(fields[i].value) == SortKeys(others[j].value);
      assert theirs[j] == members[i];
    }
    forall j | 0 <= j < |others| ensures theirs[j] in members {
      var i :| 0 <= i < |fields| && fields[i].key == others[j].key;
      assert members[i] in theirs;
      var k :| 0 <= k < |theirs| && theirs[k] == members[i];
      assert others[k].key == others[j].key && k == j;
    }
  }

  lemma {:induction false} SameTreeSortsAlike(v: Value, w: Value)
    requires Proper(v) && Proper(w) && SameTree(v, w)
    ensures SortKeys(v) == SortKeys(w)
  {
    match v
    case Arr(items) =>
      forall i | 0 <= i < |items| ensures SortKeys(items[i]) == SortKeys(w.items[i]) {
        SameTreeSortsAlike(items[i], w.items[i]);
      }
      AlikeArrays(items, w.items);
    case Obj(fields) =>
      forall i | 0 <= i < |fields| ensures HasMatch(fields[i], w.fields) {
        assert HasTwin(fields[i], w.fields);
        var j :| 0 <= j < |w.fields| && w.fields[j].key == fields[i].key && SameTree(fields[i].value, w.fields[j].value);
        SameTreeSortsAlike(fields[i].value, w.fields[j].value);
      }
      MatchedMembers(fields, w.fields);
      AlikeObjects(fields, w.fields);
    case _ =>
  }

  /** Objects that sort alike have the same sorted members. */
  lemma AlikeMembers(fields: seq<Field>, others: seq<Field>)
    requires DistinctKeys(fields) && DistinctKeys(others)
    requires SortKeys(Obj(fields)) == SortKeys(Obj(others))
    ensures SameMembers(SortMembers(fields), SortMembers(others))
  {
    hide SortKeys, CoreLess, SortFields, SortedBy;
    SortedObject(fields);
    SortedObject(others);
  }

  /** From equal sorted members to pairs of members with one key. */
  lemma PairedMember(fields: seq<Field>, others: seq<Field>, i: nat)
    requires i < |fields| && SameMembers(SortMembers(fields), SortMembers(others))
    ensures HasMatch(fields[i], others)
  {
    hide SortKeys;
    var theirs := SortMembers(others);
    assert SortMembers(fields)[i] in SortMembers(fields);
    var j :| 0 <= j < |theirs| && theirs[j] == SortMembers(fields)[i];
    hide SortMembers;
    assert others[j].key == fields[i].key && SortKeys(fields[i].value) == SortKeys(others[j].value);
  }

  lemma PairedKey(fields: seq<Field>, others: seq<Field>, j: nat)
    requires j < |others| && SameMembers(SortMembers(fields), SortMembers(others))
    ensures HasKey(fields, others[j].key)
  {
    hide SortKeys;
    var members := SortMembers(fields);
    assert SortMembers(others)[j] in SortMembers(others);
    var i :| 0 <= i < |members| && members[i] == SortMembers(others)[j];
    hide SortMembers;
    assert fields[i].key == others[j].key;
  }

  lemma PairedMembers(fields: seq<Field>, others: seq<Field>)
    requires SameMembers(SortMembers(fields), SortMembers(others))
    ensures forall i :: 0 <= i < |fields| ==> HasMatch(fields[i], others)
    ensures forall j :: 0 <= j < |others| ==> HasKey(fields, others[j].key)
  {
    hide *;
    forall i | 0 <= i < |fields| ensures HasMatch(fields[i], others) {
      PairedMember(fields, others, i);
    }
    forall j | 0 <= j < |others| ensures HasKey(fields, others[j].key) {
      PairedKey(fields, others, j);
    }
  }

  lemma {:induction false} SortsAlikeIsSameTree(v: Value, w: Value)
    requires Proper(v) && Proper(w) && SortKeys(v) == SortKeys(w)
    ensures SameTree(v, w)
  {
    SortShape(v);
    SortShape(w);
    match v
    case Arr(items) =>
      ArraySorts(items);
      ArraySorts(w.items);
      hide SortKeys;
      forall i | 0 <= i < |items| ensures SameTree(items[i], w.items[i]) {
        assert SortItems(items)[i] == SortItems(w.items)[i];
        SortsAlikeIsSameTree(items[i], w.items[i]);
      }
    case Obj(fields) =>
      AlikeMembers(fields, w.fields);
      PairedMembers(fields, w.fields);
      forall i | 0 <= i < |fields| ensures HasTwin(fields[i], w.fields) {
        assert HasMatch(fields[i], w.fields);
        var j :| 0 <= j < |w.fields| && w.fields[j].key == fields[i].key
          && SortKeys(fields[i].value) == SortKeys(w.fields[j].value);
        SortsAlikeIsSameTree(fields[i].value, w.fields[j].value);
      }
    case _ =>
  }

  lemma SortShape(v: Value)
    ensures SortKeys(v).Arr? <==> v.Arr?
    ensures SortKeys(v).Obj? <==> v.Obj?
    ensures !v.Arr? && !v.Obj? ==> SortKeys(v) == v
  {
  }

  /** Faithful printer: reading the canonical text back gives the tree, up to key order. */
  lemma CanonicalReadsBack(v: Value)
    requires Proper(v)
    ensures Parse(CanonicalJSON(v)) == Some(SortKeys(v)) && SameTree(v, SortKeys(v)) && Proper(SortKeys(v))
  {
    SortedIsSameTree(v);
    hide *;
    ParsePrinted(SortKeys(v));
    CanonicalIs(v);
  }

  lemma CanonicalIs(v: Value)
    ensures CanonicalJSON(v) == Print(SortKeys(v))
  {
  }

  /** Two trees have one canonical text if and only if they are equal up to key order. */
  lemma CanonicalIff(v: Value, w: Value)
    requires Proper(v) && Proper(w)
    ensures CanonicalJSON(v) == CanonicalJSON(w) <==> SameTree(v, w)
  {
    hide *;
    CanonicalIs(v);
    CanonicalIs(w);
    if CanonicalJSON(v) == CanonicalJSON(w) {
      SortedIsSameTree(v);
      SortedIsSameTree(w);
      PrintIsInjective(SortKeys(v), SortKeys(w));
      SortsAlikeIsSameTree(v, w);
    }
    if SameTree(v, w) {
      SameTreeSortsAlike(v, w);
    }
  }

  /** Canonical text is a fixed point: parsing it and canonicalising again changes
      nothing. The audit verifiers rely on this. */
  lemma CanonicalIsStable(v: Value)
    requires Proper(v)
    ensures Parse(CanonicalJSON(v)).Some? && CanonicalJSON(Parse(CanonicalJSON(v)).value) == CanonicalJSON(v)
  {
    CanonicalReadsBack(v);
    hide *;
    CanonicalIff(v, SortKeys(v));
  }
}
