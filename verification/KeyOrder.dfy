// The two orders in which JavaScript lists the members of an object: the code-unit
// order of Array.prototype.sort, and the enumeration order of the object itself, in
// which array-index keys come first, by value. Sorting by a strict order is unique.

module KeyOrder {
  import opened Json
  import opened JsonRoundTrip

  /** Code-unit order. */
  predicate LexLess(a: Str, b: Str) {
    b != [] && (a == [] || a[0] < b[0] || (a[0] == b[0] && LexLess(a[1..], b[1..])))
  }

  /** What the order means: at the first difference the smaller code unit comes first, and a
      proper prefix before its extension. */
  predicate DiffersAt(a: Str, b: Str, i: nat) {
    i <= |a| && i < |b| && a[..i] == b[..i] && (i == |a| || a[i] < b[i])
  }

  lemma {:induction false} LexLessIff(a: Str, b: Str)
    ensures LexLess(a, b) <==> exists i: nat :: DiffersAt(a, b, i)
  {
    if a == [] || b == [] || a[0] != b[0] {
      if LexLess(a, b) {
        assert DiffersAt(a, b, 0);
      }
    } else {
      LexLessIff(a[1..], b[1..]);
      if exists i: nat :: DiffersAt(a[1..], b[1..], i) {
        var i: nat :| DiffersAt(a[1..], b[1..], i);
        assert a[..i + 1] == [a[0]] + a[1..][..i] && b[..i + 1] == [b[0]] + b[1..][..i];
        assert DiffersAt(a, b, i + 1);
      }
      if exists i: nat :: DiffersAt(a, b, i) {
        var i: nat :| DiffersAt(a, b, i);
        assert i > 0;
        assert a[1..][..i - 1] == a[..i][1..] && b[1..][..i - 1] == b[..i][1..];
        assert DiffersAt(a[1..], b[1..], i - 1);
      }
    }
  }

  predicate AllDigits(s: Str) { forall i :: 0 <= i < |s| ==> IsDigit(s[i]) }

  /** A canonical array index: digits without a leading zero, below 2^32 - 1. */
  predicate IsIndex(s: Str) {
    s != [] && AllDigits(s) && (s == [48] || s[0] != 48) && ValueOf(s, 0) < 0xFFFF_FFFF
  }

  /** The order in which a fresh object enumerates keys that were inserted sorted. */
  predicate CoreLess(a: Str, b: Str) {
    if IsIndex(a) then !IsIndex(b) || ValueOf(a, 0) < ValueOf(b, 0)
    else !IsIndex(b) && LexLess(a, b)
  }

  /* ---------- both are strict total orders ---------- */

  ghost predicate StrictOrder(less: (Str, Str) -> bool) {
    && (forall a :: !less(a, a))
    && (forall a, b, c :: less(a, b) && less(b, c) ==> less(a, c))
    && (forall a, b :: a != b ==> less(a, b) || less(b, a))
  }

  lemma {:induction false} LexIrreflexive(a: Str)
    ensures !LexLess(a, a)
  {
    if a != [] {
      LexIrreflexive(a[1..]);
    }
  }

  lemma {:induction false} LexTransitive(a: Str, b: Str, c: Str)
    requires LexLess(a, b) && LexLess(b, c)
    ensures LexLess(a, c)
  {
    if a != [] && a[0] == b[0] == c[0] {
      LexTransitive(a[1..], b[1..], c[1..]);
    }
  }

  lemma {:induction false} LexTotal(a: Str, b: Str)
    requires a != b
    ensures LexLess(a, b) || LexLess(b, a)
  {
    if a != [] && b != [] && a[0] == b[0] {
      assert a == [a[0]] + a[1..] && b == [b[0]] + b[1..];
      LexTotal(a[1..], b[1..]);
    }
  }

  lemma LexIsOrder()
    ensures StrictOrder(LexLess)
  {
    forall a ensures !LexLess(a, a) { LexIrreflexive(a); }
    forall a, b, c | LexLess(a, b) && LexLess(b, c) ensures LexLess(a, c) { LexTransitive(a, b, c); }
    forall a, b | a != b ensures LexLess(a, b) || LexLess(b, a) { LexTotal(a, b); }
  }

  lemma {:induction false} ValueOfFront(s: Str, acc: nat)
    requires s != [] && AllDigits(s)
    ensures ValueOf(s, acc) == ValueOf(s[..|s| - 1], acc) * 10 + (s[|s| - 1] as int - 48)
  {
    var front, d := s[..|s| - 1], s[|s| - 1];
    assert IsDigit(d) && s == front + [d];
    ValueOfLast(front, d, acc);
  }

  lemma {:induction false} ValueGrows(s: Str, acc: nat)
    requires AllDigits(s)
    ensures ValueOf(s, acc) >= acc
  {
    if s != [] {
      assert IsDigit(s[0]);
      ValueGrows(s[1..], acc * 10 + (s[0] as int - 48));
    }
  }

  /** A numeral without a leading zero is the decimal of its value. */
  lemma {:induction false} NumeralIsDecimal(s: Str)
    requires s != [] && AllDigits(s) && (s == [48] || s[0] != 48)
    ensures Decimal(ValueOf(s, 0)) == s
    decreases |s|
  {
    var front, d := s[..|s| - 1], s[|s| - 1];
    assert IsDigit(d) && s == front + [d];
    ValueOfFront(s, 0);
    if front == [] {
      assert ValueOf(s, 0) == d as int - 48;
      assert s == [d];
    } else {
      assert IsDigit(s[0]) && front[0] == s[0] != 48;
      NumeralIsDecimal(front);
      ValueGrows(front[1..], front[0] as int - 48);
      assert ValueOf(s, 0) / 10 == ValueOf(front, 0) && ValueOf(s, 0) % 10 == d as int - 48;
    }
  }

  lemma IndexIsItsValue(a: Str, b: Str)
    requires IsIndex(a) && IsIndex(b) && ValueOf(a, 0) == ValueOf(b, 0)
    ensures a == b
  {
    NumeralIsDecimal(a);
    NumeralIsDecimal(b);
  }

  /** The array indices are the decimal numerals of the numbers below 2^32 - 1. */
  lemma IndexIff(s: Str)
    ensures IsIndex(s) <==> exists n: nat :: n < 0xFFFF_FFFF && s == Decimal(n)
  {
    if IsIndex(s) {
      NumeralIsDecimal(s);
      assert s == Decimal(ValueOf(s, 0));
    }
    if exists n: nat :: n < 0xFFFF_FFFF && s == Decimal(n) {
      var n: nat :| n < 0xFFFF_FFFF && s == Decimal(n);
      ValueOfDecimal(n);
    }
  }

  lemma CoreIsOrder()
    ensures StrictOrder(CoreLess)
  {
    LexIsOrder();
    hide LexLess, ValueOf;
    forall a, b | a != b ensures CoreLess(a, b) || CoreLess(b, a) {
      if IsIndex(a) && IsIndex(b) && ValueOf(a, 0) == ValueOf(b, 0) {
        IndexIsItsValue(a, b);
      }
    }
  }

  /* ---------- sorting members by key ---------- */

  function InsertField(less: (Str, Str) -> bool, f: Field, fs: seq<Field>): seq<Field> {
    if fs == [] || less(f.key, fs[0].key) then [f] + fs else [fs[0]] + InsertField(less, f, fs[1..])
  }

  function SortFields(less: (Str, Str) -> bool, fs: seq<Field>): seq<Field> {
    if fs == [] then [] else InsertField(less, fs[0], SortFields(less, fs[1..]))
  }

  ghost predicate SortedBy(less: (Str, Str) -> bool, fs: seq<Field>) {
    forall i, j :: 0 <= i < j < |fs| ==> less(fs[i].key, fs[j].key)
  }

  ghost predicate SameMembers(a: seq<Field>, b: seq<Field>) { forall f :: f in a <==> f in b }

  lemma SortedIsDistinct(less: (Str, Str) -> bool, fs: seq<Field>)
    requires StrictOrder(less) && SortedBy(less, fs)
    ensures DistinctKeys(fs)
  {
  }

  lemma {:induction false} InsertKeepsSorted(less: (Str, Str) -> bool, f: Field, fs: seq<Field>)
    requires StrictOrder(less) && SortedBy(less, fs) && !HasKey(fs, f.key)
    ensures SortedBy(less, InsertField(less, f, fs))
    ensures forall g :: g in InsertField(less, f, fs) <==> g == f || g in fs
  {
    if fs == [] || less(f.key, fs[0].key) {
    } else {
      var rest := fs[1..];
      assert fs[0].key != f.key && forall g :: g in fs <==> g == fs[0] || g in rest;
      InsertKeepsSorted(less, f, rest);
      var tail := InsertField(less, f, rest);
      forall j | 0 <= j < |tail| ensures less(fs[0].key, tail[j].key) {
        assert tail[j] in tail;
        if tail[j] != f {
          var i :| 0 <= i < |rest| && rest[i] == tail[j];
          assert fs[i + 1] == tail[j];
        }
      }
    }
  }

  /** Sorting by a strict order: sorted, and the same members. */
  lemma {:induction false} SortSorts(less: (Str, Str) -> bool, fs: seq<Field>)
    requires StrictOrder(less) && DistinctKeys(fs)
    ensures SortedBy(less, SortFields(less, fs)) && SameMembers(SortFields(less, fs), fs)
  {
    if fs != [] {
      var rest := fs[1..];
      SortSorts(less, rest);
      assert forall g :: g in fs <==> g == fs[0] || g in rest;
      var sorted := SortFields(less, rest);
      forall i | 0 <= i < |sorted| ensures sorted[i].key != fs[0].key {
        assert sorted[i] in rest;
        var j :| 0 <= j < |rest| && rest[j] == sorted[i];
        assert fs[j + 1] == rest[j];
      }
      InsertKeepsSorted(less, fs[0], sorted);
    }
  }

  lemma FirstIsLeast(less: (Str, Str) -> bool, a: seq<Field>, f: Field)
    requires SortedBy(less, a) && f in a
    ensures f == a[0] || less(a[0].key, f.key)
  {
    var i :| 0 <= i < |a| && a[i] == f;
  }

  lemma LeastFirst(less: (Str, Str) -> bool, a: seq<Field>, b: seq<Field>)
    requires StrictOrder(less) && SortedBy(less, a) && SortedBy(less, b) && SameMembers(a, b) && a != []
    ensures b != [] && a[0] == b[0]
  {
    assert a[0] in b;
    assert b[0] in a;
    FirstIsLeast(less, a, b[0]);
    FirstIsLeast(less, b, a[0]);
  }

  lemma EmptyTogether(a: seq<Field>, b: seq<Field>)
    requires SameMembers(a, b)
    ensures a == [] <==> b == []
  {
    assert a != [] ==> a[0] in b;
    assert b != [] ==> b[0] in a;
  }

  /** Two sorted lists of the same members are equal. */
  lemma {:induction false} SortedIsUnique(less: (Str, Str) -> bool, a: seq<Field>, b: seq<Field>)
    requires StrictOrder(less) && SortedBy(less, a) && SortedBy(less, b) && SameMembers(a, b)
    ensures a == b
    decreases |a|
  {
    EmptyTogether(a, b);
    if a != [] {
      LeastFirst(less, a, b);
      SortedIsDistinct(less, a);
      SortedIsDistinct(less, b);
      forall f ensures f in a[1..] <==> f in b[1..] {
        TailMember(a, f);
        TailMember(b, f);
      }
      SortedIsUnique(less, a[1..], b[1..]);
      assert a == [a[0]] + a[1..] && b == [b[0]] + b[1..];
    }
  }

  lemma TailMember(a: seq<Field>, f: Field)
    requires a != [] && DistinctKeys(a)
    ensures f in a[1..] <==> f in a && f != a[0]
  {
    if f in a && f != a[0] {
      var i :| 0 <= i < |a| && a[i] == f;
      assert a[1..][i - 1] == f;
    }
  }

  /* ---------- enumeration ---------- */

  function Pick(index: bool, fs: seq<Field>): seq<Field> {
    if fs == [] then []
    else (if IsIndex(fs[0].key) == index then [fs[0]] else []) + Pick(index, fs[1..])
  }

  /** How an object lists members that were inserted in the given order: array-index
      keys by value, then the other keys as inserted. */
  function Enumerate(fs: seq<Field>): seq<Field> { SortFields(CoreLess, Pick(true, fs)) + Pick(false, fs) }

  lemma {:induction false} PickPicks(index: bool, fs: seq<Field>)
    ensures forall f :: f in Pick(index, fs) <==> f in fs && IsIndex(f.key) == index
  {
    if fs != [] {
      PickPicks(index, fs[1..]);
      assert forall f :: f in fs <==> f == fs[0] || f in fs[1..];
    }
  }

  lemma {:induction false} PickKeepsSorted(less: (Str, Str) -> bool, index: bool, fs: seq<Field>)
    requires SortedBy(less, fs)
    ensures SortedBy(less, Pick(index, fs))
  {
    if fs != [] {
      var rest := Pick(index, fs[1..]);
      PickKeepsSorted(less, index, fs[1..]);
      PickPicks(index, fs[1..]);
      forall j | 0 <= j < |rest| ensures less(fs[0].key, rest[j].key) {
        assert rest[j] in fs[1..];
        var i :| 0 <= i < |fs[1..]| && fs[1..][i] == rest[j];
        assert fs[i + 1] == rest[j];
      }
    }
  }

  /** Core's two steps, sorting by code unit and letting the object enumerate, amount
      to sorting by one order. */
  lemma EnumerateIsSort(fs: seq<Field>)
    requires DistinctKeys(fs)
    ensures Enumerate(SortFields(LexLess, fs)) == SortFields(CoreLess, fs)
  {
    LexIsOrder();
    CoreIsOrder();
    hide CoreLess, LexLess, IsIndex, StrictOrder;
    var sorted := SortFields(LexLess, fs);
    SortSorts(LexLess, fs);
    SortedIsDistinct(LexLess, sorted);
    SortSorts(CoreLess, fs);
    EnumerateSorts(sorted);
    SortedIsUnique(CoreLess, Enumerate(sorted), SortFields(CoreLess, fs));
  }

  lemma EnumerateSorts(fs: seq<Field>)
    requires SortedBy(LexLess, fs) && DistinctKeys(fs)
    ensures SortedBy(CoreLess, Enumerate(fs)) && SameMembers(Enumerate(fs), fs)
  {
    LexIsOrder();
    CoreIsOrder();
    var first, second := Pick(true, fs), Pick(false, fs);
    PickPicks(true, fs);
    PickPicks(false, fs);
    PickKeepsSorted(LexLess, true, fs);
    PickKeepsSorted(LexLess, false, fs);
    SortedIsDistinct(LexLess, first);
    SortSorts(CoreLess, first);
    var sorted := SortFields(CoreLess, first);
    hide LexLess, IsIndex, StrictOrder, SortFields, Pick;
    var all: seq<Field> := sorted + second;
    forall i, j | 0 <= i < j < |all| ensures CoreLess(all[i].key, all[j].key) {
      if i < |sorted| {
        assert sorted[i] in sorted;
      }
      if j >= |sorted| {
        assert second[j - |sorted|] in second;
      }
      if i >= |sorted| {
        assert second[i - |sorted|] in second;
      }
    }
  }
}
