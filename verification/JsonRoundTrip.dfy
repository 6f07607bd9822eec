// Reading what was printed gives the tree back, so the printer is injective.

module JsonRoundTrip {
  import opened Json

  /** Every object in the tree has distinct keys, as every JavaScript object has. */
  ghost predicate Proper(v: Value) {
    match v
    case Arr(items) => forall i :: 0 <= i < |items| ==> Proper(items[i])
    case Obj(fields) =>
      DistinctKeys(fields) && forall i :: 0 <= i < |fields| ==> Proper(fields[i].value)
    case _ => true
  }

  ghost predicate DistinctKeys(fields: seq<Field>) {
    forall i, j :: 0 <= i < j < |fields| ==> fields[i].key != fields[j].key
  }

  /* ---------- numbers ---------- */

  function ValueOf(ds: Str, acc: nat): nat
    requires forall i :: 0 <= i < |ds| ==> IsDigit(ds[i])
  {
    if ds == [] then acc else assert IsDigit(ds[0]); ValueOf(ds[1..], acc * 10 + (ds[0] as int - 48))
  }

  lemma {:induction false} DecimalIsDigits(n: nat)
    ensures forall i :: 0 <= i < |Decimal(n)| ==> IsDigit(Decimal(n)[i])
  {
    if n >= 10 {
      DecimalIsDigits(n / 10);
    }
  }

  lemma {:induction false} ValueOfLast(ds: Str, d: Unit, acc: nat)
    requires forall i :: 0 <= i < |ds| ==> IsDigit(ds[i])
    requires IsDigit(d)
    ensures forall i :: 0 <= i < |ds + [d]| ==> IsDigit((ds + [d])[i])
    ensures ValueOf(ds + [d], acc) == ValueOf(ds, acc) * 10 + (d as int - 48)
  {
    if ds == [] {
      assert ds + [d] == [d];
    } else {
      ValueOfLast(ds[1..], d, acc * 10 + (ds[0] as int - 48));
      assert (ds + [d])[1..] == ds[1..] + [d];
    }
  }

  lemma {:induction false} ValueOfDecimal(n: nat)
    ensures forall i :: 0 <= i < |Decimal(n)| ==> IsDigit(Decimal(n)[i])
    ensures ValueOf(Decimal(n), 0) == n
  {
    DecimalIsDigits(n);
    if n < 10 {
      assert Decimal(n)[1..] == [];
    } else {
      ValueOfDecimal(n / 10);
      ValueOfLast(Decimal(n / 10), Digit(n % 10), 0);
    }
  }

  /** What follows a number must not look like one more digit. */
  predicate Ends(rest: Str) { rest == [] || !IsDigit(rest[0]) }

  lemma {:induction false} ReadDigitsOf(ds: Str, acc: nat, rest: Str)
    requires (forall i :: 0 <= i < |ds| ==> IsDigit(ds[i])) && Ends(rest)
    ensures ReadDigits(ds + rest, acc) == Got(ValueOf(ds, acc), rest)
  {
    if ds == [] {
      assert ds + rest == rest;
    } else {
      ReadDigitsOf(ds[1..], acc * 10 + (ds[0] as int - 48), rest);
      assert (ds + rest)[1..] == ds[1..] + rest;
    }
  }

  lemma ReadDecimal(n: nat, rest: Str)
    requires Ends(rest)
    ensures ReadNatural(Decimal(n) + rest) == Got(n, rest)
  {
    hide Decimal, ReadDigits;
    var ds := Decimal(n);
    ValueOfDecimal(n);
    assert (ds + rest)[1..] == ds[1..] + rest;
    if n > 0 {
      ReadDigitsOf(ds[1..], ds[0] as int - 48, rest);
    } else {
      assert ds[1..] + rest == rest;
    }
  }

  /* ---------- strings ---------- */

  lemma ReadHexEscape(c: Unit, s: Str)
    requires c < 32
    ensures ReadHex4([48, 48, HexDigit(c as int / 16), HexDigit(c as int % 16)] + s) == Got(c, s)
  {
    var t := [48, 48, HexDigit(c as int / 16), HexDigit(c as int % 16)] + s;
    assert t[4..] == s;
  }

  lemma ReadPlainChar(c: Unit, s: Str)
    requires c != QUOTE && c != BACKSLASH && c >= 32
    ensures ReadChars([c] + s) == Prepend(c, ReadChars(s))
  {
    assert ([c] + s)[1..] == s;
  }

  lemma ReadEscapedChar(e: Str, c: Unit, s: Str)
    requires e != [] && e[0] == BACKSLASH && ReadEscape(e[1..] + s) == Got(c, s)
    ensures ReadChars(e + s) == Prepend(c, ReadChars(s))
  {
    assert (e + s)[1..] == e[1..] + s;
    hide ReadEscape;
  }

  lemma ReadShortEscape(letter: Unit, c: Unit, s: Str)
    requires Escape(c) == [BACKSLASH, letter]
    ensures ReadEscape([letter] + s) == Got(c, s)
  {
    assert ([letter] + s)[1..] == s;
  }

  lemma ReadOneChar(c: Unit, s: Str)
    ensures ReadChars(Escape(c) + s) == Prepend(c, ReadChars(s))
  {
    var e := Escape(c);
    if |e| == 1 {
      ReadPlainChar(c, s);
    } else if |e| == 2 {
      ReadShortEscape(e[1], c, s);
      assert e[1..] == [e[1]];
      hide ReadChars, ReadEscape;
      ReadEscapedChar(e, c, s);
    } else {
      var hex := [48, 48, HexDigit(c as int / 16), HexDigit(c as int % 16)];
      ReadHexEscape(c, s);
      assert e[1..] + s == [LETTER_U] + (hex + s) && ([LETTER_U] + (hex + s))[1..] == hex + s;
      hide ReadHex4, ReadChars;
      ReadEscapedChar(e, c, s);
    }
  }

  lemma EscapeSplit(s: Str, tail: Str)
    requires s != []
    ensures EscapeAll(s) + tail == Escape(s[0]) + (EscapeAll(s[1..]) + tail)
  {
    hide Escape;
  }

  lemma PrependFirst(s: Str, rest: Str)
    requires s != []
    ensures Prepend(s[0], Got(s[1..], rest)) == Got(s, rest)
  {
    assert [s[0]] + s[1..] == s;
  }

  lemma {:induction false} ReadEscaped(s: Str, rest: Str)
    ensures ReadChars(EscapeAll(s) + ([QUOTE] + rest)) == Got(s, rest)
  {
    if s == [] {
      assert EscapeAll(s) + ([QUOTE] + rest) == [QUOTE] + rest;
      assert ([QUOTE] + rest)[1..] == rest;
    } else {
      ReadEscaped(s[1..], rest);
      hide *;
      ReadOneChar(s[0], EscapeAll(s[1..]) + ([QUOTE] + rest));
      EscapeSplit(s, [QUOTE] + rest);
      PrependFirst(s, rest);
    }
  }

  lemma ReadQuoted(s: Str, rest: Str)
    ensures ReadText(Quote(s) + rest) == Got(s, rest)
  {
    hide ReadChars, EscapeAll;
    ReadEscaped(s, rest);
    assert (Quote(s) + rest)[1..] == EscapeAll(s) + ([QUOTE] + rest);
  }

  /* ---------- values ---------- */

  predicate Starts(c: Unit) {
    c == 110 || c == 116 || c == 102 || c == QUOTE || c == MINUS || IsDigit(c) || c == OPEN_BRACKET || c == OPEN_BRACE
  }

  lemma PrintStarts(v: Value)
    ensures Print(v) != [] && Starts(Print(v)[0])
  {
  }

  lemma ReadPrintedNumber(n: int, rest: Str)
    requires Ends(rest)
    ensures ReadValue(Integer(n) + rest) == Got(Num(n), rest)
  {
    hide Decimal, ReadNatural;
    if n < 0 {
      ReadDecimal(-n, rest);
      assert (Integer(n) + rest)[1..] == Decimal(-n) + rest;
    } else {
      ReadDecimal(n, rest);
      assert (Integer(n) + rest)[0] == Decimal(n)[0];
    }
  }

  lemma ReadPrintedText(s: Str, rest: Str)
    ensures ReadValue(Quote(s) + rest) == Got(Text(s), rest)
  {
    ReadQuoted(s, rest);
  }

  lemma ReadPrintedWord(v: Value, rest: Str)
    requires v.Null? || v.Bool?
    ensures ReadValue(Print(v) + rest) == Got(v, rest)
  {
    var w := Print(v);
    assert (w + rest)[|w|..] == rest;
    assert w <= w + rest;
  }

  lemma ReadPrintedArray(items: seq<Value>, rest: Str)
    requires items == [] || ReadItems(PrintItems(items) + ([CLOSE_BRACKET] + rest)) == Got(items, rest)
    ensures ReadValue(Print(Arr(items)) + rest) == Got(Arr(items), rest)
  {
    hide ReadItems;
    var t := Print(Arr(items)) + rest;
    assert t[1..] == PrintItems(items) + ([CLOSE_BRACKET] + rest);
    if items == [] {
      assert t[2..] == rest;
    } else {
      ItemsStart(items);
      hide PrintItems;
      assert t[1] == PrintItems(items)[0];
    }
  }

  lemma ItemsStart(items: seq<Value>)
    requires items != []
    ensures PrintItems(items) != [] && Starts(PrintItems(items)[0])
  {
    PrintStarts(items[0]);
    hide Print;
  }

  lemma ReadPrintedObject(fields: seq<Field>, rest: Str)
    requires fields == [] || ReadFields(PrintFields(fields) + ([CLOSE_BRACE] + rest)) == Got(fields, rest)
    ensures ReadValue(Print(Obj(fields)) + rest) == Got(Obj(fields), rest)
  {
    hide ReadFields;
    var t := Print(Obj(fields)) + rest;
    assert t[1..] == PrintFields(fields) + ([CLOSE_BRACE] + rest);
    if fields == [] {
      assert t[2..] == rest;
    } else {
      FieldsStart(fields);
      hide PrintFields;
      assert t[1] == PrintFields(fields)[0];
    }
  }

  lemma FieldsStart(fields: seq<Field>)
    requires fields != []
    ensures PrintFields(fields) != [] && PrintFields(fields)[0] == QUOTE
  {
    hide Print;
  }

  /** Faithful printer: reading a printed tree gives the tree back, whatever follows. */
  lemma {:induction false} ReadPrinted(v: Value, rest: Str)
    requires Proper(v) && Ends(rest)
    ensures ReadValue(Print(v) + rest) == Got(v, rest)
    decreases v, 1
  {
    match v
    case Null => ReadPrintedWord(v, rest);
    case Bool(_) => ReadPrintedWord(v, rest);
    case Num(n) => ReadPrintedNumber(n, rest);
    case Text(s) => ReadPrintedText(s, rest);
    case Arr(items) =>
      hide ReadValue, ReadItems, Print, PrintItems;
      if items != [] {
        ReadPrintedItems(v, items, rest);
      }
      ReadPrintedArray(items, rest);
    case Obj(fields) =>
      hide ReadValue, ReadFields, Print, PrintFields;
      if fields != [] {
        ReadPrintedFields(v, fields, rest);
      }
      ReadPrintedObject(fields, rest);
  }

  lemma ReadLastItem(s: Str, v: Value, rest: Str)
    requires ReadValue(s) == Got(v, [CLOSE_BRACKET] + rest)
    ensures ReadItems(s) == Got([v], rest)
  {
    hide ReadValue;
    assert ([CLOSE_BRACKET] + rest)[1..] == rest;
  }

  lemma ReadOneItem(s: Str, v: Value, more: Str, items: seq<Value>, rest: Str)
    requires ReadValue(s) == Got(v, [COMMA] + more) && ReadItems(more) == Got(items, rest)
    ensures ReadItems(s) == Got([v] + items, rest)
  {
    hide ReadValue;
    assert ([COMMA] + more)[1..] == more;
  }

  lemma Regroup(a: Str, comma: Str, b: Str, tail: Str)
    ensures a + comma + b + tail == a + (comma + (b + tail))
  {
  }

  lemma PrintItemsStep(items: seq<Value>)
    requires |items| > 1
    ensures PrintItems(items) == Print(items[0]) + [COMMA] + PrintItems(items[1..])
  {
    hide Print;
  }

  lemma PrintItemsSplit(items: seq<Value>, tail: Str)
    requires |items| > 1
    ensures PrintItems(items) + tail == Print(items[0]) + ([COMMA] + (PrintItems(items[1..]) + tail))
    ensures [items[0]] + items[1..] == items
  {
    hide Print, PrintItems;
    PrintItemsStep(items);
    Regroup(Print(items[0]), [COMMA], PrintItems(items[1..]), tail);
  }

  lemma PrintItemsLast(items: seq<Value>)
    requires |items| == 1
    ensures PrintItems(items) == Print(items[0]) && [items[0]] == items
  {
    hide Print;
  }

  lemma {:induction false} ReadPrintedItems(v: Value, items: seq<Value>, rest: Str)
    requires items != [] && (forall i :: 0 <= i < |items| ==> items[i] < v && Proper(items[i]))
    ensures ReadItems(PrintItems(items) + ([CLOSE_BRACKET] + rest)) == Got(items, rest)
    decreases v, 0, |items|
  {
    hide ReadItems, ReadValue, Print, PrintItems, Proper;
    var close := [CLOSE_BRACKET] + rest;
    if |items| == 1 {
      ReadPrinted(items[0], close);
      ReadLastItem(Print(items[0]) + close, items[0], rest);
      PrintItemsLast(items);
    } else {
      var more := PrintItems(items[1..]) + close;
      ReadPrinted(items[0], [COMMA] + more);
      ReadPrintedItems(v, items[1..], rest);
      ReadOneItem(Print(items[0]) + ([COMMA] + more), items[0], more, items[1..], rest);
      PrintItemsSplit(items, close);
    }
  }

  lemma ReadOneField(f: Field, after: Str)
    requires ReadValue(Print(f.value) + after) == Got(f.value, after)
    ensures ReadFields(PrintField(f) + after) ==
      if after == [] then Fail
      else if after[0] == CLOSE_BRACE then Got([f], after[1..])
      else if after[0] == COMMA && ReadFields(after[1..]).Got? then
        Got(AddField(f, ReadFields(after[1..]).value), ReadFields(after[1..]).rest)
      else Fail
  {
    hide ReadValue, ReadText, Print, Quote;
    var text := Print(f.value) + after;
    ReadQuoted(f.key, [COLON] + text);
    assert PrintField(f) + after == Quote(f.key) + ([COLON] + text);
    assert ([COLON] + text)[1..] == text;
  }

  lemma {:induction false} ReadPrintedFields(v: Value, fields: seq<Field>, rest: Str)
    requires fields != [] && DistinctKeys(fields)
    requires forall i :: 0 <= i < |fields| ==> fields[i].value < v && Proper(fields[i].value)
    ensures ReadFields(PrintFields(fields) + ([CLOSE_BRACE] + rest)) == Got(fields, rest)
    decreases v, 0, |fields|
  {
    hide ReadFields, ReadValue, Print, PrintField, Proper;
    var f, close := fields[0], [CLOSE_BRACE] + rest;
    if |fields| == 1 {
      ReadPrinted(f.value, close);
      ReadOneField(f, close);
      assert close[1..] == rest && [f] == fields;
    } else {
      var more := PrintFields(fields[1..]) + close;
      var after := [COMMA] + more;
      ReadPrinted(f.value, after);
      ReadOneField(f, after);
      assert PrintFields(fields) + close == PrintField(f) + after && after[1..] == more;
      ReadPrintedFields(v, fields[1..], rest);
      assert !HasKey(fields[1..], f.key);
      assert [f] + fields[1..] == fields;
    }
  }

  lemma ParsePrinted(v: Value)
    requires Proper(v)
    ensures Parse(Print(v)) == Some(v)
  {
    ReadPrinted(v, []);
    assert Print(v) + [] == Print(v);
  }

  /** Two trees that print alike are equal. */
  lemma PrintIsInjective(v: Value, w: Value)
    requires Proper(v) && Proper(w) && Print(v) == Print(w)
    ensures v == w
  {
    ParsePrinted(v);
    ParsePrinted(w);
  }

  /* ---------- strings are printed as short as they can be ---------- */

  lemma EscapeLength(c: Unit, t: Str)
    requires ReadEscape(t).Got? && ReadEscape(t).value == c
    ensures |Escape(c)| <= 1 + |t| - |ReadEscape(t).rest|
  {
    hide HexValue, HexDigit;
    if t[0] == LETTER_U {
      assert |ReadHex4(t[1..]).rest| == |t| - 5;
    }
  }

  lemma {:induction false} CharsAreShortest(t: Str, s: Str, rest: Str)
    requires ReadChars(t) == Got(s, rest)
    ensures |EscapeAll(s)| + 1 <= |t| - |rest|
    decreases |t|
  {
    if t[0] == QUOTE {
    } else if t[0] == BACKSLASH {
      var read := ReadEscape(t[1..]);
      EscapeLength(read.value, t[1..]);
      CharsAreShortest(read.rest, s[1..], rest);
      hide Escape, ReadEscape;
    } else {
      CharsAreShortest(t[1..], s[1..], rest);
    }
  }

  /** No text that reads as the string is shorter than what is printed: nothing is escaped
      that need not be, and what has a short escape is never spelled out. */
  lemma QuoteIsShortest(t: Str, s: Str)
    requires ReadText(t) == Got(s, [])
    ensures |Quote(s)| <= |t|
  {
    CharsAreShortest(t[1..], s, []);
  }

  /** And the digits of an escape are lower-case. */
  lemma EscapeIsLowerCase(c: Unit, i: nat)
    requires |Escape(c)| == 6 && 2 <= i < 6
    ensures !(65 <= Escape(c)[i] <= 70)
  {
  }
}
