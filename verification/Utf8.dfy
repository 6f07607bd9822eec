// UTF-8 (section 3 of RFC 3629) of well-formed text, and truncation to a byte budget.

module Utf8 {
  import opened Json

  newtype Byte = b: int | 0 <= b < 256

  type Bytes = seq<Byte>

  /** A Unicode scalar value: a code point that is not a surrogate. */
  newtype Scalar = c: int | 0 <= c < 0xD800 || 0xE000 <= c < 0x11_0000

  /** Well-formed text. */
  type Chars = seq<Scalar>

  predicate IsScalar(c: int) { 0 <= c < 0xD800 || 0xE000 <= c < 0x11_0000 }

  /* ---------- encoding ---------- */

  /** The continuation byte that carries the low six bits. */
  function Tail(c: int): (b: Byte)
    requires 0 <= c
    ensures IsContinuation(b)
  {
    (0x80 + c % 64) as Byte
  }

  /** (byte & 0xc0) === 0x80 */
  predicate IsContinuation(b: Byte) { 0x80 <= b < 0xC0 }

  function Encode(s: Scalar): (r: Bytes)
    ensures 1 <= |r| <= 4 && !IsContinuation(r[0]) && forall i :: 1 <= i < |r| ==> IsContinuation(r[i])
  {
    var c := s as int;
    if c < 0x80 then [c as Byte]
    else if c < 0x800 then [(0xC0 + c / 64) as Byte, Tail(c)]
    else if c < 0x1_0000 then [(0xE0 + c / 64 / 64) as Byte, Tail(c / 64), Tail(c)]
    else [(0xF0 + c / 64 / 64 / 64) as Byte, Tail(c / 64 / 64), Tail(c / 64), Tail(c)]
  }

  function EncodeAll(s: Chars): Bytes { if s == [] then [] else Encode(s[0]) + EncodeAll(s[1..]) }

  /* ---------- decoding ---------- */

  /** Bytes the lead byte announces; 0 for a byte that leads nothing. */
  function Announced(b: Byte): (n: nat)
    ensures n <= 4
  {
    if b < 0x80 then 1 else if b < 0xC0 then 0 else if b < 0xE0 then 2 else if b < 0xF0 then 3 else if b < 0xF8 then 4 else 0
  }

  function Low(b: Byte): int { b as int - 0x80 }

  /** The number the first bytes spell, without asking whether they may spell it. */
  function CodePoint(bs: Bytes): int
    requires bs != [] && |bs| >= Announced(bs[0])
  {
    match Announced(bs[0])
    case 1 => bs[0] as int
    case 2 => (bs[0] as int - 0xC0) * 64 + Low(bs[1])
    case 3 => ((bs[0] as int - 0xE0) * 64 + Low(bs[1])) * 64 + Low(bs[2])
    case 4 => (((bs[0] as int - 0xF0) * 64 + Low(bs[1])) * 64 + Low(bs[2])) * 64 + Low(bs[3])
    case _ => -1
  }

  /** The first character; None for anything but its shortest form. */
  function DecodeOne(bs: Bytes): Option<Scalar> {
    if bs == [] || |bs| < Announced(bs[0]) || !IsScalar(CodePoint(bs)) then None
    else
      var c := CodePoint(bs) as Scalar;
      if Encode(c) <= bs then Some(c) else None
  }

  function Cons(c: Scalar, rest: Option<Chars>): Option<Chars> {
    match rest
    case None => None
    case Some(s) => Some([c] + s)
  }

  function Decode(bs: Bytes): Option<Chars>
    decreases |bs|
  {
    if bs == [] then Some([])
    else
      match DecodeOne(bs)
      case None => None
      case Some(c) => Cons(c, Decode(bs[|Encode(c)|..]))
  }

  lemma DecodesFirst(c: Scalar, rest: Bytes)
    ensures DecodeOne(Encode(c) + rest) == Some(c)
  {
    var bs := Encode(c) + rest;
    assert Encode(c) <= bs;
    assert forall i :: 0 <= i < |Encode(c)| ==> bs[i] == Encode(c)[i];
  }

  /** Round trip. */
  lemma {:induction false} DecodeEncoded(s: Chars)
    ensures Decode(EncodeAll(s)) == Some(s)
  {
    if s != [] {
      var rest := EncodeAll(s[1..]);
      DecodesFirst(s[0], rest);
      DecodeEncoded(s[1..]);
      assert (Encode(s[0]) + rest)[|Encode(s[0])|..] == rest;
      assert [s[0]] + s[1..] == s;
      hide Encode, DecodeOne;
    }
  }

  lemma FirstIsPrefix(bs: Bytes)
    requires DecodeOne(bs).Some?
    ensures Encode(DecodeOne(bs).value) <= bs
  {
    hide Encode;
  }

  /** Only the encoding of a text decodes to it: there is one form per text. */
  lemma {:induction false} EncodeDecoded(bs: Bytes)
    requires Decode(bs).Some?
    ensures EncodeAll(Decode(bs).value) == bs
    decreases |bs|
  {
    hide Encode, DecodeOne;
    if bs != [] {
      var c := DecodeOne(bs).value;
      FirstIsPrefix(bs);
      var rest := bs[|Encode(c)|..];
      EncodeDecoded(rest);
      var s := Decode(rest).value;
      assert ([c] + s)[1..] == s;
      assert bs == Encode(c) + rest;
    }
  }

  /* ---------- the syntax and the order of RFC 3629 ---------- */

  predicate In(b: Byte, low: int, high: int) { low <= b as int <= high }

  /** UTF8-char of section 4 of RFC 3629. */
  predicate Utf8Char(bs: Bytes) {
    match |bs|
    case 1 => In(bs[0], 0x00, 0x7F)
    case 2 => In(bs[0], 0xC2, 0xDF) && IsContinuation(bs[1])
    case 3 =>
      && IsContinuation(bs[2])
      && ((bs[0] == 0xE0 && In(bs[1], 0xA0, 0xBF)) || (In(bs[0], 0xE1, 0xEC) && IsContinuation(bs[1]))
          || (bs[0] == 0xED && In(bs[1], 0x80, 0x9F)) || (In(bs[0], 0xEE, 0xEF) && IsContinuation(bs[1])))
    case 4 =>
      && IsContinuation(bs[2]) && IsContinuation(bs[3])
      && ((bs[0] == 0xF0 && In(bs[1], 0x90, 0xBF)) || (In(bs[0], 0xF1, 0xF3) && IsContinuation(bs[1]))
          || (bs[0] == 0xF4 && In(bs[1], 0x80, 0x8F)))
    case _ => false
  }

  lemma EncodesAreUtf8Chars(c: Scalar)
    ensures Utf8Char(Encode(c))
  {
  }

  /** The encodings are exactly the byte sequences that the syntax allows. */
  lemma Utf8CharDecodes(bs: Bytes) returns (c: Scalar)
    requires Utf8Char(bs)
    ensures Encode(c) == bs
  {
    SpelledIsScalar(bs);
    c := CodePoint(bs) as Scalar;
    SpellsItself(bs, c);
  }

  lemma SpelledIsScalar(bs: Bytes)
    requires Utf8Char(bs)
    ensures |bs| == Announced(bs[0]) && IsScalar(CodePoint(bs))
  {
    if |bs| == 1 {
    } else if |bs| == 2 {
    } else if |bs| == 3 {
    } else {
    }
  }

  lemma SpellsItself(bs: Bytes, c: Scalar)
    requires Utf8Char(bs) && |bs| == Announced(bs[0]) && c as int == CodePoint(bs)
    ensures Encode(c) == bs
  {
    var n := CodePoint(bs);
    if |bs| == 1 {
    } else if |bs| == 2 {
      assert 0x80 <= n < 0x800 && n % 64 == Low(bs[1]) && n / 64 == bs[0] as int - 0xC0;
    } else if |bs| == 3 {
      assert 0x800 <= n < 0x1_0000 && n % 64 == Low(bs[2]) && n / 64 % 64 == Low(bs[1]);
      assert n / 64 / 64 == bs[0] as int - 0xE0;
    } else {
      assert 0x1_0000 <= n && n % 64 == Low(bs[3]) && n / 64 % 64 == Low(bs[2]) && n / 64 / 64 % 64 == Low(bs[1]);
      assert n / 64 / 64 / 64 == bs[0] as int - 0xF0;
    }
  }

  predicate BytesLess(a: Bytes, b: Bytes) {
    exists i :: 0 <= i < |a| && i < |b| && a[..i] == b[..i] && a[i] < b[i]
  }

  /** Characters are ordered as their encodings are, so there is one way to give the
      sequences of the syntax to the characters. */
  lemma EncodeKeepsOrder(c: Scalar, d: Scalar)
    requires c < d
    ensures BytesLess(Encode(c), Encode(d))
  {
    var x, y := Encode(c), Encode(d);
    if |x| == |y| {
      SameLength(c, d);
    } else {
      assert x[0] < y[0] && x[..0] == y[..0];
    }
  }

  lemma SameLength(c: Scalar, d: Scalar)
    requires c < d && |Encode(c)| == |Encode(d)|
    ensures BytesLess(Encode(c), Encode(d))
  {
    var x, y := Encode(c), Encode(d);
    EncodeSpells(c);
    EncodeSpells(d);
    hide Encode, Announced;
    if x[0] < y[0] {
      assert x[..0] == y[..0];
    } else if |x| > 1 && x[1] < y[1] {
      assert x[..1] == y[..1];
    } else if |x| > 2 && x[2] < y[2] {
      assert x[..2] == y[..2];
    } else {
      assert x[..|x| - 1] == y[..|x| - 1] && x[|x| - 1] < y[|x| - 1];
    }
  }

  lemma EncodeSpells(c: Scalar)
    ensures Announced(Encode(c)[0]) == |Encode(c)| && CodePoint(Encode(c)) == c as int
  {
    if |Encode(c)| == 1 {
    } else if |Encode(c)| == 2 {
    } else if |Encode(c)| == 3 {
    } else {
    }
  }

  /* ---------- truncation ---------- */

  function ByteLength(s: Chars): nat { |EncodeAll(s)| }

  /** As many whole characters as fit. */
  function Truncated(s: Chars, maxBytes: nat): Chars {
    if s == [] || |Encode(s[0])| > maxBytes then []
    else [s[0]] + Truncated(s[1..], maxBytes - |Encode(s[0])|)
  }

  lemma {:induction false} EncodeSplit(s: Chars, k: nat)
    requires k <= |s|
    ensures EncodeAll(s) == EncodeAll(s[..k]) + EncodeAll(s[k..])
  {
    hide Encode;
    if k == 0 {
      assert s[..0] == [] && s[0..] == s;
    } else {
      EncodeSplit(s[1..], k - 1);
      assert s[..k][0] == s[0] && s[..k][1..] == s[1..][..k - 1] && s[1..][k - 1..] == s[k..];
    }
  }

  lemma LengthStep(s: Chars)
    requires s != []
    ensures ByteLength(s) == |Encode(s[0])| + ByteLength(s[1..])
  {
    hide Encode;
  }

  /** The longest prefix of whole characters within the budget. */
  ghost predicate LongestPrefix(s: Chars, r: Chars, maxBytes: nat) {
    && r <= s
    && ByteLength(r) <= maxBytes
    && forall k :: 0 <= k <= |s| && ByteLength(s[..k]) <= maxBytes ==> k <= |r|
  }

  lemma {:induction false} TruncatedIsLongest(s: Chars, maxBytes: nat)
    ensures LongestPrefix(s, Truncated(s, maxBytes), maxBytes)
  {
    hide Encode, EncodeAll;
    var r := Truncated(s, maxBytes);
    if s == [] || |Encode(s[0])| > maxBytes {
      EmptyLength();
      forall k | 0 <= k <= |s| && ByteLength(s[..k]) <= maxBytes ensures k <= 0 {
        if k > 0 {
          LengthStep(s[..k]);
        }
      }
    } else {
      var left := maxBytes - |Encode(s[0])|;
      TruncatedIsLongest(s[1..], left);
      LengthStep(r);
      assert r[1..] == Truncated(s[1..], left);
      forall k | 0 <= k <= |s| && ByteLength(s[..k]) <= maxBytes ensures k <= |r| {
        if k > 0 {
          LengthStep(s[..k]);
          assert s[..k][1..] == s[1..][..k - 1];
        }
      }
    }
  }

  lemma EmptyLength()
    ensures ByteLength([]) == 0
  {
  }

  lemma LongestIsUnique(s: Chars, r: Chars, q: Chars, maxBytes: nat)
    requires LongestPrefix(s, r, maxBytes) && LongestPrefix(s, q, maxBytes)
    ensures r == q
  {
    assert r == s[..|r|] && q == s[..|q|];
  }

  /** Truncating in the port and again in the adapter is truncating once, to the smaller
      of the two budgets. */
  lemma {:induction false} TruncatedTwice(s: Chars, m: nat, n: nat)
    ensures Truncated(Truncated(s, m), n) == Truncated(s, if m < n then m else n)
  {
    hide Encode;
    if s != [] && |Encode(s[0])| <= m {
      var size := |Encode(s[0])|;
      var once := Truncated(s, m);
      assert once[0] == s[0] && once[1..] == Truncated(s[1..], m - size);
      if size <= n {
        TruncatedTwice(s[1..], m - size, n - size);
      }
    }
  }

  /** The character that byte p belongs to, and whether the byte starts it. */
  lemma {:induction false} CharAt(s: Chars, p: nat) returns (k: nat)
    requires p < ByteLength(s)
    ensures k < |s| && ByteLength(s[..k]) <= p < ByteLength(s[..k + 1])
    ensures IsContinuation(EncodeAll(s)[p]) <==> p != ByteLength(s[..k])
  {
    var size := |Encode(s[0])|;
    LengthStep(s);
    if p < size {
      k := 0;
      LengthStep(s[..1]);
      hide Encode;
      assert s[..0] == [] && s[..1][0] == s[0];
      assert EncodeAll(s)[p] == Encode(s[0])[p];
    } else {
      hide Encode;
      var j := CharAt(s[1..], p - size);
      k := j + 1;
      LengthStep(s[..k]);
      LengthStep(s[..k + 1]);
      assert s[..k][1..] == s[1..][..j] && s[..k + 1][1..] == s[1..][..j + 1];
      assert EncodeAll(s)[p] == EncodeAll(s[1..])[p - size];
    }
  }

  lemma {:induction false} LengthMonotone(s: Chars, j: nat, k: nat)
    requires j <= k <= |s|
    ensures ByteLength(s[..j]) <= ByteLength(s[..k])
  {
    EncodeSplit(s[..k], j);
    assert s[..k][..j] == s[..j];
    hide EncodeAll;
  }

  /** Cutting at the last character boundary within the budget. */
  lemma CutIsLongest(s: Chars, k: nat, maxBytes: nat)
    requires k < |s| && ByteLength(s[..k]) <= maxBytes < ByteLength(s[..k + 1])
    ensures LongestPrefix(s, s[..k], maxBytes)
  {
    hide ByteLength;
    forall j | 0 <= j <= |s| && ByteLength(s[..j]) <= maxBytes ensures j <= k {
      if j > k {
        LengthMonotone(s, k + 1, j);
      }
    }
  }

  /** truncateUtf8ToBytes: walk back from the budget to a byte that continues nothing. */
  method TruncateUtf8ToBytes(value: Chars, maxBytes: nat) returns (r: Chars)
    ensures r == Truncated(value, maxBytes)
    ensures LongestPrefix(value, r, maxBytes)
  {
    TruncatedIsLongest(value, maxBytes);
    var encoded := EncodeAll(value);
    hide EncodeAll, Truncated, IsContinuation, Decode;
    if |encoded| <= maxBytes {
      assert value[..|value|] == value;
      LongestIsUnique(value, value, Truncated(value, maxBytes), maxBytes);
      return value;
    }
    var end := maxBytes;
    ghost var k := CharAt(value, end);
    while end > 0 && IsContinuation(encoded[end])
      invariant end <= maxBytes < |encoded| && |encoded| == ByteLength(value)
      invariant k < |value| && ByteLength(value[..k]) <= end <= maxBytes < ByteLength(value[..k + 1])
    {
      ghost var j := CharAt(value, end);
      SameChar(value, j, k, end);
      end := end - 1;
    }
    ghost var j := CharAt(value, end);
    SameChar(value, j, k, end);
    EncodeSplit(value, k);
    assert encoded[..end] == EncodeAll(value[..k]);
    DecodeEncoded(value[..k]);
    CutIsLongest(value, k, maxBytes);
    LongestIsUnique(value, value[..k], Truncated(value, maxBytes), maxBytes);
    r := Decode(encoded[..end]).value;
  }

  lemma SameChar(s: Chars, j: nat, k: nat, p: nat)
    requires j < |s| && k < |s|
    requires ByteLength(s[..j]) <= p < ByteLength(s[..j + 1])
    requires ByteLength(s[..k]) <= p < ByteLength(s[..k + 1])
    ensures j == k
  {
    hide ByteLength;
    if j < k {
      LengthMonotone(s, j + 1, k);
    } else if k < j {
      LengthMonotone(s, k + 1, j);
    }
  }

  /* ---------- the same text in UTF-16, as JSON.stringify sees it ---------- */

  function Units(c: Scalar): Str {
    if c < 0x1_0000 then [c as int as Unit]
    else [(0xD800 + (c as int - 0x1_0000) / 0x400) as Unit, (0xDC00 + (c as int - 0x1_0000) % 0x400) as Unit]
  }

  function Utf16(s: Chars): Str { if s == [] then [] else Units(s[0]) + Utf16(s[1..]) }
}
