// JSON trees with integer numbers, the text that JSON.stringify prints for them, and
// a reader of compact JSON texts (RFC 8259). Strings are UTF-16 code units, as in
// JavaScript, because keys are compared by code unit.

module Json {

  newtype Unit = u: int | 0 <= u < 0x1_0000

  type Str = seq<Unit>

  datatype Value =
    | Null
    | Bool(b: bool)
    | Num(n: int)
    | Text(s: Str)
    | Arr(items: seq<Value>)
    | Obj(fields: seq<Field>)

  datatype Field = Field(key: Str, value: Value)

  datatype Option<+T> = None | Some(value: T)

  /** An ASCII literal as code units. */
  function Ascii(s: string): (r: Str)
    requires forall i :: 0 <= i < |s| ==> s[i] as int < 128
    ensures |r| == |s| && forall i :: 0 <= i < |s| ==> r[i] as int == s[i] as int
  {
    seq(|s|, i requires 0 <= i < |s| => s[i] as int as Unit)
  }

  /* ---------- printing ---------- */

  const QUOTE: Unit := 34
  const BACKSLASH: Unit := 92
  const COMMA: Unit := 44
  const COLON: Unit := 58
  const OPEN_BRACKET: Unit := 91
  const CLOSE_BRACKET: Unit := 93
  const OPEN_BRACE: Unit := 123
  const CLOSE_BRACE: Unit := 125
  const MINUS: Unit := 45
  const LETTER_U: Unit := 117

  function Digit(d: int): (u: Unit)
    requires 0 <= d < 10
    ensures 48 <= u <= 57
  {
    (48 + d) as Unit
  }

  function HexDigit(d: int): (u: Unit)
    requires 0 <= d < 16
    ensures 48 <= u <= 57 || 97 <= u <= 102
  {
    if d < 10 then (48 + d) as Unit else (87 + d) as Unit
  }

  function Decimal(n: nat): (r: Str)
    ensures r != [] && 48 <= r[0] <= 57 && (n > 0 ==> r[0] != 48) && (n == 0 ==> r == [48])
  {
    if n < 10 then [Digit(n)] else Decimal(n / 10) + [Digit(n % 10)]
  }

  function Integer(n: int): Str {
    if n < 0 then [MINUS] + Decimal(-n) else Decimal(n)
  }

  /** QuoteJSONString for one code unit; surrogate pairs are printed as they are. */
  function Escape(c: Unit): Str {
    if c == QUOTE then [BACKSLASH, QUOTE]
    else if c == BACKSLASH then [BACKSLASH, BACKSLASH]
    else if c == 8 then [BACKSLASH, 98]
    else if c == 9 then [BACKSLASH, 116]
    else if c == 10 then [BACKSLASH, 110]
    else if c == 12 then [BACKSLASH, 102]
    else if c == 13 then [BACKSLASH, 114]
    else if c < 32 then [BACKSLASH, LETTER_U, 48, 48, HexDigit(c as int / 16), HexDigit(c as int % 16)]
    else [c]
  }

  function EscapeAll(s: Str): Str {
    if s == [] then [] else Escape(s[0]) + EscapeAll(s[1..])
  }

  function Quote(s: Str): Str { [QUOTE] + EscapeAll(s) + [QUOTE] }

  function Print(v: Value): Str {
    match v
    case Null => [110, 117, 108, 108]
    case Bool(true) => [116, 114, 117, 101]
    case Bool(false) => [102, 97, 108, 115, 101]
    case Num(n) => Integer(n)
    case Text(s) => Quote(s)
    case Arr(items) => [OPEN_BRACKET] + PrintItems(items) + [CLOSE_BRACKET]
    case Obj(fields) => [OPEN_BRACE] + PrintFields(fields) + [CLOSE_BRACE]
  }

  function PrintItems(items: seq<Value>): Str {
    if items == [] then []
    else if |items| == 1 then Print(items[0])
    else Print(items[0]) + [COMMA] + PrintItems(items[1..])
  }

  function PrintField(f: Field): Str { Quote(f.key) + [COLON] + Print(f.value) }

  function PrintFields(fields: seq<Field>): Str {
    if fields == [] then []
    else if |fields| == 1 then PrintField(fields[0])
    else PrintField(fields[0]) + [COMMA] + PrintFields(fields[1..])
  }

  /* ---------- reading ---------- */

  /** A value and the text after it. */
  datatype Read<+T> = Fail | Got(value: T, rest: Str)

  predicate IsDigit(c: Unit) { 48 <= c <= 57 }

  function HexValue(c: Unit): Option<int> {
    if 48 <= c <= 57 then Some(c as int - 48)
    else if 97 <= c <= 102 then Some(c as int - 87)
    else if 65 <= c <= 70 then Some(c as int - 55)
    else None
  }

  /** Digits are consumed as long as there are any. */
  function ReadDigits(s: Str, acc: nat): (r: Read<nat>)
    ensures r.Got? && |r.rest| <= |s|
  {
    if s == [] || !IsDigit(s[0]) then Got(acc, s) else ReadDigits(s[1..], acc * 10 + (s[0] as int - 48))
  }

  /** An integer without superfluous leading zeros; fractions and exponents are not
      part of this model. */
  function ReadNatural(s: Str): (r: Read<nat>)
    ensures r.Got? ==> |r.rest| < |s|
  {
    if s == [] || !IsDigit(s[0]) then Fail
    else if s[0] == 48 then Got(0, s[1..])
    else ReadDigits(s[1..], s[0] as int - 48)
  }

  function ReadHex4(s: Str): (r: Read<Unit>)
    ensures r.Got? ==> |r.rest| < |s|
  {
    if |s| < 4 then Fail
    else
      match (HexValue(s[0]), HexValue(s[1]), HexValue(s[2]), HexValue(s[3]))
      case (Some(a), Some(b), Some(c), Some(d)) => Got((((a * 16 + b) * 16 + c) * 16 + d) as Unit, s[4..])
      case _ => Fail
  }

  /** The code unit after a backslash. */
  function ReadEscape(s: Str): (r: Read<Unit>)
    ensures r.Got? ==> |r.rest| < |s|
  {
    if s == [] then Fail
    else if s[0] == QUOTE || s[0] == BACKSLASH || s[0] == 47 then Got(s[0], s[1..])
    else if s[0] == 98 then Got(8, s[1..])
    else if s[0] == 116 then Got(9, s[1..])
    else if s[0] == 110 then Got(10, s[1..])
    else if s[0] == 102 then Got(12, s[1..])
    else if s[0] == 114 then Got(13, s[1..])
    else if s[0] == LETTER_U then ReadHex4(s[1..])
    else Fail
  }

  /** The characters of a string up to its closing quote. */
  function ReadChars(s: Str): (r: Read<Str>)
    ensures r.Got? ==> |r.rest| < |s|
    decreases |s|
  {
    if s == [] then Fail
    else if s[0] == QUOTE then Got([], s[1..])
    else if s[0] == BACKSLASH then
      match ReadEscape(s[1..])
      case Fail => Fail
      case Got(c, rest) => Prepend(c, ReadChars(rest))
    else if s[0] < 32 then Fail
    else Prepend(s[0], ReadChars(s[1..]))
  }

  function Prepend(c: Unit, r: Read<Str>): Read<Str> {
    match r
    case Fail => Fail
    case Got(cs, rest) => Got([c] + cs, rest)
  }

  function ReadText(s: Str): (r: Read<Str>)
    ensures r.Got? ==> |r.rest| < |s|
  {
    if s == [] || s[0] != QUOTE then Fail else ReadChars(s[1..])
  }

  predicate HasKey(fields: seq<Field>, k: Str) { exists i :: 0 <= i < |fields| && fields[i].key == k }

  /** A later member of the same name wins. */
  function AddField(f: Field, rest: seq<Field>): seq<Field> { if HasKey(rest, f.key) then rest else [f] + rest }

  function ReadValue(s: Str): (r: Read<Value>)
    ensures r.Got? ==> |r.rest| < |s|
    decreases |s|, 1
  {
    if s == [] then Fail
    else if s[0] == 110 then
      if [110, 117, 108, 108] <= s then Got(Null, s[4..]) else Fail
    else if s[0] == 116 then
      if [116, 114, 117, 101] <= s then Got(Bool(true), s[4..]) else Fail
    else if s[0] == 102 then
      if [102, 97, 108, 115, 101] <= s then Got(Bool(false), s[5..]) else Fail
    else if s[0] == QUOTE then
      match ReadText(s)
      case Fail => Fail
      case Got(t, rest) => Got(Text(t), rest)
    else if s[0] == MINUS then
      match ReadNatural(s[1..])
      case Fail => Fail
      case Got(n, rest) => Got(Num(0 - n as int), rest)
    else if s[0] == OPEN_BRACKET then
      if |s| > 1 && s[1] == CLOSE_BRACKET then Got(Arr([]), s[2..])
      else
        match ReadItems(s[1..])
        case Fail => Fail
        case Got(items, rest) => Got(Arr(items), rest)
    else if s[0] == OPEN_BRACE then
      if |s| > 1 && s[1] == CLOSE_BRACE then Got(Obj([]), s[2..])
      else
        match ReadFields(s[1..])
        case Fail => Fail
        case Got(fields, rest) => Got(Obj(fields), rest)
    else
      match ReadNatural(s)
      case Fail => Fail
      case Got(n, rest) => Got(Num(n), rest)
  }

  /** One or more items and the closing bracket. */
  function ReadItems(s: Str): (r: Read<seq<Value>>)
    ensures r.Got? ==> |r.rest| < |s|
    decreases |s|, 2
  {
    match ReadValue(s)
    case Fail => Fail
    case Got(v, rest) =>
      if rest == [] then Fail
      else if rest[0] == CLOSE_BRACKET then Got([v], rest[1..])
      else if rest[0] == COMMA then
        match ReadItems(rest[1..])
        case Fail => Fail
        case Got(items, rest') => Got([v] + items, rest')
      else Fail
  }

  /** One or more members and the closing brace. */
  function ReadFields(s: Str): (r: Read<seq<Field>>)
    ensures r.Got? ==> |r.rest| < |s|
    decreases |s|, 2
  {
    match ReadText(s)
    case Fail => Fail
    case Got(k, rest) =>
      if rest == [] || rest[0] != COLON then Fail
      else match ReadValue(rest[1..])
        case Fail => Fail
        case Got(v, rest') =>
          if rest' == [] then Fail
          else if rest'[0] == CLOSE_BRACE then Got([Field(k, v)], rest'[1..])
          else if rest'[0] == COMMA then
            match ReadFields(rest'[1..])
            case Fail => Fail
            case Got(fields, rest'') => Got(AddField(Field(k, v), fields), rest'')
          else Fail
  }

  /** JSON.parse on a compact text. */
  function Parse(s: Str): Option<Value> {
    match ReadValue(s)
    case Fail => None
    case Got(v, rest) => if rest == [] then Some(v) else None
  }
}
