/**
 A reader of JSON texts over UTF-16 code units, as RFC 8259 has them, for values without objects, fractions and signs; and a
 reader of UTF-8 as RFC 3629 has it. Neither knows how anything is printed: they say what a printed text means.
 */
module JsonReader {
  import opened Results
  import opened Hex

  datatype JsonValue = Null | Number(n: nat) | String(text: seq<Unit>) | Array(items: seq<JsonValue>)

  /** A value and what follows it. */
  datatype Read<+T> = Nothing | Found(value: T, rest: seq<Unit>)

  predicate IsDigit(u: Unit) {
    0x30 <= u <= 0x39
  }

  /** The number that decimal digits stand for, `high` being that of the digits before them, and what follows the digits. */
  function ReadDigits(high: nat, s: seq<Unit>): (r: (nat, seq<Unit>))
    ensures |r.1| <= |s|
    decreases |s|
  {
    if s == [] || !IsDigit(s[0]) then (high, s) else ReadDigits(10 * high + (s[0] - 0x30), s[1..])
  }

  function HexValue(u: Unit): Option<nat> {
    if 0x30 <= u <= 0x39 then Some(u - 0x30)
    else if 0x41 <= u <= 0x46 then Some(u - 0x41 + 10)
    else if 0x61 <= u <= 0x66 then Some(u - 0x61 + 10)
    else None
  }

  /** Section 7 of RFC 8259: what a letter after a backslash stands for. */
  function Escaped(letter: Unit): Option<Unit> {
    match letter
    case 0x22 => Some(0x22)
    case 0x5C => Some(0x5C)
    case 0x2F => Some(0x2F)
    case 0x62 => Some(0x08)
    case 0x66 => Some(0x0C)
    case 0x6E => Some(0x0A)
    case 0x72 => Some(0x0D)
    case 0x74 => Some(0x09)
    case _ => None
  }

  /** One unit of a string, after its opening quote: as it is, or escaped by a letter or by four digits. */
  function ReadUnit(s: seq<Unit>): (r: Read<Unit>)
    ensures r.Found? ==> |r.rest| < |s|
  {
    if s == [] || s[0] < 0x20 || s[0] == 0x22 then Nothing
    else if s[0] != 0x5C then Found(s[0], s[1..])
    else if |s| >= 2 && Escaped(s[1]).Some? then Found(Escaped(s[1]).value, s[2..])
    else if |s| >= 6 && s[1] == 0x75 && HexValue(s[2]).Some? && HexValue(s[3]).Some? && HexValue(s[4]).Some? && HexValue(s[5]).Some?
    then Found(4096 * HexValue(s[2]).value + 256 * HexValue(s[3]).value + 16 * HexValue(s[4]).value + HexValue(s[5]).value, s[6..])
    else Nothing
  }

  /** The rest of a string, up to its closing quote. */
  function ReadString(s: seq<Unit>): (r: Read<seq<Unit>>)
    ensures r.Found? ==> |r.rest| < |s|
    decreases |s|
  {
    if s == [] then Nothing
    else if s[0] == 0x22 then Found([], s[1..])
    else
      match ReadUnit(s)
      case Nothing => Nothing
      case Found(u, more) =>
        match ReadString(more)
        case Nothing => Nothing
        case Found(text, rest) => Found([u] + text, rest)
  }

  function ReadValue(s: seq<Unit>): (r: Read<JsonValue>)
    ensures r.Found? ==> |r.rest| < |s|
    decreases |s|, 0
  {
    if s == [] then Nothing
    else if s[0] == 0x22 then
      match ReadString(s[1..])
      case Nothing => Nothing
      case Found(text, rest) => Found(String(text), rest)
    else if s[0] == 0x5B then
      if |s| >= 2 && s[1] == 0x5D then Found(Array([]), s[2..])
      else
        match ReadElements(s[1..])
        case Nothing => Nothing
        case Found(items, rest) => Found(Array(items), rest)
    else if s[0] == 0x30 then Found(Number(0), s[1..])
    else if IsDigit(s[0]) then Found(Number(ReadDigits(s[0] - 0x30, s[1..]).0), ReadDigits(s[0] - 0x30, s[1..]).1)
    else if |s| >= 4 && s[..4] == [0x6E, 0x75, 0x6C, 0x6C] then Found(Null, s[4..])
    else Nothing
  }

  /** One or more values with commas between them, up to the closing bracket. */
  function ReadElements(s: seq<Unit>): (r: Read<seq<JsonValue>>)
    ensures r.Found? ==> |r.rest| < |s|
    decreases |s|, 1
  {
    match ReadValue(s)
    case Nothing => Nothing
    case Found(value, more) =>
      if more == [] then Nothing
      else if more[0] == 0x5D then Found([value], more[1..])
      else if more[0] != 0x2C then Nothing
      else
        match ReadElements(more[1..])
        case Nothing => Nothing
        case Found(items, rest) => Found([value] + items, rest)
  }

  /** The value a text is of, if it is of one. */
  function ReadText(s: seq<Unit>): Option<JsonValue> {
    match ReadValue(s)
    case Nothing => None
    case Found(value, rest) => if rest == [] then Some(value) else None
  }

  // ---------------------------------------------------------------- UTF-8

  predicate Continues(bytes: seq<Byte>, n: nat) {
    |bytes| > n && forall i :: 1 <= i <= n ==> 0x80 <= bytes[i] < 0xC0
  }

  /** The six bits of a byte that continues a character. */
  function Six(b: Byte): int {
    b - 0x80
  }

  /** Section 3 of RFC 3629: the code point that the first one to four bytes stand for, and how many they are. */
  function FirstCodePoint(bytes: seq<Byte>): Option<(nat, nat)>
    requires bytes != []
  {
    var b: int := bytes[0];
    if b < 0x80 then Some((b, 1))
    else if 0xC0 <= b < 0xE0 && Continues(bytes, 1) then AtLeast(0x80, (b - 0xC0) * 64 + Six(bytes[1]), 2)
    else if 0xE0 <= b < 0xF0 && Continues(bytes, 2) then AtLeast(0x800, (b - 0xE0) * 4096 + Six(bytes[1]) * 64 + Six(bytes[2]), 3)
    else if 0xF0 <= b < 0xF8 && Continues(bytes, 3)
    then AtLeast(0x1_0000, (b - 0xF0) * 0x4_0000 + Six(bytes[1]) * 4096 + Six(bytes[2]) * 64 + Six(bytes[3]), 4)
    else None
  }

  /** Refused where fewer bytes would do, for half of a surrogate pair, and past the last code point. */
  function AtLeast(least: nat, c: nat, bytes: nat): Option<(nat, nat)> {
    if c < least || 0xD800 <= c < 0xE000 || c >= 0x11_0000 then None else Some((c, bytes))
  }

  /** A code point in UTF-16. */
  function InUnits(c: nat): seq<Unit>
    requires c < 0x11_0000
  {
    if c < 0x1_0000 then [c] else [0xD800 + (c - 0x1_0000) / 0x400, 0xDC00 + (c - 0x1_0000) % 0x400]
  }

  function ReadUtf8(bytes: seq<Byte>): Option<seq<Unit>>
    decreases |bytes|
  {
    if bytes == [] then Some([])
    else
      var first := FirstCodePoint(bytes);
      if first.None? then None
      else
        assert first.value.0 < 0x11_0000 && 1 <= first.value.1 <= |bytes|;
        var rest := ReadUtf8(bytes[first.value.1..]);
        if rest.None? then None else Some(InUnits(first.value.0) + rest.value)
  }

  /** The bytes that pairs of digits of either case stand for. */
  function ReadHex(digits: seq<Unit>): Option<seq<Byte>> {
    if digits == [] then Some([])
    else if |digits| == 1 || HexValue(digits[0]).None? || HexValue(digits[1]).None? || ReadHex(digits[2..]).None? then None
    else Some([16 * HexValue(digits[0]).value + HexValue(digits[1]).value] + ReadHex(digits[2..]).value)
  }
}
