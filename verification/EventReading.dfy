/** What a printed event means: read as JSON it is the six things that are hashed, by position, and nothing else. */
module EventReading {
  import opened Results
  import opened Hex
  import opened JsonReader
  import J = Json
  import Utf8
  import opened Nip01

  // ---------------------------------------------------------------- strings

  lemma DigitReads(d: int)
    requires 0 <= d < 16
    ensures HexValue(Digit(d)) == Some(d)
  {
  }

  lemma HexEscapeReads(u: Unit, t: seq<Unit>)
    ensures ReadUnit(J.HexEscape(u) + t) == Found(u, t)
  {
    hide Digit, HexValue;
    DigitReads(u / 4096);
    DigitReads(u / 256 % 16);
    DigitReads(u / 16 % 16);
    DigitReads(u % 16);
    J.FourDigits(u);
    assert (J.HexEscape(u) + t)[6..] == t;
  }

  lemma EscapeOneReads(u: Unit, t: seq<Unit>)
    ensures ReadUnit(J.EscapeOne(u) + t) == Found(u, t)
  {
    hide J.HexEscape;
    var s := J.EscapeOne(u) + t;
    if J.ShortEscape(u).Some? {
      assert s[2..] == t;
    } else if u < 0x20 || J.IsHighSurrogate(u) || J.IsLowSurrogate(u) {
      HexEscapeReads(u, t);
    } else {
      assert s[1..] == t;
    }
  }

  lemma PlainUnitReads(u: Unit, s: seq<Unit>, text: seq<Unit>, rest: seq<Unit>)
    requires u >= 0x20 && u != 0x22 && u != 0x5C && ReadString(s) == Found(text, rest)
    ensures ReadString([u] + s) == Found([u] + text, rest)
  {
    assert ([u] + s)[1..] == s;
    UnitThenMore([u] + s, u, s, text, rest);
  }

  lemma UnitThenMore(s: seq<Unit>, u: Unit, more: seq<Unit>, text: seq<Unit>, rest: seq<Unit>)
    requires ReadUnit(s) == Found(u, more) && ReadString(more) == Found(text, rest)
    ensures ReadString(s) == Found([u] + text, rest)
  {
  }

  lemma PairReads(h: Unit, l: Unit, s: seq<Unit>, text: seq<Unit>, rest: seq<Unit>)
    requires J.IsHighSurrogate(h) && J.IsLowSurrogate(l) && ReadString(s) == Found(text, rest)
    ensures ReadString([h, l] + s) == Found([h, l] + text, rest)
  {
    PlainUnitReads(l, s, text, rest);
    PlainUnitReads(h, [l] + s, [l] + text, rest);
    assert [h, l] + s == [h] + ([l] + s) && [h, l] + text == [h] + ([l] + text);
  }

  lemma {:induction false} EscapeReads(s: seq<Unit>, t: seq<Unit>)
    ensures ReadString(J.Escape(s) + [J.QUOTE] + t) == Found(s, t)
    decreases |s|
  {
    hide J.EscapeOne, ReadUnit;
    var all := J.Escape(s) + [J.QUOTE] + t;
    if s == [] {
      assert all[1..] == t;
    } else if J.StartsWithPair(s) {
      var more := J.Escape(s[2..]) + [J.QUOTE] + t;
      EscapeReads(s[2..], t);
      assert s[..2] == [s[0], s[1]];
      PairReads(s[0], s[1], more, s[2..], t);
      assert all == s[..2] + more && s == s[..2] + s[2..];
    } else {
      var more := J.Escape(s[1..]) + [J.QUOTE] + t;
      EscapeReads(s[1..], t);
      assert all == J.EscapeOne(s[0]) + more && s == [s[0]] + s[1..];
      EscapeOneReads(s[0], more);
      UnitThenMore(all, s[0], more, s[1..], t);
    }
  }

  lemma QuoteReads(s: seq<Unit>, t: seq<Unit>)
    ensures ReadValue(J.Quote(s) + t) == Found(String(s), t)
  {
    EscapeReads(s, t);
    assert J.Quote(s) + t == [J.QUOTE] + (J.Escape(s) + [J.QUOTE] + t);
    assert (J.Quote(s) + t)[1..] == J.Escape(s) + [J.QUOTE] + t;
  }

  /** Dropping one unit that is no surrogate, or one pair, leaves a well-formed text well-formed. */
  lemma RestIsWellFormed(s: seq<Unit>)
    requires Utf8.WellFormed(s) && s != []
    ensures Utf8.WellFormed(s[if J.StartsWithPair(s) then 2 else 1..])
  {
  }

  lemma {:induction false} PlainPrefixDrops(s: seq<Unit>, n: nat)
    requires Utf8.WellFormed(s) && n <= |s| && forall i :: 0 <= i < n ==> s[i] < 0xD800
    ensures Utf8.WellFormed(s[n..])
    decreases n
  {
    if n > 0 {
      assert !J.StartsWithPair(s);
      PlainPrefixDrops(s[1..], n - 1);
      assert s[1..][n - 1..] == s[n..];
    }
  }

  /** A unit that is read off an escape is printed in no more units; read off itself, and no surrogate, in one. */
  lemma ReadUnitIsNoShorter(s: seq<Unit>)
    requires Utf8.WellFormed(s) && ReadUnit(s).Found? && !J.StartsWithPair(s)
    ensures |J.EscapeOne(ReadUnit(s).value)| + |ReadUnit(s).rest| <= |s| && Utf8.WellFormed(ReadUnit(s).rest)
  {
    hide J.HexEscape, Utf8.WellFormed;
    var k := |s| - |ReadUnit(s).rest|;
    assert ReadUnit(s).rest == s[k..];
    assert !J.IsHighSurrogate(s[0]) && !J.IsLowSurrogate(s[0]) by { FirstIsWhole(s); }
    J.HexEscapeStarts(ReadUnit(s).value);
    if k == 1 {
      RestIsWellFormed(s);
    } else {
      PlainPrefixDrops(s, k);
    }
  }

  lemma FirstIsWhole(s: seq<Unit>)
    requires Utf8.WellFormed(s) && s != [] && !J.StartsWithPair(s)
    ensures !J.IsHighSurrogate(s[0]) && !J.IsLowSurrogate(s[0])
  {
  }

  lemma OneMoreUnit(u: Unit, text: seq<Unit>)
    ensures |J.Escape([u] + text)| <= |J.EscapeOne(u)| + |J.Escape(text)|
  {
    hide J.HexEscape;
    J.HexEscapeStarts(u);
    var s := [u] + text;
    assert s[1..] == text;
    if J.StartsWithPair(s) {
      assert s[2..] == text[1..] && !J.StartsWithPair(text);
      J.HexEscapeStarts(text[0]);
    }
  }

  lemma PairIsPrinted(h: Unit, l: Unit, text: seq<Unit>)
    requires J.IsHighSurrogate(h) && J.IsLowSurrogate(l)
    ensures |J.Escape([h, l] + text)| == 2 + |J.Escape(text)|
  {
    assert ([h, l] + text)[2..] == text;
  }

  lemma PairIsTwoUnits(s: seq<Unit>)
    requires J.StartsWithPair(s) && ReadString(s).Found?
    ensures ReadString(s[2..]).Found? && ReadString(s) == Found([s[0], s[1]] + ReadString(s[2..]).value, ReadString(s[2..]).rest)
  {
    assert s[1..][1..] == s[2..];
    assert [s[0]] + ([s[1]] + ReadString(s[2..]).value) == [s[0], s[1]] + ReadString(s[2..]).value;
  }

  /** No text without a lone surrogate that reads as a string is shorter than what is printed of it. */
  lemma {:induction false} EscapeIsShortest(s: seq<Unit>)
    requires Utf8.WellFormed(s) && ReadString(s).Found?
    ensures |J.Escape(ReadString(s).value)| + 1 + |ReadString(s).rest| <= |s|
    decreases |s|
  {
    hide J.EscapeOne, ReadUnit, Utf8.WellFormed;
    if s[0] == 0x22 {
      return;
    }
    if J.StartsWithPair(s) {
      PairIsTwoUnits(s);
      RestIsWellFormed(s);
      EscapeIsShortest(s[2..]);
      PairIsPrinted(s[0], s[1], ReadString(s[2..]).value);
    } else {
      var first := ReadUnit(s);
      ReadUnitIsNoShorter(s);
      EscapeIsShortest(first.rest);
      OneMoreUnit(first.value, ReadString(first.rest).value);
    }
  }

  /** The digits of an escape are lower-case. */
  lemma EscapesAreLowerCase(u: Unit)
    ensures |J.EscapeOne(u)| == 6 ==> forall i :: 2 <= i < 6 ==> 0x30 <= J.EscapeOne(u)[i] <= 0x39 || 0x61 <= J.EscapeOne(u)[i] <= 0x66
  {
    hide Digit;
    assert forall d :: 0 <= d < 16 ==> 0x30 <= Digit(d) <= 0x39 || 0x61 <= Digit(d) <= 0x66 by {
      forall d | 0 <= d < 16
        ensures 0x30 <= Digit(d) <= 0x39 || 0x61 <= Digit(d) <= 0x66
      {
        DigitIsLowerCase(d);
      }
    }
  }

  lemma DigitIsLowerCase(d: int)
    requires 0 <= d < 16
    ensures 0x30 <= Digit(d) <= 0x39 || 0x61 <= Digit(d) <= 0x66
  {
  }

  // ---------------------------------------------------------------- numbers

  lemma {:induction false} DigitsRead(n: nat, t: seq<Unit>)
    ensures ReadDigits(0, J.Decimal(n) + t) == ReadDigits(n, t)
  {
    if n < 10 {
      assert (J.Decimal(n) + t)[1..] == t;
    } else {
      var last := [Digit(n % 10)] + t;
      DigitsRead(n / 10, last);
      assert J.Decimal(n) + t == J.Decimal(n / 10) + last;
      assert last[1..] == t;
    }
  }

  lemma {:induction false} DecimalStarts(n: nat)
    ensures J.Decimal(n) != [] && IsDigit(J.Decimal(n)[0]) && (J.Decimal(n)[0] == 0x30 <==> n == 0)
  {
    if n >= 10 {
      DecimalStarts(n / 10);
    }
  }

  lemma DecimalReads(n: nat, t: seq<Unit>)
    requires t == [] || !IsDigit(t[0])
    ensures ReadValue(J.Decimal(n) + t) == Found(Number(n), t)
  {
    var s := J.Decimal(n) + t;
    DecimalStarts(n);
    DigitsRead(n, t);
    assert ReadDigits(0, s) == ReadDigits(s[0] - 0x30, s[1..]);
    if n == 0 {
      assert s[1..] == t;
    }
  }

  // ---------------------------------------------------------------- arrays

  /** What printing with `f` means: every print, whatever follows it, is read as `read` says. */
  ghost predicate Reads<T(!new)>(f: T -> seq<Unit>, read: T -> JsonValue) {
    forall x, t :: ReadValue(f(x) + t) == Found(read(x), t)
  }

  function ItemRead<T>(read: T -> JsonValue, x: Option<T>): JsonValue {
    if x.None? then Null else read(x.value)
  }

  function ItemsRead<T>(read: T -> JsonValue, xs: seq<Option<T>>): seq<JsonValue> {
    seq(|xs|, (i: nat) requires i < |xs| => ItemRead(read, xs[i]))
  }

  lemma ItemReads<T(!new)>(f: T -> seq<Unit>, read: T -> JsonValue, x: Option<T>, t: seq<Unit>)
    requires Reads(f, read)
    ensures ReadValue(J.Item(f, x) + t) == Found(ItemRead(read, x), t)
  {
    if x.None? {
      assert (J.NULL + t)[..4] == J.NULL && (J.NULL + t)[4..] == t;
    }
  }

  lemma {:induction false} ElementsRead<T(!new)>(f: T -> seq<Unit>, read: T -> JsonValue, xs: seq<Option<T>>, t: seq<Unit>)
    requires Reads(f, read) && xs != []
    ensures ReadElements(J.Items(f, xs) + [J.CLOSE] + t) == Found(ItemsRead(read, xs), t)
    decreases |xs|
  {
    hide J.Item, Reads, ReadValue;
    var all := J.Items(f, xs) + [J.CLOSE] + t;
    var after := J.AfterItem(f, xs, t);
    J.AfterItemIsRest(f, xs, t);
    ItemReads(f, read, xs[0], after);
    if |xs| == 1 {
      assert after[1..] == t;
      assert ItemsRead(read, xs) == [ItemRead(read, xs[0])];
    } else {
      var more := J.Items(f, xs[1..]) + [J.CLOSE] + t;
      ElementsRead(f, read, xs[1..], t);
      assert after[1..] == more;
      assert ItemsRead(read, xs) == [ItemRead(read, xs[0])] + ItemsRead(read, xs[1..]);
    }
  }

  lemma ArrayReads<T(!new)>(f: T -> seq<Unit>, first: Unit, read: T -> JsonValue, xs: seq<Option<T>>, t: seq<Unit>)
    requires Reads(f, read) && J.StartsWith(f, first) && first != J.CLOSE
    ensures ReadValue(J.Array(f, xs) + t) == Found(Array(ItemsRead(read, xs)), t)
  {
    hide Reads;
    var all, inner := J.Array(f, xs) + t, J.Items(f, xs) + [J.CLOSE] + t;
    assert all == [J.OPEN] + inner && all[1..] == inner;
    J.ItemsStart(f, first, xs, t);
    if xs == [] {
      assert inner == [J.CLOSE] + t && all[1] == J.CLOSE && all[2..] == t;
      assert ItemsRead(read, xs) == [];
    } else {
      ElementsRead(f, read, xs, t);
    }
  }

  // ---------------------------------------------------------------- the event

  function TextRead(text: seq<Unit>): JsonValue {
    String(text)
  }

  function TagRead(tag: Tag): JsonValue {
    Array(ItemsRead(TextRead, tag))
  }

  function TagsRead(tags: seq<Option<Tag>>): JsonValue {
    Array(ItemsRead(TagRead, tags))
  }

  lemma TagsAreRead(tags: seq<Option<Tag>>, t: seq<Unit>)
    ensures ReadValue(PrintTags(tags) + t) == Found(TagsRead(tags), t)
  {
    J.QuoteIsDelimited();
    forall s, r
      ensures ReadValue(J.Quote(s) + r) == Found(TextRead(s), r)
    {
      QuoteReads(s, r);
    }
    assert Reads(J.Quote, TextRead);
    forall tag, r
      ensures ReadValue(PrintTag(tag) + r) == Found(TagRead(tag), r)
    {
      ArrayReads(J.Quote, J.QUOTE, TextRead, tag, r);
    }
    assert J.StartsWith(PrintTag, J.OPEN);
    ArrayReads(PrintTag, J.OPEN, TagRead, tags, t);
  }

  lemma OneElementRead(s: seq<Unit>, value: JsonValue)
    requires ReadValue(s) == Found(value, [0x5D])
    ensures ReadElements(s) == Found([value], [])
  {
  }

  lemma ElementThenMore(s: seq<Unit>, value: JsonValue, more: seq<Unit>, items: seq<JsonValue>)
    requires ReadValue(s) == Found(value, [0x2C] + more) && ReadElements(more) == Found(items, [])
    ensures ReadElements(s) == Found([value] + items, [])
  {
    assert ([0x2C] + more)[1..] == more;
  }

  /** The text that is hashed is of an array of six: 0, the key, the time, the kind, the tags with each hole a `null`, the content. */
  lemma SerializedReads(p: Text, e: UnsignedEvent)
    ensures ReadText(Serialize(p, e)) == Some(Array([Number(0), String(p), Number(e.createdAt), Number(e.kind), TagsRead(e.tags), String(e.content)]))
  {
    hide J.Quote, J.Decimal, PrintTags, ReadValue, ReadElements, TagsRead;
    var content := J.Quote(e.content) + [J.CLOSE];
    var tags := PrintTags(e.tags) + ([J.COMMA] + content);
    var kind := J.Decimal(e.kind) + ([J.COMMA] + tags);
    var time := J.Decimal(e.createdAt) + ([J.COMMA] + kind);
    var key := J.Quote(p) + ([J.COMMA] + time);
    var items5 := [String(e.content)];
    var items4 := [TagsRead(e.tags)] + items5;
    var items3 := [Number(e.kind)] + items4;
    var items2 := [Number(e.createdAt)] + items3;
    var items1 := [String(p)] + items2;
    QuoteReads(e.content, [J.CLOSE]);
    OneElementRead(content, String(e.content));
    TagsAreRead(e.tags, [J.COMMA] + content);
    ElementThenMore(tags, TagsRead(e.tags), content, items5);
    DecimalReads(e.kind, [J.COMMA] + tags);
    ElementThenMore(kind, Number(e.kind), tags, items4);
    DecimalReads(e.createdAt, [J.COMMA] + kind);
    ElementThenMore(time, Number(e.createdAt), kind, items3);
    QuoteReads(p, [J.COMMA] + time);
    ElementThenMore(key, String(p), time, items2);
    var all := [0x30] + ([J.COMMA] + key);
    ZeroReads([J.COMMA] + key);
    ElementThenMore(all, Number(0), key, items1);
    assert Serialize(p, e) == [0x5B] + all;
    ArrayOf(all, [Number(0)] + items1);
    assert [Number(0)] + items1 == [Number(0), String(p), Number(e.createdAt), Number(e.kind), TagsRead(e.tags), String(e.content)];
  }

  lemma ZeroReads(t: seq<Unit>)
    ensures ReadValue([0x30] + t) == Found(Number(0), t)
  {
    assert ([0x30] + t)[1..] == t;
  }

  lemma ArrayOf(s: seq<Unit>, items: seq<JsonValue>)
    requires s != [] && s[0] != 0x5D && ReadElements(s) == Found(items, [])
    ensures ReadText([0x5B] + s) == Some(Array(items))
  {
    assert ([0x5B] + s)[1..] == s;
  }

  // ---------------------------------------------------------------- the bytes

  /** A string with U+FFFD for each surrogate that is not half of a pair. */
  function Repaired(s: seq<Unit>): seq<Unit> {
    if s == [] then []
    else if |s| >= 2 && 0xD800 <= s[0] < 0xDC00 && 0xDC00 <= s[1] < 0xE000 then [s[0], s[1]] + Repaired(s[2..])
    else [if 0xD800 <= s[0] < 0xE000 then 0xFFFD else s[0]] + Repaired(s[1..])
  }

  lemma UnitIsRead(u: Unit, t: seq<Byte>)
    requires !(0xD800 <= u < 0xE000)
    ensures FirstCodePoint(Utf8.EncodeUnit(u) + t) == Some((u as nat, |Utf8.EncodeUnit(u)|))
  {
    assert u / 64 / 64 == u / 4096;
  }

  lemma PairIsRead(h: Unit, l: Unit, t: seq<Byte>)
    requires 0xD800 <= h < 0xDC00 && 0xDC00 <= l < 0xE000
    ensures FirstCodePoint(Utf8.EncodePair(h, l) + t) == Some((Utf8.CodePoint(h, l) as nat, 4))
    ensures InUnits(Utf8.CodePoint(h, l)) == [h, l]
  {
    Utf8.CodePointParts(Utf8.CodePoint(h, l));
  }

  /** The bytes of a string are read back as the string, repaired. */
  lemma {:induction false} EncodedReads(s: seq<Unit>)
    ensures ReadUtf8(Utf8.Encode(s)) == Some(Repaired(s))
    decreases |s|
  {
    hide Utf8.EncodeUnit, Utf8.EncodePair, FirstCodePoint, Utf8.CodePoint, InUnits;
    if s != [] {
      var n := Utf8.Width(s);
      var first, rest := Utf8.FirstBytes(s), Utf8.Encode(s[n..]);
      EncodedReads(s[n..]);
      assert Utf8.Encode(s) == first + rest;
      if J.StartsWithPair(s) {
        PairIsRead(s[0], s[1], rest);
        assert |first| == 4 by { Utf8.PairIsDelimited(s[0], s[1], s[0], s[1]); }
        assert Utf8.Encode(s)[4..] == rest;
      } else {
        var u := if 0xD800 <= s[0] < 0xE000 then 0xFFFD else s[0];
        UnitIsRead(u, rest);
        assert first == Utf8.EncodeUnit(u);
        assert first != [] by { Utf8.UnitIsDelimited(u, u); }
        assert Utf8.Encode(s)[|first|..] == rest;
        assert InUnits(u) == [u] by { OneUnit(u); }
      }
    }
  }

  lemma OneUnit(u: Unit)
    ensures InUnits(u) == [u]
  {
  }

  lemma {:induction false} NothingToRepair(s: seq<Unit>)
    requires Utf8.WellFormed(s)
    ensures Repaired(s) == s
    decreases |s|
  {
    if J.StartsWithPair(s) {
      NothingToRepair(s[2..]);
    } else if s != [] {
      NothingToRepair(s[1..]);
    }
  }

  lemma {:induction false} HexReads(bytes: seq<Byte>)
    ensures ReadHex(ToLowercaseHex(bytes)) == Some(bytes)
  {
    hide Digit, HexValue;
    if bytes != [] {
      HexReads(bytes[1..]);
      DigitReads(bytes[0] / 16);
      DigitReads(bytes[0] % 16);
      assert ToLowercaseHex(bytes)[2..] == ToLowercaseHex(bytes[1..]);
      assert bytes == [16 * (bytes[0] / 16) + bytes[0] % 16] + bytes[1..];
    }
  }

  /** What decodes as pairs of digits, of either case, and to which bytes. */
  lemma {:induction false} HexDecodesAsRead(digits: seq<Unit>)
    ensures ReadHex(digits).Some? <==> |digits| % 2 == 0 && forall i :: 0 <= i < |digits| / 2 ==> IsHexPair(digits, i)
    ensures ReadHex(digits).Some? ==> |ReadHex(digits).value| == |digits| / 2 && forall i :: 0 <= i < |digits| / 2 ==> ReadHex(digits).value[i] == PairValue(digits, i)
    decreases |digits|
  {
    hide ValueOf, HexValue;
    if |digits| >= 2 {
      var rest := digits[2..];
      HexDecodesAsRead(rest);
      SameValue(digits[0]);
      SameValue(digits[1]);
      assert ReadHex(digits).Some? <==> IsHexPair(digits, 0) && ReadHex(rest).Some?;
      assert forall i :: 1 <= i < |digits| / 2 ==> IsHexPair(digits, i) == IsHexPair(rest, i - 1);
      forall i | 0 <= i < |rest| / 2
        ensures IsHexPair(rest, i) == IsHexPair(digits, i + 1)
      {
      }
    }
  }

  lemma SameValue(u: Unit)
    ensures ValueOf(u).Some? <==> HexValue(u).Some?
    ensures ValueOf(u).Some? ==> ValueOf(u).value == HexValue(u).value
  {
  }

  // ---------------------------------------------------------------- the id

  /** What a page handed over, as a JSON value: a hole is `null`, and what no event holds is nothing. */
  function AsJson(v: Value): Option<JsonValue> {
    match v
    case Whole(n) => if n >= 0 then Some(Number(n)) else None
    case Str(text) => Some(String(text))
    case List(items) => if forall i :: 0 <= i < |items| ==> AsJson(items[i]).Some?
      then Some(Array(seq(|items|, (i: nat) requires i < |items| && AsJson(items[i]).Some? => AsJson(items[i]).value))) else None
    case Hole => Some(Null)
    case Other => None
  }

  lemma TagIsAsJson(tag: Tag)
    ensures AsJson(List(AsTexts(tag))) == Some(TagRead(tag))
  {
    var items := AsTexts(tag);
    forall i: nat | i < |items|
      ensures AsJson(items[i]) == Some(ItemRead(TextRead, tag[i]))
    {
    }
    assert AsJson(List(items)).Some?;
    assert AsJson(List(items)).value.items == ItemsRead(TextRead, tag);
  }

  lemma TagsAreAsJson(tags: seq<Option<Tag>>)
    ensures AsJson(List(AsTags(tags))) == Some(TagsRead(tags))
  {
    hide TagRead;
    var items := AsTags(tags);
    forall i: nat | i < |items|
      ensures AsJson(items[i]) == Some(ItemRead(TagRead, tags[i]))
    {
      if tags[i].Some? {
        TagIsAsJson(tags[i].value);
      }
    }
    assert AsJson(List(items)).Some?;
    assert AsJson(List(items)).value.items == ItemsRead(TagRead, tags);
  }

  /**
   An id is lower-case hexadecimal of the digest of some bytes; the bytes are UTF-8 of a text; and the text is of the array of
   0, the key, and the time, kind, tags and content handed over, in this order.
   */
  lemma IdIsOfItsEvent(digest: seq<Byte> -> seq<Byte>, input: Input, pubkey: Value) returns (bytes: seq<Byte>, text: seq<Unit>)
    requires ComputeEventId(digest, input, pubkey).Ok?
    ensures ReadHex(ComputeEventId(digest, input, pubkey).value) == Some(digest(bytes)) && ReadUtf8(bytes) == Some(text)
    ensures input.Fields? && forall v :: v in [pubkey, input.createdAt, input.kind, input.tags, input.content] ==> AsJson(v).Some?
    ensures ReadText(text) == Some(Array([Number(0), AsJson(pubkey).value, AsJson(input.createdAt).value, AsJson(input.kind).value,
                                          AsJson(input.tags).value, AsJson(input.content).value]))
  {
    var e := ValidateUnsignedEvent(input).value;
    bytes, text := Preimage(pubkey.text, e), Serialize(pubkey.text, e);
    HexReads(digest(bytes));
    EncodedReads(text);
    SerializeIsWellFormed(pubkey.text, e);
    NothingToRepair(text);
    SerializedReads(pubkey.text, e);
    TagsAreAsJson(e.tags);
  }
}
