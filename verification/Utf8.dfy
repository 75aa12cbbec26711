/** UTF-8 of a string of code units as the platform encodes it: half of a surrogate pair on its own becomes U+FFFD. */
module Utf8 {
  import opened Hex
  import opened Json

  const REPLACEMENT: Unit := 0xFFFD

  function EncodeUnit(u: Unit): seq<Byte> {
    if u < 0x80 then [u]
    else if u < 0x800 then [0xC0 + u / 64, 0x80 + u % 64]
    else [0xE0 + u / 4096, 0x80 + u / 64 % 64, 0x80 + u % 64]
  }

  function CodePoint(high: Unit, low: Unit): (c: int)
    requires IsHighSurrogate(high) && IsLowSurrogate(low)
    ensures 0x1_0000 <= c < 0x11_0000
  {
    0x1_0000 + (high - 0xD800) * 1024 + (low - 0xDC00)
  }

  function EncodePair(high: Unit, low: Unit): seq<Byte>
    requires IsHighSurrogate(high) && IsLowSurrogate(low)
  {
    var c := CodePoint(high, low);
    [0xF0 + c / 0x4_0000, 0x80 + c / 4096 % 64, 0x80 + c / 64 % 64, 0x80 + c % 64]
  }

  /** The encoding of a string's first character, which takes up one unit or two. */
  function FirstBytes(s: seq<Unit>): seq<Byte>
    requires s != []
  {
    if StartsWithPair(s) then EncodePair(s[0], s[1])
    else EncodeUnit(if IsHighSurrogate(s[0]) || IsLowSurrogate(s[0]) then REPLACEMENT else s[0])
  }

  function Width(s: seq<Unit>): nat {
    if StartsWithPair(s) then 2 else 1
  }

  function Encode(s: seq<Unit>): seq<Byte> {
    if s == [] then [] else FirstBytes(s) + Encode(s[Width(s)..])
  }

  /** Every surrogate is half of a pair. */
  predicate WellFormed(s: seq<Unit>) {
    s == []
    || (StartsWithPair(s) && WellFormed(s[2..]))
    || (!IsHighSurrogate(s[0]) && !IsLowSurrogate(s[0]) && WellFormed(s[1..]))
  }

  lemma {:induction false} WellFormedConcat(a: seq<Unit>, b: seq<Unit>)
    requires WellFormed(a) && WellFormed(b)
    ensures WellFormed(a + b)
    decreases |a|
  {
    if a == [] {
      assert a + b == b;
    } else if StartsWithPair(a) {
      assert (a + b)[2..] == a[2..] + b;
      WellFormedConcat(a[2..], b);
    } else {
      assert (a + b)[1..] == a[1..] + b;
      WellFormedConcat(a[1..], b);
    }
  }

  lemma {:induction false} PlainIsWellFormed(s: seq<Unit>)
    requires forall i :: 0 <= i < |s| ==> s[i] < 0xD800
    ensures WellFormed(s)
  {
    if s != [] {
      PlainIsWellFormed(s[1..]);
    }
  }

  /** How many bytes a first byte announces. */
  function Announced(b: Byte): (n: int)
    ensures n >= 1
  {
    if b < 0x80 then 1 else if b < 0xE0 then 2 else if b < 0xF0 then 3 else 4
  }

  lemma UnitIsDelimited(u: Unit, v: Unit)
    ensures |EncodeUnit(u)| == Announced(EncodeUnit(u)[0]) < 4
    ensures EncodeUnit(u) == EncodeUnit(v) ==> u == v
  {
    assert u == 64 * (u / 64) + u % 64 && u / 64 == 64 * (u / 4096) + u / 64 % 64 by { assert u / 64 / 64 == u / 4096; }
    assert v == 64 * (v / 64) + v % 64 && v / 64 == 64 * (v / 4096) + v / 64 % 64 by { assert v / 64 / 64 == v / 4096; }
    if EncodeUnit(u) == EncodeUnit(v) {
      SameBytes(EncodeUnit(u), EncodeUnit(v));
    }
  }

  lemma SameBytes(a: seq<Byte>, b: seq<Byte>)
    requires a == b
    ensures |a| == |b| && forall i :: 0 <= i < |a| ==> a[i] == b[i]
  {
  }

  lemma CodePointParts(c: int)
    requires 0 <= c
    ensures c == 0x4_0000 * (c / 0x4_0000) + 4096 * (c / 4096 % 64) + 64 * (c / 64 % 64) + c % 64
  {
    assert c / 4096 / 64 == c / 0x4_0000;
    assert c / 64 / 64 == c / 4096;
  }

  lemma PairIsDelimited(h: Unit, l: Unit, h': Unit, l': Unit)
    requires IsHighSurrogate(h) && IsLowSurrogate(l) && IsHighSurrogate(h') && IsLowSurrogate(l')
    ensures |EncodePair(h, l)| == 4 == Announced(EncodePair(h, l)[0])
    ensures EncodePair(h, l) == EncodePair(h', l') ==> h == h' && l == l'
  {
    CodePointParts(CodePoint(h, l));
    CodePointParts(CodePoint(h', l'));
    if EncodePair(h, l) == EncodePair(h', l') {
      SameBytes(EncodePair(h, l), EncodePair(h', l'));
      assert CodePoint(h, l) == CodePoint(h', l');
    }
  }

  lemma FirstIsDelimited(a: seq<Unit>, b: seq<Unit>)
    requires a != [] && b != [] && WellFormed(a) && WellFormed(b)
    ensures FirstBytes(a) != [] && |FirstBytes(a)| == Announced(FirstBytes(a)[0])
    ensures FirstBytes(a) == FirstBytes(b) ==> Width(a) == Width(b) && a[..Width(a)] == b[..Width(b)]
  {
    hide EncodeUnit, EncodePair, Announced;
    if StartsWithPair(a) {
      PairIsDelimited(a[0], a[1], a[0], a[1]);
    } else {
      UnitIsDelimited(a[0], a[0]);
    }
    if StartsWithPair(b) {
      PairIsDelimited(b[0], b[1], b[0], b[1]);
    } else {
      UnitIsDelimited(b[0], b[0]);
    }
    if StartsWithPair(a) && StartsWithPair(b) {
      PairIsDelimited(a[0], a[1], b[0], b[1]);
    } else if !StartsWithPair(a) && !StartsWithPair(b) {
      UnitIsDelimited(a[0], b[0]);
    }
  }

  /** On strings without lone surrogates the encoding loses nothing. */
  lemma {:induction false} EncodeIsInjective(a: seq<Unit>, b: seq<Unit>)
    requires WellFormed(a) && WellFormed(b) && Encode(a) == Encode(b)
    ensures a == b
    decreases |a|
  {
    hide EncodeUnit, EncodePair, Announced;
    if a != [] { FirstIsDelimited(a, a); }
    if b != [] { FirstIsDelimited(b, b); }
    if a != [] && b != [] {
      FirstIsDelimited(a, b);
      var x, y := FirstBytes(a), FirstBytes(b);
      assert Encode(a) == x + Encode(a[Width(a)..]) && Encode(b) == y + Encode(b[Width(b)..]);
      assert x[0] == Encode(a)[0] == y[0];
      SameLengthParts(x, Encode(a[Width(a)..]), y, Encode(b[Width(b)..]));
      EncodeIsInjective(a[Width(a)..], b[Width(b)..]);
      assert a == a[..Width(a)] + a[Width(a)..] && b == b[..Width(b)] + b[Width(b)..];
    }
  }

  /** Strings with a lone surrogate are where the encoding does collide. */
  lemma LoneSurrogatesCollide(u: Unit, v: Unit)
    requires IsHighSurrogate(u) && IsHighSurrogate(v)
    ensures Encode([u]) == Encode([v]) == EncodeUnit(REPLACEMENT)
  {
    assert Encode([u]) == EncodeUnit(REPLACEMENT) + Encode([]);
    assert Encode([v]) == EncodeUnit(REPLACEMENT) + Encode([]);
  }

  /** Escaping leaves no lone surrogate. */
  lemma {:induction false} EscapeIsWellFormed(s: seq<Unit>)
    ensures WellFormed(Escape(s))
    decreases |s|
  {
    if StartsWithPair(s) {
      EscapeIsWellFormed(s[2..]);
      assert Escape(s)[2..] == Escape(s[2..]);
    } else if s != [] {
      EscapeIsWellFormed(s[1..]);
      PlainOrOneIsWellFormed(s[0]);
      WellFormedConcat(EscapeOne(s[0]), Escape(s[1..]));
    }
  }

  lemma PlainOrOneIsWellFormed(u: Unit)
    ensures WellFormed(EscapeOne(u))
  {
    if |EscapeOne(u)| == 1 {
      assert WellFormed([]);
      assert EscapeOne(u)[1..] == [];
    } else {
      PlainIsWellFormed(EscapeOne(u));
    }
  }
}
