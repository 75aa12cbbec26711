/**
 What `JSON.stringify` prints for strings, whole numbers and arrays of them, over UTF-16 code units, and that each of
 these can be told apart from what follows it.
 */
module Json {
  import opened Hex
  import opened Results

  const QUOTE: Unit := 0x22
  const BACKSLASH: Unit := 0x5C
  const COMMA: Unit := 0x2C
  const OPEN: Unit := 0x5B
  const CLOSE: Unit := 0x5D

  predicate IsHighSurrogate(u: Unit) {
    0xD800 <= u < 0xDC00
  }

  predicate IsLowSurrogate(u: Unit) {
    0xDC00 <= u < 0xE000
  }

  predicate StartsWithPair(s: seq<Unit>) {
    |s| >= 2 && IsHighSurrogate(s[0]) && IsLowSurrogate(s[1])
  }

  /** The letter of a two-unit escape, for the seven units that have one. */
  function ShortEscape(u: Unit): Option<Unit> {
    if u == QUOTE then Some(QUOTE)
    else if u == BACKSLASH then Some(BACKSLASH)
    else if u == 0x08 then Some('b' as int)
    else if u == 0x09 then Some('t' as int)
    else if u == 0x0A then Some('n' as int)
    else if u == 0x0C then Some('f' as int)
    else if u == 0x0D then Some('r' as int)
    else None
  }

  function HexEscape(u: Unit): seq<Unit> {
    [BACKSLASH, 'u' as int, Digit(u / 4096), Digit(u / 256 % 16), Digit(u / 16 % 16), Digit(u % 16)]
  }

  /** One unit that is not half of a surrogate pair: control characters and lone surrogates are written out in digits. */
  function EscapeOne(u: Unit): seq<Unit> {
    if ShortEscape(u).Some? then [BACKSLASH, ShortEscape(u).value]
    else if u < 0x20 || IsHighSurrogate(u) || IsLowSurrogate(u) then HexEscape(u)
    else [u]
  }

  function Escape(s: seq<Unit>): seq<Unit> {
    if s == [] then []
    else if StartsWithPair(s) then s[..2] + Escape(s[2..])
    else EscapeOne(s[0]) + Escape(s[1..])
  }

  function Quote(s: seq<Unit>): seq<Unit> {
    [QUOTE] + Escape(s) + [QUOTE]
  }

  function Decimal(n: nat): seq<Unit> {
    if n < 10 then [Digit(n)] else Decimal(n / 10) + [Digit(n % 10)]
  }

  /** An array of strings, or of arrays, with a hole printed as `null`. */
  function Item<T>(f: T -> seq<Unit>, x: Option<T>): seq<Unit> {
    if x.None? then NULL else f(x.value)
  }

  const NULL: seq<Unit> := ['n' as int, 'u' as int, 'l' as int, 'l' as int]

  function Items<T>(f: T -> seq<Unit>, xs: seq<Option<T>>): seq<Unit> {
    if xs == [] then []
    else Item(f, xs[0]) + (if |xs| == 1 then [] else [COMMA] + Items(f, xs[1..]))
  }

  function Array<T>(f: T -> seq<Unit>, xs: seq<Option<T>>): seq<Unit> {
    [OPEN] + Items(f, xs) + [CLOSE]
  }

  // ---------------------------------------------------------------- telling prints apart

  /** Two prints that agree as far as either goes are of the same value: no print runs on into what follows it. */
  ghost predicate Delimited<T(!new)>(f: T -> seq<Unit>) {
    forall x, y, r, t :: f(x) + r == f(y) + t ==> x == y && r == t
  }

  /** Every print starts with `first`. */
  ghost predicate StartsWith<T(!new)>(f: T -> seq<Unit>, first: Unit) {
    forall x :: f(x) != [] && f(x)[0] == first
  }

  lemma Cancel<T>(a: seq<T>, r: seq<T>, t: seq<T>)
    requires a + r == a + t
    ensures r == t
  {
    assert r == (a + r)[|a|..];
    assert t == (a + t)[|a|..];
  }

  lemma SameLengthParts<T>(a: seq<T>, r: seq<T>, b: seq<T>, t: seq<T>)
    requires a + r == b + t && |a| == |b|
    ensures a == b && r == t
  {
    assert a == (a + r)[..|a|];
    assert b == (b + t)[..|b|];
    Cancel(a, r, t);
  }

  lemma FourDigits(u: Unit)
    ensures u == 4096 * (u / 4096) + 256 * (u / 256 % 16) + 16 * (u / 16 % 16) + u % 16
  {
    assert u / 256 / 16 == u / 4096;
    assert u / 16 / 16 == u / 256;
  }

  lemma SameDigits(a: seq<int>, b: seq<int>)
    requires |a| == |b| == 4 && (forall i :: 0 <= i < 4 ==> 0 <= a[i] < 16 && 0 <= b[i] < 16)
    requires forall i :: 0 <= i < 4 ==> Digit(a[i]) == Digit(b[i])
    ensures a == b
  {
  }

  lemma HexEscapeIsInjective(u: Unit, v: Unit)
    requires HexEscape(u) == HexEscape(v)
    ensures u == v
  {
    hide Digit;
    var a, b := [u / 4096, u / 256 % 16, u / 16 % 16, u % 16], [v / 4096, v / 256 % 16, v / 16 % 16, v % 16];
    forall i | 0 <= i < 4
      ensures Digit(a[i]) == Digit(b[i])
    {
      assert HexEscape(u)[i + 2] == HexEscape(v)[i + 2];
    }
    SameDigits(a, b);
    assert a[0] == b[0] && a[1] == b[1] && a[2] == b[2] && a[3] == b[3];
    FourDigits(u);
    FourDigits(v);
  }

  lemma DigitIsInjective(a: int, b: int)
    requires 0 <= a < 16 && 0 <= b < 16
    ensures Digit(a) == Digit(b) ==> a == b
  {
  }

  /** What one unit is escaped to is never empty, never starts with a quote, and is never the start of another's escape. */
  lemma EscapeOneIsDelimited(u: Unit, v: Unit, r: seq<Unit>, t: seq<Unit>)
    requires EscapeOne(u) + r == EscapeOne(v) + t
    ensures u == v && r == t
  {
    hide HexEscape;
    HexEscapeStarts(u);
    HexEscapeStarts(v);
    var x, y := EscapeOne(u), EscapeOne(v);
    assert (x + r)[0] == x[0] && (y + t)[0] == y[0];
    if |x| > 1 && |y| > 1 {
      assert (x + r)[1] == x[1] && (y + t)[1] == y[1];
    }
    assert |x| == |y|;
    SameLengthParts(x, r, y, t);
    if |x| == 6 {
      HexEscapeIsInjective(u, v);
    }
  }

  lemma HexEscapeStarts(u: Unit)
    ensures |HexEscape(u)| == 6 && HexEscape(u)[0] == BACKSLASH && HexEscape(u)[1] == 'u' as int
  {
  }

  /** The first unit of an escaped string is never a bare quote, and is a surrogate exactly when a pair comes first. */
  lemma EscapeStarts(s: seq<Unit>)
    requires s != []
    ensures Escape(s) != [] && Escape(s)[0] != QUOTE
    ensures IsHighSurrogate(Escape(s)[0]) <==> StartsWithPair(s)
  {
  }

  lemma {:induction false} EscapeIsDelimited(a: seq<Unit>, b: seq<Unit>, r: seq<Unit>, t: seq<Unit>)
    requires Escape(a) + [QUOTE] + r == Escape(b) + [QUOTE] + t
    ensures a == b && r == t
    decreases |a|
  {
    hide EscapeOne;
    var x, y := Escape(a) + [QUOTE] + r, Escape(b) + [QUOTE] + t;
    if a != [] { EscapeStarts(a); assert x[0] == Escape(a)[0]; }
    if b != [] { EscapeStarts(b); assert y[0] == Escape(b)[0]; }
    if a == [] || b == [] {
      assert a == [] ==> x[0] == QUOTE;
      assert b == [] ==> y[0] == QUOTE;
      assert a == b == [];
      assert x == [QUOTE] + r && y == [QUOTE] + t;
      Cancel([QUOTE], r, t);
    } else if StartsWithPair(a) {
      var ra, rb := Escape(a[2..]) + [QUOTE] + r, Escape(b[2..]) + [QUOTE] + t;
      assert x == a[..2] + ra && y == b[..2] + rb;
      SameLengthParts(a[..2], ra, b[..2], rb);
      EscapeIsDelimited(a[2..], b[2..], r, t);
      assert a == a[..2] + a[2..] && b == b[..2] + b[2..];
    } else {
      var ra, rb := Escape(a[1..]) + [QUOTE] + r, Escape(b[1..]) + [QUOTE] + t;
      assert x == EscapeOne(a[0]) + ra && y == EscapeOne(b[0]) + rb;
      EscapeOneIsDelimited(a[0], b[0], ra, rb);
      EscapeIsDelimited(a[1..], b[1..], r, t);
      assert a == [a[0]] + a[1..] && b == [b[0]] + b[1..];
    }
  }

  lemma QuoteIsDelimited()
    ensures Delimited(Quote) && StartsWith(Quote, QUOTE)
  {
    forall a, b, r, t | Quote(a) + r == Quote(b) + t
      ensures a == b && r == t
    {
      var x, y := Escape(a) + [QUOTE] + r, Escape(b) + [QUOTE] + t;
      assert Quote(a) + r == [QUOTE] + x && Quote(b) + t == [QUOTE] + y;
      Cancel([QUOTE], x, y);
      EscapeIsDelimited(a, b, r, t);
    }
  }

  lemma ItemIsDelimited<T(!new)>(f: T -> seq<Unit>, first: Unit, x: Option<T>, y: Option<T>, r: seq<Unit>, t: seq<Unit>)
    requires Delimited(f) && StartsWith(f, first) && first != NULL[0]
    requires Item(f, x) + r == Item(f, y) + t
    ensures x == y && r == t
  {
    assert x.Some? ==> (Item(f, x) + r)[0] == first;
    assert y.Some? ==> (Item(f, y) + t)[0] == first;
    assert x.None? ==> (Item(f, x) + r)[0] == NULL[0];
    assert y.None? ==> (Item(f, y) + t)[0] == NULL[0];
    if x.None? {
      Cancel(NULL, r, t);
    }
  }

  lemma ItemsStart<T(!new)>(f: T -> seq<Unit>, first: Unit, xs: seq<Option<T>>, r: seq<Unit>)
    requires StartsWith(f, first) && first != CLOSE
    ensures (Items(f, xs) + [CLOSE] + r)[0] == CLOSE <==> xs == []
  {
    assert xs != [] ==> (Items(f, xs) + [CLOSE] + r)[0] == Item(f, xs[0])[0];
  }

  lemma {:induction false} ItemsAreDelimited<T(!new)>(f: T -> seq<Unit>, first: Unit, xs: seq<Option<T>>, ys: seq<Option<T>>, r: seq<Unit>, t: seq<Unit>)
    requires Delimited(f) && StartsWith(f, first) && first != NULL[0] && first != CLOSE
    requires Items(f, xs) + [CLOSE] + r == Items(f, ys) + [CLOSE] + t
    ensures xs == ys && r == t
    decreases |xs|
  {
    hide Delimited, StartsWith, Item;
    ItemsStart(f, first, xs, r);
    ItemsStart(f, first, ys, t);
    if xs == [] {
      assert Items(f, xs) + [CLOSE] + r == [CLOSE] + r && Items(f, ys) + [CLOSE] + t == [CLOSE] + t;
      Cancel([CLOSE], r, t);
    } else {
      var restX, restY := AfterItem(f, xs, r), AfterItem(f, ys, t);
      AfterItemIsRest(f, xs, r);
      AfterItemIsRest(f, ys, t);
      ItemIsDelimited(f, first, xs[0], ys[0], restX, restY);
      assert restX[0] == if |xs| == 1 then CLOSE else COMMA;
      assert restY[0] == if |ys| == 1 then CLOSE else COMMA;
      if |xs| == 1 {
        Cancel([CLOSE], r, t);
        assert xs == [xs[0]] && ys == [ys[0]];
      } else {
        Cancel([COMMA], Items(f, xs[1..]) + [CLOSE] + r, Items(f, ys[1..]) + [CLOSE] + t);
        ItemsAreDelimited(f, first, xs[1..], ys[1..], r, t);
        assert xs == [xs[0]] + xs[1..] && ys == [ys[0]] + ys[1..];
      }
    }
  }

  ghost function AfterItem<T>(f: T -> seq<Unit>, xs: seq<Option<T>>, r: seq<Unit>): seq<Unit>
    requires xs != []
  {
    if |xs| == 1 then [CLOSE] + r else [COMMA] + (Items(f, xs[1..]) + [CLOSE] + r)
  }

  lemma AfterItemIsRest<T>(f: T -> seq<Unit>, xs: seq<Option<T>>, r: seq<Unit>)
    requires xs != []
    ensures Items(f, xs) + [CLOSE] + r == Item(f, xs[0]) + AfterItem(f, xs, r)
  {
    hide Item;
    if |xs| == 1 {
      assert Items(f, xs) == Item(f, xs[0]) + [];
    } else {
      assert Items(f, xs) == Item(f, xs[0]) + ([COMMA] + Items(f, xs[1..]));
    }
  }

  /** An array of delimited things is delimited, to any depth of nesting. */
  lemma ArrayIsDelimited<T(!new)>(f: T -> seq<Unit>, first: Unit, g: seq<Option<T>> -> seq<Unit>)
    requires Delimited(f) && StartsWith(f, first) && first != NULL[0] && first != CLOSE
    requires forall xs :: g(xs) == Array(f, xs)
    ensures Delimited(g) && StartsWith(g, OPEN)
  {
    forall xs, ys, r, t | g(xs) + r == g(ys) + t
      ensures xs == ys && r == t
    {
      var x, y := Items(f, xs) + [CLOSE] + r, Items(f, ys) + [CLOSE] + t;
      assert Array(f, xs) + r == [OPEN] + x && Array(f, ys) + t == [OPEN] + y;
      Cancel([OPEN], x, y);
      ItemsAreDelimited(f, first, xs, ys, r, t);
    }
  }

  // ---------------------------------------------------------------- numbers

  predicate IsDecimalDigit(u: Unit) {
    '0' as int <= u <= '9' as int
  }

  lemma {:induction false} DecimalIsDigits(n: nat)
    ensures Decimal(n) != [] && forall i :: 0 <= i < |Decimal(n)| ==> IsDecimalDigit(Decimal(n)[i])
  {
    if n >= 10 {
      DecimalIsDigits(n / 10);
    }
  }

  lemma {:induction false} DecimalIsInjective(m: nat, n: nat)
    requires Decimal(m) == Decimal(n)
    ensures m == n
  {
    hide Digit;
    DigitIsInjective(m % 10, n % 10);
    if m < 10 && n < 10 {
      DigitIsInjective(m, n);
    } else {
      if m >= 10 { DecimalIsDigits(m / 10); }
      if n >= 10 { DecimalIsDigits(n / 10); }
      assert |Decimal(m)| >= 2 && m >= 10 && n >= 10;
      var a, b := Decimal(m / 10), Decimal(n / 10);
      assert Decimal(m) == a + [Digit(m % 10)] && Decimal(n) == b + [Digit(n % 10)];
      assert |a| == |b|;
      SameLengthParts(a, [Digit(m % 10)], b, [Digit(n % 10)]);
      DecimalIsInjective(m / 10, n / 10);
    }
  }

  /** A number followed by a comma: the digits end where the comma is. */
  lemma DecimalThenComma(m: nat, n: nat, r: seq<Unit>, t: seq<Unit>)
    requires Decimal(m) + ([COMMA] + r) == Decimal(n) + ([COMMA] + t)
    ensures m == n && r == t
  {
    DecimalIsDigits(m);
    DecimalIsDigits(n);
    var x, y := Decimal(m) + ([COMMA] + r), Decimal(n) + ([COMMA] + t);
    assert x[|Decimal(m)|] == COMMA && y[|Decimal(n)|] == COMMA;
    assert forall i :: 0 <= i < |Decimal(m)| ==> x[i] == Decimal(m)[i];
    assert forall i :: 0 <= i < |Decimal(n)| ==> y[i] == Decimal(n)[i];
    assert |Decimal(m)| == |Decimal(n)|;
    SameLengthParts(Decimal(m), [COMMA] + r, Decimal(n), [COMMA] + t);
    DecimalIsInjective(m, n);
    Cancel([COMMA], r, t);
  }
}
