/** Lower-case hexadecimal over code units, one byte to two digits, and back. */
module Hex {
  import opened Results

  /** A UTF-16 code unit: what a string of the original is made of. */
  type Unit = n: int | 0 <= n < 0x1_0000
  type Byte = n: int | 0 <= n < 0x100

  datatype Failure = OddLength(length: nat) | NotAHexByte(offset: nat)

  function Digit(d: int): (u: Unit)
    requires 0 <= d < 16
  {
    if d < 10 then '0' as int + d else 'a' as int + (d - 10)
  }

  /** The value of a hexadecimal digit of either case. */
  function ValueOf(u: Unit): (v: Option<int>)
    ensures v.Some? ==> 0 <= v.value < 16
  {
    if '0' as int <= u <= '9' as int then Some(u - '0' as int)
    else if 'a' as int <= u <= 'f' as int then Some(u - 'a' as int + 10)
    else if 'A' as int <= u <= 'F' as int then Some(u - 'A' as int + 10)
    else None
  }

  function LowerCase(u: Unit): Unit {
    if 'A' as int <= u <= 'Z' as int then u + 32 else u
  }

  function ToLowercaseHex(bytes: seq<Byte>): seq<Unit> {
    if bytes == [] then [] else [Digit(bytes[0] / 16), Digit(bytes[0] % 16)] + ToLowercaseHex(bytes[1..])
  }

  predicate IsHexPair(hex: seq<Unit>, i: nat)
    requires 2 * i + 1 < |hex|
  {
    ValueOf(hex[2 * i]).Some? && ValueOf(hex[2 * i + 1]).Some?
  }

  function PairValue(hex: seq<Unit>, i: nat): Byte
    requires 2 * i + 1 < |hex| && IsHexPair(hex, i)
  {
    16 * ValueOf(hex[2 * i]).value + ValueOf(hex[2 * i + 1]).value
  }

  /** Refuses an odd length, then the first pair that is not two digits; otherwise each byte is its pair's value. */
  method HexToBytes(hex: seq<Unit>) returns (r: Result<seq<Byte>, Failure>)
    ensures r.Ok? <==> |hex| % 2 == 0 && forall i :: 0 <= i < |hex| / 2 ==> IsHexPair(hex, i)
    ensures r.Ok? ==> |r.value| == |hex| / 2 && forall i :: 0 <= i < |hex| / 2 ==> r.value[i] == PairValue(hex, i)
    ensures r.Err? && r.error.OddLength? ==> r.error.length == |hex| && |hex| % 2 == 1
    ensures r.Err? && r.error.NotAHexByte? ==>
              var k := r.error.offset / 2;
              r.error.offset == 2 * k && k < |hex| / 2 && |hex| % 2 == 0 && !IsHexPair(hex, k) && forall i :: 0 <= i < k ==> IsHexPair(hex, i)
  {
    if |hex| % 2 != 0 {
      return Err(OddLength(|hex|));
    }
    var bytes: seq<Byte> := [];
    for i := 0 to |hex| / 2
      invariant |bytes| == i
      invariant forall k :: 0 <= k < i ==> IsHexPair(hex, k) && bytes[k] == PairValue(hex, k)
    {
      if !IsHexPair(hex, i) {
        return Err(NotAHexByte(2 * i));
      }
      bytes := bytes + [PairValue(hex, i)];
    }
    r := Ok(bytes);
  }

  lemma {:induction false} HexDigitsAt(bytes: seq<Byte>, i: nat)
    requires i < |bytes|
    ensures |ToLowercaseHex(bytes)| == 2 * |bytes|
    ensures ToLowercaseHex(bytes)[2 * i] == Digit(bytes[i] / 16) && ToLowercaseHex(bytes)[2 * i + 1] == Digit(bytes[i] % 16)
  {
    hide Digit;
    var pair, rest := [Digit(bytes[0] / 16), Digit(bytes[0] % 16)], ToLowercaseHex(bytes[1..]);
    assert ToLowercaseHex(bytes) == pair + rest;
    if |bytes| > 1 {
      HexDigitsAt(bytes[1..], if i > 0 then i - 1 else 0);
    }
    if i > 0 {
      assert (pair + rest)[2 * i] == rest[2 * (i - 1)] && (pair + rest)[2 * i + 1] == rest[2 * (i - 1) + 1];
    }
  }

  lemma HexDigits(bytes: seq<Byte>)
    ensures |ToLowercaseHex(bytes)| == 2 * |bytes|
    ensures forall i :: 0 <= i < |bytes| ==>
              ToLowercaseHex(bytes)[2 * i] == Digit(bytes[i] / 16) && ToLowercaseHex(bytes)[2 * i + 1] == Digit(bytes[i] % 16)
  {
    hide Digit;
    if bytes != [] {
      HexDigitsAt(bytes, 0);
    }
    forall i: nat | i < |bytes|
      ensures ToLowercaseHex(bytes)[2 * i] == Digit(bytes[i] / 16) && ToLowercaseHex(bytes)[2 * i + 1] == Digit(bytes[i] % 16)
    {
      HexDigitsAt(bytes, i);
    }
  }

  /** Decoding what was encoded gives the bytes back. */
  lemma DecodingUndoesEncoding(bytes: seq<Byte>)
    ensures var hex := ToLowercaseHex(bytes);
      |hex| == 2 * |bytes| && forall i :: 0 <= i < |bytes| ==> IsHexPair(hex, i) && PairValue(hex, i) == bytes[i]
  {
    HexDigits(bytes);
  }

  lemma HexIsInjective(a: seq<Byte>, b: seq<Byte>)
    requires ToLowercaseHex(a) == ToLowercaseHex(b)
    ensures a == b
  {
    DecodingUndoesEncoding(a);
    DecodingUndoesEncoding(b);
    forall i | 0 <= i < |a|
      ensures a[i] == b[i]
    {
      assert PairValue(ToLowercaseHex(a), i) == a[i];
    }
  }

  /** Encoding what was decoded gives the digits back in lower case. */
  lemma {:induction false} EncodingUndoesDecoding(hex: seq<Unit>, bytes: seq<Byte>)
    requires |hex| == 2 * |bytes| && forall i :: 0 <= i < |bytes| ==> IsHexPair(hex, i) && bytes[i] == PairValue(hex, i)
    ensures ToLowercaseHex(bytes) == seq(|hex|, (i: nat) requires i < |hex| => LowerCase(hex[i]))
  {
    HexDigits(bytes);
    forall j: nat | j < |hex|
      ensures ToLowercaseHex(bytes)[j] == LowerCase(hex[j])
    {
      var i := j / 2;
      assert j == 2 * i || j == 2 * i + 1;
      assert IsHexPair(hex, i) && bytes[i] == PairValue(hex, i);
      assert bytes[i] / 16 == ValueOf(hex[2 * i]).value && bytes[i] % 16 == ValueOf(hex[2 * i + 1]).value;
    }
  }

  /** A digest in hexadecimal is what the event validator accepts as one: lower-case digits only. */
  lemma HexIsLowerCase(bytes: seq<Byte>)
    ensures forall i :: 0 <= i < |ToLowercaseHex(bytes)| ==> IsLowerHex(ToLowercaseHex(bytes)[i])
  {
    HexDigits(bytes);
    forall j: nat | j < |ToLowercaseHex(bytes)|
      ensures IsLowerHex(ToLowercaseHex(bytes)[j])
    {
      var i := j / 2;
      assert j == 2 * i || j == 2 * i + 1;
    }
  }

  predicate IsLowerHex(u: Unit) {
    '0' as int <= u <= '9' as int || 'a' as int <= u <= 'f' as int
  }
}
