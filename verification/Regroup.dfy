/**
 Eight-bit bytes to five-bit words and back, by the bits they hold. A word is a `bv32`: a number after the conversion every
 JavaScript bit operator applies.
 */
module Regroup {
  ghost predicate AreWords(data: seq<bv32>) {
    forall i :: 0 <= i < |data| ==> data[i] < 0x20
  }

  /** The low thirteen bits of an accumulator, most significant first: as many as the loop ever still needs. */
  function Low13(a: bv32): (bits: seq<bool>)
    ensures |bits| == 13
  {
    [(a >> 12) & 1 != 0, (a >> 11) & 1 != 0, (a >> 10) & 1 != 0, (a >> 9) & 1 != 0, (a >> 8) & 1 != 0,
     (a >> 7) & 1 != 0, (a >> 6) & 1 != 0, (a >> 5) & 1 != 0, (a >> 4) & 1 != 0, (a >> 3) & 1 != 0,
     (a >> 2) & 1 != 0, (a >> 1) & 1 != 0, a & 1 != 0]
  }

  function Low(a: bv32, n: nat): (bits: seq<bool>)
    requires n <= 13
    ensures |bits| == n
  {
    Low13(a)[13 - n..]
  }

  function BitsOfByte(byte: bv8): seq<bool> {
    Low(byte as bv32, 8)
  }

  function BitsOfBytes(bytes: seq<bv8>): (bits: seq<bool>)
    ensures |bits| == 8 * |bytes|
  {
    if bytes == [] then [] else BitsOfByte(bytes[0]) + BitsOfBytes(bytes[1..])
  }

  function BitsOfWords(words: seq<bv32>): (bits: seq<bool>)
    ensures |bits| == 5 * |words|
  {
    if words == [] then [] else Low(words[0], 5) + BitsOfWords(words[1..])
  }

  function FiveOf(b16: bool, b8: bool, b4: bool, b2: bool, b1: bool): bv32 {
    (if b16 then 16 else 0) | (if b8 then 8 else 0) | (if b4 then 4 else 0) | (if b2 then 2 else 0) | (if b1 then 1 else 0)
  }

  function WordOf(bits: seq<bool>): bv32
    requires |bits| == 5
  {
    FiveOf(bits[0], bits[1], bits[2], bits[3], bits[4])
  }

  function ByteOf(bits: seq<bool>): bv8
    requires |bits| == 8
  {
    (if bits[0] then 128 else 0) | (if bits[1] then 64 else 0) | (if bits[2] then 32 else 0) | (if bits[3] then 16 else 0)
    | (if bits[4] then 8 else 0) | (if bits[5] then 4 else 0) | (if bits[6] then 2 else 0) | (if bits[7] then 1 else 0)
  }

  function Falses(n: nat): seq<bool> {
    seq(n, i => false)
  }

  /** The reference: a bit string cut into fives, the last group filled up with zero bits. */
  function WordsOf(bits: seq<bool>): (words: seq<bv32>)
    ensures |words| == (|bits| + 4) / 5
  {
    if |bits| == 0 then []
    else if |bits| < 5 then [WordOf(bits + Falses(5 - |bits|))]
    else [WordOf(bits[..5])] + WordsOf(bits[5..])
  }

  /** Regrouping the other way: as many whole bytes as the bits hold, the rest dropped. */
  function BytesOf(bits: seq<bool>): seq<bv8> {
    if |bits| < 8 then [] else [ByteOf(bits[..8])] + BytesOf(bits[8..])
  }

  /** A shift by a number of pending bits, as a shift amount. */
  function Amount(bits: nat): (shift: bv6)
    requires bits <= 7
    ensures shift as int == bits
  {
    if bits == 0 then 0 else if bits == 1 then 1 else if bits == 2 then 2 else if bits == 3 then 3
    else if bits == 4 then 4 else if bits == 5 then 5 else if bits == 6 then 6 else 7
  }

  /** The accumulator takes a byte; it is never trimmed, so stale bits stay above the pending ones. */
  function EnterByte(acc: bv32, byte: bv8): bv32 {
    (acc << 8) | (byte as bv32)
  }

  function LowFive(a: bv32): (bits: seq<bool>)
    ensures |bits| == 5
  {
    [(a >> 4) & 1 != 0, (a >> 3) & 1 != 0, (a >> 2) & 1 != 0, (a >> 1) & 1 != 0, a & 1 != 0]
  }

  lemma MaskedBits(acc: bv32)
    ensures acc & 16 == if (acc >> 4) & 1 != 0 then 16 else 0
    ensures acc & 8 == if (acc >> 3) & 1 != 0 then 8 else 0
    ensures acc & 4 == if (acc >> 2) & 1 != 0 then 4 else 0
    ensures acc & 2 == if (acc >> 1) & 1 != 0 then 2 else 0
    ensures acc & 1 == if acc & 1 != 0 then 1 else 0
  {
  }

  lemma MaskOfFive(acc: bv32)
    ensures acc & 31 == (acc & 16) | (acc & 8) | (acc & 4) | (acc & 2) | (acc & 1)
  {
  }

  /** The low five bits as a word. */
  function LowWord(acc: bv32): (word: bv32)
    ensures word == WordOf(LowFive(acc))
  {
    MaskedBits(acc);
    MaskOfFive(acc);
    acc & 31
  }

  function TakeWord(acc: bv32, bits: nat): bv32
    requires bits <= 7
  {
    LowWord(acc >> Amount(bits))
  }

  function LastWord(acc: bv32, bits: nat): bv32
    requires 0 < bits < 5
  {
    (acc << Amount(5 - bits)) & 31
  }

  method EightBitsToFiveBits(bytes: seq<bv8>) returns (out: seq<bv32>)
    ensures out == WordsOf(BitsOfBytes(bytes))
  {
    hide *;
    out := [];
    var acc: bv32 := 0;
    var bits := 0;
    NothingPending(acc, bytes);
    for k := 0 to |bytes|
      invariant bits <= 4
      invariant WordsOf(BitsOfBytes(bytes)) == out + WordsOf(Low(acc, bits) + BitsOfBytes(bytes[k..]))
    {
      ghost var rest := BitsOfBytes(bytes[k + 1..]);
      ByteMovesOver(acc, bytes, k, bits);
      acc := EnterByte(acc, bytes[k]);
      bits := bits + 8;
      while bits >= 5
        invariant bits <= 12
        invariant WordsOf(BitsOfBytes(bytes)) == out + WordsOf(Low(acc, bits) + rest)
      {
        bits := bits - 5;
        WordLeaves(acc, bits, rest);
        out := out + [TakeWord(acc, bits)];
      }
    }
    LastWordIsPadded(acc, bits, bytes);
    if bits > 0 {
      out := out + [LastWord(acc, bits)];
    }
  }

  lemma NothingPending(acc: bv32, bytes: seq<bv8>)
    ensures Low(acc, 0) + BitsOfBytes(bytes[0..]) == BitsOfBytes(bytes)
  {
    assert Low(acc, 0) == [];
    assert bytes[0..] == bytes;
  }

  lemma ByteMovesOver(acc: bv32, bytes: seq<bv8>, k: nat, bits: nat)
    requires k < |bytes| && bits <= 4
    ensures Low(acc, bits) + BitsOfBytes(bytes[k..]) == Low(EnterByte(acc, bytes[k]), bits + 8) + BitsOfBytes(bytes[k + 1..])
  {
    hide Low, BitsOfByte, EnterByte;
    ByteEnters(acc, bytes[k], bits);
    assert bytes[k..][1..] == bytes[k + 1..];
  }

  lemma ByteShiftsIn(acc: bv32, byte: bv32, next: bv32)
    requires byte < 0x100 && next == (acc << 8) | byte
    ensures Low13(next) == Low13(acc)[8..] + Low13(byte)[5..]
  {
    assert next & 0xff == byte;
    assert (next >> 8) & 0x1f == acc & 0x1f;
    HighFive(acc, next);
    LowEight(byte, next);
  }

  lemma HighFive(acc: bv32, next: bv32)
    requires (next >> 8) & 0x1f == acc & 0x1f
    ensures Low13(next)[..5] == Low13(acc)[8..]
  {
    assert (next >> 12) & 1 == (acc >> 4) & 1;
    assert (next >> 11) & 1 == (acc >> 3) & 1;
    assert (next >> 10) & 1 == (acc >> 2) & 1;
    assert (next >> 9) & 1 == (acc >> 1) & 1;
    assert (next >> 8) & 1 == acc & 1;
  }

  lemma LowEight(byte: bv32, next: bv32)
    requires next & 0xff == byte
    ensures Low13(next)[5..] == Low13(byte)[5..]
  {
    assert (next >> 7) & 1 == (byte >> 7) & 1;
    assert (next >> 6) & 1 == (byte >> 6) & 1;
    assert (next >> 5) & 1 == (byte >> 5) & 1;
    assert (next >> 4) & 1 == (byte >> 4) & 1;
    assert (next >> 3) & 1 == (byte >> 3) & 1;
    assert (next >> 2) & 1 == (byte >> 2) & 1;
    assert (next >> 1) & 1 == (byte >> 1) & 1;
    assert next & 1 == byte & 1;
  }

  lemma ByteIsSmall(byte: bv8)
    ensures (byte as bv32) < 0x100
  {
  }

  /** The bits still pending after a byte enters are those pending before it and its own, whatever stale bits lie above. */
  lemma ByteEnters(acc: bv32, byte: bv8, bits: nat)
    requires bits <= 4
    ensures Low(EnterByte(acc, byte), bits + 8) == Low(acc, bits) + BitsOfByte(byte)
  {
    hide Low13;
    ByteIsSmall(byte);
    ByteShiftsIn(acc, byte as bv32, EnterByte(acc, byte));
  }

  lemma ShiftByOne(acc: bv32)
    ensures Low13(acc >> 1)[1..] == Low13(acc)[..12]
  {
    assert (acc >> 1) >> 11 == acc >> 12;
    assert (acc >> 1) >> 10 == acc >> 11;
    assert (acc >> 1) >> 9 == acc >> 10;
    assert (acc >> 1) >> 8 == acc >> 9;
    assert (acc >> 1) >> 7 == acc >> 8;
    assert (acc >> 1) >> 6 == acc >> 7;
    assert (acc >> 1) >> 5 == acc >> 6;
    assert (acc >> 1) >> 4 == acc >> 5;
    assert (acc >> 1) >> 3 == acc >> 4;
    assert (acc >> 1) >> 2 == acc >> 3;
    assert (acc >> 1) >> 1 == acc >> 2;
  }

  lemma ShiftsCompose(acc: bv32, bits: nat)
    requires 0 < bits <= 7
    ensures TakeWord(acc >> 1, bits - 1) == TakeWord(acc, bits)
  {
    hide Amount;
    AmountCounts(bits);
    ShiftTwice(acc, Amount(bits - 1));
  }

  lemma ShiftTwice(acc: bv32, k: bv6)
    requires k < 7
    ensures (acc >> 1) >> k == acc >> (k + 1)
  {
  }

  lemma AmountCounts(bits: nat)
    requires 0 < bits <= 7
    ensures Amount(bits) == Amount(bits - 1) + 1 && Amount(bits - 1) < 7
  {
  }

  lemma LastFiveOfLow(acc: bv32)
    ensures Low13(acc)[8..] == LowFive(acc)
  {
  }

  lemma SliceOfSlices(s: seq<bool>, lo: nat, hi: nat)
    requires |s| == 13 && lo <= hi <= 12
    ensures s[1..][lo..hi] == s[lo + 1..hi + 1] && s[..12][lo..hi] == s[lo..hi]
  {
  }

  lemma {:induction false} WordIsItsBits(acc: bv32, bits: nat)
    requires bits <= 7
    ensures TakeWord(acc, bits) == WordOf(Low13(acc)[8 - bits..13 - bits])
  {
    hide Low13, WordOf;
    if bits == 0 {
      LastFiveOfLow(acc);
      assert acc >> 0 == acc;
      assert Low13(acc)[8..13] == Low13(acc)[8..];
    } else {
      hide TakeWord;
      ShiftByOne(acc);
      ShiftsCompose(acc, bits);
      WordIsItsBits(acc >> 1, bits - 1);
      SliceOfSlices(Low13(acc >> 1), 8 - bits, 13 - bits);
      SliceOfSlices(Low13(acc), 8 - bits, 13 - bits);
    }
  }

  lemma WordLeaves(acc: bv32, bits: nat, rest: seq<bool>)
    requires bits <= 7
    ensures WordsOf(Low(acc, bits + 5) + rest) == [TakeWord(acc, bits)] + WordsOf(Low(acc, bits) + rest)
  {
    hide WordOf, Low13, TakeWord;
    WordIsItsBits(acc, bits);
    var all := Low(acc, bits + 5) + rest;
    assert all[..5] == Low13(acc)[8 - bits..13 - bits];
    assert all[5..] == Low(acc, bits) + rest;
  }

  /** The bits left over, with zeros after them, are the last word's. */
  lemma PaddedBits(acc: bv32, bits: nat)
    requires 1 <= bits <= 4
    ensures bits == 1 ==> Low(acc, 1) + Falses(4) == [acc & 1 != 0, false, false, false, false]
    ensures bits == 2 ==> Low(acc, 2) + Falses(3) == [(acc >> 1) & 1 != 0, acc & 1 != 0, false, false, false]
    ensures bits == 3 ==> Low(acc, 3) + Falses(2) == [(acc >> 2) & 1 != 0, (acc >> 1) & 1 != 0, acc & 1 != 0, false, false]
    ensures bits == 4 ==> Low(acc, 4) + Falses(1) == [(acc >> 3) & 1 != 0, (acc >> 2) & 1 != 0, (acc >> 1) & 1 != 0, acc & 1 != 0, false]
  {
  }

  lemma PaddedWord(acc: bv32)
    ensures WordOf([acc & 1 != 0, false, false, false, false]) == (acc << 4) & 31
    ensures WordOf([(acc >> 1) & 1 != 0, acc & 1 != 0, false, false, false]) == (acc << 3) & 31
    ensures WordOf([(acc >> 2) & 1 != 0, (acc >> 1) & 1 != 0, acc & 1 != 0, false, false]) == (acc << 2) & 31
    ensures WordOf([(acc >> 3) & 1 != 0, (acc >> 2) & 1 != 0, (acc >> 1) & 1 != 0, acc & 1 != 0, false]) == (acc << 1) & 31
  {
  }

  lemma LastWordIsPadded(acc: bv32, bits: nat, bytes: seq<bv8>)
    requires bits <= 4
    ensures WordsOf(Low(acc, bits) + BitsOfBytes(bytes[|bytes|..])) == if bits > 0 then [LastWord(acc, bits)] else []
  {
    hide Low, WordOf;
    assert Low(acc, bits) + BitsOfBytes(bytes[|bytes|..]) == Low(acc, bits);
    if bits > 0 {
      PaddedBits(acc, bits);
      PaddedWord(acc);
    }
  }

  lemma WordKeepsBits(bits: seq<bool>)
    requires |bits| == 5
    ensures WordOf(bits) < 0x20 && Low(WordOf(bits), 5) == bits
  {
  }

  lemma ByteKeepsBits(byte: bv8)
    ensures ByteOf(BitsOfByte(byte)) == byte
  {
  }

  /** Every word is five bits wide, and the words hold exactly the given bits and fewer than five zero bits of padding. */
  lemma {:induction false} WordsKeepBits(bits: seq<bool>)
    ensures AreWords(WordsOf(bits))
    ensures BitsOfWords(WordsOf(bits)) == bits + Falses(5 * |WordsOf(bits)| - |bits|)
    ensures 5 * |WordsOf(bits)| - |bits| < 5
  {
    hide Low, WordOf;
    if |bits| == 0 {
      assert bits + Falses(0) == bits;
    } else if |bits| < 5 {
      WordKeepsBits(bits + Falses(5 - |bits|));
    } else {
      WordKeepsBits(bits[..5]);
      WordsKeepBits(bits[5..]);
      assert bits == bits[..5] + bits[5..];
    }
  }

  lemma {:induction false} BytesRegroup(bytes: seq<bv8>, pad: seq<bool>)
    requires |pad| < 8
    ensures BytesOf(BitsOfBytes(bytes) + pad) == bytes
  {
    hide BitsOfByte, ByteOf;
    if bytes != [] {
      var all := BitsOfBytes(bytes) + pad;
      BitsOfByteLength(bytes[0]);
      assert all[..8] == BitsOfByte(bytes[0]);
      assert all[8..] == BitsOfBytes(bytes[1..]) + pad;
      ByteKeepsBits(bytes[0]);
      BytesRegroup(bytes[1..], pad);
    }
  }

  lemma BitsOfByteLength(byte: bv8)
    ensures |BitsOfByte(byte)| == 8
  {
  }

  /** Regrouping a byte string's five-bit words into bytes gives the byte string back. */
  lemma RegroupingUndoesWords(bytes: seq<bv8>)
    ensures BytesOf(BitsOfWords(WordsOf(BitsOfBytes(bytes)))) == bytes
  {
    var bits := BitsOfBytes(bytes);
    WordsKeepBits(bits);
    BytesRegroup(bytes, Falses(5 * |WordsOf(bits)| - |bits|));
  }
}
