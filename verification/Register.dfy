/**
 The register of the bech32 checksum (BIP-173), over JavaScript's 32-bit integers as `bv32`: linear over GF(2), below 2^30,
 and losing nothing on a zero symbol.

 A word or symbol is a `bv32`: a number after the conversion every JavaScript bit operator applies.
 The signed and the unsigned reading of a word agree as long as its top two bits are clear, which is what
 `PolymodStaysBelowTwoTo30` says of every value the checksum loop computes.
 */
module Register {
  import opened Regroup

  const GENERATOR: seq<bv32> := [0x3b6a57b2, 0x26508e6d, 0x1ea119fa, 0x3d4233dd, 0x2a1462b3]

  // ---------------------------------------------------------------- the checksum register

  function Xor(a: bv32, b: bv32): bv32 {
    a ^ b
  }

  function Bit(a: bv32, i: nat): bool
    requires i < 32
  {
    (a >> i) & 1 != 0
  }

  function Tap(top: bv32, i: nat): bv32
    requires i < 5
  {
    if Bit(top, i) then GENERATOR[i] else 0
  }

  /** The generators picked by the low `n` bits of `top`, xored together. */
  function Taps(top: bv32, n: nat): bv32
    requires n <= 5
  {
    if n == 0 then 0 else Xor(Taps(top, n - 1), Tap(top, n - 1))
  }

  /** The register moved up by one symbol, before reduction. */
  function Shift(chk: bv32): bv32 {
    (chk & 0x1ffffff) << 5
  }

  function Top(chk: bv32): bv32 {
    chk >> 25
  }

  /** What one symbol does to the register. */
  function Step(chk: bv32, value: bv32): bv32 {
    Xor(Xor(Shift(chk), value), Taps(Top(chk), 5))
  }

  function Fold(chk: bv32, values: seq<bv32>): bv32 {
    if values == [] then chk else Step(Fold(chk, values[..|values| - 1]), values[|values| - 1])
  }

  function PolymodOf(values: seq<bv32>): bv32 {
    Fold(1, values)
  }

  method Polymod(values: seq<bv32>) returns (chk: bv32)
    ensures chk == PolymodOf(values)
  {
    hide Xor, Shift, Top, Bit;
    chk := 1;
    for k := 0 to |values|
      invariant chk == Fold(1, values[..k])
    {
      ghost var before := chk;
      var top := Top(chk);
      chk := Xor(Shift(chk), values[k]);
      ghost var shifted := chk;
      XorUnit(shifted);
      for i := 0 to 5
        invariant chk == Xor(shifted, Taps(top, i))
      {
        XorAssociates(shifted, Taps(top, i), GENERATOR[i]);
        XorUnit(Taps(top, i));
        if Bit(top, i) {
          chk := Xor(chk, GENERATOR[i]);
        }
      }
      assert values[..k + 1][..k] == values[..k];
    }
    assert values[..|values|] == values;
  }

  // ---------------------------------------------------------------- bit facts

  lemma XorUnit(a: bv32)
    ensures Xor(a, 0) == a && Xor(0, a) == a && Xor(a, a) == 0
  {
  }

  lemma XorAssociates(a: bv32, b: bv32, c: bv32)
    ensures Xor(Xor(a, b), c) == Xor(a, Xor(b, c))
  {
  }

  lemma XorCommutes(a: bv32, b: bv32)
    ensures Xor(a, b) == Xor(b, a)
  {
  }

  lemma XorSwaps(a: bv32, b: bv32, c: bv32)
    ensures Xor(Xor(a, b), c) == Xor(Xor(a, c), b)
  {
    hide Xor;
    XorAssociates(a, b, c);
    XorCommutes(b, c);
    XorAssociates(a, c, b);
  }

  lemma XorDiffers(a: bv32, b: bv32)
    ensures Xor(a, b) == 0 <==> a == b
  {
  }

  lemma LowBitOfXor(a: bv32, b: bv32)
    ensures (a ^ b) & 1 != 0 <==> (a & 1 != 0) != (b & 1 != 0)
  {
  }

  lemma BitOfXor(a: bv32, b: bv32, i: nat)
    requires i < 32
    ensures Bit(Xor(a, b), i) <==> Bit(a, i) != Bit(b, i)
  {
    assert (a ^ b) >> i == (a >> i) ^ (b >> i);
    LowBitOfXor(a >> i, b >> i);
  }

  lemma ShiftOfXor(a: bv32, b: bv32)
    ensures Top(Xor(a, b)) == Xor(Top(a), Top(b))
    ensures Shift(Xor(a, b)) == Xor(Shift(a), Shift(b))
  {
  }

  /** `Taps` written out, so that bit-level goals can be decided. */
  lemma TapsWrittenOut(top: bv32)
    ensures Taps(top, 5) ==
            (if top & 1 != 0 then 0x3b6a57b2 else 0) ^ (if (top >> 1) & 1 != 0 then 0x26508e6d else 0)
            ^ (if (top >> 2) & 1 != 0 then 0x1ea119fa else 0) ^ (if (top >> 3) & 1 != 0 then 0x3d4233dd else 0)
            ^ (if (top >> 4) & 1 != 0 then 0x2a1462b3 else 0)
  {
    assert top >> 0 == top;
    assert Taps(top, 1) == if top & 1 != 0 then 0x3b6a57b2 else 0;
    assert Taps(top, 2) == Taps(top, 1) ^ (if (top >> 1) & 1 != 0 then 0x26508e6d else 0);
    assert Taps(top, 3) == Taps(top, 2) ^ (if (top >> 2) & 1 != 0 then 0x1ea119fa else 0);
    assert Taps(top, 4) == Taps(top, 3) ^ (if (top >> 3) & 1 != 0 then 0x3d4233dd else 0);
  }

  // ---------------------------------------------------------------- linearity over GF(2)

  lemma {:induction false} TapsLinear(a: bv32, b: bv32, n: nat)
    requires n <= 5
    ensures Taps(Xor(a, b), n) == Xor(Taps(a, n), Taps(b, n))
  {
    hide Xor, Bit;
    XorUnit(0);
    if n > 0 {
      TapsLinear(a, b, n - 1);
      BitOfXor(a, b, n - 1);
      XorUnit(GENERATOR[n - 1]);
      XorAssociates(Xor(Taps(a, n - 1), Taps(b, n - 1)), Tap(a, n - 1), Tap(b, n - 1));
      XorSwaps(Taps(a, n - 1), Taps(b, n - 1), Tap(a, n - 1));
      XorAssociates(Xor(Taps(a, n - 1), Tap(a, n - 1)), Taps(b, n - 1), Tap(b, n - 1));
    }
  }

  /** One step of the register is linear over GF(2), in the register and the symbol together. */
  lemma StepLinear(a: bv32, b: bv32, u: bv32, v: bv32)
    ensures Step(Xor(a, b), Xor(u, v)) == Xor(Step(a, u), Step(b, v))
  {
    hide Xor, Taps, Shift, Top;
    ShiftOfXor(a, b);
    TapsLinear(Top(a), Top(b), 5);
    var x, y, s, t := Shift(a), Shift(b), Taps(Top(a), 5), Taps(Top(b), 5);
    XorAssociates(Xor(x, y), u, v);
    XorSwaps(x, y, u);
    XorAssociates(Xor(x, u), y, v);
    XorAssociates(Xor(Xor(x, u), Xor(y, v)), s, t);
    XorSwaps(Xor(x, u), Xor(y, v), s);
    XorAssociates(Xor(Xor(x, u), s), Xor(y, v), t);
  }

  function XorSeq(s: seq<bv32>, t: seq<bv32>): seq<bv32>
    requires |s| == |t|
  {
    seq(|s|, i requires 0 <= i < |s| => Xor(s[i], t[i]))
  }

  lemma {:induction false} FoldLinear(a: bv32, b: bv32, s: seq<bv32>, t: seq<bv32>)
    requires |s| == |t|
    ensures Fold(Xor(a, b), XorSeq(s, t)) == Xor(Fold(a, s), Fold(b, t))
  {
    hide Xor, Step;
    if s != [] {
      var n := |s| - 1;
      assert XorSeq(s, t)[..n] == XorSeq(s[..n], t[..n]);
      FoldLinear(a, b, s[..n], t[..n]);
      StepLinear(Fold(a, s[..n]), Fold(b, t[..n]), s[n], t[n]);
    }
  }

  lemma {:induction false} FoldAppends(chk: bv32, s: seq<bv32>, t: seq<bv32>)
    ensures Fold(chk, s + t) == Fold(Fold(chk, s), t)
  {
    hide Step;
    if t == [] {
      assert s + t == s;
    } else {
      var n := |t| - 1;
      assert (s + t)[..|s + t| - 1] == s + t[..n];
      FoldAppends(chk, s, t[..n]);
    }
  }

  // ---------------------------------------------------------------- range and injectivity of a step

  lemma StepStaysBelowTwoTo30(chk: bv32, value: bv32)
    requires value < 0x4000_0000
    ensures Step(chk, value) < 0x4000_0000
  {
    TapsWrittenOut(chk >> 25);
  }

  /** Every register value the loop computes has its two top bits clear, so signed and unsigned 32-bit readings agree. */
  lemma {:induction false} PolymodStaysBelowTwoTo30(values: seq<bv32>, k: nat)
    requires k <= |values|
    requires forall i :: 0 <= i < |values| ==> values[i] < 0x4000_0000
    ensures Fold(1, values[..k]) < 0x4000_0000
  {
    if k > 0 {
      assert values[..k][..k - 1] == values[..k - 1];
      StepStaysBelowTwoTo30(Fold(1, values[..k - 1]), values[k - 1]);
    }
  }

  /** The generators' low five bits are independent, so no nonzero 30-bit register steps to zero on a zero symbol. */
  lemma ZeroStepInjective(chk: bv32)
    requires chk < 0x4000_0000 && Step(chk, 0) == 0
    ensures chk == 0
  {
    TapsWrittenOut(chk >> 25);
  }

  function Zeros(n: nat): seq<bv32> {
    seq(n, i => 0)
  }

  lemma {:induction false} ZerosKeepDifference(chk: bv32, n: nat)
    requires chk < 0x4000_0000
    ensures Fold(chk, Zeros(n)) < 0x4000_0000
    ensures Fold(chk, Zeros(n)) == 0 <==> chk == 0
  {
    if n > 0 {
      assert Zeros(n)[..n - 1] == Zeros(n - 1);
      var before := Fold(chk, Zeros(n - 1));
      ZerosKeepDifference(chk, n - 1);
      StepStaysBelowTwoTo30(before, 0);
      if Step(before, 0) == 0 {
        ZeroStepInjective(before);
      }
      StepFromZero(0);
    }
  }

  lemma StepFromZero(value: bv32)
    ensures Step(0, value) == value
  {
    TapsWrittenOut(0);
  }

  /** 2^(5n), for the n symbols that fit in the register without reduction. */
  function Room(n: nat): bv32
    requires n <= 6
  {
    if n == 0 then 1 else if n == 1 then 0x20 else if n == 2 then 0x400 else if n == 3 then 0x8000
    else if n == 4 then 0x10_0000 else if n == 5 then 0x200_0000 else 0x4000_0000
  }

  function Push(chk: bv32, value: bv32): bv32 {
    (chk << 5) | value
  }

  /** A symbol that moves in without reduction: the register is shifted by five bits and the symbol takes the low five. */
  lemma StepWithoutReduction(chk: bv32, value: bv32)
    requires chk < 0x200_0000 && value < 0x20
    ensures Step(chk, value) == Push(chk, value)
  {
    hide Xor, Shift, Top, Push;
    TapsWrittenOut(0);
    WithoutReduction(chk, value);
  }

  lemma WithoutReduction(chk: bv32, value: bv32)
    requires chk < 0x200_0000 && value < 0x20
    ensures Top(chk) == 0
    ensures Xor(Xor(Shift(chk), value), 0) == Push(chk, value)
  {
  }

  ghost predicate AllZero(e: seq<bv32>) {
    forall i :: 0 <= i < |e| ==> e[i] == 0
  }

  lemma LastOf(e: seq<bv32>)
    requires AreWords(e) && e != []
    ensures AreWords(e[..|e| - 1]) && e[|e| - 1] < 0x20
    ensures AllZero(e) <==> AllZero(e[..|e| - 1]) && e[|e| - 1] == 0
    ensures Fold(0, e) == Step(Fold(0, e[..|e| - 1]), e[|e| - 1])
  {
    hide Step;
    assert e == e[..|e| - 1] + [e[|e| - 1]];
  }

  ghost predicate ShiftsIn(e: seq<bv32>)
    requires |e| <= 6
  {
    Fold(0, e) < Room(|e|) && (Fold(0, e) == 0 ==> AllZero(e))
  }

  lemma OneMoreShiftsIn(e: seq<bv32>)
    requires 0 < |e| <= 6 && AreWords(e) && ShiftsIn(e[..|e| - 1])
    ensures ShiftsIn(e)
  {
    hide Step, Push, Room, Fold, AllZero, AreWords;
    var n := |e| - 1;
    LastOf(e);
    ShiftedBelow(Fold(0, e[..n]), e[n], n);
    StepWithoutReduction(Fold(0, e[..n]), e[n]);
  }

  /** Up to six five-bit symbols shift in with no reduction, so they leave zero only if all of them are zero. */
  lemma {:induction false} SixSymbolsShiftIn(e: seq<bv32>)
    requires |e| <= 6 && AreWords(e)
    ensures ShiftsIn(e)
  {
    hide Step;
    if e != [] {
      hide Fold, ShiftsIn;
      SixSymbolsShiftIn(e[..|e| - 1]);
      OneMoreShiftsIn(e);
    }
  }

  lemma ShiftedBelow(chk: bv32, value: bv32, n: nat)
    requires n <= 5 && chk < Room(n) && value < 0x20
    ensures chk < 0x200_0000
    ensures Push(chk, value) < Room(n + 1)
    ensures Push(chk, value) == 0 ==> chk == 0 && value == 0
  {
  }
}
