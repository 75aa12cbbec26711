/**
 BIP-173's own account of its checksum: symbols are elements of the field of 32, the register is a polynomial of degree five over
 it, and one symbol multiplies that by x, adds the symbol, and reduces by the generator polynomial.
 */
module Field32 {
  import opened Register
  import opened Bip173
  import opened Bech32

  /** Twice an element, modulo x^5 + x^3 + 1. */
  function Twice(a: bv32): bv32 {
    if a & 16 != 0 then ((a << 1) ^ 41) & 31 else (a << 1) & 31
  }

  /** An element doubled as often as the place of a bit says. */
  function Multiple(bit: nat, a: bv32): bv32
    requires bit < 5
  {
    if bit == 0 then a else if bit == 1 then Twice(a) else if bit == 2 then Twice(Twice(a))
    else if bit == 3 then Twice(Twice(Twice(a))) else Twice(Twice(Twice(Twice(a))))
  }

  function Part(c: bv32, bit: nat, a: bv32): bv32
    requires bit < 5
  {
    if Bit(c, bit) then Multiple(bit, a) else 0
  }

  /** The product of two elements: the doublings of the one that the bits of the other call for. */
  function Times(a: bv32, c: bv32): bv32 {
    Xor(Xor(Xor(Xor(Part(c, 0, a), Part(c, 1, a)), Part(c, 2, a)), Part(c, 3, a)), Part(c, 4, a))
  }

  /** The coefficient of x^i. */
  function Coefficient(chk: bv32, i: nat): bv32
    requires i < 6
  {
    if i == 0 then chk & 31 else if i == 1 then (chk >> 5) & 31 else if i == 2 then (chk >> 10) & 31
    else if i == 3 then (chk >> 15) & 31 else if i == 4 then (chk >> 20) & 31 else (chk >> 25) & 31
  }

  /** The generator x^6 + 29x^5 + 22x^4 + 20x^3 + 21x^2 + 29x + 18, without its leading term. */
  const POLYNOMIAL: seq<bv32> := [18, 29, 21, 20, 22, 29]

  lemma LowOfXor(a: bv32, b: bv32)
    ensures (a ^ b) & 31 == (a & 31) ^ (b & 31)
  {
    hide *;
  }

  lemma Down5(a: bv32, b: bv32)
    ensures ((a ^ b) >> 5) & 31 == ((a >> 5) & 31) ^ ((b >> 5) & 31)
  {
    hide *;
  }

  lemma Down10(a: bv32, b: bv32)
    ensures ((a ^ b) >> 10) & 31 == ((a >> 10) & 31) ^ ((b >> 10) & 31)
  {
    hide *;
  }

  lemma Down15(a: bv32, b: bv32)
    ensures ((a ^ b) >> 15) & 31 == ((a >> 15) & 31) ^ ((b >> 15) & 31)
  {
    hide *;
  }

  lemma Down20(a: bv32, b: bv32)
    ensures ((a ^ b) >> 20) & 31 == ((a >> 20) & 31) ^ ((b >> 20) & 31)
  {
    hide *;
  }

  lemma Down25(a: bv32, b: bv32)
    ensures ((a ^ b) >> 25) & 31 == ((a >> 25) & 31) ^ ((b >> 25) & 31)
  {
    hide *;
  }

  lemma CoefficientOfXor(a: bv32, b: bv32, i: nat)
    requires i < 6
    ensures Coefficient(Xor(a, b), i) == Xor(Coefficient(a, i), Coefficient(b, i))
  {
    if i == 0 {
      LowOfXor(a, b);
    } else if i == 1 {
      Down5(a, b);
    } else if i == 2 {
      Down10(a, b);
    } else if i == 3 {
      Down15(a, b);
    } else if i == 4 {
      Down20(a, b);
    } else {
      Down25(a, b);
    }
  }

  lemma CoefficientOfShift(chk: bv32, i: nat)
    requires chk < 0x4000_0000 && i < 6
    ensures Coefficient(Shift(chk), i) == if i == 0 then 0 else Coefficient(chk, i - 1)
    ensures Top(chk) == Coefficient(chk, 5) && Top(chk) < 0x20
  {
  }

  lemma CoefficientOfSymbol(value: bv32, i: nat)
    requires value < 0x20 && i < 6
    ensures Coefficient(value, i) == if i == 0 then value else 0
  {
  }

  /** A tap that is open adds the multiple of the generator that its bit stands for. */
  lemma TapIsMultiple(top: bv32, bit: nat, i: nat)
    requires bit < 5 && i < 6
    ensures Coefficient(Tap(top, bit), i) == if Bit(top, bit) then Multiple(bit, POLYNOMIAL[i]) else 0
  {
    GeneratorIsMultiple(bit, i);
    hide Multiple;
    assert Coefficient(0, i) == 0;
  }

  lemma GeneratorIsMultiple(bit: nat, i: nat)
    requires bit < 5 && i < 6
    ensures Coefficient(GENERATOR[bit], i) == Multiple(bit, POLYNOMIAL[i])
  {
    if bit == 0 {
      MultiplesOf0(i);
    } else if bit == 1 {
      MultiplesOf1(i);
    } else if bit == 2 {
      MultiplesOf2(i);
    } else if bit == 3 {
      MultiplesOf3(i);
    } else {
      MultiplesOf4(i);
    }
    hide Coefficient, Multiple;
  }

  lemma MultiplesOf0(i: nat)
    requires i < 6
    ensures Coefficient(GENERATOR[0], i) == Multiple(0, POLYNOMIAL[i])
  {
  }

  lemma MultiplesOf1(i: nat)
    requires i < 6
    ensures Coefficient(GENERATOR[1], i) == Multiple(1, POLYNOMIAL[i])
  {
  }

  lemma MultiplesOf2(i: nat)
    requires i < 6
    ensures Coefficient(GENERATOR[2], i) == Multiple(2, POLYNOMIAL[i])
  {
  }

  lemma MultiplesOf3(i: nat)
    requires i < 6
    ensures Coefficient(GENERATOR[3], i) == Multiple(3, POLYNOMIAL[i])
  {
  }

  lemma MultiplesOf4(i: nat)
    requires i < 6
    ensures Coefficient(GENERATOR[4], i) == Multiple(4, POLYNOMIAL[i])
  {
  }

  lemma TapsAreProduct(c: bv32, i: nat)
    requires c < 0x20 && i < 6
    ensures Coefficient(Taps(c, 5), i) == Times(POLYNOMIAL[i], c)
  {
    hide Tap, Xor, Coefficient, Bit, Multiple;
    TapIsMultiple(c, 0, i);
    TapIsMultiple(c, 1, i);
    TapIsMultiple(c, 2, i);
    TapIsMultiple(c, 3, i);
    TapIsMultiple(c, 4, i);
    var t1, t2, t3, t4 := Taps(c, 1), Taps(c, 2), Taps(c, 3), Taps(c, 4);
    NoCoefficient(i);
    CoefficientOfXor(0, Tap(c, 0), i);
    CoefficientOfXor(t1, Tap(c, 1), i);
    CoefficientOfXor(t2, Tap(c, 2), i);
    CoefficientOfXor(t3, Tap(c, 3), i);
    CoefficientOfXor(t4, Tap(c, 4), i);
    assert t1 == Xor(Taps(c, 0), Tap(c, 0)) && Taps(c, 0) == 0;
    assert t2 == Xor(t1, Tap(c, 1)) && t3 == Xor(t2, Tap(c, 2)) && t4 == Xor(t3, Tap(c, 3)) && Taps(c, 5) == Xor(t4, Tap(c, 4));
    XorUnit(Part(c, 0, POLYNOMIAL[i]));
  }

  lemma NoCoefficient(i: nat)
    requires i < 6
    ensures Coefficient(0, i) == 0
  {
  }

  /** One symbol: the register is multiplied by x, the symbol added, and the term of degree six replaced by its multiple of the rest. */
  lemma StepReduces(chk: bv32, value: bv32, i: nat)
    requires chk < 0x4000_0000 && value < 0x20 && i < 6
    ensures Coefficient(Step(chk, value), i)
         == Xor(if i == 0 then value else Coefficient(chk, i - 1), Times(POLYNOMIAL[i], Coefficient(chk, 5)))
  {
    hide Taps, Times, Shift, Coefficient, Top, Xor;
    CoefficientOfShift(chk, i);
    CoefficientOfSymbol(value, i);
    TapsAreProduct(Top(chk), i);
    CoefficientOfXor(Xor(Shift(chk), value), Taps(Top(chk), 5), i);
    CoefficientOfXor(Shift(chk), value, i);
    XorUnit(if i == 0 then value else Coefficient(chk, i - 1));
  }

  /** The prefix goes in as the high bits of its characters, a zero, and their low five bits, each in order. */
  lemma PrefixGoesIn(hrp: string, i: nat)
    requires i < |hrp|
    ensures |HrpExpand(hrp)| == 2 * |hrp| + 1 && HrpExpand(hrp)[|hrp|] == 0
    ensures var high, low := HrpExpand(hrp)[i], HrpExpand(hrp)[|hrp| + 1 + i];
      low < 0x20 && high < 0x800_0000 && (high << 5) | low == hrp[i] as int as bv32
  {
    SplitsAtFive(CodePoint(hrp[i]));
    hide CodePoint;
    assert HrpExpand(hrp)[i] == HighBits(hrp[i]) && HrpExpand(hrp)[|hrp| + 1 + i] == LowBits(hrp[i]);
  }

  lemma SplitsAtFive(a: bv32)
    ensures a & 31 < 0x20 && a >> 5 < 0x800_0000 && ((a >> 5) << 5) | (a & 31) == a
  {
  }
}
