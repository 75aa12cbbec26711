/** The bech32 checksum (BIP-173, constant 1): which texts verify, and that a burst of up to six changed symbols never does. */
module Bip173 {
  import opened Regroup
  import opened Register

  const BECH32_CONST: bv32 := 1

  // ---------------------------------------------------------------- error detection at any length

  /** `s` and `t` differ, and only inside the six positions from `at`, where both hold five-bit symbols. */
  ghost predicate DifferInWindow(s: seq<bv32>, t: seq<bv32>, at: nat) {
    && |s| == |t| && at <= |s| && s != t
    && (forall k :: 0 <= k < |s| && !(at <= k < at + 6) ==> s[k] == t[k])
    && (forall k :: at <= k < at + 6 && k < |s| ==> s[k] < 0x20 && t[k] < 0x20)
  }

  /** The difference of two such sequences: zeros, at most six small symbols that are not all zero, zeros. */
  lemma WindowDifference(s: seq<bv32>, t: seq<bv32>, at: nat) returns (e: seq<bv32>, rest: nat)
    requires DifferInWindow(s, t, at)
    ensures XorSeq(s, t) == Zeros(at) + e + Zeros(rest)
    ensures |e| <= 6 && AreWords(e) && exists i :: 0 <= i < |e| && e[i] != 0
  {
    hide Xor, AreWords;
    var d := XorSeq(s, t);
    var end := if at + 6 < |s| then at + 6 else |s|;
    e, rest := d[at..end], |s| - end;
    forall k | 0 <= k < |d|
      ensures d[k] == 0 <==> s[k] == t[k]
    {
      XorDiffers(s[k], t[k]);
    }
    WindowIsSmall(s, t, at, end);
    var k :| 0 <= k < |s| && s[k] != t[k];
    assert e[k - at] == d[k];
  }

  lemma WindowIsSmall(s: seq<bv32>, t: seq<bv32>, at: nat, end: nat)
    requires |s| == |t| && at <= end <= |s|
    requires forall k :: at <= k < end ==> s[k] < 0x20 && t[k] < 0x20
    ensures AreWords(XorSeq(s, t)[at..end])
  {
    hide Xor;
    forall k | 0 <= k < end - at
      ensures XorSeq(s, t)[at..end][k] < 0x20
    {
      XorSmall(s[at + k], t[at + k]);
    }
  }

  lemma RoomIsSmall(n: nat)
    requires n <= 6
    ensures Room(n) <= 0x4000_0000
  {
  }

  lemma WindowShowsInRegister(e: seq<bv32>, at: nat, rest: nat)
    requires |e| <= 6 && AreWords(e) && exists i :: 0 <= i < |e| && e[i] != 0
    ensures Fold(0, Zeros(at) + e + Zeros(rest)) != 0
  {
    hide Step, Fold, Room, AreWords, Zeros;
    ZerosKeepDifference(0, at);
    FoldAppends(0, Zeros(at) + e, Zeros(rest));
    FoldAppends(0, Zeros(at), e);
    SixSymbolsShiftIn(e);
    RoomIsSmall(|e|);
    ZerosKeepDifference(Fold(0, e), rest);
  }

  /** Whatever their length, two sequences that differ only inside a window of six symbols have different checksums. */
  lemma BurstChangesPolymod(s: seq<bv32>, t: seq<bv32>, at: nat)
    requires DifferInWindow(s, t, at)
    ensures PolymodOf(s) != PolymodOf(t)
  {
    hide Xor, Step;
    var e, rest := WindowDifference(s, t, at);
    WindowShowsInRegister(e, at, rest);
    FoldLinear(1, 1, s, t);
    XorUnit(1);
    XorDiffers(PolymodOf(s), PolymodOf(t));
  }

  lemma XorSmall(a: bv32, b: bv32)
    requires a < 0x20 && b < 0x20
    ensures Xor(a, b) < 0x20
  {
  }

  // ---------------------------------------------------------------- the checksum verifies

  function CodePoint(c: char): bv32 {
    c as int as bv32
  }

  function HighBits(c: char): bv32 {
    CodePoint(c) >> 5
  }

  function LowBits(c: char): bv32 {
    CodePoint(c) & 31
  }

  function HrpExpand(hrp: string): seq<bv32> {
    seq(|hrp|, i requires 0 <= i < |hrp| => HighBits(hrp[i]))
    + [0]
    + seq(|hrp|, i requires 0 <= i < |hrp| => LowBits(hrp[i]))
  }

  /** Every symbol of an expanded prefix, whatever its characters, is far below 2^30. */
  lemma HrpSymbolsAreSmall(hrp: string, i: nat)
    requires i < |HrpExpand(hrp)|
    ensures HrpExpand(hrp)[i] < 0x4000_0000
  {
    if i < |hrp| {
      ShiftIsSmall(CodePoint(hrp[i]));
    } else if i > |hrp| {
      MaskIsSmall(CodePoint(hrp[i - |hrp| - 1]));
    }
  }

  lemma ShiftIsSmall(a: bv32)
    ensures a >> 5 < 0x4000_0000
  {
  }

  lemma MaskIsSmall(a: bv32)
    ensures a & 31 < 0x20
  {
  }

  /** The shift `5 * (5 - i)` of the i-th group, as a shift amount. */
  function Offset(i: nat): (shift: bv6)
    requires i < 6
    ensures shift as int == 5 * (5 - i)
  {
    if i == 0 then 25 else if i == 1 then 20 else if i == 2 then 15 else if i == 3 then 10 else if i == 4 then 5 else 0
  }

  function Group(mod: bv32, i: nat): bv32
    requires i < 6
  {
    (mod >> Offset(i)) & 31
  }

  /** The six five-bit groups of a 30-bit value, most significant first. */
  function Groups(mod: bv32): seq<bv32> {
    [Group(mod, 0), Group(mod, 1), Group(mod, 2), Group(mod, 3), Group(mod, 4), Group(mod, 5)]
  }

  function ChecksumOf(hrp: string, data: seq<bv32>): (sum: seq<bv32>)
    ensures |sum| == 6 && AreWords(sum)
  {
    hide Group, AreWords, PolymodOf, Xor;
    var mod := Xor(PolymodOf(HrpExpand(hrp) + data + Zeros(6)), BECH32_CONST);
    GroupsAreSmall(mod);
    Groups(mod)
  }

  method CreateChecksum(hrp: string, data: seq<bv32>) returns (checksum: seq<bv32>)
    ensures checksum == ChecksumOf(hrp, data)
  {
    hide Xor, Group;
    var values := HrpExpand(hrp) + data + Zeros(6);
    var polymod := Polymod(values);
    var mod := Xor(polymod, BECH32_CONST);
    checksum := [];
    for i := 0 to 6
      invariant checksum == Groups(mod)[..i]
    {
      GroupsGrow(mod, i);
      checksum := checksum + [Group(mod, i)];
    }
  }

  lemma GroupsGrow(mod: bv32, i: nat)
    requires i < 6
    ensures Groups(mod)[..i + 1] == Groups(mod)[..i] + [Group(mod, i)]
  {
    hide Group;
  }

  lemma GroupIsSmall(mod: bv32, i: nat)
    requires i < 6
    ensures Group(mod, i) < 0x20
  {
    MaskIsSmall(mod >> Offset(i));
  }

  lemma GroupsAreSmall(mod: bv32)
    ensures AreWords(Groups(mod))
  {
    hide Group;
    forall i | 0 <= i < 6
      ensures Groups(mod)[i] < 0x20
    {
      GroupIsSmall(mod, i);
      assert Groups(mod)[i] == Group(mod, i);
    }
  }

  lemma PushesRebuild(mod: bv32, g0: bv32, g1: bv32, g2: bv32, g3: bv32, g4: bv32, g5: bv32)
    requires mod < 0x4000_0000
    requires g0 == (mod >> 25) & 31 && g1 == (mod >> 20) & 31 && g2 == (mod >> 15) & 31
    requires g3 == (mod >> 10) & 31 && g4 == (mod >> 5) & 31 && g5 == mod & 31
    ensures Push(Push(Push(Push(Push(g0, g1), g2), g3), g4), g5) == mod
    ensures Push(Push(Push(Push(g0, g1), g2), g3), g4) < 0x200_0000
    ensures Push(Push(Push(g0, g1), g2), g3) < 0x200_0000
    ensures Push(Push(g0, g1), g2) < 0x200_0000
    ensures Push(g0, g1) < 0x200_0000
  {
  }

  lemma GroupWrittenOut(mod: bv32, i: nat)
    requires i < 6
    ensures i == 0 ==> Group(mod, i) == (mod >> 25) & 31
    ensures i == 1 ==> Group(mod, i) == (mod >> 20) & 31
    ensures i == 2 ==> Group(mod, i) == (mod >> 15) & 31
    ensures i == 3 ==> Group(mod, i) == (mod >> 10) & 31
    ensures i == 4 ==> Group(mod, i) == (mod >> 5) & 31
    ensures i == 5 ==> Group(mod, i) == mod & 31
  {
  }

  /** Shifting the six groups of a 30-bit value into an empty register rebuilds the value. */
  lemma GroupsRebuild(mod: bv32)
    requires mod < 0x4000_0000
    ensures Fold(0, Groups(mod)) == mod
  {
    hide Group, Push, Step;
    GroupsAreSmall(mod);
    var g := Groups(mod);
    GroupWrittenOut(mod, 0);
    GroupWrittenOut(mod, 1);
    GroupWrittenOut(mod, 2);
    GroupWrittenOut(mod, 3);
    GroupWrittenOut(mod, 4);
    GroupWrittenOut(mod, 5);
    PushesRebuild(mod, g[0], g[1], g[2], g[3], g[4], g[5]);
    var c2 := Push(g[0], g[1]);
    var c3 := Push(c2, g[2]);
    var c4 := Push(c3, g[3]);
    StepFromZero(g[0]);
    StepWithoutReduction(g[0], g[1]);
    StepWithoutReduction(c2, g[2]);
    StepWithoutReduction(c3, g[3]);
    StepWithoutReduction(c4, g[4]);
    StepWithoutReduction(Push(c4, g[4]), g[5]);
    FoldTake(g, 1);
    FoldTake(g, 2);
    FoldTake(g, 3);
    FoldTake(g, 4);
    FoldTake(g, 5);
    FoldTake(g, 6);
    assert g[..6] == g;
  }

  lemma FoldTake(s: seq<bv32>, n: nat)
    requires 0 < n <= |s|
    ensures Fold(0, s[..n]) == Step(Fold(0, s[..n - 1]), s[n - 1])
  {
    assert s[..n][..n - 1] == s[..n - 1];
  }

  /** The checksum relation a bech32 reader tests. */
  ghost predicate Verifies(hrp: string, words: seq<bv32>) {
    PolymodOf(HrpExpand(hrp) + words) == BECH32_CONST
  }

  /** Data followed by its checksum verifies, for every prefix and every data. */
  lemma ChecksumVerifies(hrp: string, data: seq<bv32>)
    ensures Verifies(hrp, data + ChecksumOf(hrp, data))
  {
    hide Step, Groups, AreWords, HrpExpand;
    var body := HrpExpand(hrp) + data;
    var sum := ChecksumOf(hrp, data);
    var register := PolymodOf(body);
    var mod := Xor(PolymodOf(body + Zeros(6)), BECH32_CONST);
    FoldAppends(1, body, Zeros(6));
    assert Zeros(6)[..5] == Zeros(5);
    StepStaysBelowTwoTo30(Fold(register, Zeros(5)), 0);
    assert mod < 0x4000_0000;
    GroupsRebuild(mod);
    assert HrpExpand(hrp) + (data + sum) == body + sum;
    FoldAppends(1, body, sum);
    assert XorSeq(Zeros(6), sum) == sum by {
      forall i | 0 <= i < 6
        ensures XorSeq(Zeros(6), sum)[i] == sum[i]
      {
        XorUnit(sum[i]);
      }
    }
    XorUnit(register);
    FoldLinear(register, 0, Zeros(6), sum);
    var zeroed := Fold(register, Zeros(6));
    XorAssociates(zeroed, zeroed, 1);
    XorUnit(zeroed);
    XorUnit(1);
  }

  /** The checksum is the only six words that verify after the data. */
  lemma ChecksumIsUnique(hrp: string, data: seq<bv32>, sum: seq<bv32>)
    requires |sum| == 6 && AreWords(sum)
    ensures Verifies(hrp, data + sum) <==> sum == ChecksumOf(hrp, data)
  {
    hide ChecksumOf, PolymodOf, HrpExpand;
    var expected := ChecksumOf(hrp, data);
    ChecksumVerifies(hrp, data);
    if sum != expected {
      var s := HrpExpand(hrp) + (data + sum);
      var t := HrpExpand(hrp) + (data + expected);
      var at := |HrpExpand(hrp)| + |data|;
      assert sum == s[at..] && expected == t[at..];
      assert DifferInWindow(s, t, at);
      BurstChangesPolymod(s, t, at);
    }
  }

  /** No corruption of valid words confined to six neighbouring words verifies, at any length. */
  lemma CorruptionIsDetected(hrp: string, words: seq<bv32>, corrupted: seq<bv32>, at: nat)
    requires Verifies(hrp, words) && DifferInWindow(words, corrupted, at)
    ensures !Verifies(hrp, corrupted)
  {
    var prefix := HrpExpand(hrp);
    var s, t := prefix + words, prefix + corrupted;
    assert words == s[|prefix|..] && corrupted == t[|prefix|..];
    assert DifferInWindow(s, t, |prefix| + at);
    BurstChangesPolymod(s, t, |prefix| + at);
  }
}
