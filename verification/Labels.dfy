/** A name as one host label: each `-` doubled, each `.` made a `-`, and back. */
module Labels {
  import opened Results
  import opened Text

  predicate IsDnsLabel(coded: string) {
    && 1 <= |coded| <= 63
    && (forall i :: 0 <= i < |coded| ==> IsLowerAlnum(coded[i]) || coded[i] == '-')
    && coded[0] != '-' && coded[|coded| - 1] != '-'
  }

  function Hyphenated(name: string): string {
    if name == "" then ""
    else (if name[0] == '-' then "--" else if name[0] == '.' then "-" else [name[0]]) + Hyphenated(name[1..])
  }

  /** Undoes the hyphens from the left, a pair before a single one. */
  function NameFromLabel(coded: string): string {
    if coded == "" then ""
    else if |coded| >= 2 && coded[0] == '-' && coded[1] == '-' then "-" + NameFromLabel(coded[2..])
    else (if coded[0] == '-' then "." else [coded[0]]) + NameFromLabel(coded[1..])
  }

  function LabelFor(name: string): Option<string> {
    var coded := Hyphenated(name);
    if IsDnsLabel(coded) && !StartsWith(coded, "xn--") && NameFromLabel(coded) == name then Some(coded) else None
  }

  /** No dot is directly followed by a dot or a hyphen. */
  predicate DotsStandApart(name: string) {
    forall i :: 0 <= i < |name| - 1 && name[i] == '.' ==> name[i + 1] != '.' && name[i + 1] != '-'
  }

  lemma HyphenatedStarts(name: string)
    ensures Hyphenated(name) == "" <==> name == ""
    ensures name != "" ==> (Hyphenated(name)[0] == '-' <==> name[0] == '-' || name[0] == '.')
  {
  }

  /** Decoding undoes the coding exactly for the names whose dots stand apart. */
  lemma {:induction false} DecodesBackIffDotsStandApart(name: string)
    ensures NameFromLabel(Hyphenated(name)) == name <==> DotsStandApart(name)
  {
    if name != "" {
      var rest := name[1..];
      DecodesBackIffDotsStandApart(rest);
      HyphenatedStarts(rest);
      assert DotsStandApart(name) <==> DotsStandApart(rest) && (rest != "" && name[0] == '.' ==> rest[0] != '.' && rest[0] != '-') by {
        assert forall i :: 0 <= i < |rest| ==> rest[i] == name[i + 1];
        if DotsStandApart(rest) && (rest != "" && name[0] == '.' ==> rest[0] != '.' && rest[0] != '-') {
          forall i | 0 <= i < |name| - 1 && name[i] == '.'
            ensures name[i + 1] != '.' && name[i + 1] != '-'
          {
            if i > 0 { assert rest[i - 1] == '.'; }
          }
        }
      }
      var coded := Hyphenated(name);
      if name[0] == '-' {
        assert coded[2..] == Hyphenated(rest);
        assert NameFromLabel(coded) == "-" + NameFromLabel(Hyphenated(rest));
        assert name == "-" + rest;
      } else if name[0] == '.' && rest != "" && (rest[0] == '.' || rest[0] == '-') {
        assert coded[1] == '-';
        assert NameFromLabel(coded)[0] == '-';
      } else {
        assert coded[1..] == Hyphenated(rest);
        assert NameFromLabel(coded) == [name[0]] + NameFromLabel(Hyphenated(rest));
        assert name == [name[0]] + rest;
      }
    }
  }

  /** Coding undoes the decoding, for every label: a run of n hyphens is n/2 hyphens and then n mod 2 dots. */
  lemma {:induction false} CodesBack(coded: string)
    requires '.' !in coded
    ensures Hyphenated(NameFromLabel(coded)) == coded
  {
    if coded == "" {
    } else if |coded| >= 2 && coded[0] == '-' && coded[1] == '-' {
      CodesBack(coded[2..]);
      var rest := NameFromLabel(coded[2..]);
      assert ("-" + rest)[1..] == rest;
      assert coded == "--" + coded[2..];
    } else {
      CodesBack(coded[1..]);
      var rest, first := NameFromLabel(coded[1..]), if coded[0] == '-' then '.' else coded[0];
      assert ([first] + rest)[1..] == rest;
      assert coded[0] in coded;
      assert coded == [coded[0]] + coded[1..];
    }
  }

  /** The names that have a label: exactly those whose dots stand apart and whose coded form may be a host label. */
  lemma LabelForIsExact(name: string)
    ensures LabelFor(name).Some? <==> DotsStandApart(name) && IsDnsLabel(Hyphenated(name)) && !StartsWith(Hyphenated(name), "xn--")
    ensures LabelFor(name).Some? ==> NameFromLabel(LabelFor(name).value) == name && IsDnsLabel(LabelFor(name).value)
  {
    DecodesBackIffDotsStandApart(name);
  }

  predicate IsCoded(c: char) {
    IsLowerAlnum(c) || c == '-'
  }

  predicate AreCoded(s: string) {
    forall i :: 0 <= i < |s| ==> IsCoded(s[i])
  }

  predicate AreOfNames(s: string) {
    forall i :: 0 <= i < |s| ==> IsCoded(s[i]) || s[i] == '.'
  }

  function Last(s: string): char
    requires s != ""
  {
    s[|s| - 1]
  }

  lemma CodedPartsAreCoded(a: string, b: string)
    ensures AreCoded(a + b) <==> AreCoded(a) && AreCoded(b)
  {
    assert forall i :: 0 <= i < |a| ==> (a + b)[i] == a[i];
    assert forall i :: 0 <= i < |b| ==> b[i] == (a + b)[|a| + i];
    if AreCoded(a + b) {
      forall i | 0 <= i < |b|
        ensures IsCoded(b[i])
      {
        assert IsCoded((a + b)[|a| + i]);
      }
    }
  }

  lemma OneThenOthers(name: string)
    requires name != ""
    ensures AreOfNames(name) <==> (IsCoded(name[0]) || name[0] == '.') && AreOfNames(name[1..])
    ensures multiset(name)['-'] == (if name[0] == '-' then 1 else 0) + multiset(name[1..])['-']
  {
    assert name == [name[0]] + name[1..];
    if AreOfNames(name) {
      forall i | 0 <= i < |name| - 1
        ensures IsCoded(name[1..][i]) || name[1..][i] == '.'
      {
        assert name[1..][i] == name[i + 1];
      }
    }
    if (IsCoded(name[0]) || name[0] == '.') && AreOfNames(name[1..]) {
      forall i | 0 <= i < |name|
        ensures IsCoded(name[i]) || name[i] == '.'
      {
        assert i > 0 ==> name[i] == name[1..][i - 1];
      }
    }
  }

  /** The coded form of a name, as far as a label's rules ask: its length, its characters and its last. */
  lemma {:induction false} CodedFormIs(name: string)
    ensures |Hyphenated(name)| == |name| + multiset(name)['-']
    ensures AreCoded(Hyphenated(name)) <==> AreOfNames(name)
    ensures name != "" ==> Hyphenated(name) != "" && (Last(Hyphenated(name)) == '-' <==> Last(name) == '-' || Last(name) == '.')
  {
    hide *;
    if name == "" {
      FirstIsCoded('-');
      CodedIsEmpty();
    } else {
      var rest, first := name[1..], Coded(name[0]);
      CodedFormIs(rest);
      OneThenOthers(name);
      CodedIsFirstThenRest(name);
      CodedPartsAreCoded(first, Hyphenated(rest));
      FirstIsCoded(name[0]);
      LastIsLast(name[0], rest);
      LastOfParts(first, Hyphenated(rest));
      assert name == [name[0]] + rest;
    }
  }

  function Coded(c: char): string {
    if c == '-' then "--" else if c == '.' then "-" else [c]
  }

  lemma CodedIsEmpty()
    ensures Hyphenated("") == ""
  {
  }

  lemma CodedIsFirstThenRest(name: string)
    requires name != ""
    ensures Hyphenated(name) == Coded(name[0]) + Hyphenated(name[1..])
  {
  }

  lemma LastOfParts(a: string, b: string)
    requires a != ""
    ensures a + b != "" && Last(a + b) == if b == "" then Last(a) else Last(b)
  {
  }

  lemma LastIsLast(first: char, rest: string)
    ensures Last([first] + rest) == if rest == "" then first else Last(rest)
  {
  }

  lemma FirstIsCoded(c: char)
    ensures AreCoded("") && AreOfNames("") && (AreCoded(Coded(c)) <==> IsCoded(c) || c == '.')
    ensures Coded(c) != "" && |Coded(c)| == (if c == '-' then 2 else 1) && (Last(Coded(c)) == '-' <==> c == '-' || c == '.')
  {
    assert AreCoded([c]) ==> IsCoded([c][0]);
  }

  lemma PunycodeOnlyFromItsStart(name: string)
    requires DotsStandApart(name)
    ensures StartsWith(Hyphenated(name), "xn--") <==> |name| >= 3 && name[0] == 'x' && name[1] == 'n' && name[2] == '-'
  {
    hide Hyphenated, StartsWith;
    if |name| >= 2 && name[0] == 'x' && name[1] == 'n' {
      var rest := name[2..];
      assert name[1..][1..] == rest;
      CodedIsFirstThenRest(name);
      CodedIsFirstThenRest(name[1..]);
      assert "x" + ("n" + Hyphenated(rest)) == "xn" + Hyphenated(rest);
      StartsWithTwoHyphens(rest);
      XnFirst(Hyphenated(rest));
    } else {
      NotXn(name);
    }
  }

  lemma XnFirst(s: string)
    ensures StartsWith("xn" + s, "xn--") <==> StartsWith(s, "--")
  {
    var all := "xn" + s;
    if |s| >= 2 {
      assert all[2] == s[0] && all[3] == s[1];
      assert all[..4] == "xn" + s[..2];
      assert "xn--"[2] == '-' && "xn--"[3] == '-';
      assert s[..2] == [s[0], s[1]];
      assert s[0] == s[1] == '-' ==> all[..4] == "xn--";
      assert all[..4] == "xn--" ==> all[..4][2] == '-' && all[..4][3] == '-';
    }
  }

  lemma FirstCharacterStays(name: string, c: char)
    requires name != "" && c != '-' && Hyphenated(name)[0] == c
    ensures name[0] == c && Hyphenated(name)[1..] == Hyphenated(name[1..])
  {
  }

  lemma NotXn(name: string)
    requires !(|name| >= 2 && name[0] == 'x' && name[1] == 'n')
    ensures !StartsWith(Hyphenated(name), "xn--")
  {
    var coded := Hyphenated(name);
    if StartsWith(coded, "xn--") {
      hide Hyphenated;
      assert coded[..4] == "xn--";
      assert coded[0] == coded[..4][0] == 'x' && coded[1] == coded[..4][1] == 'n';
      HyphenatedStarts(name);
      FirstCharacterStays(name, 'x');
      HyphenatedStarts(name[1..]);
      assert coded[1..][0] == 'n';
      FirstCharacterStays(name[1..], 'n');
      assert false;
    }
  }

  /** A coded form begins with two hyphens where its name begins with one, or with a dot and another mark. */
  lemma StartsWithTwoHyphens(rest: string)
    requires |rest| >= 2 && rest[0] == '.' ==> rest[1] != '.' && rest[1] != '-'
    ensures StartsWith(Hyphenated(rest), "--") <==> rest != "" && rest[0] == '-'
  {
    if rest != "" {
      HyphenatedStarts(rest[1..]);
      var coded := Hyphenated(rest);
      assert StartsWith(coded, "--") ==> coded[0] == coded[..2][0] == '-' && coded[1] == coded[..2][1] == '-';
      if rest[0] == '.' {
        assert coded[1..] == Hyphenated(rest[1..]);
      }
    }
  }

  /**
   Which names have a label, said of the name alone: at most 63 characters with each hyphen counted twice, of lower-case letters,
   digits, `-` and `.`, beginning and ending in neither of the two, no dot before a dot or a hyphen, and not starting `xn-`.
   */
  lemma NamesWithALabelAre(name: string)
    ensures LabelFor(name).Some? <==>
            && 1 <= |name| + multiset(name)['-'] <= 63
            && (forall i :: 0 <= i < |name| ==> 'a' <= name[i] <= 'z' || '0' <= name[i] <= '9' || name[i] == '-' || name[i] == '.')
            && name[0] != '-' && name[0] != '.' && name[|name| - 1] != '-' && name[|name| - 1] != '.'
            && (forall i :: 0 <= i < |name| - 1 && name[i] == '.' ==> name[i + 1] != '.' && name[i + 1] != '-')
            && !(|name| >= 3 && name[0] == 'x' && name[1] == 'n' && name[2] == '-')
  {
    hide Hyphenated, NameFromLabel, StartsWith;
    CodedFormIs(name);
    HyphenatedStarts(name);
    LabelForIsExact(name);
    assert AreOfNames(name) <==> forall i :: 0 <= i < |name| ==> 'a' <= name[i] <= 'z' || '0' <= name[i] <= '9' || name[i] == '-' || name[i] == '.';
    LabelsRules(Hyphenated(name));
    if DotsStandApart(name) {
      PunycodeOnlyFromItsStart(name);
    }
  }

  lemma LabelsRules(coded: string)
    ensures IsDnsLabel(coded) <==> 1 <= |coded| <= 63 && AreCoded(coded) && coded[0] != '-' && Last(coded) != '-'
  {
  }

  lemma NamesNeverShareALabel(a: string, b: string)
    requires LabelFor(a).Some? && LabelFor(a) == LabelFor(b)
    ensures a == b
  {
    LabelForIsExact(a);
    LabelForIsExact(b);
  }

  /** Every host label but a punycode one is the label of one name, the one it decodes to. */
  lemma LabelsAreOfTheirNames(coded: string)
    requires IsDnsLabel(coded) && !StartsWith(coded, "xn--")
    ensures LabelFor(NameFromLabel(coded)) == Some(coded)
  {
    assert '.' !in coded;
    CodesBack(coded);
  }
}
