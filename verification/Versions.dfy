/** The order of version strings that the floor of an app goes by: semantic versions, and `None` where two cannot be ordered. */
module Versions {
  import opened Results
  import opened Text

  /** The numbers of a release, and the identifiers of a prerelease, none for a release itself. */
  datatype Parsed = Parsed(release: seq<nat>, prerelease: seq<string>)

  const MOST_DIGITS := 9

  predicate IsNumeric(s: string) {
    1 <= |s| <= MOST_DIGITS && IsDigits(s)
  }

  predicate IsIdentifier(s: string) {
    s != "" && forall i :: 0 <= i < |s| ==> '0' <= s[i] <= '9' || 'a' <= s[i] <= 'z' || 'A' <= s[i] <= 'Z' || s[i] == '-'
  }

  function ValueOf(s: string): nat
    requires IsNumeric(s)
  {
    Number(0, s)
  }

  function ReleaseOf(parts: seq<string>): Option<seq<nat>> {
    if parts == [] then Some([])
    else if !IsNumeric(parts[0]) || ReleaseOf(parts[1..]).None? then None
    else Some([ValueOf(parts[0])] + ReleaseOf(parts[1..]).value)
  }

  /** Build metadata, from the first `+`, is dropped; the prerelease begins at the first `-`. */
  function ParseVersion(raw: string): Option<Parsed> {
    var core := Before(Trim(raw), {'+'});
    var release, rest := ReleaseOf(Split(Before(core, {'-'}), '.')), From(core, {'-'});
    if Trim(raw) == "" || release.None? then None
    else if rest == "" then Some(Parsed(release.value, []))
    else
      var prerelease := Split(rest[1..], '.');
      if exists i :: 0 <= i < |prerelease| && !IsIdentifier(prerelease[i]) then None else Some(Parsed(release.value, prerelease))
  }

  function Sign(n: int): int {
    if n < 0 then -1 else if n > 0 then 1 else 0
  }

  /** Missing numbers at the end are zero. */
  function CompareRelease(a: seq<nat>, b: seq<nat>): int
    decreases |a| + |b|
  {
    if a == [] && b == [] then 0
    else
      var left: int, right: int := if a == [] then 0 else a[0], if b == [] then 0 else b[0];
      var first := Sign(left - right);
      if first != 0 then first else CompareRelease(if a == [] then a else a[1..], if b == [] then b else b[1..])
  }

  function CompareText(a: string, b: string): int {
    if a == "" || b == "" then Sign(|a| - |b|)
    else if a[0] != b[0] then Sign(a[0] as int - b[0] as int)
    else CompareText(a[1..], b[1..])
  }

  /** Numbers below the rest. */
  function CompareIdentifier(a: string, b: string): int {
    if IsNumeric(a) && IsNumeric(b) then Sign(ValueOf(a) - ValueOf(b))
    else if IsNumeric(a) then -1
    else if IsNumeric(b) then 1
    else CompareText(a, b)
  }

  /** A shorter list below one that goes on from it. */
  function CompareIdentifiers(a: seq<string>, b: seq<string>): int {
    if a == [] || b == [] then Sign(|a| - |b|)
    else
      var first := CompareIdentifier(a[0], b[0]);
      if first != 0 then first else CompareIdentifiers(a[1..], b[1..])
  }

  /** A prerelease below its release. */
  function ComparePrerelease(a: seq<string>, b: seq<string>): int {
    if a == [] || b == [] then Sign(|b| - |a|) else CompareIdentifiers(a, b)
  }

  function CompareParsed(a: Parsed, b: Parsed): int {
    var first := CompareRelease(a.release, b.release);
    if first != 0 then first else ComparePrerelease(a.prerelease, b.prerelease)
  }

  function CompareVersions(a: string, b: string): Option<int> {
    var left, right := ParseVersion(a), ParseVersion(b);
    if left.None? || right.None? then None else Some(CompareParsed(left.value, right.value))
  }

  predicate Newer(a: string, b: string) {
    CompareVersions(a, b) == Some(1)
  }

  // ---------------------------------------------------------------- it is an order

  /** What three comparisons of three things in a row must satisfy to be those of an order. */
  ghost predicate Chains(ab: int, ba: int, bc: int, ac: int) {
    && -1 <= ab <= 1 && ba == -ab
    && (ab <= 0 && bc <= 0 ==> ac <= 0 && (ac == 0 ==> ab == 0 && bc == 0))
    && (ab >= 0 && bc >= 0 ==> ac >= 0 && (ac == 0 ==> ab == 0 && bc == 0))
  }

  lemma {:induction false} ReleasesChain(a: seq<nat>, b: seq<nat>, c: seq<nat>)
    ensures Chains(CompareRelease(a, b), CompareRelease(b, a), CompareRelease(b, c), CompareRelease(a, c))
    decreases |a| + |b| + |c|
  {
    if a != [] || b != [] || c != [] {
      ReleasesChain(if a == [] then a else a[1..], if b == [] then b else b[1..], if c == [] then c else c[1..]);
    }
  }

  lemma {:induction false} TextsChain(a: string, b: string, c: string)
    ensures Chains(CompareText(a, b), CompareText(b, a), CompareText(b, c), CompareText(a, c))
  {
    if a != "" && b != "" && c != "" {
      TextsChain(a[1..], b[1..], c[1..]);
    } else if a != "" && b != "" {
      TextsChain(a[1..], b[1..], c);
    }
  }

  lemma IdentifiersChainOne(a: string, b: string, c: string)
    ensures Chains(CompareIdentifier(a, b), CompareIdentifier(b, a), CompareIdentifier(b, c), CompareIdentifier(a, c))
  {
    TextsChain(a, b, c);
  }

  lemma {:induction false} IdentifiersChain(a: seq<string>, b: seq<string>, c: seq<string>)
    ensures Chains(CompareIdentifiers(a, b), CompareIdentifiers(b, a), CompareIdentifiers(b, c), CompareIdentifiers(a, c))
  {
    if a != [] && b != [] {
      hide CompareIdentifier;
      IdentifiersChainOne(a[0], b[0], if c == [] then "" else c[0]);
      IdentifiersChain(a[1..], b[1..], if c == [] then c else c[1..]);
    }
  }

  lemma ParsedChain(a: Parsed, b: Parsed, c: Parsed)
    ensures Chains(CompareParsed(a, b), CompareParsed(b, a), CompareParsed(b, c), CompareParsed(a, c))
  {
    hide CompareRelease, CompareIdentifiers;
    ReleasesChain(a.release, b.release, c.release);
    IdentifiersChain(a.prerelease, b.prerelease, c.prerelease);
  }

  /**
   Comparing is an order on the versions that can be ordered at all: it turns round with its arguments, it chains, and what is
   neither newer nor older compares alike with everything.
   */
  lemma VersionsAreOrdered(a: string, b: string, c: string)
    requires ParseVersion(a).Some? && ParseVersion(b).Some? && ParseVersion(c).Some?
    ensures Chains(CompareVersions(a, b).value, CompareVersions(b, a).value, CompareVersions(b, c).value, CompareVersions(a, c).value)
    ensures CompareVersions(a, b) == Some(0) ==> CompareVersions(a, c) == CompareVersions(b, c)
  {
    hide ParseVersion, CompareParsed;
    ParsedChain(ParseVersion(a).value, ParseVersion(b).value, ParseVersion(c).value);
    ParsedChain(ParseVersion(b).value, ParseVersion(a).value, ParseVersion(c).value);
    ParsedChain(ParseVersion(a).value, ParseVersion(c).value, ParseVersion(b).value);
    ParsedChain(ParseVersion(b).value, ParseVersion(c).value, ParseVersion(a).value);
  }

  /** No version is newer than itself, and newer than newer is newer, versions that cannot be ordered included. */
  lemma NewerIsAnOrder(a: string, b: string, c: string)
    ensures !Newer(a, a)
    ensures Newer(a, b) && Newer(b, c) ==> Newer(a, c)
    ensures Newer(a, b) ==> CompareVersions(a, a).Some? && CompareVersions(b, b).Some?
  {
    hide ParseVersion, CompareParsed;
    if ParseVersion(a).Some? {
      ParsedChain(ParseVersion(a).value, ParseVersion(a).value, ParseVersion(a).value);
      if ParseVersion(b).Some? && ParseVersion(c).Some? {
        ParsedChain(ParseVersion(a).value, ParseVersion(b).value, ParseVersion(c).value);
        ParsedChain(ParseVersion(a).value, ParseVersion(c).value, ParseVersion(a).value);
      }
    }
  }

  // ---------------------------------------------------------------- which way round

  /** A number of a release, zero past its end. */
  function Component(release: seq<nat>, i: nat): nat {
    if i < |release| then release[i] else 0
  }

  /** At the first number in which two releases differ the one has the larger. */
  ghost predicate LaterRelease(a: seq<nat>, b: seq<nat>) {
    exists i: nat :: Component(a, i) > Component(b, i) && forall j: nat :: j < i ==> Component(a, j) == Component(b, j)
  }

  lemma {:induction false} ReleasesCompare(a: seq<nat>, b: seq<nat>)
    ensures CompareRelease(a, b) == 1 <==> LaterRelease(a, b)
    ensures CompareRelease(a, b) == 0 <==> forall i: nat :: Component(a, i) == Component(b, i)
    decreases |a| + |b|
  {
    if a == [] && b == [] {
      assert forall i: nat :: Component(a, i) == Component(b, i);
    } else {
      var x, y := RestOf(a), RestOf(b);
      ReleasesCompare(x, y);
      ShiftedReleases(a, b, x, y);
      OneComponentAtATime(a, b);
      hide LaterRelease, CompareRelease, Component;
    }
  }

  function RestOf(release: seq<nat>): seq<nat> {
    if release == [] then release else release[1..]
  }

  lemma OneComponentAtATime(a: seq<nat>, b: seq<nat>)
    requires a != [] || b != []
    ensures CompareRelease(a, b)
         == if Component(a, 0) > Component(b, 0) then 1 else if Component(a, 0) < Component(b, 0) then -1 else CompareRelease(RestOf(a), RestOf(b))
  {
  }

  lemma ShiftedReleases(a: seq<nat>, b: seq<nat>, x: seq<nat>, y: seq<nat>)
    requires x == RestOf(a) && y == RestOf(b)
    ensures Component(a, 0) > Component(b, 0) ==> LaterRelease(a, b)
    ensures Component(a, 0) < Component(b, 0) ==> !LaterRelease(a, b)
    ensures Component(a, 0) == Component(b, 0) ==> (LaterRelease(a, b) <==> LaterRelease(x, y))
    ensures (forall i: nat :: Component(a, i) == Component(b, i)) <==> Component(a, 0) == Component(b, 0) && forall i: nat :: Component(x, i) == Component(y, i)
  {
    assert forall i: nat :: Component(x, i) == Component(a, i + 1) && Component(y, i) == Component(b, i + 1);
    hide Component, RestOf;
    if Component(a, 0) == Component(b, 0) && LaterRelease(x, y) {
      var i: nat :| Component(x, i) > Component(y, i) && forall j: nat :: j < i ==> Component(x, j) == Component(y, j);
      forall j: nat | j < i + 1
        ensures Component(a, j) == Component(b, j)
      {
        assert j > 0 ==> Component(x, j - 1) == Component(y, j - 1);
      }
      assert Component(a, i + 1) > Component(b, i + 1);
    }
    if Component(a, 0) == Component(b, 0) && LaterRelease(a, b) {
      var i: nat :| Component(a, i) > Component(b, i) && forall j: nat :: j < i ==> Component(a, j) == Component(b, j);
      forall j: nat | j < i - 1
        ensures Component(x, j) == Component(y, j)
      {
        assert Component(a, j + 1) == Component(b, j + 1);
      }
      assert Component(x, i - 1) > Component(y, i - 1);
    }
    if forall i: nat :: Component(x, i) == Component(y, i) {
      forall i: nat
        ensures Component(a, 0) == Component(b, 0) ==> Component(a, i) == Component(b, i)
      {
        assert i > 0 ==> Component(x, i - 1) == Component(y, i - 1);
      }
    }
  }

  ghost predicate LaterIdentifierAt(a: seq<string>, b: seq<string>, i: nat) {
    i < |a| && i <= |b| && (forall j: nat :: j < i ==> CompareIdentifier(a[j], b[j]) == 0) && (i < |b| ==> CompareIdentifier(a[i], b[i]) == 1)
  }

  /** At the first identifier in which two prereleases differ the one has the later, or it goes on where the other ends. */
  ghost predicate LaterIdentifiers(a: seq<string>, b: seq<string>) {
    exists i: nat :: LaterIdentifierAt(a, b, i)
  }

  lemma LaterIdentifiersShift(a: seq<string>, b: seq<string>, i: nat)
    requires a != [] && b != [] && CompareIdentifier(a[0], b[0]) == 0
    ensures LaterIdentifierAt(a, b, i + 1) <==> LaterIdentifierAt(a[1..], b[1..], i)
    ensures !LaterIdentifierAt(a, b, 0)
  {
    hide CompareIdentifier;
    if LaterIdentifierAt(a[1..], b[1..], i) {
      forall j: nat | j < i + 1
        ensures CompareIdentifier(a[j], b[j]) == 0
      {
        assert j > 0 ==> CompareIdentifier(a[1..][j - 1], b[1..][j - 1]) == 0;
      }
    }
    if LaterIdentifierAt(a, b, i + 1) {
      forall j: nat | j < i
        ensures CompareIdentifier(a[1..][j], b[1..][j]) == 0
      {
        assert CompareIdentifier(a[j + 1], b[j + 1]) == 0;
      }
    }
  }

  lemma {:induction false} IdentifiersCompare(a: seq<string>, b: seq<string>)
    ensures CompareIdentifiers(a, b) == 1 <==> LaterIdentifiers(a, b)
  {
    hide CompareIdentifier;
    if a == [] {
    } else if b == [] || CompareIdentifier(a[0], b[0]) == 1 {
      assert LaterIdentifierAt(a, b, 0);
    } else if CompareIdentifier(a[0], b[0]) != 0 {
      IdentifierSigns(a[0], b[0]);
      forall i: nat
        ensures !LaterIdentifierAt(a, b, i)
      {
      }
    } else {
      IdentifiersCompare(a[1..], b[1..]);
      hide LaterIdentifierAt;
      LaterIdentifiersShift(a, b, 0);
      if i: nat :| LaterIdentifierAt(a[1..], b[1..], i) {
        LaterIdentifiersShift(a, b, i);
      }
      if i: nat :| LaterIdentifierAt(a, b, i) {
        LaterIdentifiersShift(a, b, i - 1);
      }
    }
  }

  lemma IdentifierSigns(a: string, b: string)
    ensures -1 <= CompareIdentifier(a, b) <= 1
  {
    IdentifiersChainOne(a, b, b);
  }

  /** Of two versions the newer has the later release; or the same, and is itself a release, or a later prerelease, where the other is a prerelease. */
  lemma NewerIsLater(a: string, b: string)
    ensures Newer(a, b) <==>
              && ParseVersion(a).Some? && ParseVersion(b).Some?
              && var x, y := ParseVersion(a).value, ParseVersion(b).value;
                (LaterRelease(x.release, y.release)
                 || ((forall i: nat :: Component(x.release, i) == Component(y.release, i))
                     && y.prerelease != [] && (x.prerelease == [] || LaterIdentifiers(x.prerelease, y.prerelease))))
  {
    hide ParseVersion, CompareIdentifiers, CompareRelease;
    if ParseVersion(a).Some? && ParseVersion(b).Some? {
      var x, y := ParseVersion(a).value, ParseVersion(b).value;
      ReleasesCompare(x.release, y.release);
      ReleasesChain(x.release, y.release, y.release);
      IdentifiersCompare(x.prerelease, y.prerelease);
      hide LaterRelease, LaterIdentifiers, Component;
    }
  }

  /** A number is before a word, two numbers compare as numbers, and two words by their first different letter. */
  lemma IdentifiersAreRead(a: string, b: string)
    ensures IsNumeric(a) && !IsNumeric(b) ==> CompareIdentifier(a, b) == -1
    ensures IsNumeric(a) && IsNumeric(b) ==> (CompareIdentifier(a, b) == 1 <==> Number(0, a) > Number(0, b))
    ensures !IsNumeric(a) && !IsNumeric(b) ==> (CompareIdentifier(a, b) == 1 <==> exists i: nat :: LaterAt(a, b, i))
  {
    hide Number;
    TextsCompare(a, b);
  }

  ghost predicate LaterAt(a: string, b: string, i: nat) {
    i < |a| && i <= |b| && a[..i] == b[..i] && (i < |b| ==> a[i] > b[i])
  }

  lemma {:induction false} TextsCompare(a: string, b: string)
    ensures CompareText(a, b) == 1 <==> exists i: nat :: LaterAt(a, b, i)
  {
    if a != "" && b == "" {
      assert LaterAt(a, b, 0);
    } else if a != "" && a[0] != b[0] {
      assert a[0] > b[0] ==> LaterAt(a, b, 0);
      forall i: nat | LaterAt(a, b, i)
        ensures a[0] > b[0]
      {
        assert i > 0 ==> a[..i][0] == b[..i][0];
      }
    } else if a != "" {
      TextsCompare(a[1..], b[1..]);
      if i: nat :| LaterAt(a[1..], b[1..], i) {
        assert a[..i + 1] == [a[0]] + a[1..][..i] && b[..i + 1] == [b[0]] + b[1..][..i];
        assert LaterAt(a, b, i + 1);
      }
      if i: nat :| LaterAt(a, b, i) {
        assert i > 0;
        assert a[1..][..i - 1] == a[..i][1..] && b[1..][..i - 1] == b[..i][1..];
        assert LaterAt(a[1..], b[1..], i - 1);
      }
    }
  }

  // ---------------------------------------------------------------- what a version is

  function Values(parts: seq<string>): seq<nat>
    requires forall i :: 0 <= i < |parts| ==> IsNumeric(parts[i])
  {
    seq(|parts|, (i: nat) requires i < |parts| && IsNumeric(parts[i]) => Number(0, parts[i]))
  }

  lemma {:induction false} ReleaseReads(parts: seq<string>)
    requires forall i :: 0 <= i < |parts| ==> IsNumeric(parts[i])
    ensures ReleaseOf(parts) == Some(Values(parts))
  {
    hide Number;
    if parts != [] {
      ReleaseReads(parts[1..]);
      assert Values(parts) == [Number(0, parts[0])] + Values(parts[1..]);
    }
  }

  predicate IsPlainChar(c: char) {
    '0' <= c <= '9' || 'a' <= c <= 'z' || 'A' <= c <= 'Z' || c == '-' || c == '.'
  }

  lemma {:induction false} JoinedIsPlain(parts: seq<string>, stops: set<char>)
    requires '.' !in stops && forall i :: 0 <= i < |parts| ==> Free(parts[i], stops) && forall k :: 0 <= k < |parts[i]| ==> IsPlainChar(parts[i][k])
    ensures Free(Join(parts, '.'), stops) && forall k :: 0 <= k < |Join(parts, '.')| ==> IsPlainChar(Join(parts, '.')[k])
  {
    if |parts| > 1 {
      JoinedIsPlain(parts[1..], stops);
    }
  }

  /** One to nine digits. */
  lemma NumbersAre(s: string)
    ensures IsNumeric(s) <==> s != "" && |s| < 10 && forall i :: 0 <= i < |s| ==> s[i] in "0123456789"
  {
    forall c: char
      ensures c in "0123456789" <==> '0' <= c <= '9'
    {
      DigitsAre(c);
    }
  }

  lemma DigitsAre(c: char)
    ensures c in "0123456789" <==> '0' <= c <= '9'
  {
    if '0' <= c <= '9' {
      assert "0123456789"[c as int - '0' as int] == c;
    }
  }

  /** One or more letters, digits and hyphens. */
  lemma IdentifiersAre(s: string)
    ensures IsIdentifier(s) <==> |s| > 0 && forall c :: c in s ==> 'a' <= c <= 'z' || 'A' <= c <= 'Z' || '0' <= c <= '9' || c == '-'
    {
    assert forall i :: 0 <= i < |s| ==> s[i] in s;
  }

  lemma {:induction false} ReleaseParts(parts: seq<string>)
    requires ReleaseOf(parts).Some?
    ensures (forall i :: 0 <= i < |parts| ==> IsNumeric(parts[i])) && ReleaseOf(parts).value == Values(parts)
  {
    if parts != [] {
      ReleaseParts(parts[1..]);
      forall i | 0 <= i < |parts|
        ensures IsNumeric(parts[i])
      {
        assert i > 0 ==> IsNumeric(parts[1..][i - 1]);
      }
      ReleaseReads(parts);
    }
  }

  /** Whatever is read as a version is of that form, between any white space. */
  lemma ReadVersions(raw: string) returns (parts: seq<string>, prerelease: seq<string>, build: string)
    requires ParseVersion(raw).Some?
    ensures parts != [] && (forall i :: 0 <= i < |parts| ==> IsNumeric(parts[i])) && forall i :: 0 <= i < |prerelease| ==> IsIdentifier(prerelease[i])
    ensures build == "" || build[0] == '+'
    ensures Trim(raw) == Join(parts, '.') + (if prerelease == [] then "" else "-" + Join(prerelease, '.')) + build
    ensures ParseVersion(raw) == Some(Parsed(Values(parts), prerelease))
  {
    hide IsNumeric, Trim, Join;
    var core := Before(Trim(raw), {'+'});
    build := From(Trim(raw), {'+'});
    Cut(Trim(raw), {'+'});
    Cut(core, {'-'});
    var numbers, rest := Before(core, {'-'}), From(core, {'-'});
    parts := Split(numbers, '.');
    JoinSplit(numbers, '.');
    ReleaseParts(parts);
    if rest == "" {
      prerelease := [];
    } else {
      prerelease := Split(rest[1..], '.');
      JoinSplit(rest[1..], '.');
      assert rest == "-" + rest[1..];
    }
  }

  /** Numbers with dots between them; where there is a prerelease `-` and its identifiers likewise; and `+` and anything, which is dropped. */
  lemma VersionReads(parts: seq<string>, prerelease: seq<string>, build: string)
    requires parts != [] && (forall i :: 0 <= i < |parts| ==> IsNumeric(parts[i])) && forall i :: 0 <= i < |prerelease| ==> IsIdentifier(prerelease[i])
    requires build == "" || (build[0] == '+' && forall i :: 0 <= i < |build| ==> !IsSpace(build[i]))
    ensures ParseVersion(Join(parts, '.') + (if prerelease == [] then "" else "-" + Join(prerelease, '.')) + build) == Some(Parsed(Values(parts), prerelease))
  {
    var numbers, rest := Join(parts, '.'), if prerelease == [] then "" else "-" + Join(prerelease, '.');
    assert forall i :: 0 <= i < |parts| ==> Free(parts[i], {'-', '.', '+'});
    assert forall i :: 0 <= i < |prerelease| ==> Free(prerelease[i], {'.', '+'});
    JoinedIsPlain(parts, {'-', '+'});
    JoinedIsPlain(prerelease, {'+'});
    var core := numbers + rest;
    NothingToTrim(core + build);
    assert Free(core, {'+'});
    CutAt(core, build, {'+'});
    CutAt(numbers, rest, {'-'});
    SplitJoin(parts, '.');
    ReleaseReads(parts);
    JoinedIsSomething(parts);
    if prerelease != [] {
      assert rest[1..] == Join(prerelease, '.');
      SplitJoin(prerelease, '.');
    }
    hide Join, Split, Before, From, Trim, IsNumeric, IsIdentifier, Values, ReleaseOf;
  }

  lemma JoinedIsSomething(parts: seq<string>)
    requires parts != [] && IsNumeric(parts[0])
    ensures Join(parts, '.') != ""
  {
  }
}
