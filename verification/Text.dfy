/** Cutting strings at characters, and joining them again. */
module Text {
  predicate IsLower(c: char) {
    'a' <= c <= 'z'
  }

  predicate IsLowerAlnum(c: char) {
    IsLower(c) || '0' <= c <= '9'
  }

  predicate StartsWith(s: string, prefix: string) {
    |prefix| <= |s| && s[..|prefix|] == prefix
  }

  /** The part of `s` before the first of `stops`. */
  function Before(s: string, stops: set<char>): string {
    if s == "" || s[0] in stops then "" else [s[0]] + Before(s[1..], stops)
  }

  function From(s: string, stops: set<char>): string {
    if s == "" || s[0] in stops then s else From(s[1..], stops)
  }

  predicate Free(s: string, stops: set<char>) {
    forall i :: 0 <= i < |s| ==> s[i] !in stops
  }

  lemma {:induction false} Cut(s: string, stops: set<char>)
    ensures s == Before(s, stops) + From(s, stops) && Free(Before(s, stops), stops)
    ensures From(s, stops) == "" || From(s, stops)[0] in stops
    ensures |From(s, stops)| <= |s|
  {
    if s != "" && s[0] !in stops {
      Cut(s[1..], stops);
    }
  }

  lemma {:induction false} CutAt(a: string, b: string, stops: set<char>)
    requires Free(a, stops) && (b == "" || b[0] in stops)
    ensures Before(a + b, stops) == a && From(a + b, stops) == b
  {
    if a == "" {
      assert a + b == b;
    } else {
      assert (a + b)[1..] == a[1..] + b;
      CutAt(a[1..], b, stops);
    }
  }

  function Split(s: string, at: char): seq<string>
    decreases |s|
  {
    var rest := From(s, {at});
    Cut(s, {at});
    [Before(s, {at})] + (if rest == "" then [] else Split(rest[1..], at))
  }

  function Join(parts: seq<string>, with: char): string {
    if parts == [] then "" else if |parts| == 1 then parts[0] else parts[0] + [with] + Join(parts[1..], with)
  }

  lemma {:induction false} JoinSplit(s: string, at: char)
    ensures Split(s, at) != [] && Join(Split(s, at), at) == s
    ensures forall i :: 0 <= i < |Split(s, at)| ==> Free(Split(s, at)[i], {at})
    decreases |s|
  {
    Cut(s, {at});
    var rest := From(s, {at});
    if rest != "" {
      JoinSplit(rest[1..], at);
      assert Split(s, at)[1..] == Split(rest[1..], at);
      assert rest == [at] + rest[1..];
    }
  }

  lemma {:induction false} SplitJoin(parts: seq<string>, at: char)
    requires parts != [] && forall i :: 0 <= i < |parts| ==> Free(parts[i], {at})
    ensures Split(Join(parts, at), at) == parts
  {
    if |parts| == 1 {
      assert parts[0] + "" == parts[0];
      CutAt(parts[0], "", {at});
    } else {
      var tail := Join(parts[1..], at);
      assert Join(parts, at) == parts[0] + ([at] + tail);
      CutAt(parts[0], [at] + tail, {at});
      assert ([at] + tail)[1..] == tail;
      SplitJoin(parts[1..], at);
    }
  }

  predicate IsDigits(s: string) {
    forall i :: 0 <= i < |s| ==> '0' <= s[i] <= '9'
  }

  /** The number some digits stand for, `high` being that of the digits before them. */
  function Number(high: nat, digits: string): nat
    requires IsDigits(digits)
    decreases |digits|
  {
    if digits == "" then high else Number(10 * high + (digits[0] as int - '0' as int), digits[1..])
  }

  function LowerChar(c: char): char {
    if 'A' <= c <= 'Z' then c + ('a' - 'A') else c
  }

  function Lower(s: string): (t: string)
    ensures |t| == |s| && forall i :: 0 <= i < |s| ==> t[i] == LowerChar(s[i])
  {
    seq(|s|, (i: nat) requires i < |s| => LowerChar(s[i]))
  }

  lemma LowerTwice(s: string)
    ensures Lower(Lower(s)) == Lower(s)
  {
  }

  /** White space as `trim` and `\s` have it. */
  predicate IsSpace(c: char) {
    var n := c as int;
    0x09 <= n <= 0x0D || n == 0x20 || n == 0xA0 || n == 0x1680 || 0x2000 <= n <= 0x200A
    || n == 0x2028 || n == 0x2029 || n == 0x202F || n == 0x205F || n == 0x3000 || n == 0xFEFF
  }

  function TrimStart(s: string): string {
    if s != "" && IsSpace(s[0]) then TrimStart(s[1..]) else s
  }

  function TrimEnd(s: string): string {
    if s != "" && IsSpace(s[|s| - 1]) then TrimEnd(s[..|s| - 1]) else s
  }

  function Trim(s: string): string {
    TrimEnd(TrimStart(s))
  }

  lemma NothingToTrim(s: string)
    requires forall i :: 0 <= i < |s| ==> !IsSpace(s[i])
    ensures Trim(s) == s
  {
  }
}
