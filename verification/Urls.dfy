/**
 The parts of a URL that the addresses need, out of a string and back into one: scheme, credentials, host, port, path
 with its dot segments resolved, query and fragment. Characters are taken as they come, with no percent-encoding.
 */
module Urls {
  import opened Results
  import opened Text

  /** `query` and `fragment` keep their first character, or are empty. `port` is empty or `:` and digits. */
  datatype Url = Url(scheme: string, credentials: string, host: string, port: string, path: string, query: string, fragment: string)

  /** What no host may hold. */
  const HOST_STOPS: set<char> := {'\0', '\t', '\n', '\r', ' ', '#', '/', ':', '<', '>', '?', '@', '[', '\\', ']', '^', '|'}

  const SPECIAL: set<string> := {"http", "https", "ws", "wss", "ftp"}

  predicate IsSchemeChar(c: char) {
    'a' <= c <= 'z' || 'A' <= c <= 'Z' || '0' <= c <= '9' || c == '+' || c == '-' || c == '.'
  }

  predicate IsScheme(s: string) {
    s != "" && ('a' <= s[0] <= 'z' || 'A' <= s[0] <= 'Z') && forall i :: 0 <= i < |s| ==> IsSchemeChar(s[i])
  }

  const LARGEST_PORT := 65535

  predicate IsPort(s: string) {
    s == "" || (s[0] == ':' && IsDigits(s[1..]) && Number(0, s[1..]) <= LARGEST_PORT)
  }

  function WithoutZeros(digits: string): string {
    if |digits| > 1 && digits[0] == '0' then WithoutZeros(digits[1..]) else digits
  }

  /** A port as it is printed: in its shortest form, and not at all where it is empty or the scheme's own. */
  function PrintedPort(scheme: string, port: string): string {
    if |port| <= 1 || [':'] + WithoutZeros(port[1..]) == DefaultPort(scheme) then "" else [':'] + WithoutZeros(port[1..])
  }

  function DefaultPort(scheme: string): string {
    if scheme == "https" || scheme == "wss" then ":443" else if scheme == "http" || scheme == "ws" then ":80" else if scheme == "ftp" then ":21" else ""
  }

  /** The segments that are kept after those in `kept`: `.` adds nothing and `..` takes one back; either, last, leaves an empty one. */
  function Resolve(kept: seq<string>, segments: seq<string>): seq<string>
    decreases |segments|
  {
    if segments == [] then kept
    else
      var last := if |segments| == 1 then [""] else [];
      if segments[0] == "." then Resolve(kept + last, segments[1..])
      else if segments[0] == ".." then Resolve((if kept == [] then [] else kept[..|kept| - 1]) + last, segments[1..])
      else Resolve(kept + [segments[0]], segments[1..])
  }

  predicate IsDot(segment: string) {
    segment == "." || segment == ".."
  }

  ghost predicate NoDots(segments: seq<string>) {
    forall i :: 0 <= i < |segments| ==> !IsDot(segments[i])
  }

  function ResolveDots(path: string): string
    requires path != ""
  {
    "/" + Join(Resolve([], Split(path[1..], '/')), '/')
  }

  function Parse(s: string): Option<Url> {
    var scheme, rest := Before(s, {':'}), From(s, {':'});
    if !IsScheme(scheme) || AfterSlashes(Lower(scheme), rest).None? then None
    else ParseAfterScheme(Lower(scheme), AfterSlashes(Lower(scheme), rest).value)
  }

  /** What follows a scheme's `://`; after a special one's `:` any number of slashes may stand, none included. */
  function AfterSlashes(scheme: string, rest: string): Option<string> {
    if rest != "" && scheme in SPECIAL then Some(WithoutSlashes(rest[1..]))
    else if StartsWith(rest, "://") then Some(rest[3..])
    else None
  }

  function WithoutSlashes(s: string): string {
    if s != "" && s[0] == '/' then WithoutSlashes(s[1..]) else s
  }

  function ParseAfterScheme(scheme: string, s: string): Option<Url> {
    var authority, rest := Before(s, {'/', '?', '#'}), From(s, {'/', '?', '#'});
    var credentials, hostport := Credentials(authority), AfterCredentials(authority);
    var host, port := Before(hostport, {':'}), From(hostport, {':'});
    var path, query, fragment := Before(rest, {'?', '#'}), Before(From(rest, {'?', '#'}), {'#'}), From(rest, {'#'});
    if !IsPort(port) || !Free(host, HOST_STOPS) || (host == "" && (scheme in SPECIAL || authority != "")) then None
    else
      Some(Url(scheme, if credentials == "@" || credentials == ":@" then "" else credentials, if scheme in SPECIAL then Lower(host) else host,
               PrintedPort(scheme, port),
               if path != "" then ResolveDots(path) else if scheme in SPECIAL then "/" else "", query, fragment))
  }

  /** What stands before the last `@`, with it. */
  function Credentials(authority: string): string {
    if authority == "" then "" else if authority[|authority| - 1] == '@' then authority else Credentials(authority[..|authority| - 1])
  }

  function AfterCredentials(authority: string): string {
    if authority == "" || authority[|authority| - 1] == '@' then ""
    else AfterCredentials(authority[..|authority| - 1]) + [authority[|authority| - 1]]
  }

  function Href(u: Url): string {
    u.scheme + "://" + u.credentials + u.host + u.port + u.path + u.query + u.fragment
  }

  /** Without its first character where nothing follows it, as `search` and `hash` are read. */
  function Shown(part: string): string {
    if |part| == 1 then "" else part
  }

  // ---------------------------------------------------------------- parsed URLs print and parse back

  const PATH_ENDS: set<char> := {'?', '#'}
  const AUTHORITY_ENDS: set<char> := {'/', '?', '#'}

  ghost predicate PlainPath(path: string) {
    path != "" && path[0] == '/' && Free(path, PATH_ENDS) && NoDots(Split(path[1..], '/'))
  }

  ghost predicate Canonical(u: Url) {
    && IsScheme(u.scheme) && Lower(u.scheme) == u.scheme
    && Free(u.credentials, AUTHORITY_ENDS) && Credentials(u.credentials) == u.credentials && u.credentials != "@" && u.credentials != ":@"
    && Free(u.host, HOST_STOPS) && (u.scheme in SPECIAL ==> u.host != "" && Lower(u.host) == u.host)
    && (u.host == "" ==> u.credentials == "" && u.port == "")
    && IsPort(u.port) && PrintedPort(u.scheme, u.port) == u.port
    && (u.path == "" || PlainPath(u.path)) && (u.scheme in SPECIAL ==> u.path != "")
    && (u.query == "" || u.query[0] == '?') && Free(u.query, {'#'})
    && (u.fragment == "" || u.fragment[0] == '#')
  }

  lemma {:induction false} ResolveLeavesNoDots(kept: seq<string>, segments: seq<string>)
    requires NoDots(kept)
    ensures NoDots(Resolve(kept, segments)) && (segments != [] ==> Resolve(kept, segments) != [])
    decreases |segments|
  {
    if segments != [] {
      var last := if |segments| == 1 then [""] else [];
      var next := if segments[0] == "." then kept + last
                  else if segments[0] == ".." then (if kept == [] then [] else kept[..|kept| - 1]) + last
                  else kept + [segments[0]];
      assert NoDots(next);
      ResolveLeavesNoDots(next, segments[1..]);
      assert Resolve(kept, segments) == Resolve(next, segments[1..]);
      if |segments| == 1 {
        assert Resolve(next, segments[1..]) == next;
      }
    }
  }

  lemma {:induction false} ResolveWithoutDots(kept: seq<string>, segments: seq<string>)
    requires NoDots(segments)
    ensures Resolve(kept, segments) == kept + segments
    decreases |segments|
  {
    if segments == [] {
      assert kept + segments == kept;
    } else {
      ResolveWithoutDots(kept + [segments[0]], segments[1..]);
      assert kept + [segments[0]] + segments[1..] == kept + segments;
    }
  }

  /**
   What dots do in a path, wherever they stand: `.` adds nothing and `..` takes away the segment before it, or nothing at the
   root; at the end either leaves an empty segment. Without them a path stays, so this is all there is to it.
   */
  lemma {:induction false} DotsResolve(kept: seq<string>, front: seq<string>, part: string, back: seq<string>)
    requires !IsDot(part)
    ensures Resolve(kept, front + ["."] + back) == Resolve(kept, front + (if back == [] then [""] else back))
    ensures Resolve(kept, front + [part, ".."] + back) == Resolve(kept, front + (if back == [] then [""] else back))
    ensures Resolve([], [".."] + back) == Resolve([], if back == [] then [""] else back)
    decreases |front|
  {
    hide Resolve;
    DotsResolveFirst(kept, part, back);
    var left := if back == [] then [""] else back;
    if front == [] {
      assert front + ["."] + back == ["."] + back && front + [part, ".."] + back == [part, ".."] + back && front + left == left;
    } else {
      var first, rest := front[0], front[1..];
      var next := if first == "." then kept else if first == ".." then Parent(kept) else kept + [first];
      DotsResolve(next, rest, part, back);
      ResolveFirst(kept, first, rest + ["."] + back);
      ResolveFirst(kept, first, rest + [part, ".."] + back);
      ResolveFirst(kept, first, rest + left);
      assert front == [first] + rest;
      assert front + ["."] + back == [first] + (rest + ["."] + back);
      assert front + [part, ".."] + back == [first] + (rest + [part, ".."] + back);
      assert front + left == [first] + (rest + left);
    }
  }

  function Parent(kept: seq<string>): seq<string> {
    if kept == [] then [] else kept[..|kept| - 1]
  }

  lemma ResolveFirst(kept: seq<string>, first: string, rest: seq<string>)
    requires rest != []
    ensures Resolve(kept, [first] + rest) == Resolve(if first == "." then kept else if first == ".." then Parent(kept) else kept + [first], rest)
  {
    assert ([first] + rest)[1..] == rest;
    assert kept + [] == kept && Parent(kept) + [] == Parent(kept);
  }

  lemma DotsResolveFirst(kept: seq<string>, part: string, back: seq<string>)
    requires !IsDot(part)
    ensures var left := if back == [] then [""] else back;
      Resolve(kept, ["."] + back) == Resolve(kept, [part, ".."] + back) == Resolve(kept, left) && Resolve([], [".."] + back) == Resolve([], left)
  {
    assert (["."] + back)[1..] == back && ([part, ".."] + back)[1..] == [".."] + back && ([".."] + back)[1..] == back;
    assert (kept + [part])[..|kept|] == kept && kept + [] == kept && [] + [""] == [""];
    if back == [] {
      assert Resolve(kept, [""]) == Resolve(kept + [""], []) == kept + [""];
      assert Resolve([], [""]) == Resolve([""], []) == [""];
      assert [""][1..] == [];
    }
  }

  /** Every piece that survives was a piece, or is empty: so nothing new can appear in it. */
  lemma {:induction false} ResolveKeepsFree(kept: seq<string>, segments: seq<string>, stops: set<char>)
    requires (forall i :: 0 <= i < |kept| ==> Free(kept[i], stops)) && (forall i :: 0 <= i < |segments| ==> Free(segments[i], stops))
    ensures forall i :: 0 <= i < |Resolve(kept, segments)| ==> Free(Resolve(kept, segments)[i], stops)
    decreases |segments|
  {
    if segments != [] {
      var last := if |segments| == 1 then [""] else [];
      var next := if segments[0] == "." then kept + last
                  else if segments[0] == ".." then (if kept == [] then [] else kept[..|kept| - 1]) + last
                  else kept + [segments[0]];
      ResolveKeepsFree(next, segments[1..], stops);
    }
  }

  lemma {:induction false} SplitKeepsFree(s: string, at: char, stops: set<char>)
    requires Free(s, stops)
    ensures forall i :: 0 <= i < |Split(s, at)| ==> Free(Split(s, at)[i], stops)
    decreases |s|
  {
    Cut(s, {at});
    var rest := From(s, {at});
    assert Free(Before(s, {at}), stops) && Free(rest, stops) by {
      assert forall i :: 0 <= i < |Before(s, {at})| ==> Before(s, {at})[i] == s[i];
      assert forall i :: 0 <= i < |rest| ==> rest[i] == s[|Before(s, {at})| + i];
    }
    if rest != "" {
      SplitKeepsFree(rest[1..], at, stops);
    }
  }

  lemma {:induction false} JoinKeepsFree(parts: seq<string>, with: char, stops: set<char>)
    requires (forall i :: 0 <= i < |parts| ==> Free(parts[i], stops)) && with !in stops
    ensures Free(Join(parts, with), stops)
  {
    if |parts| > 1 {
      JoinKeepsFree(parts[1..], with, stops);
    }
  }

  /** Resolving dot segments leaves a path without any, and changes no other path. */
  lemma ResolveDotsIsPlain(path: string)
    requires path != "" && path[0] == '/' && Free(path, PATH_ENDS)
    ensures PlainPath(ResolveDots(path))
    ensures ResolveDots(path) == path <==> PlainPath(path)
  {
    var segments := Split(path[1..], '/');
    JoinSplit(path[1..], '/');
    SplitKeepsFree(path[1..], '/', PATH_ENDS);
    ResolveLeavesNoDots([], segments);
    ResolveKeepsFree([], segments, PATH_ENDS);
    ResolveKeepsFree([], segments, {'/'});
    var resolved := Resolve([], segments);
    JoinKeepsFree(resolved, '/', PATH_ENDS);
    SplitJoin(resolved, '/');
    assert ResolveDots(path)[1..] == Join(resolved, '/');
    if PlainPath(path) {
      ResolveWithoutDots([], segments);
      assert [] + segments == segments;
      assert path == "/" + path[1..];
    }
  }

  lemma {:induction false} CredentialsCut(authority: string)
    ensures authority == Credentials(authority) + AfterCredentials(authority)
    ensures Free(AfterCredentials(authority), {'@'}) && Credentials(Credentials(authority)) == Credentials(authority)
  {
    if authority != "" && authority[|authority| - 1] != '@' {
      CredentialsCut(authority[..|authority| - 1]);
      assert authority == authority[..|authority| - 1] + [authority[|authority| - 1]];
    }
  }

  lemma {:induction false} CredentialsOf(credentials: string, rest: string)
    requires Credentials(credentials) == credentials && Free(rest, {'@'})
    ensures Credentials(credentials + rest) == credentials && AfterCredentials(credentials + rest) == rest
    decreases |rest|
  {
    var whole := credentials + rest;
    if rest == "" {
      assert whole == credentials;
      CredentialsCut(credentials);
      assert |AfterCredentials(credentials)| == 0;
    } else {
      assert whole[..|whole| - 1] == credentials + rest[..|rest| - 1];
      assert whole[|whole| - 1] == rest[|rest| - 1];
      CredentialsOf(credentials, rest[..|rest| - 1]);
      assert rest == rest[..|rest| - 1] + [rest[|rest| - 1]];
    }
  }

  lemma ParseTail(u: Url)
    requires Canonical(u)
    ensures ParseAfterScheme(u.scheme, u.credentials + (u.host + u.port) + (u.path + u.query + u.fragment)) == Some(u)
  {
    hide IsScheme, Before, From, Credentials, AfterCredentials, ResolveDots, Split, NoDots;
    var tail, authority := u.path + u.query + u.fragment, u.credentials + (u.host + u.port);
    assert Free(authority, AUTHORITY_ENDS) && Free(u.host + u.port, {'@'});
    assert tail == "" || tail[0] in AUTHORITY_ENDS;
    CutAt(authority, tail, AUTHORITY_ENDS);
    CredentialsOf(u.credentials, u.host + u.port);
    CutAt(u.host, u.port, {':'});
    hide Free;
    CanonicalTail(u);
    TailParts(u.path, u.query, u.fragment);
    if u.path != "" {
      ResolveDotsIsPlain(u.path);
    }
  }

  lemma CanonicalTail(u: Url)
    requires Canonical(u)
    ensures Free(u.path, PATH_ENDS) && Free(u.query, {'#'})
    ensures u.path != "" ==> u.path[0] == '/' && PlainPath(u.path)
  {
  }

  lemma SpecialHasAuthority(u: Url)
    requires Canonical(u)
    ensures var rest := u.credentials + (u.host + u.port) + (u.path + u.query + u.fragment);
      u.scheme in SPECIAL ==> rest != "" && rest[0] != '/'
  {
    hide IsScheme, Lower, IsPort, PrintedPort, PlainPath;
  }

  lemma AfterTwoSlashes(scheme: string, rest: string)
    requires scheme in SPECIAL ==> rest == "" || rest[0] != '/'
    ensures AfterSlashes(scheme, "://" + rest) == Some(rest)
  {
    assert ("://" + rest)[1..] == "//" + rest;
    if scheme in SPECIAL {
      AfterAnySlashes("//", rest);
    }
    assert ("://" + rest)[..3] == "://" && ("://" + rest)[3..] == rest;
  }

  lemma {:induction false} AfterAnySlashes(slashes: string, rest: string)
    requires (forall i :: 0 <= i < |slashes| ==> slashes[i] == '/') && (rest == "" || rest[0] != '/')
    ensures WithoutSlashes(slashes + rest) == rest
  {
    if slashes == "" {
      assert slashes + rest == rest;
    } else {
      assert (slashes + rest)[1..] == slashes[1..] + rest;
      AfterAnySlashes(slashes[1..], rest);
    }
  }

  /** However many slashes follow `https:`, the same URL is read. */
  lemma SlashesDoNotMatter(slashes: string, rest: string)
    requires (forall i :: 0 <= i < |slashes| ==> slashes[i] == '/') && (rest == "" || rest[0] != '/')
    ensures Parse("https:" + slashes + rest) == Parse("https://" + rest) == ParseAfterScheme("https", rest)
  {
    hide ParseAfterScheme;
    HttpsIsLower();
    hide Lower, IsScheme;
    AfterColon("https", slashes + rest);
    AfterColon("https", "//" + rest);
    assert "https" + (":" + (slashes + rest)) == "https:" + slashes + rest;
    assert "https" + (":" + ("//" + rest)) == "https://" + rest;
    AfterAnySlashes(slashes, rest);
    AfterAnySlashes("//", rest);
  }

  lemma AfterColon(scheme: string, rest: string)
    requires IsScheme(scheme)
    ensures var s := scheme + (":" + rest);
      Before(s, {':'}) == scheme && From(s, {':'}) == ":" + rest && From(s, {':'})[1..] == rest
  {
    assert Free(scheme, {':'});
    CutAt(scheme, ":" + rest, {':'});
  }

  /** A URL printed from its parts parses into the same parts. */
  lemma ParseHref(u: Url)
    requires Canonical(u)
    ensures Parse(Href(u)) == Some(u)
  {
    hide Parse, ParseAfterScheme, Credentials, Split, NoDots, PlainPath, IsPort, IsScheme, Lower, Free, PrintedPort;
    ParseTail(u);
    var rest := u.credentials + (u.host + u.port) + (u.path + u.query + u.fragment);
    assert Href(u) == u.scheme + ("://" + rest);
    SpecialHasAuthority(u);
    ParseCut(u.scheme, rest);
  }

  lemma ParseCut(scheme: string, rest: string)
    requires IsScheme(scheme) && Lower(scheme) == scheme && (scheme in SPECIAL ==> rest == "" || rest[0] != '/')
    ensures Parse(scheme + ("://" + rest)) == ParseAfterScheme(scheme, rest)
  {
    hide ParseAfterScheme, IsScheme, Lower, Before, From;
    SchemeCut(scheme, rest);
    AfterTwoSlashes(scheme, rest);
  }

  lemma TailParts(path: string, query: string, fragment: string)
    requires Free(path, PATH_ENDS) && (query == "" || query[0] == '?') && Free(query, {'#'}) && (fragment == "" || fragment[0] == '#')
    ensures var tail := path + query + fragment;
      && Before(tail, PATH_ENDS) == path && From(tail, PATH_ENDS) == query + fragment
      && Before(query + fragment, {'#'}) == query && From(tail, {'#'}) == fragment
  {
    var tail := path + query + fragment;
    assert tail == path + (query + fragment);
    CutAt(path, query + fragment, PATH_ENDS);
    CutAt(query, fragment, {'#'});
    assert Free(path + query, {'#'});
    CutAt(path + query, fragment, {'#'});
  }

  /** What is parsed out of any string is in canonical form. */
  lemma ParseIsCanonical(s: string)
    requires Parse(s).Some?
    ensures Canonical(Parse(s).value)
  {
    hide ParseAfterScheme, Canonical, AfterSlashes;
    var scheme, rest := Before(s, {':'}), From(s, {':'});
    LowerTwice(scheme);
    assert IsScheme(Lower(scheme));
    TailParsesCanonically(Lower(scheme), AfterSlashes(Lower(scheme), rest).value);
  }

  lemma PartsKeepFree(a: string, b: string, stops: set<char>)
    requires Free(a + b, stops)
    ensures Free(a, stops) && Free(b, stops)
  {
    assert forall i :: 0 <= i < |a| ==> a[i] == (a + b)[i];
    assert forall i :: 0 <= i < |b| ==> b[i] == (a + b)[|a| + i];
  }

  lemma HostIsCanonical(authority: string)
    requires Free(authority, AUTHORITY_ENDS)
    ensures Free(Credentials(authority), AUTHORITY_ENDS) && Credentials(Credentials(authority)) == Credentials(authority)
  {
    hide Free;
    CredentialsCut(authority);
    PartsKeepFree(Credentials(authority), AfterCredentials(authority), AUTHORITY_ENDS);
  }

  lemma {:induction false} WithoutZerosIsSame(digits: string)
    requires IsDigits(digits)
    ensures IsDigits(WithoutZeros(digits)) && Number(0, WithoutZeros(digits)) == Number(0, digits)
    ensures WithoutZeros(WithoutZeros(digits)) == WithoutZeros(digits)
    ensures digits != "" ==> WithoutZeros(digits) != ""
  {
    if |digits| > 1 && digits[0] == '0' {
      WithoutZerosIsSame(digits[1..]);
    }
  }

  ghost predicate InShortestForm(digits: string) {
    digits != "" && IsDigits(digits) && (digits[0] == '0' ==> |digits| == 1)
  }

  lemma {:induction false} WithoutZerosIsShortest(digits: string)
    requires IsDigits(digits) && digits != ""
    ensures InShortestForm(WithoutZeros(digits))
  {
    if |digits| > 1 && digits[0] == '0' {
      WithoutZerosIsShortest(digits[1..]);
    }
  }

  lemma {:induction false} NumberGrows(high: nat, digits: string)
    requires IsDigits(digits)
    ensures Number(high, digits) >= high && (digits != "" ==> Number(high, digits) >= 10 * high)
    decreases |digits|
  {
    if digits != "" {
      NumberGrows(10 * high + (digits[0] as int - '0' as int), digits[1..]);
    }
  }

  /** Leading digits are the number's, over ten. */
  lemma {:induction false} NumberOfFront(high: nat, digits: string)
    requires IsDigits(digits) && digits != ""
    ensures Number(high, digits) == 10 * Number(high, digits[..|digits| - 1]) + (digits[|digits| - 1] as int - '0' as int)
    decreases |digits|
  {
    var next := 10 * high + (digits[0] as int - '0' as int);
    if |digits| > 1 {
      NumberOfFront(next, digits[1..]);
      assert digits[1..][..|digits| - 2] == digits[..|digits| - 1][1..];
    } else {
      assert digits[..0] == "" && digits[1..] == "";
    }
  }

  /** Two shortest forms of one number are one. */
  lemma {:induction false} ShortestFormIsOne(a: string, b: string)
    requires InShortestForm(a) && InShortestForm(b) && Number(0, a) == Number(0, b)
    ensures a == b
    decreases |a|
  {
    NumberOfFront(0, a);
    NumberOfFront(0, b);
    var a', b' := a[..|a| - 1], b[..|b| - 1];
    var x, y := a[|a| - 1], b[|b| - 1];
    assert Number(0, a') == Number(0, b') && x == y;
    assert a == a' + [x] && b == b' + [y];
    NumberOfShortest(a');
    NumberOfShortest(b');
    if a' != "" && b' != "" {
      ShortestFormIsOne(a', b');
    }
  }

  /** No number but that of no digits at all is of digits that start with another than zero. */
  lemma NumberOfShortest(digits: string)
    requires IsDigits(digits) && (digits != "" ==> digits[0] != '0')
    ensures Number(0, digits) == 0 <==> digits == ""
  {
    if digits != "" {
      NumberGrows(digits[0] as int - '0' as int, digits[1..]);
    }
  }

  lemma OwnPorts()
    ensures Number(0, "443") == 443 && Number(0, "80") == 80 && Number(0, "21") == 21
  {
    assert "443"[1..] == "43" && "43"[1..] == "3" && "3"[1..] == "";
    assert "80"[1..] == "0" && "0"[1..] == "";
    assert "21"[1..] == "1" && "1"[1..] == "";
    assert Number(4, "43") == Number(44, "3") == Number(443, "") == 443;
    assert Number(8, "0") == Number(80, "") == 80;
    assert Number(2, "1") == Number(21, "") == 21;
  }

  /** A port goes by its number: it is not printed where there are no digits or the number is the scheme's own, and else in the shortest digits of it. */
  lemma PortGoesByItsNumber(scheme: string, port: string)
    requires port != "" && port[0] == ':' && IsDigits(port[1..])
    ensures IsPort(port) <==> Number(0, port[1..]) < 0x1_0000
    ensures PrintedPort(scheme, port) == "" || (PrintedPort(scheme, port)[0] == ':' && InShortestForm(PrintedPort(scheme, port)[1..]))
    ensures PrintedPort(scheme, port) != "" ==> Number(0, PrintedPort(scheme, port)[1..]) == Number(0, port[1..])
    ensures PrintedPort(scheme, port) == "" <==> port == ":" || OwnPort(scheme) == Some(Number(0, port[1..]))
  {
    hide DefaultPort, OwnPort, WithoutZeros, Number;
    if |port| == 1 {
      return;
    }
    var digits := WithoutZeros(port[1..]);
    WithoutZerosIsSame(port[1..]);
    WithoutZerosIsShortest(port[1..]);
    assert ([':'] + digits)[1..] == digits;
    OwnPortIsDefault(scheme);
    if DefaultPort(scheme) != "" && Number(0, digits) == Number(0, DefaultPort(scheme)[1..]) {
      ShortestFormIsOne(digits, DefaultPort(scheme)[1..]);
      assert DefaultPort(scheme) == [':'] + DefaultPort(scheme)[1..];
    }
  }

  /** The port each scheme is served at. */
  function OwnPort(scheme: string): Option<nat> {
    match scheme
    case "http" => Some(80)
    case "ws" => Some(80)
    case "https" => Some(443)
    case "wss" => Some(443)
    case "ftp" => Some(21)
    case _ => None
  }

  lemma OwnPortIsDefault(scheme: string)
    ensures DefaultPort(scheme) == "" <==> OwnPort(scheme).None?
    ensures DefaultPort(scheme) != "" ==> DefaultPort(scheme)[0] == ':' && InShortestForm(DefaultPort(scheme)[1..])
                                          && OwnPort(scheme) == Some(Number(0, DefaultPort(scheme)[1..]))
  {
    hide Number;
    OwnPorts();
    assert ":443"[1..] == "443" && ":80"[1..] == "80" && ":21"[1..] == "21";
  }

  /** A printed port is the same number, and is printed as it is. */
  lemma PrintedPortIsPort(scheme: string, port: string)
    requires IsPort(port)
    ensures IsPort(PrintedPort(scheme, port)) && PrintedPort(scheme, PrintedPort(scheme, port)) == PrintedPort(scheme, port)
  {
    if |port| > 1 {
      WithoutZerosIsSame(port[1..]);
      assert ([':'] + WithoutZeros(port[1..]))[1..] == WithoutZeros(port[1..]);
    }
  }

  lemma TailParsesCanonically(scheme: string, s: string)
    requires IsScheme(scheme) && Lower(scheme) == scheme && ParseAfterScheme(scheme, s).Some?
    ensures Canonical(ParseAfterScheme(scheme, s).value)
  {
    hide IsScheme, Before, From, Credentials, AfterCredentials, ResolveDots, Split, NoDots, Lower, IsPort, PrintedPort;
    var authority, tail := Before(s, AUTHORITY_ENDS), From(s, AUTHORITY_ENDS);
    Cut(s, AUTHORITY_ENDS);
    HostIsCanonical(authority);
    TailIsCanonical(tail);
    NoPort();
    var host, port, path := Before(AfterCredentials(authority), {':'}), From(AfterCredentials(authority), {':'}), Before(tail, PATH_ENDS);
    LowerTwice(host);
    LowerKeepsFree(host, HOST_STOPS);
    PrintedPortIsPort(scheme, port);
    NoAuthority(authority);
    if path != "" {
      ResolveDotsIsPlain(path);
    }
    SlashIsPlain();
    assert Free("", AUTHORITY_ENDS);
  }

  lemma NoPort()
    ensures IsPort("") && Credentials("") == ""
  {
  }

  lemma NoAuthority(authority: string)
    ensures authority == "" ==> AfterCredentials(authority) == "" && Credentials(authority) == "" && From(AfterCredentials(authority), {':'}) == ""
    ensures forall scheme :: PrintedPort(scheme, "") == ""
  {
  }

  lemma SlashIsPlain()
    ensures PlainPath("/")
  {
    assert "/"[1..] == "";
    assert Split("", '/') == [""];
  }

  lemma LowerKeepsFree(s: string, stops: set<char>)
    requires Free(s, stops) && forall c :: c in stops ==> !('a' <= c <= 'z')
    ensures Free(Lower(s), stops)
  {
  }

  lemma TailIsCanonical(tail: string)
    requires tail == "" || tail[0] in AUTHORITY_ENDS
    ensures var path, query, fragment := Before(tail, PATH_ENDS), Before(From(tail, PATH_ENDS), {'#'}), From(tail, {'#'});
      && (path == "" || path[0] == '/') && Free(path, PATH_ENDS)
      && (query == "" || query[0] == '?') && Free(query, {'#'})
      && (fragment == "" || fragment[0] == '#') && tail == path + query + fragment
  {
    var path, after := Before(tail, PATH_ENDS), From(tail, PATH_ENDS);
    Cut(tail, PATH_ENDS);
    Cut(tail, {'#'});
    Cut(after, {'#'});
    var query := Before(after, {'#'});
    assert tail == (path + query) + From(after, {'#'});
    CutAt(path + query, From(after, {'#'}), {'#'});
    if query != "" {
      assert query[0] == after[0];
    }
    if path != "" {
      assert path[0] == tail[0];
    }
  }

  lemma ParseHttpsTail(host: string, port: string, path: string, query: string, fragment: string)
    requires host != "" && Lower(host) == host && Free(host, HOST_STOPS) && IsPort(port)
    requires (path == "" || path[0] == '/') && Free(path, PATH_ENDS)
    requires (query == "" || query[0] == '?') && Free(query, {'#'}) && (fragment == "" || fragment[0] == '#')
    ensures ParseAfterScheme("https", host + port + (path + query + fragment))
         == Some(Url("https", "", host, PrintedPort("https", port), if path == "" then "/" else ResolveDots(path), query, fragment))
  {
    hide ResolveDots, Split, Credentials, AfterCredentials, Before, From, Lower, PrintedPort, WithoutZeros, Number;
    var tail := path + query + fragment;
    PlainAuthority(host, port);
    assert Free(host + port, AUTHORITY_ENDS) && (tail == "" || tail[0] in AUTHORITY_ENDS);
    CutAt(host + port, tail, AUTHORITY_ENDS);
    TailParts(path, query, fragment);
    CutAt(host, port, {':'});
  }

  /** A secure URL with a plain host, put together from parts, parses into them with its dot segments resolved. */
  lemma ParseHttps(host: string, port: string, path: string, query: string, fragment: string)
    requires host != "" && Lower(host) == host && Free(host, HOST_STOPS) && IsPort(port)
    requires (path == "" || path[0] == '/') && Free(path, PATH_ENDS)
    requires (query == "" || query[0] == '?') && Free(query, {'#'}) && (fragment == "" || fragment[0] == '#')
    ensures Parse("https://" + host + port + (path + query + fragment))
         == Some(Url("https", "", host, PrintedPort("https", port), if path == "" then "/" else ResolveDots(path), query, fragment))
  {
    hide Parse, ParseAfterScheme, ResolveDots, Free, PrintedPort, IsPort, Lower;
    var tail := path + query + fragment;
    ParseHttpsTail(host, port, path, query, fragment);
    FirstOf(host, port, tail, HOST_STOPS);
    HttpsIsLower();
    ParseCut("https", host + port + tail);
    Regroup("https", "://", host, port, tail);
    assert "https" + "://" == "https://";
  }

  lemma FirstOf(a: string, b: string, c: string, stops: set<char>)
    requires a != "" && Free(a, stops)
    ensures (a + b + c)[0] !in stops
  {
  }

  lemma Regroup(a: string, b: string, c: string, d: string, e: string)
    ensures a + b + c + d + e == a + (b + (c + d + e))
  {
  }

  lemma HttpsIsLower()
    ensures IsScheme("https") && Lower("https") == "https"
  {
  }

  lemma SchemeCut(scheme: string, rest: string)
    requires IsScheme(scheme)
    ensures var s := scheme + ("://" + rest);
      && Before(s, {':'}) == scheme && From(s, {':'}) == "://" + rest
      && |From(s, {':'})| >= 3 && From(s, {':'})[..3] == "://" && From(s, {':'})[3..] == rest
  {
    assert Free(scheme, {':'});
    CutAt(scheme, "://" + rest, {':'});
    assert ("://" + rest)[..3] == "://" && ("://" + rest)[3..] == rest;
  }

  lemma PlainAuthority(host: string, port: string)
    requires Free(host, HOST_STOPS) && IsPort(port)
    ensures Credentials(host + port) == "" && AfterCredentials(host + port) == host + port
  {
    assert Free(host + port, {'@'}) by {
      assert forall i :: 1 <= i < |port| ==> port[i] == port[1..][i - 1];
    }
    CredentialsOf("", host + port);
    assert "" + (host + port) == host + port;
  }
}
