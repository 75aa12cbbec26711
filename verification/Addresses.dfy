/** Between the address a person reads and the URL a page is served at. */
module Addresses {
  import opened Results
  import opened Text
  import opened Urls
  import opened Labels
  import opened Protocols

  datatype Served = Served(namespace: Namespace, name: string)

  /** An address as it is typed or linked: `scheme://name` and, where there is more, the rest from its `/`, `?` or `#`. */
  datatype Address = Address(scheme: string, name: string, rest: string)

  const MAX_ADDRESS_NAME := 253

  predicate IsAddressNameChar(c: char) {
    IsLowerAlnum(c) || 'A' <= c <= 'Z' || c == '.' || c == '_' || c == '~' || c == '-'
  }

  predicate IsAddressName(name: string) {
    1 <= |name| <= MAX_ADDRESS_NAME && forall i :: 0 <= i < |name| ==> IsAddressNameChar(name[i])
  }

  predicate NoSpace(s: string) {
    forall i :: 0 <= i < |s| ==> !IsSpace(s[i])
  }

  predicate IsAddressScheme(s: string) {
    s != "" && (IsLower(s[0]) || 'A' <= s[0] <= 'Z') && forall i :: 0 <= i < |s| ==> IsLowerAlnum(s[i]) || 'A' <= s[i] <= 'Z'
  }

  function ParseAddress(s: string): Option<Address> {
    var scheme, rest := Before(s, {':'}), From(s, {':'});
    if !IsAddressScheme(scheme) || |rest| < 3 || rest[..3] != "://" || !NoSpace(rest) then None
    else
      var name := Before(rest[3..], AUTHORITY_ENDS);
      if name == "" then None else Some(Address(scheme, name, From(rest[3..], AUTHORITY_ENDS)))
  }

  function Print(a: Address): string {
    a.scheme + "://" + a.name + a.rest
  }

  /** A trailing dot is kept, as an empty last label. */
  function HostLabels(host: string): seq<string> {
    Split(Lower(host), '.')
  }

  /** The name and path of what a scheme's endpoint is asked for: `/name` and, where there is more, the rest from its `/`. */
  function EndpointParts(path: string): Option<(string, string)> {
    if path == "" || path[0] != '/' || Before(path[1..], {'/'}) == "" then None
    else Some((Before(path[1..], {'/'}), if From(path[1..], {'/'}) == "" then "/" else From(path[1..], {'/'})))
  }

  /** A name that a URL parser would take for credentials and a host. */
  predicate ReadsAsCredentials(name: string) {
    var credentials, hostport := Credentials(name), AfterCredentials(name);
    && credentials != "" && credentials != "@" && credentials != ":@"
    && Before(hostport, {':'}) != "" && Free(Before(hostport, {':'}), HOST_STOPS) && IsPort(From(hostport, {':'}))
  }

  /** A lower-case address with a path, nothing in it for a URL parser to resolve, and no query or fragment that is only its mark. */
  predicate IsPlainAddress(s: string) {
    var parsed := ParseAddress(s);
    && parsed.Some? && Lower(parsed.value.scheme) == parsed.value.scheme && !IsDot(parsed.value.name)
    && IsPlainRest(parsed.value.rest)
  }

  predicate IsPlainRest(rest: string) {
    && StartsWith(rest, "/")
    && ResolveDots(Before(rest, PATH_ENDS)) == Before(rest, PATH_ENDS)
    && Before(From(rest, PATH_ENDS), {'#'}) != "?" && From(rest, {'#'}) != "#"
  }

  class ProtocolAddresses {
    const schemes: set<string>
    const topLevelDomains: set<string>
    var learned: string -> Option<string>

    /** What the checks on every declared protocol leave true of the two sets. */
    ghost predicate Valid() {
      (forall s :: s in schemes ==> SchemeOk(s)) && (forall d :: d in topLevelDomains ==> DomainOk(d))
    }

    constructor (protocols: seq<Descriptor>)
      ensures schemes == set d, i | d in protocols && 0 <= i < |d.schemes| :: d.schemes[i]
      ensures topLevelDomains == set d, i | d in protocols && 0 <= i < |d.topLevelDomains| :: d.topLevelDomains[i]
      ensures (forall d :: d in protocols ==> Described(d)) ==> Valid()
      ensures forall name :: learned(name) == None
    {
      schemes := set d, i | d in protocols && 0 <= i < |d.schemes| :: d.schemes[i];
      topLevelDomains := set d, i | d in protocols && 0 <= i < |d.topLevelDomains| :: d.topLevelDomains[i];
      learned := (name: string) => None;
    }

    method LearnSchemes(lookup: string -> Option<string>)
      modifies this
      ensures learned == lookup
    {
      learned := lookup;
    }

    function LearnedSchemeOf(served: Served): Option<string>
      reads this
    {
      if served.namespace.AddressScheme? then None
      else
        var scheme := learned(served.name);
        if scheme.Some? && scheme.value in schemes then scheme else None
    }

    function ShownScheme(served: Served): (scheme: Option<string>)
      reads this
      ensures Valid() && scheme.Some? && served.namespace.AddressScheme? && served.namespace.scheme in schemes ==> SchemeOk(scheme.value)
      ensures Valid() && scheme.Some? && served.namespace.TopLevelDomain? ==> SchemeOk(scheme.value)
    {
      if served.namespace.AddressScheme? then Some(served.namespace.scheme) else LearnedSchemeOf(served)
    }

    predicate RoutesToVerifier(host: string) {
      var labels := HostLabels(host);
      |labels| >= 2 && "" !in labels && (labels[|labels| - 1] in topLevelDomains || labels[|labels| - 1] == ADDRESS_SUFFIX)
    }

    function ServedName(host: string): (served: Option<Served>)
      ensures served.Some? && served.value.namespace.AddressScheme? ==> served.value.namespace.scheme in schemes
    {
      var labels := HostLabels(host);
      if "" in labels then None
      else if |labels| == 3 && labels[2] == ADDRESS_SUFFIX && labels[1] in schemes && IsDnsLabel(labels[0])
      then Some(Served(AddressScheme(labels[1]), NameFromLabel(labels[0])))
      else if |labels| >= 2 && labels[|labels| - 1] in topLevelDomains
      then Some(Served(TopLevelDomain(labels[|labels| - 1]), Join(labels, '.')))
      else None
    }

    /** The scheme whose endpoint a host is: `ipfs.orivon` for `ipfs`. */
    function SchemeEndpoint(host: string): Option<string> {
      var labels := HostLabels(host);
      if |labels| == 2 && labels[1] == ADDRESS_SUFFIX && labels[0] in schemes then Some(labels[0]) else None
    }

    function OriginFor(scheme: string, name: string): Option<string> {
      if scheme in schemes && LabelFor(name).Some? then Some("https://" + LabelFor(name).value + "." + scheme + "." + ADDRESS_SUFFIX) else None
    }

    function NameOrigin(name: string): Option<string> {
      var served := ServedName(name);
      if served.Some? && served.value.namespace.TopLevelDomain? then Some("https://" + served.value.name) else None
    }

    function ServedUrl(input: string): Option<string> {
      var parsed := ParseAddress(Trim(input));
      if parsed.None? then None
      else
        var a := parsed.value;
        if Lower(a.scheme) !in schemes || !IsAddressName(a.name) then None
        else
          var path := if StartsWith(a.rest, "/") then a.rest else "/" + a.rest;
          var origin := if NameOrigin(a.name).Some? then NameOrigin(a.name).value
                        else "https://" + Lower(a.scheme) + "." + ADDRESS_SUFFIX + "/" + a.name;
          var url := Parse(origin + path);
          if url.None? then None else Some(Href(url.value))
    }

    /** What is shown for a parsed URL without credentials, where it is shown as an address. */
    function ShownAddress(u: Url): Option<string>
      reads this
    {
      if u.scheme != "https" || u.port != "" then None
      else
        var tail := Shown(u.query) + Shown(u.fragment);
        var served := ServedName(u.host);
        if served.Some? && ShownScheme(served.value).Some?
        then Some(ShownScheme(served.value).value + "://" + served.value.name + u.path + tail)
        else
          var scheme, parts := SchemeEndpoint(u.host), EndpointParts(u.path);
          if scheme.None? || parts.None? then None
          else Some(scheme.value + "://" + parts.value.0 + parts.value.1 + tail)
    }

    function DisplayUrl(url: string): string
      reads this
    {
      var parsed := Parse(url);
      if parsed.None? then url
      else
        var u := parsed.value.(credentials := "");
        var bare := if parsed.value.credentials != "" then Href(u) else url;
        var shown := ShownAddress(u);
        if shown.Some? then shown.value else bare
    }

    function DisplayOrigin(origin: string): string
      reads this
    {
      var parsed := Parse(origin);
      if parsed.None? || parsed.value.scheme != "https" || parsed.value.port != "" then origin
      else
        var served := ServedName(parsed.value.host);
        if served.None? || ShownScheme(served.value).None? then origin
        else ShownScheme(served.value).value + "://" + served.value.name
    }

    // -------------------------------------------------------------- routing

    /** Every host with a name or an endpoint is one the verifier is sent, and no host has both. */
    lemma ServedHostsAreRouted(host: string)
      requires Valid()
      ensures ServedName(host).Some? || SchemeEndpoint(host).Some? ==> RoutesToVerifier(host)
      ensures ServedName(host).None? || SchemeEndpoint(host).None?
    {
      hide IsDomainName;
      var labels := HostLabels(host);
      if SchemeEndpoint(host).Some? {
        assert labels == [labels[0], labels[1]];
        assert SchemeOk(labels[0]);
        assert labels[1] == ADDRESS_SUFFIX;
        assert ADDRESS_SUFFIX in topLevelDomains ==> DomainOk(ADDRESS_SUFFIX);
      }
    }

    /** No two hosts serve one name of one namespace. */
    lemma NamesHaveOneHost(host: string, other: string)
      requires ServedName(host).Some? && ServedName(host) == ServedName(other)
      ensures Lower(host) == Lower(other)
    {
      JoinSplit(Lower(host), '.');
      JoinSplit(Lower(other), '.');
      var a, b := HostLabels(host), HostLabels(other);
      if ServedName(host).value.namespace.AddressScheme? {
        NoDotInDnsLabel(a[0]);
        NoDotInDnsLabel(b[0]);
        CodesBack(a[0]);
        CodesBack(b[0]);
        assert a == [a[0], a[1], a[2]] && b == [b[0], b[1], b[2]];
      }
    }

    /** The host of an origin gives back the scheme and the name the origin is for. */
    lemma OriginServesItsName(scheme: string, name: string)
      requires Valid() && OriginFor(scheme, name).Some?
      ensures var host := LabelFor(name).value + "." + scheme + "." + ADDRESS_SUFFIX;
        && OriginFor(scheme, name).value == "https://" + host
        && ServedName(host) == Some(Served(AddressScheme(scheme), name))
        && Parse("https://" + host) == Some(Url("https", "", host, "", "/", "", ""))
        && DisplayOrigin(OriginFor(scheme, name).value) == scheme + "://" + name
    {
      hide Parse, Split, Hyphenated, IsReservedScheme, Lower;
      var coded := LabelFor(name).value;
      LabelForIsExact(name);
      var host := coded + "." + scheme + "." + ADDRESS_SUFFIX;
      assert SchemeOk(scheme);
      LabelsOfOrigin(coded, scheme);
      PlainHostParses(host);
      assert OriginFor(scheme, name).value == "https://" + host;
    }

    /** Every name that a scheme's host serves has that host for its origin, but where the host reads as punycode; then it has none. */
    lemma ServedNamesHaveOrigins(host: string, scheme: string, name: string)
      requires Valid() && ServedName(host) == Some(Served(AddressScheme(scheme), name))
      ensures OriginFor(scheme, name) == if StartsWith(Lower(host), "xn--") then None else Some("https://" + Lower(host))
    {
      hide ServedName, Lower, Hyphenated, NameFromLabel, IsDnsLabel, SchemeOk, DomainOk, StartsWith;
      SchemeNamesAre(host, scheme, name);
      var coded :| IsDnsLabel(coded) && Lower(host) == coded + "." + scheme + ".orivon" && name == NameFromLabel(coded);
      NoDotInDnsLabel(coded);
      CodesBack(coded);
      PrefixOfLabel(coded, "." + scheme + ".orivon");
      assert coded + "." + scheme + ".orivon" == coded + ("." + scheme + ".orivon");
      assert "https://" + coded + "." + scheme + "." + ADDRESS_SUFFIX == "https://" + (coded + "." + scheme + ".orivon");
      if !StartsWith(coded, "xn--") {
        LabelsAreOfTheirNames(coded);
      }
    }

    /** A top-level-domain name's own origin is shown under the scheme learned for it, if a protocol serves that, and else as it is. */
    lemma NameOriginIsShown(host: string)
      requires IsPlainHost(host) && Lower(host) == host && ServedName(host).Some? && ServedName(host).value.namespace.TopLevelDomain?
      ensures NameOrigin(host) == Some("https://" + host)
      ensures DisplayOrigin("https://" + host)
           == if learned(host).Some? && learned(host).value in schemes then learned(host).value + "://" + host else "https://" + host
    {
      hide Parse;
      JoinSplit(Lower(host), '.');
      PlainHostParses(host);
    }

    // -------------------------------------------------------------- what hosts serve, and what URLs are made and shown

    /** A host goes to the verifier iff it is a name, with no empty label, below a top-level domain or the suffix all schemes share. */
    lemma RoutedHostsAre(host: string)
      ensures RoutesToVerifier(host) <==>
                exists labels: seq<string> :: |labels| >= 2 && IsHostOf(Lower(host), labels) && (labels[|labels| - 1] in topLevelDomains || labels[|labels| - 1] == "orivon")
    {
      hide Lower, HostLabels, IsHostOf;
      forall labels: seq<string> | |labels| >= 2
        ensures IsHostOf(Lower(host), labels) <==> labels == HostLabels(host) && "" !in labels
      {
        LabelsOfHost(host, labels);
      }
    }

    /** The names that hosts serve: of a scheme the one whose label comes first, of a top-level domain the whole host. */
    lemma ServedNamesAre(host: string, served: Served)
      requires Valid()
      ensures ServedName(host) == Some(served) <==>
                match served.namespace
                case AddressScheme(scheme) =>
                  scheme in schemes
                  && exists coded :: IsDnsLabel(coded) && Lower(host) == coded + "." + scheme + ".orivon" && served.name == NameFromLabel(coded)
                case TopLevelDomain(d) =>
                  d in topLevelDomains && served.name == Lower(host)
                  && exists labels: seq<string> :: |labels| >= 2 && IsHostOf(Lower(host), labels) && labels[|labels| - 1] == d
    {
      match served.namespace
      case AddressScheme(scheme) => SchemeNamesAre(host, scheme, served.name);
      case TopLevelDomain(d) => DomainNamesAre(host, d, served.name);
    }

    lemma SchemeNamesAre(host: string, scheme: string, name: string)
      requires Valid()
      ensures ServedName(host) == Some(Served(AddressScheme(scheme), name)) <==>
                scheme in schemes && exists coded :: IsDnsLabel(coded) && Lower(host) == coded + "." + scheme + ".orivon" && name == NameFromLabel(coded)
    {
      hide HostLabels, Lower, SchemeOk, IsDnsLabel, DomainOk, NameFromLabel;
      var own := HostLabels(host);
      assert own == Split(Lower(host), '.') by { HostLabelsAre(host); }
      JoinSplit(Lower(host), '.');
      forall coded | IsDnsLabel(coded) && scheme in schemes && Lower(host) == coded + "." + scheme + ".orivon"
        ensures own == [coded, scheme, "orivon"] && "" !in own
      {
        assert SchemeOk(scheme);
        SchemeHostLabels(coded, scheme, Lower(host));
      }
      if ServedName(host) == Some(Served(AddressScheme(scheme), name)) {
        assert own == [own[0], scheme, "orivon"];
        ThreeLabels(own[0], scheme, Lower(host), own);
        assert IsDnsLabel(own[0]) && Lower(host) == own[0] + "." + scheme + ".orivon";
      }
    }

    lemma DomainNamesAre(host: string, d: string, name: string)
      requires Valid()
      ensures ServedName(host) == Some(Served(TopLevelDomain(d), name)) <==>
                d in topLevelDomains && name == Lower(host)
                && exists labels: seq<string> :: |labels| >= 2 && IsHostOf(Lower(host), labels) && labels[|labels| - 1] == d
    {
      hide HostLabels, Lower, SchemeOk, IsDnsLabel, DomainOk, IsHostOf, NameFromLabel;
      var own := HostLabels(host);
      assert own != [] && Join(own, '.') == Lower(host) by { HostLabelsAre(host); JoinSplit(Lower(host), '.'); }
      forall labels: seq<string> | |labels| >= 2
        ensures IsHostOf(Lower(host), labels) <==> labels == own && "" !in labels
      {
        LabelsOfHost(host, labels);
      }
      if d in topLevelDomains && own[|own| - 1] == d {
        assert DomainOk(d);
        SuffixIsNoDomain(d);
      }
    }

    lemma HostLabelsAre(host: string)
      ensures HostLabels(host) == Split(Lower(host), '.')
    {
    }

    // -------------------------------------------------------------- showing what is shown

    /** A shown address is shown again as it is, unless its name reads as credentials. */
    lemma DisplayOfShown(scheme: string, name: string, rest: string)
      requires SchemeOk(scheme) && Free(name, AUTHORITY_ENDS) && StartsWith(rest, "/")
      ensures var out := scheme + "://" + name + rest; DisplayUrl(out) == out <==> !ReadsAsCredentials(name)
    {
      hide ParseAfterScheme, ReadsAsCredentials, IsPort, IsSchemeName, IsReservedScheme;
      var out := scheme + "://" + name + rest;
      ShownParses(scheme, name, rest);
      if Parse(out).Some? {
        var p := Parse(out).value;
        assert ShownAddress(p.(credentials := "")) == None;
        if p.credentials != "" {
          ParseIsCanonical(out);
          hide Parse, Href;
          assert Credentials("") == "";
          ParseHref(p.(credentials := ""));
        }
      }
    }

    /** What names the endpoint of a scheme is asked for, where the URL is shown by its endpoint. */
    function EndpointName(url: string): Option<string>
      reads this
    {
      var parsed := Parse(url);
      if parsed.None? || parsed.value.scheme != "https" || parsed.value.port != "" then None
      else
        var served, parts := ServedName(parsed.value.host), EndpointParts(parsed.value.path);
        if (served.Some? && ShownScheme(served.value).Some?) || SchemeEndpoint(parsed.value.host).None? || parts.None? then None
        else Some(parts.value.0)
    }

    /**
     Showing a URL twice is showing it once, but where a scheme's endpoint is asked for a name that reads
     as credentials: shown as `scheme://user@host/`, it loses the user when it is shown again.
     */
    lemma DisplayTwiceIsOnce(url: string)
      requires Valid()
      ensures DisplayUrl(DisplayUrl(url)) == DisplayUrl(url)
         <==> !(EndpointName(url).Some? && ReadsAsCredentials(EndpointName(url).value))
    {
      hide Href, ReadsAsCredentials, EndpointParts, ServedName, SchemeEndpoint, Canonical, SchemeOk, Free, ShownScheme;
      var parsed := Parse(url);
      if parsed.Some? {
        hide Parse;
        var u := parsed.value.(credentials := "");
        ParseIsCanonical(url);
        WithoutCredentials(parsed.value);
        if ShownAddress(u).Some? {
          var served := ServedName(u.host);
          if served.Some? && ShownScheme(served.value).Some? {
            ServedShownAgain(u);
          } else {
            EndpointShownAgain(u);
          }
        } else if parsed.value.credentials != "" {
          ParseHref(u);
        }
      }
    }

    /** Such a name is shown with its user the first time and without it the second, whatever slashes and port the URL spells out. */
    lemma UserIsLost(scheme: string, slashes: string, port: string, user: string, host: string)
      requires Valid() && scheme in schemes && IsPort(port) && PrintedPort("https", port) == "" && forall i :: 0 <= i < |slashes| ==> slashes[i] == '/'
      requires Free(user, AUTHORITY_ENDS) && user != "" && user != ":" && Free(host, HOST_STOPS) && host != ""
      ensures DisplayUrl("https:" + slashes + (scheme + "." + ADDRESS_SUFFIX + port + "/" + user + "@" + host + "/")) == scheme + "://" + user + "@" + host + "/"
      ensures DisplayUrl(scheme + "://" + user + "@" + host + "/") == scheme + "://" + host + "/"
    {
      hide Parse, ResolveDots, PlainPath, EndpointParts, ServedName, SchemeEndpoint, IsReservedScheme, Canonical, IsPort, PrintedPort;
      var name, own := user + "@" + host, scheme + "." + ADDRESS_SUFFIX;
      var path, rest := "/" + name + "/", own + port + "/" + user + "@" + host + "/";
      EndpointHost(scheme);
      SlashIsPlain();
      NameThenPath(name, "/");
      PathIsFree(name);
      ResolveDotsIsPlain(path);
      assert "https://" + rest == "https://" + own + port + (path + "" + "");
      ParseHttps(own, port, path, "", "");
      assert rest == own + "" + (port + "/" + user + "@" + host + "/");
      FirstOf(own, "", port + "/" + user + "@" + host + "/", HOST_STOPS);
      SlashesDoNotMatter(slashes, rest);
      UserIsShown(scheme, user, host);
    }

    lemma UserIsShown(scheme: string, user: string, host: string)
      requires Valid() && scheme in schemes
      requires Free(user, AUTHORITY_ENDS) && user != "" && user != ":" && Free(host, HOST_STOPS) && host != ""
      ensures DisplayUrl(scheme + "://" + user + "@" + host + "/") == scheme + "://" + host + "/"
    {
      hide Parse, PlainPath, Split, Href;
      var u := Url(scheme, user + "@", host, "", "/", "", "");
      assert SchemeOk(scheme);
      SchemeNamesAreLower(scheme);
      SlashIsPlain();
      assert Credentials(u.credentials) == u.credentials && u.credentials[..|user|] == user;
      assert PrintedPort(scheme, "") == "" && Free(u.credentials, AUTHORITY_ENDS) && Free("/", PATH_ENDS);
      SchemeNamesAreNotSpecial(scheme);
      hide Credentials, IsScheme, Lower, SchemeOk;
      assert Canonical(u);
      ParseHref(u);
      PrintedWithUser(scheme, user, host);
    }

    /** The endpoint of `ipfs`, asked for `user@host`, also with no slashes, or with the port written out with a zero before it. */
    lemma IpfsUserIsLost()
      requires Valid() && "ipfs" in schemes
      ensures DisplayUrl("https://ipfs.orivon/user@host/") == "ipfs://user@host/"
      ensures DisplayUrl("https:ipfs.orivon/user@host/") == DisplayUrl("https://ipfs.orivon:0443/user@host/") == "ipfs://user@host/"
      ensures DisplayUrl("ipfs://user@host/") == "ipfs://host/"
    {
      hide DisplayUrl, IsPort, PrintedPort, Free;
      SpelledOutPort();
      SpelledOutNames();
      SpelledOutUrl();
      SpelledOutWithoutSlashes();
      SpelledOutWithPort();
      UserIsLost("ipfs", "//", "", "user", "host");
      UserIsLost("ipfs", "", "", "user", "host");
      UserIsLost("ipfs", "//", ":0443", "user", "host");
    }

    lemma ServedShownAgain(u: Url)
      requires Valid() && Canonical(u) && u.scheme == "https" && ServedName(u.host).Some? && ShownScheme(ServedName(u.host).value).Some?
      ensures var out := ShownScheme(ServedName(u.host).value).value + "://" + ServedName(u.host).value.name + u.path + (Shown(u.query) + Shown(u.fragment));
        DisplayUrl(out) == out
    {
      hide DisplayUrl, ReadsAsCredentials, IsSchemeName, IsReservedScheme, Lower, Split, NoDots;
      var scheme, name := ShownScheme(ServedName(u.host).value).value, ServedName(u.host).value.name;
      var rest := u.path + (Shown(u.query) + Shown(u.fragment));
      WithoutCredentials(u);
      ServedNameIsPlain(u.host);
      HttpsHasPath(u);
      DisplayOfShown(scheme, name, rest);
      assert scheme + "://" + name + u.path + (Shown(u.query) + Shown(u.fragment)) == scheme + "://" + name + rest;
    }

    lemma EndpointShownAgain(u: Url)
      requires Valid() && Canonical(u) && u.scheme == "https" && SchemeEndpoint(u.host).Some? && EndpointParts(u.path).Some?
      ensures var out := SchemeEndpoint(u.host).value + "://" + EndpointParts(u.path).value.0 + EndpointParts(u.path).value.1 + (Shown(u.query) + Shown(u.fragment));
        DisplayUrl(out) == out <==> !ReadsAsCredentials(EndpointParts(u.path).value.0)
    {
      hide DisplayUrl, ReadsAsCredentials, SchemeOk, Canonical, EndpointParts, SchemeEndpoint, PlainPath, Free;
      var scheme, name, path := SchemeEndpoint(u.host).value, EndpointParts(u.path).value.0, EndpointParts(u.path).value.1;
      var rest := path + (Shown(u.query) + Shown(u.fragment));
      EndpointIsServed(u.host);
      HttpsHasPath(u);
      EndpointPartsArePlain(u.path);
      DisplayOfShown(scheme, name, rest);
      assert scheme + "://" + name + path + (Shown(u.query) + Shown(u.fragment)) == scheme + "://" + name + rest;
    }

    lemma EndpointIsServed(host: string)
      requires Valid() && SchemeEndpoint(host).Some?
      ensures SchemeOk(SchemeEndpoint(host).value)
    {
    }

    /** A served name has nothing in it that a URL parser would cut at. */
    lemma ServedNameIsPlain(host: string)
      requires ServedName(host).Some? && Free(host, HOST_STOPS)
      ensures Free(ServedName(host).value.name, AUTHORITY_ENDS) && !ReadsAsCredentials(ServedName(host).value.name)
    {
      LowerKeepsFree(host, HOST_STOPS);
      JoinSplit(Lower(host), '.');
      var labels, name := HostLabels(host), ServedName(host).value.name;
      if ServedName(host).value.namespace.AddressScheme? {
        DecodedIsPlain(labels[0]);
      }
      assert Free(name, AUTHORITY_ENDS + {'@'});
      hide Free;
      NoAtNoCredentials(name);
    }

    // -------------------------------------------------------------- addresses come back

    lemma EndpointHost(scheme: string)
      requires Valid() && scheme in schemes
      ensures var host := scheme + "." + ADDRESS_SUFFIX;
        && host != "" && Lower(host) == host && Free(host, HOST_STOPS)
        && ServedName(host) == None && SchemeEndpoint(host) == Some(scheme)
    {
      var host := scheme + "." + ADDRESS_SUFFIX;
      assert SchemeOk(scheme);
      LabelsOfEndpoint(scheme);
      assert ADDRESS_SUFFIX in topLevelDomains ==> DomainOk(ADDRESS_SUFFIX);
      hide SchemeOk, IsDomainName, Free, Lower, HostLabels;
    }

    /** What a served address is shown as: the endpoint's URL where dots took its name away, else what is left of it. */
    lemma ServedThenShown(input: string)
      requires Valid() && ServedUrl(input).Some? && NameOrigin(ParseAddress(Trim(input)).value.name).None?
      ensures ParseAddress(Trim(input)).Some? && Lower(ParseAddress(Trim(input)).value.scheme) in schemes
      ensures var a := ParseAddress(Trim(input)).value;
        var rest, scheme := if StartsWith(a.rest, "/") then a.rest else "/" + a.rest, Lower(a.scheme);
        var path, query, fragment := ResolveDots("/" + a.name + Before(rest, PATH_ENDS)), Before(From(rest, PATH_ENDS), {'#'}), From(rest, {'#'});
        && PlainPath(path)
        && DisplayUrl(ServedUrl(input).value)
           == (if EndpointParts(path).Some?
               then scheme + "://" + EndpointParts(path).value.0 + EndpointParts(path).value.1 + (Shown(query) + Shown(fragment))
               else "https://" + scheme + "." + ADDRESS_SUFFIX + path + query + fragment)
    {
      hide Parse, EndpointParts, ResolveDots, PlainPath, Split, IsAddressName, Canonical, IsSchemeName, IsReservedScheme, Before, From, Href, Lower, Trim;
      var a := ParseAddress(Trim(input)).value;
      AddressParts(Trim(input));
      hide ParseAddress;
      var rest, scheme := if StartsWith(a.rest, "/") then a.rest else "/" + a.rest, Lower(a.scheme);
      var host := scheme + "." + ADDRESS_SUFFIX;
      EndpointUrl(scheme, a.name, rest);
      assert "https://" + scheme + "." + ADDRESS_SUFFIX + "/" + a.name + rest == "https://" + host + ("/" + a.name + rest);
      EndpointShown(scheme, Parse("https://" + host + ("/" + a.name + rest)).value);
    }

    lemma EndpointUrl(scheme: string, name: string, rest: string)
      requires Valid() && scheme in schemes && Free(name, AUTHORITY_ENDS) && name != "" && StartsWith(rest, "/")
      ensures var path, query, fragment := ResolveDots("/" + name + Before(rest, PATH_ENDS)), Before(From(rest, PATH_ENDS), {'#'}), From(rest, {'#'});
        var u := Url("https", "", scheme + "." + ADDRESS_SUFFIX, "", path, query, fragment);
        && Parse("https://" + (scheme + "." + ADDRESS_SUFFIX) + ("/" + name + rest)) == Some(u)
        && PlainPath(path) && Canonical(u)
    {
      hide Parse, ResolveDots, PlainPath, Split, Canonical, Before, From, Lower;
      var query, fragment := Before(From(rest, PATH_ENDS), {'#'}), From(rest, {'#'});
      var host, path0 := scheme + "." + ADDRESS_SUFFIX, "/" + name + Before(rest, PATH_ENDS);
      EndpointHost(scheme);
      TailIsCanonical(rest);
      assert Free(path0, PATH_ENDS);
      hide Free;
      assert "/" + name + rest == path0 + query + fragment;
      assert "https://" + host + "" + (path0 + query + fragment) == "https://" + host + (path0 + query + fragment);
      ParseHttps(host, "", path0, query, fragment);
      ResolveDotsIsPlain(path0);
      ParseIsCanonical("https://" + host + (path0 + query + fragment));
    }

    lemma EndpointShown(scheme: string, u: Url)
      requires Valid() && scheme in schemes && Canonical(u)
      requires u.scheme == "https" && u.credentials == "" && u.port == "" && u.host == scheme + "." + ADDRESS_SUFFIX
      ensures DisplayUrl(Href(u))
           == (if EndpointParts(u.path).Some?
               then scheme + "://" + EndpointParts(u.path).value.0 + EndpointParts(u.path).value.1 + (Shown(u.query) + Shown(u.fragment))
               else "https://" + scheme + "." + ADDRESS_SUFFIX + u.path + u.query + u.fragment)
    {
      hide Parse, EndpointParts, Canonical, ServedName, SchemeEndpoint;
      EndpointHost(scheme);
      ParseHref(u);
      assert Href(u) == "https://" + scheme + "." + ADDRESS_SUFFIX + u.path + u.query + u.fragment;
    }

    /**
     An address of a scheme that is served, with a name an address may have, is the URL of the name's own host where that is below
     a top-level domain, and else of the scheme's endpoint with the name first in its path; dots resolved, and with a path always.
     */
    lemma ServedUrlIs(input: string, a: Address)
      requires Valid() && ParseAddress(Trim(input)) == Some(a)
      ensures ServedUrl(input).Some? <==> Lower(a.scheme) in schemes && IsAddressName(a.name)
      ensures var rest := if StartsWith(a.rest, "/") then a.rest else "/" + a.rest;
        var path, query, fragment := Before(rest, PATH_ENDS), Before(From(rest, PATH_ENDS), {'#'}), From(rest, {'#'});
        var named := ServedName(a.name).Some? && ServedName(a.name).value.namespace.TopLevelDomain?;
        ServedUrl(input).Some? ==>
          ServedUrl(input).value
          == if named then "https://" + Lower(a.name) + (ResolveDots(path) + query + fragment)
             else "https://" + (Lower(a.scheme) + "." + ADDRESS_SUFFIX) + (ResolveDots("/" + a.name + path) + query + fragment)
    {
      hide Parse, Href, Trim, ParseAddress, ServedName, ResolveDots, IsAddressName, Lower, Before, From, Free, NameOrigin, Canonical, PlainPath;
      AddressParts(Trim(input));
      var rest := if StartsWith(a.rest, "/") then a.rest else "/" + a.rest;
      NameOriginIs(a.name);
      if Lower(a.scheme) in schemes && IsAddressName(a.name) {
        if NameOrigin(a.name).Some? {
          NamedUrl(a.name, rest);
        } else {
          UrlAtEndpoint(Lower(a.scheme), a.name, rest);
        }
      }
    }

    lemma NameOriginIs(name: string)
      ensures NameOrigin(name)
           == if ServedName(name).Some? && ServedName(name).value.namespace.TopLevelDomain? then Some("https://" + Lower(name)) else None
    {
      hide Lower;
      JoinSplit(Lower(name), '.');
    }

    lemma UrlAtEndpoint(scheme: string, name: string, rest: string)
      requires Valid() && scheme in schemes && Free(name, AUTHORITY_ENDS) && name != "" && StartsWith(rest, "/")
      ensures var path, query, fragment := Before(rest, PATH_ENDS), Before(From(rest, PATH_ENDS), {'#'}), From(rest, {'#'});
        var url := Parse("https://" + scheme + "." + ADDRESS_SUFFIX + "/" + name + rest);
        && url.Some?
        && Href(url.value) == "https://" + (scheme + "." + ADDRESS_SUFFIX) + (ResolveDots("/" + name + path) + query + fragment)
    {
      hide Parse, ResolveDots, Before, From, Free, Canonical, PlainPath;
      var host := scheme + "." + ADDRESS_SUFFIX;
      EndpointUrl(scheme, name, rest);
      EndpointText(scheme, name, rest);
    }

    lemma NamedUrl(name: string, rest: string)
      requires IsAddressName(name) && StartsWith(rest, "/")
      ensures var path, query, fragment := Before(rest, PATH_ENDS), Before(From(rest, PATH_ENDS), {'#'}), From(rest, {'#'});
        && Parse("https://" + Lower(name) + rest) == Some(Url("https", "", Lower(name), "", ResolveDots(path), query, fragment))
        && Href(Url("https", "", Lower(name), "", ResolveDots(path), query, fragment)) == "https://" + Lower(name) + (ResolveDots(path) + query + fragment)
    {
      hide Parse, ResolveDots, Before, From, Lower, ServedName, Free, IsAddressName;
      var path, query, fragment := Before(rest, PATH_ENDS), Before(From(rest, PATH_ENDS), {'#'}), From(rest, {'#'});
      AddressNameIsHost(name);
      TailIsCanonical(rest);
      SlashIsInPath(rest);
      ParseHttps(Lower(name), "", path, query, fragment);
      assert "https://" + Lower(name) + "" + (path + query + fragment) == "https://" + Lower(name) + rest;
    }

    /** The scheme a host's name is shown under: its own, or the one learned for it where that is served. */
    ghost function SchemeShownFor(host: string): Option<string>
      reads this
    {
      match ServedName(host)
      case None => None
      case Some(served) =>
        match served.namespace
        case AddressScheme(scheme) => Some(scheme)
        case TopLevelDomain(_) => match learned(served.name) case None => None case Some(scheme) => if scheme in schemes then Some(scheme) else None
    }

    lemma EndpointHostIs(host: string, scheme: string)
      requires Valid()
      ensures SchemeEndpoint(host) == Some(scheme) <==> scheme in schemes && Lower(host) == scheme + ".orivon"
    {
      var labels := [scheme, "orivon"];
      assert labels[1..] == ["orivon"] && Join(labels, '.') == scheme + "." + "orivon" == scheme + ".orivon";
      JoinSplit(Lower(host), '.');
      if scheme in schemes {
        assert SchemeOk(scheme);
        SplitJoin(labels, '.');
      }
      if SchemeEndpoint(host) == Some(scheme) {
        assert HostLabels(host) == labels;
      }
    }

    /**
     What a URL is shown as. Over https and its own port: a host with a name as that name under the scheme shown for it, with the
     path, query and fragment; a scheme's endpoint as the name that is first in its path, with the rest. Any other as it is. Credentials
     are never shown, and a query or fragment of only its mark is not.
     */
    lemma DisplayUrlIs(u: Url)
      requires Valid() && Canonical(u)
      ensures var bare, path := Href(u.(credentials := "")), u.path;
        var tail := (if u.query == "?" then "" else u.query) + (if u.fragment == "#" then "" else u.fragment);
        DisplayUrl(Href(u))
        == if u.scheme != "https" || u.port != "" then bare
           else if SchemeShownFor(u.host).Some? then SchemeShownFor(u.host).value + "://" + ServedName(u.host).value.name + path + tail
           else if SchemeEndpoint(u.host).Some? && Before(path[1..], {'/'}) != ""
           then SchemeEndpoint(u.host).value + "://" + Before(path[1..], {'/'}) + (if From(path[1..], {'/'}) == "" then "/" else From(path[1..], {'/'})) + tail
           else bare
    {
      hide Parse, Href, ServedName, SchemeEndpoint, Before, From, PlainPath;
      ParseHref(u);
      OnlyMarks(u);
      hide Canonical;
    }

    /** Serving an address and showing its URL gives the address back exactly when the address is plain. */
    lemma AddressComesBackIffPlain(input: string)
      requires Valid() && ServedUrl(input).Some? && NameOrigin(ParseAddress(Trim(input)).value.name).None?
      ensures DisplayUrl(ServedUrl(input).value) == Trim(input) <==> IsPlainAddress(Trim(input))
    {
      hide ServedUrl, DisplayUrl, ParseAddress, IsPlainRest, ResolveDots, PlainPath, EndpointParts, Before, From, Lower, Trim, SchemeOk, Free, Shown;
      var t := Trim(input);
      ServedThenShown(input);
      AddressParts(t);
      var a := ParseAddress(t).value;
      var rest, scheme := if StartsWith(a.rest, "/") then a.rest else "/" + a.rest, Lower(a.scheme);
      assert SchemeOk(scheme);
      if IsPlainAddress(t) {
        PlainAddressPath(a.name, a.rest);
        LastTwo(scheme + "://" + a.name, Before(rest, PATH_ENDS), Shown(Before(From(rest, PATH_ENDS), {'#'})) + Shown(From(rest, {'#'})));
      } else if DisplayUrl(ServedUrl(input).value) == t {
        ShownAddressIsPlain(t, scheme, rest, ResolveDots("/" + a.name + Before(rest, PATH_ENDS)));
      }
    }
  }

  lemma OnlyMarks(u: Url)
    requires Canonical(u)
    ensures Shown(u.query) == (if u.query == "?" then "" else u.query) && Shown(u.fragment) == (if u.fragment == "#" then "" else u.fragment)
    ensures u.scheme == "https" ==> u.path != "" && u.path[0] == '/'
  {
  }

  lemma EndpointText(scheme: string, name: string, rest: string)
    ensures "https://" + scheme + "." + ADDRESS_SUFFIX + "/" + name + rest == "https://" + (scheme + "." + ADDRESS_SUFFIX) + ("/" + name + rest)
  {
  }

  lemma SlashIsInPath(rest: string)
    requires StartsWith(rest, "/")
    ensures Before(rest, PATH_ENDS) != ""
  {
  }

  lemma AddressNameIsHost(name: string)
    requires IsAddressName(name)
    ensures Lower(name) != "" && Lower(Lower(name)) == Lower(name) && Free(Lower(name), HOST_STOPS)
  {
    LowerTwice(name);
  }

  /** A host of these labels, none of them empty, with dots between them. */
  ghost predicate IsHostOf(host: string, labels: seq<string>) {
    host == Join(labels, '.') && forall i :: 0 <= i < |labels| ==> labels[i] != "" && Free(labels[i], {'.'})
  }

  lemma LabelsOfHost(host: string, labels: seq<string>)
    requires labels != []
    ensures IsHostOf(Lower(host), labels) <==> labels == HostLabels(host) && "" !in labels
  {
    hide Lower, Split, Join, Free;
    var h := Lower(host);
    JoinSplit(h, '.');
    if h == Join(labels, '.') && forall i :: 0 <= i < |labels| ==> Free(labels[i], {'.'}) {
      SplitJoin(labels, '.');
    }
  }

  lemma SchemeHostLabels(coded: string, scheme: string, host: string)
    requires IsDnsLabel(coded) && SchemeOk(scheme) && host == coded + "." + scheme + ".orivon"
    ensures Split(host, '.') == [coded, scheme, "orivon"] && coded != "" && scheme != ""
  {
    var labels := [coded, scheme, "orivon"];
    assert Join(labels[2..], '.') == "orivon";
    assert labels[1..] == [scheme, "orivon"] && labels[1..][1..] == ["orivon"];
    assert Join(labels[1..], '.') == scheme + "." + "orivon";
    assert Join(labels, '.') == coded + "." + (scheme + "." + "orivon");
    assert coded + "." + (scheme + "." + "orivon") == host;
    SplitJoin(labels, '.');
  }

  lemma ThreeLabels(coded: string, scheme: string, host: string, labels: seq<string>)
    requires labels == [coded, scheme, "orivon"] && host == Join(labels, '.')
    ensures host == coded + "." + scheme + ".orivon"
  {
    assert Join(labels[2..], '.') == "orivon";
    assert labels[1..] == [scheme, "orivon"] && labels[1..][1..] == ["orivon"];
    assert Join(labels[1..], '.') == scheme + "." + "orivon";
  }

  lemma PrefixOfLabel(coded: string, rest: string)
    requires rest != "" && rest[0] == '.'
    ensures StartsWith(coded + rest, "xn--") <==> StartsWith(coded, "xn--")
  {
    var all := coded + rest;
    assert all[|coded|] == '.';
    if |coded| >= 4 {
      assert all[..4] == coded[..4];
    }
  }

  lemma SuffixIsNoDomain(d: string)
    requires DomainOk(d)
    ensures d != ADDRESS_SUFFIX
  {
  }

  lemma ShownAddressIsPlain(t: string, scheme: string, rest: string, path: string)
    requires ParseAddress(t).Some? && SchemeOk(scheme) && Lower(ParseAddress(t).value.scheme) == scheme
    requires PlainPath(path) && StartsWith(rest, "/")
    requires var query, fragment := Before(From(rest, PATH_ENDS), {'#'}), From(rest, {'#'});
      t == if EndpointParts(path).Some?
           then scheme + "://" + EndpointParts(path).value.0 + EndpointParts(path).value.1 + (Shown(query) + Shown(fragment))
           else "https://" + scheme + "." + ADDRESS_SUFFIX + path + query + fragment
    ensures IsPlainAddress(t)
  {
    hide ParseAddress, IsPlainAddress, ResolveDots, PlainPath, EndpointParts, Before, From, Lower, SchemeOk, Free, Split;
    var query, fragment := Before(From(rest, PATH_ENDS), {'#'}), From(rest, {'#'});
    TailIsCanonical(rest);
    if EndpointParts(path).Some? {
      var name, left := EndpointParts(path).value.0, EndpointParts(path).value.1;
      ShownIsPlain(scheme, path, query, fragment);
      LastTwo(scheme + "://" + name, left, Shown(query) + Shown(fragment));
    } else {
      var host := scheme + "." + ADDRESS_SUFFIX;
      AfterHttps(scheme, path, query, fragment);
      NotHttps(t, host + path + query + fragment);
    }
  }

  lemma LastTwo(a: string, b: string, c: string)
    ensures a + b + c == a + (b + c)
  {
  }

  lemma AfterHttps(scheme: string, path: string, query: string, fragment: string)
    ensures "https://" + scheme + "." + ADDRESS_SUFFIX + path + query + fragment == "https://" + (scheme + "." + ADDRESS_SUFFIX + path + query + fragment)
  {
  }

  lemma NotHttps(t: string, rest: string)
    requires ParseAddress(t).Some? && t == "https://" + rest
    ensures !SchemeOk(Lower(ParseAddress(t).value.scheme))
  {
    hide ParseAfterScheme;
    assert t == "https" + ("://" + rest);
    SchemeCut("https", rest);
    HttpsIsLower();
  }

  /** An address is its parts, each cut where the next begins. */
  lemma AddressParts(t: string)
    requires ParseAddress(t).Some?
    ensures var a := ParseAddress(t).value;
      && t == Print(a) && a.name != "" && Free(a.name, AUTHORITY_ENDS)
      && (a.rest == "" || a.rest[0] in AUTHORITY_ENDS)
  {
    Cut(t, {':'});
    var rest := From(t, {':'});
    Cut(rest[3..], AUTHORITY_ENDS);
    assert rest == "://" + rest[3..];
  }

  /** A text is an address iff it is `scheme://name` with what follows, of letters and digits, of no `/`, `?` or `#`, and no white space after the scheme. */
  lemma AddressIsItsParts(t: string, a: Address)
    ensures ParseAddress(t) == Some(a) <==>
            && t == a.scheme + "://" + a.name + a.rest && a.name != "" && Free(a.name, {'/', '?', '#'})
            && (a.rest == "" || a.rest[0] in {'/', '?', '#'})
            && IsAddressScheme(a.scheme) && NoSpace(a.name) && NoSpace(a.rest)
  {
    hide ParseAddress, IsAddressScheme, NoSpace, Free;
    if ParseAddress(t) == Some(a) {
      AddressHasItsParts(t, a);
    }
    if t == a.scheme + "://" + a.name + a.rest && a.name != "" && Free(a.name, AUTHORITY_ENDS)
       && (a.rest == "" || a.rest[0] in AUTHORITY_ENDS) && IsAddressScheme(a.scheme) && NoSpace(a.name) && NoSpace(a.rest) {
      PartsMakeAnAddress(a);
    }
  }

  lemma AddressHasItsParts(t: string, a: Address)
    requires ParseAddress(t) == Some(a)
    ensures t == Print(a) && a.name != "" && Free(a.name, AUTHORITY_ENDS) && (a.rest == "" || a.rest[0] in AUTHORITY_ENDS)
    ensures IsAddressScheme(a.scheme) && NoSpace(a.name) && NoSpace(a.rest)
  {
    hide ParseAddress, Before, From, IsAddressScheme, NoSpace, Free;
    CutsOfAddress(t);
    Cut(t, {':'});
    var rest := From(t, {':'});
    Cut(rest[3..], AUTHORITY_ENDS);
    assert rest == rest[..3] + rest[3..] == "://" + (a.name + a.rest);
    NoSpaceInParts(a.name, a.rest);
  }

  lemma CutsOfAddress(t: string)
    requires ParseAddress(t).Some?
    ensures var scheme, rest := Before(t, {':'}), From(t, {':'});
      && IsAddressScheme(scheme) && |rest| >= 3 && rest[..3] == "://" && NoSpace(rest) && Before(rest[3..], AUTHORITY_ENDS) != ""
      && ParseAddress(t) == Some(Address(scheme, Before(rest[3..], AUTHORITY_ENDS), From(rest[3..], AUTHORITY_ENDS)))
  {
    hide Before, From, IsAddressScheme, NoSpace;
  }

  lemma PartsMakeAnAddress(a: Address)
    requires a.name != "" && Free(a.name, AUTHORITY_ENDS) && (a.rest == "" || a.rest[0] in AUTHORITY_ENDS)
    requires IsAddressScheme(a.scheme) && NoSpace(a.name) && NoSpace(a.rest)
    ensures ParseAddress(Print(a)) == Some(a)
  {
    hide IsAddressScheme, NoSpace, Free;
    var body := a.name + a.rest;
    assert Print(a) == a.scheme + ("://" + body);
    NoColonInAddressScheme(a.scheme);
    CutAt(a.scheme, "://" + body, {':'});
    CutAt(a.name, a.rest, AUTHORITY_ENDS);
    NoSpaceInParts(a.name, a.rest);
    assert ("://" + body)[3..] == body && ("://" + body)[..3] == "://";
  }

  lemma NoColonInAddressScheme(scheme: string)
    requires IsAddressScheme(scheme)
    ensures Free(scheme, {':'})
  {
  }

  lemma NoSpaceInParts(name: string, rest: string)
    ensures NoSpace("://" + (name + rest)) <==> NoSpace(name) && NoSpace(rest)
  {
    var whole := "://" + (name + rest);
    assert forall i :: 0 <= i < |name| ==> whole[i + 3] == name[i];
    assert forall i :: 0 <= i < |rest| ==> whole[i + 3 + |name|] == rest[i];
    if NoSpace(whole) {
      forall i | 0 <= i < |name|
        ensures !IsSpace(name[i])
      {
        assert !IsSpace(whole[i + 3]);
      }
      forall i | 0 <= i < |rest|
        ensures !IsSpace(rest[i])
      {
        assert !IsSpace(whole[i + 3 + |name|]);
      }
    }
  }

  /** And parts that fit make the address of just those parts. */
  lemma PartsOfPrint(scheme: string, name: string, rest: string)
    requires ParseAddress(scheme + "://" + name + rest).Some?
    requires SchemeOk(scheme) && name != "" && Free(name, AUTHORITY_ENDS) && (rest == "" || rest[0] in AUTHORITY_ENDS)
    ensures ParseAddress(scheme + "://" + name + rest) == Some(Address(scheme, name, rest))
  {
    hide IsReservedScheme;
    var body := name + rest;
    assert scheme + "://" + name + rest == scheme + ("://" + body);
    SchemeCut(scheme, body);
    CutAt(name, rest, AUTHORITY_ENDS);
  }

  /** The segments of an endpoint's path are the name and then those of what follows. */
  lemma NameThenPath(name: string, path: string)
    requires Free(name, AUTHORITY_ENDS) && StartsWith(path, "/") && Free(path, PATH_ENDS)
    ensures PlainPath("/" + name + path) <==> !IsDot(name) && PlainPath(path)
    ensures name != "" ==> EndpointParts("/" + name + path) == Some((name, path))
  {
    var whole := "/" + name + path;
    assert whole[1..] == name + path;
    assert Free(name, {'/'});
    CutAt(name, path, {'/'});
    assert Split(whole[1..], '/') == [name] + Split(path[1..], '/');
    assert Free(whole, PATH_ENDS);
    var segments := Split(path[1..], '/');
    assert NoDots([name] + segments) <==> !IsDot(name) && NoDots(segments) by {
      if NoDots([name] + segments) {
        assert ([name] + segments)[0] == name;
        assert forall i :: 0 <= i < |segments| ==> ([name] + segments)[i + 1] == segments[i];
      }
    }
  }

  lemma NameAlone(name: string)
    requires Free(name, AUTHORITY_ENDS) && name != ""
    ensures PlainPath("/" + name) <==> !IsDot(name)
    ensures EndpointParts("/" + name) == Some((name, "/"))
  {
    assert ("/" + name)[1..] == name && name + "" == name;
    assert Free(name, {'/'});
    CutAt(name, "", {'/'});
    var segments := [name];
    assert Split(name, '/') == segments && segments[0] == name;
    assert NoDots(segments) <==> !IsDot(name);
    assert Free("/" + name, PATH_ENDS);
  }

  /** The path of a plain address is left alone, and is split into the same name and path again. */
  lemma PlainAddressPath(name: string, rest: string)
    requires Free(name, AUTHORITY_ENDS) && name != "" && !IsDot(name) && IsPlainRest(rest)
    ensures var path, query, fragment := Before(rest, PATH_ENDS), Before(From(rest, PATH_ENDS), {'#'}), From(rest, {'#'});
      && ResolveDots("/" + name + path) == "/" + name + path && EndpointParts("/" + name + path) == Some((name, path))
      && StartsWith(rest, "/") && path + (Shown(query) + Shown(fragment)) == rest
  {
    hide ResolveDots, PlainPath, EndpointParts, Split;
    TailIsCanonical(rest);
    var path := Before(rest, PATH_ENDS);
    assert rest[0] == '/' && rest[0] !in PATH_ENDS;
    assert path != "" && path[0] == '/';
    ResolveDotsIsPlain(path);
    NameThenPath(name, path);
    var query, fragment := Before(From(rest, PATH_ENDS), {'#'}), From(rest, {'#'});
    assert |query| == 1 ==> query == "?";
    assert |fragment| == 1 ==> fragment == "#";
    ResolveDotsIsPlain("/" + name + path);
  }

  /** Whatever is shown for an endpoint's plain path is a plain address. */
  lemma ShownIsPlain(scheme: string, path: string, query: string, fragment: string)
    requires SchemeOk(scheme) && PlainPath(path) && EndpointParts(path).Some?
    requires (query == "" || query[0] == '?') && Free(query, {'#'}) && (fragment == "" || fragment[0] == '#')
    ensures var shown := scheme + "://" + EndpointParts(path).value.0 + (EndpointParts(path).value.1 + (Shown(query) + Shown(fragment)));
      ParseAddress(shown).Some? ==> IsPlainAddress(shown)
  {
    hide ParseAddress, IsReservedScheme, ResolveDots, EndpointParts, PlainPath, Lower;
    EndpointPartsArePlain(path);
    var name, left, q, f := EndpointParts(path).value.0, EndpointParts(path).value.1, Shown(query), Shown(fragment);
    var rest := left + (q + f);
    if ParseAddress(scheme + "://" + name + rest).Some? {
      hide Free, Before, From;
      TailSurvives(query, fragment);
      PartsOfPrint(scheme, name, rest);
      SchemeNamesAreLower(scheme);
      assert rest == left + q + f;
      TailParts(left, q, f);
      ResolveDotsIsPlain(left);
    }
  }

  lemma TailSurvives(query: string, fragment: string)
    requires (query == "" || query[0] == '?') && Free(query, {'#'}) && (fragment == "" || fragment[0] == '#')
    ensures var q, f := Shown(query), Shown(fragment);
      (q == "" || q[0] == '?') && Free(q, {'#'}) && (f == "" || f[0] == '#') && q != "?" && f != "#"
  {
  }

  lemma SchemeNamesAreLower(scheme: string)
    requires SchemeOk(scheme)
    ensures Lower(scheme) == scheme
  {
  }

  lemma EndpointPartsArePlain(path: string)
    requires PlainPath(path) && EndpointParts(path).Some?
    ensures var name, left := EndpointParts(path).value.0, EndpointParts(path).value.1;
      && name != "" && Free(name, AUTHORITY_ENDS) && !IsDot(name)
      && StartsWith(left, "/") && Free(left, PATH_ENDS) && PlainPath(left)
  {
    PathIsPlainText(path);
    var body := path[1..];
    var name, left := Before(body, {'/'}), From(body, {'/'});
    hide PlainPath, Before, From, Split, NoDots;
    if left == "" {
      assert path == "/" + name;
      NameAlone(name);
      SlashIsPlain();
    } else {
      assert path == "/" + name + left;
      NameThenPath(name, left);
    }
  }

  lemma PathIsPlainText(path: string)
    requires path != "" && path[0] == '/' && Free(path, PATH_ENDS)
    ensures var name, left := Before(path[1..], {'/'}), From(path[1..], {'/'});
      && path == "/" + (name + left) && Free(name, AUTHORITY_ENDS) && Free(left, PATH_ENDS) && (left == "" || StartsWith(left, "/"))
  {
    var body := path[1..];
    Cut(body, {'/'});
    var name, left := Before(body, {'/'}), From(body, {'/'});
    assert path == "/" + body;
    assert forall i :: 0 <= i < |name| ==> name[i] == path[i + 1];
    assert forall i :: 0 <= i < |left| ==> left[i] == path[1 + |name| + i];
  }

  lemma SchemeNamesAreNotSpecial(scheme: string)
    requires SchemeOk(scheme)
    ensures IsScheme(scheme) && Lower(scheme) == scheme && scheme !in SPECIAL
  {
  }

  lemma PrintedWithUser(scheme: string, user: string, host: string)
    ensures var u := Url(scheme, user + "@", host, "", "/", "", "");
      && Href(u) == scheme + "://" + user + "@" + host + "/"
      && Href(u.(credentials := "")) == scheme + "://" + host + "/"
  {
  }

  lemma ShownParses(scheme: string, name: string, rest: string)
    requires SchemeOk(scheme) && Free(name, AUTHORITY_ENDS) && StartsWith(rest, "/")
    ensures var parsed := Parse(scheme + "://" + name + rest);
      && (parsed.Some? ==> parsed.value.scheme == scheme != "https")
      && (parsed.Some? && parsed.value.credentials != "" <==> ReadsAsCredentials(name))
  {
    assert scheme + "://" + name + rest == scheme + ("://" + (name + rest));
    SchemeNamesAreNotSpecial(scheme);
    hide IsScheme, IsReservedScheme, IsSchemeName, Lower;
    SchemeCut(scheme, name + rest);
    CutAt(name, rest, AUTHORITY_ENDS);
  }

  lemma SpelledOutPort()
    ensures IsPort("") && PrintedPort("https", "") == "" && IsPort(":0443") && PrintedPort("https", ":0443") == ""
  {
    assert ":0443"[1..] == "0443";
    assert WithoutZeros("0443") == "443" by {
      assert "0443"[1..] == "443";
    }
    hide WithoutZeros;
    SpelledOutNumber();
  }

  lemma SpelledOutNumber()
    ensures IsDigits("0443") && Number(0, "0443") == 443
  {
    assert "0443"[1..] == "443" && "443"[1..] == "43" && "43"[1..] == "3" && "3"[1..] == "";
    assert Number(0, "0443") == Number(0, "443") == Number(4, "43") == Number(44, "3") == Number(443, "");
  }

  lemma SpelledOutNames()
    ensures Free("user", AUTHORITY_ENDS) && Free("host", HOST_STOPS)
    ensures "ipfs" + "://" + "user" + "@" + "host" + "/" == "ipfs://user@host/"
    ensures "ipfs" + "://" + "host" + "/" == "ipfs://host/"
  {
  }

  lemma SpelledOutUrl()
    ensures "https:" + "//" + ("ipfs" + "." + ADDRESS_SUFFIX + "" + "/" + "user" + "@" + "host" + "/") == "https://ipfs.orivon/user@host/"
  {
    assert "ipfs" + "." + ADDRESS_SUFFIX + "" + "/" + "user" + "@" + "host" + "/" == "ipfs.orivon/user@host/";
  }

  lemma SpelledOutWithoutSlashes()
    ensures "https:" + "" + ("ipfs" + "." + ADDRESS_SUFFIX + "" + "/" + "user" + "@" + "host" + "/") == "https:ipfs.orivon/user@host/"
  {
    assert "ipfs" + "." + ADDRESS_SUFFIX + "" + "/" + "user" + "@" + "host" + "/" == "ipfs.orivon/user@host/";
  }

  lemma SpelledOutWithPort()
    ensures "https:" + "//" + ("ipfs" + "." + ADDRESS_SUFFIX + ":0443" + "/" + "user" + "@" + "host" + "/") == "https://ipfs.orivon:0443/user@host/"
  {
    SpelledOutEndpoint();
    assert "https:" + "//" == "https://";
    assert "https://" + "ipfs.orivon:0443/user@host/" == "https://ipfs.orivon:0443/user@host/";
  }

  lemma SpelledOutEndpoint()
    ensures "ipfs" + "." + ADDRESS_SUFFIX + ":0443" + "/" + "user" + "@" + "host" + "/" == "ipfs.orivon:0443/user@host/"
  {
    assert "ipfs" + "." + ADDRESS_SUFFIX == "ipfs.orivon";
    assert "ipfs.orivon" + ":0443" + "/" == "ipfs.orivon:0443/";
    assert "ipfs.orivon:0443/" + "user" + "@" == "ipfs.orivon:0443/user@";
  }

  lemma PathIsFree(name: string)
    requires Free(name, AUTHORITY_ENDS)
    ensures Free("/" + name + "/", PATH_ENDS)
  {
  }

  lemma WithoutCredentials(u: Url)
    requires Canonical(u)
    ensures Canonical(u.(credentials := "")) && Free(u.host, HOST_STOPS)
  {
    assert Credentials("") == "";
  }

  lemma HttpsHasPath(u: Url)
    requires Canonical(u) && u.scheme == "https"
    ensures PlainPath(u.path) && StartsWith(u.path, "/")
    ensures (u.query == "" || u.query[0] == '?') && (u.fragment == "" || u.fragment[0] == '#')
  {
  }

  lemma {:induction false} DecodedIsPlain(coded: string)
    requires forall i :: 0 <= i < |coded| ==> IsLowerAlnum(coded[i]) || coded[i] == '-'
    ensures Free(NameFromLabel(coded), AUTHORITY_ENDS + {'@'})
  {
    if |coded| >= 2 && coded[0] == '-' && coded[1] == '-' {
      DecodedIsPlain(coded[2..]);
    } else if coded != "" {
      DecodedIsPlain(coded[1..]);
    }
  }

  lemma NoAtNoCredentials(name: string)
    requires Free(name, AUTHORITY_ENDS + {'@'})
    ensures Credentials(name) == ""
  {
    assert Free(name, {'@'});
    CredentialsOf("", name);
    assert "" + name == name;
  }

  lemma NoDotInDnsLabel(coded: string)
    requires IsDnsLabel(coded)
    ensures '.' !in coded && Lower(coded) == coded
  {
  }

  ghost predicate IsHostChar(c: char) {
    IsLowerAlnum(c) || c == '-' || c == '.'
  }

  ghost predicate IsPlainHost(host: string) {
    host != "" && forall i :: 0 <= i < |host| ==> IsHostChar(host[i])
  }

  lemma LabelsOfOrigin(coded: string, scheme: string)
    requires IsDnsLabel(coded) && SchemeOk(scheme)
    ensures var host := coded + "." + scheme + "." + ADDRESS_SUFFIX;
      IsPlainHost(host) && Lower(host) == host && HostLabels(host) == [coded, scheme, ADDRESS_SUFFIX]
  {
    var host, labels := coded + "." + scheme + "." + ADDRESS_SUFFIX, [coded, scheme, ADDRESS_SUFFIX];
    assert Join(labels[2..], '.') == ADDRESS_SUFFIX;
    assert labels[1..] == [scheme, ADDRESS_SUFFIX] && labels[1..][1..] == [ADDRESS_SUFFIX];
    assert Join(labels[1..], '.') == scheme + "." + ADDRESS_SUFFIX;
    assert Join(labels, '.') == host;
    SplitJoin(labels, '.');
    assert Lower(host) == host;
  }

  lemma LabelsOfEndpoint(scheme: string)
    requires SchemeOk(scheme)
    ensures var host := scheme + "." + ADDRESS_SUFFIX;
      Lower(host) == host && Free(host, HOST_STOPS) && HostLabels(host) == [scheme, ADDRESS_SUFFIX] && "" !in HostLabels(host)
  {
    hide IsReservedScheme;
    var host, labels := scheme + "." + ADDRESS_SUFFIX, [scheme, ADDRESS_SUFFIX];
    assert labels[1..] == [ADDRESS_SUFFIX] && Join(labels, '.') == host;
    SplitJoin(labels, '.');
    assert Lower(host) == host;
  }

  lemma PlainHostParses(host: string)
    requires IsPlainHost(host) && Lower(host) == host
    ensures Parse("https://" + host) == Some(Url("https", "", host, "", "/", "", ""))
  {
    hide Parse;
    ParseHttps(host, "", "", "", "");
    assert "https://" + host + "" + ("" + "" + "") == "https://" + host;
  }
}
