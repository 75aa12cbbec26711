/** What a protocol declares, and the checks every declaration passes before anything routes or shows by it. */
module Protocols {
  import opened Results
  import opened Text

  const ADDRESS_SUFFIX := "orivon"

  datatype Descriptor = Descriptor(id: string, schemes: seq<string>, topLevelDomains: seq<string>)

  datatype Namespace = AddressScheme(scheme: string) | TopLevelDomain(domain: string)

  datatype Refusal = BadId | BadScheme(scheme: string) | ReservedScheme(scheme: string)
                   | BadDomain(domain: string) | ReservedDomain(domain: string) | ServesNothing | DeclaredTwice

  const RESERVED_SCHEMES: set<string> := {
    "about", "blob", "chrome", "data", "devtools", "file", "filesystem", "ftp", "http", "https",
    "javascript", "mailto", "view-source", "ws", "wss"
  }
  const RESERVED_TOP_LEVEL_DOMAINS: set<string> := {"internal", "invalid", "local", "localhost", "onion", "test", ADDRESS_SUFFIX}

  predicate IsId(id: string) {
    1 <= |id| <= 63 && IsLower(id[0]) && forall i :: 0 <= i < |id| ==> IsLowerAlnum(id[i]) || id[i] == '-'
  }

  predicate IsSchemeName(scheme: string) {
    1 <= |scheme| <= 31 && IsLower(scheme[0]) && forall i :: 0 <= i < |scheme| ==> IsLowerAlnum(scheme[i])
  }

  predicate IsDomainName(domain: string) {
    && 1 <= |domain| <= 63 && IsLower(domain[0]) && IsLowerAlnum(domain[|domain| - 1])
    && forall i :: 0 <= i < |domain| ==> IsLowerAlnum(domain[i]) || domain[i] == '-'
  }

  predicate IsReservedScheme(scheme: string) {
    scheme in RESERVED_SCHEMES || StartsWith(scheme, ADDRESS_SUFFIX)
  }

  predicate SchemeOk(scheme: string) {
    IsSchemeName(scheme) && !IsReservedScheme(scheme)
  }

  predicate DomainOk(domain: string) {
    IsDomainName(domain) && domain !in RESERVED_TOP_LEVEL_DOMAINS
  }

  function Namespaces(d: Descriptor): seq<Namespace> {
    seq(|d.topLevelDomains|, (i: nat) requires i < |d.topLevelDomains| => TopLevelDomain(d.topLevelDomains[i]))
    + seq(|d.schemes|, (i: nat) requires i < |d.schemes| => AddressScheme(d.schemes[i]))
  }

  predicate Repeats<T(==)>(s: seq<T>) {
    exists i, j :: 0 <= i < j < |s| && s[i] == s[j]
  }

  /** The first scheme, in order, that is refused, and for what. */
  function CheckSchemes(schemes: seq<string>): (refusal: Option<Refusal>)
    ensures refusal.None? <==> forall i :: 0 <= i < |schemes| ==> SchemeOk(schemes[i])
  {
    if schemes == [] then None
    else if !IsSchemeName(schemes[0]) then Some(BadScheme(schemes[0]))
    else if IsReservedScheme(schemes[0]) then Some(ReservedScheme(schemes[0]))
    else CheckSchemes(schemes[1..])
  }

  function CheckDomains(domains: seq<string>): (refusal: Option<Refusal>)
    ensures refusal.None? <==> forall i :: 0 <= i < |domains| ==> DomainOk(domains[i])
  {
    if domains == [] then None
    else if !IsDomainName(domains[0]) then Some(BadDomain(domains[0]))
    else if domains[0] in RESERVED_TOP_LEVEL_DOMAINS then Some(ReservedDomain(domains[0]))
    else CheckDomains(domains[1..])
  }

  /** What every registered protocol satisfies. */
  ghost predicate Described(d: Descriptor) {
    && IsId(d.id)
    && (forall i :: 0 <= i < |d.schemes| ==> SchemeOk(d.schemes[i]))
    && (forall i :: 0 <= i < |d.topLevelDomains| ==> DomainOk(d.topLevelDomains[i]))
    && d.schemes + d.topLevelDomains != []
    && !Repeats(d.schemes) && !Repeats(d.topLevelDomains)
  }

  function DescribeProtocol(d: Descriptor): (r: Result<Descriptor, Refusal>)
    ensures r.Ok? <==> Described(d)
    ensures r.Ok? ==> r.value == d
  {
    if !IsId(d.id) then Err(BadId)
    else if CheckSchemes(d.schemes).Some? then Err(CheckSchemes(d.schemes).value)
    else if CheckDomains(d.topLevelDomains).Some? then Err(CheckDomains(d.topLevelDomains).value)
    else if Namespaces(d) == [] then Err(ServesNothing)
    else
      RepeatsApart(d);
      if Repeats(Namespaces(d)) then Err(DeclaredTwice) else Ok(d)
  }

  /** A scheme and a top-level domain of one spelling are two namespaces, so a repeat is within one list. */
  lemma RepeatsApart(d: Descriptor)
    ensures Repeats(Namespaces(d)) <==> Repeats(d.schemes) || Repeats(d.topLevelDomains)
  {
    var all, n := Namespaces(d), |d.topLevelDomains|;
    forall i, j | 0 <= i < j < |d.schemes| && d.schemes[i] == d.schemes[j]
      ensures Repeats(all)
    {
      assert all[n + i] == all[n + j];
    }
    forall i, j | 0 <= i < j < n && d.topLevelDomains[i] == d.topLevelDomains[j]
      ensures Repeats(all)
    {
      assert all[i] == all[j];
    }
    if i, j :| 0 <= i < j < |all| && all[i] == all[j] {
      if j < n {
        assert d.topLevelDomains[i] == d.topLevelDomains[j];
      } else {
        assert i >= n;
        assert d.schemes[i - n] == d.schemes[j - n];
      }
    }
  }
}
