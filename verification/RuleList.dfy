/**
 The operator's exception list (internal/model/rule.go): what an entry may say, and what it
 means to the person who wrote it.
 */
module RuleList {
  import opened Optional
  import opened Strings

  datatype Action = Direct | Proxy | Block | UnknownAction(text: string)

  datatype Rule = Rule(
    enabled: bool,
    action: Action,
    domains: seq<string>,
    ips: seq<string>,
    sources: seq<string>,
    port: string,
    sourcePort: string,
    protocols: seq<string>,
    network: string)

  datatype Network = Tcp | Udp

  /** A connection as the core routes it. The host and the address are known or not. */
  datatype Connection = Connection(
    inbound: string,
    host: Option<string>,
    address: Option<string>,
    source: string,
    port: int,
    sourcePort: int,
    protocol: string,
    network: Network)

  /** What is left to the core and the system: patterns and lists of names, networks and lists
      of addresses, port specifications, and which texts are addresses, networks, and IPv4 addresses
      that are not loopback. */
  datatype World = World(
    pattern: (string, string) -> bool,
    contains: (string, string) -> bool,
    inNetwork: (string, string) -> bool,
    portIn: (string, int) -> bool,
    isAddress: string -> bool,
    isNetwork: string -> bool,
    remoteIPv4: string -> bool)

  predicate HasMatcher(r: Rule) {
    || |r.domains| > 0 || |r.ips| > 0 || |r.sources| > 0
    || r.port != "" || r.sourcePort != "" || |r.protocols| > 0 || r.network != ""
  }

  // ----- validation

  predicate HasPrefix(s: string, p: string) {
    p <= s
  }

  function IndexOf(s: string, c: char): (i: nat)
    ensures i <= |s| && c !in s[..i]
    ensures i < |s| <==> c in s
    ensures i < |s| ==> s[i] == c
  {
    if s == "" then 0
    else if s[0] == c then 0
    else
      assert s == [s[0]] + s[1..];
      1 + IndexOf(s[1..], c)
  }

  predicate HasText(s: string, p: string) {
    exists i :: 0 <= i <= |s| && p <= s[i..]
  }

  predicate ValidDomain(w: World, text: string) {
    var d := TrimSpace(text);
    && d != "" && !HasText(d, "://") && '/' !in d && ' ' !in d
    && if ':' in d then
         var i := IndexOf(d, ':');
         d[..i] in {"domain", "full", "keyword", "regexp", "geosite", "ext"} && TrimSpace(d[i + 1..]) != ""
       else !w.isAddress(d)
  }

  predicate ValidIP(w: World, text: string) {
    var v := TrimSpace(text);
    && v != ""
    && if HasPrefix(v, "geoip:") then TrimSpace(v[6..]) != ""
       else if '/' in v then w.isNetwork(v)
       else w.isAddress(v)
  }

  function SplitAt(s: string, c: char): seq<string>
    decreases |s|
  {
    var i := IndexOf(s, c);
    if i == |s| then [s] else [s[..i]] + SplitAt(s[i + 1..], c)
  }

  function PortNumber(s: string): Option<int> {
    var n := Atoi(TrimSpace(s));
    if n.Some? && 1 <= n.value <= 65535 then n else None
  }

  predicate ValidPortPart(part: string) {
    var t := TrimSpace(part);
    var i := IndexOf(t, '-');
    && t != "" && PortNumber(t[..i]).Some?
    && (i < |t| ==> PortNumber(t[i + 1..]).Some? && PortNumber(t[..i]).value <= PortNumber(t[i + 1..]).value)
  }

  predicate ValidPorts(spec: string) {
    TrimSpace(spec) == "" || forall i :: 0 <= i < |SplitAt(spec, ',')| ==> ValidPortPart(SplitAt(spec, ',')[i])
  }

  predicate NeedsGeoData(r: Rule) {
    || (exists i :: 0 <= i < |r.domains| && HasPrefix(r.domains[i], "geosite:"))
    || (exists i :: 0 <= i < |r.ips| && HasPrefix(r.ips[i], "geoip:"))
  }

  predicate Valid(w: World, geo: bool, r: Rule) {
    && !r.action.UnknownAction? && HasMatcher(r) && (NeedsGeoData(r) ==> geo)
    && (forall i :: 0 <= i < |r.domains| ==> ValidDomain(w, r.domains[i]))
    && (forall i :: 0 <= i < |r.ips| ==> ValidIP(w, r.ips[i]))
    && (forall i :: 0 <= i < |r.sources| ==> ValidIP(w, r.sources[i]))
    && ValidPorts(r.port) && ValidPorts(r.sourcePort)
    && (forall i :: 0 <= i < |r.protocols| ==> r.protocols[i] in {"http", "tls", "quic", "bittorrent"})
    && r.network in {"", "tcp", "udp", "tcp,udp", "udp,tcp"}
  }

  // ----- what an entry means

  predicate IsSubdomain(host: string, name: string) {
    host == name || (|host| > |name| && host[|host| - |name| - 1..] == "." + name)
  }

  /** A matcher with a prefix, as the core reads it. */
  predicate PrefixedMatches(w: World, matcher: string, host: string)
    requires ':' in matcher
  {
    var i := IndexOf(matcher, ':');
    var kind, rest := matcher[..i], matcher[i + 1..];
    if kind == "domain" then IsSubdomain(host, rest)
    else if kind == "full" then host == rest
    else if kind == "keyword" then w.contains(host, rest)
    else w.pattern(matcher, host)
  }

  /** A bare name means that name and its subdomains. */
  predicate DomainMeant(w: World, text: string, host: string) {
    var d := TrimSpace(text);
    if ':' in d then PrefixedMatches(w, d, host) else IsSubdomain(host, d)
  }

  predicate NetworkAllows(network: string, n: Network) {
    match n
    case Tcp => network in {"tcp", "tcp,udp", "udp,tcp"}
    case Udp => network in {"udp", "tcp,udp", "udp,tcp"}
  }

  predicate AnyNetwork(w: World, nets: seq<string>, address: string) {
    exists i :: 0 <= i < |nets| && w.inNetwork(TrimSpace(nets[i]), address)
  }

  predicate AnyDomain(w: World, domains: seq<string>, host: string) {
    exists i :: 0 <= i < |domains| && DomainMeant(w, domains[i], host)
  }

  /** No port is in a specification that says nothing. */
  predicate PortMeant(w: World, spec: string, port: int) {
    TrimSpace(spec) != "" && w.portIn(TrimSpace(spec), port)
  }

  /** Every matcher that was filled in has to hold. */
  predicate Meant(w: World, r: Rule, c: Connection) {
    && (r.domains != [] ==> c.host.Some? && AnyDomain(w, r.domains, c.host.value))
    && (r.ips != [] ==> c.address.Some? && AnyNetwork(w, r.ips, c.address.value))
    && (r.sources != [] ==> AnyNetwork(w, r.sources, c.source))
    && (r.port != "" ==> PortMeant(w, r.port, c.port))
    && (r.sourcePort != "" ==> PortMeant(w, r.sourcePort, c.sourcePort))
    && (r.protocols != [] ==> c.protocol in r.protocols)
    && (r.network != "" ==> NetworkAllows(r.network, c.network))
  }

  /** A port field of nothing but white space, which counts as filled in and is not checked. */
  predicate Vacant(spec: string) {
    spec != "" && TrimSpace(spec) == ""
  }

  predicate VacantPorts(r: Rule) {
    Vacant(r.port) || Vacant(r.sourcePort)
  }

  function Cleared(r: Rule): Rule {
    r.(port := if Vacant(r.port) then "" else r.port,
       sourcePort := if Vacant(r.sourcePort) then "" else r.sourcePort)
  }
}
