/**
 The routing section of the core's configuration (internal/xray/config.go): the operator's list
 translated into rules the core evaluates, the first that matches deciding.
 */
module Routing {
  import opened Optional
  import opened Strings
  import opened RuleList
  import Capture

  /** A rule of the core's. Unset fields match everything. */
  datatype CoreRule = CoreRule(
    inbound: Option<string>,
    domain: seq<string>,
    ip: seq<string>,
    source: seq<string>,
    port: string,
    sourcePort: string,
    protocol: seq<string>,
    network: string,
    target: Target)

  datatype Target = Outbound(tag: string) | Balancer(tag: string) | NoTarget

  const PRIVATE_CIDRS: seq<string> := [
    "0.0.0.0/8", "10.0.0.0/8", "100.64.0.0/10", "127.0.0.0/8", "169.254.0.0/16", "172.16.0.0/12",
    "192.0.0.0/24", "192.168.0.0/16", "198.18.0.0/15", "224.0.0.0/4", "240.0.0.0/4", "255.255.255.255/32",
    "::1/128", "fc00::/7", "fe80::/10"]

  /** What the routing section is built from. */
  datatype Options = Options(
    rules: seq<Rule>,
    dnsOn: bool,
    geo: bool,
    directCIDRs: seq<string>,
    localResolvers: seq<string>,
    group: bool)

  // ----- how the core evaluates

  /** A matcher as the core reads it: one without a prefix is a substring. */
  predicate CoreDomain(w: World, matcher: string, host: string) {
    if ':' in matcher then PrefixedMatches(w, matcher, host) else w.contains(host, matcher)
  }

  predicate CoreMatches(w: World, r: CoreRule, c: Connection) {
    && (r.inbound.Some? ==> c.inbound == r.inbound.value)
    && (r.domain != [] ==> c.host.Some? && exists i :: 0 <= i < |r.domain| && CoreDomain(w, r.domain[i], c.host.value))
    && (r.ip != [] ==> c.address.Some? && exists i :: 0 <= i < |r.ip| && w.inNetwork(r.ip[i], c.address.value))
    && (r.source != [] ==> exists i :: 0 <= i < |r.source| && w.inNetwork(r.source[i], c.source))
    && (r.port != "" ==> w.portIn(r.port, c.port))
    && (r.sourcePort != "" ==> w.portIn(r.sourcePort, c.sourcePort))
    && (r.protocol != [] ==> c.protocol in r.protocol)
    && (r.network != "" ==> NetworkAllows(r.network, c.network))
  }

  /** The first rule that matches decides; with none, the first outbound carries the connection. */
  function Decide(w: World, rules: seq<CoreRule>, c: Connection): Option<Target> {
    if rules == [] then None
    else if CoreMatches(w, rules[0], c) then Some(rules[0].target)
    else Decide(w, rules[1..], c)
  }

  lemma {:induction false} DecideJoins(w: World, a: seq<CoreRule>, b: seq<CoreRule>, c: Connection)
    ensures Decide(w, a + b, c) == if Decide(w, a, c).Some? then Decide(w, a, c) else Decide(w, b, c)
  {
    if a == [] {
      assert a + b == b;
    } else {
      assert (a + b)[1..] == a[1..] + b;
      DecideJoins(w, a[1..], b, c);
    }
  }

  // ----- the translation

  function Trimmed(items: seq<string>): seq<string> {
    if items == [] then []
    else
      var init := Trimmed(items[..|items| - 1]);
      var v := TrimSpace(items[|items| - 1]);
      if v == "" then init else init + [v]
  }

  method TrimAll(items: seq<string>) returns (out: seq<string>)
    ensures out == Trimmed(items)
  {
    hide TrimSpace;
    out := [];
    for i := 0 to |items|
      invariant out == Trimmed(items[..i])
    {
      assert items[..i + 1][..i] == items[..i];
      var v := TrimSpace(items[i]);
      if v != "" {
        out := out + [v];
      }
    }
    assert items[..|items|] == items;
  }

  function Matcher(d: string): string {
    if ':' in d then d else "domain:" + d
  }

  function Matchers(items: seq<string>): seq<string> {
    seq(|Trimmed(items)|, i requires 0 <= i < |Trimmed(items)| => Matcher(Trimmed(items)[i]))
  }

  method DomainMatchers(items: seq<string>) returns (out: seq<string>)
    ensures out == Matchers(items)
  {
    hide Trimmed;
    var trimmed := TrimAll(items);
    out := [];
    for i := 0 to |trimmed|
      invariant |out| == i && forall k :: 0 <= k < i ==> out[k] == Matcher(trimmed[k])
    {
      if ':' in trimmed[i] {
        out := out + [trimmed[i]];
        continue;
      }
      out := out + ["domain:" + trimmed[i]];
    }
  }

  function ProxyTarget(group: bool): Target {
    if group then Balancer("balancer") else Outbound("proxy")
  }

  function TargetOf(a: Action, group: bool): Target {
    match a
    case Direct => Outbound("direct")
    case Block => Outbound("block")
    case Proxy => ProxyTarget(group)
    case UnknownAction(_) => NoTarget
  }

  function Translated(r: Rule, group: bool): CoreRule {
    CoreRule(None, Matchers(r.domains), Trimmed(r.ips), Trimmed(r.sources), TrimSpace(r.port), TrimSpace(r.sourcePort),
             Trimmed(r.protocols), TrimSpace(r.network), TargetOf(r.action, group))
  }

  function UserRules(rules: seq<Rule>, group: bool): seq<CoreRule> {
    if rules == [] then []
    else
      var init := UserRules(rules[..|rules| - 1], group);
      var r := rules[|rules| - 1];
      if r.enabled then init + [Translated(r, group)] else init
  }

  ghost predicate AllValid(w: World, geo: bool, rules: seq<Rule>) {
    forall i :: 0 <= i < |rules| && rules[i].enabled ==> Valid(w, geo, rules[i])
  }

  /** Translates the enabled rules, or fails over the first that is not valid. */
  method BuildUserRules(w: World, geo: bool, rules: seq<Rule>, group: bool) returns (ok: bool, out: seq<CoreRule>)
    ensures ok <==> AllValid(w, geo, rules)
    ensures ok ==> out == UserRules(rules, group)
  {
    hide Trimmed, Matchers, Valid, TrimSpace;
    out := [];
    for i := 0 to |rules|
      invariant AllValid(w, geo, rules[..i]) && out == UserRules(rules[..i], group)
    {
      assert rules[..i + 1][..i] == rules[..i];
      var r := rules[i];
      if !r.enabled {
        continue;
      }
      if !Valid(w, geo, r) {
        return false, [];
      }
      var domains := DomainMatchers(r.domains);
      var ips := TrimAll(r.ips);
      var sources := TrimAll(r.sources);
      var protocols := TrimAll(r.protocols);
      var target := NoTarget;
      match r.action {
        case Direct => target := Outbound("direct");
        case Block => target := Outbound("block");
        case Proxy => target := if group then Balancer("balancer") else Outbound("proxy");
        case UnknownAction(_) =>
      }
      out := out + [CoreRule(None, domains, ips, sources, TrimSpace(r.port), TrimSpace(r.sourcePort), protocols,
                             TrimSpace(r.network), target)];
    }
    assert rules[..|rules|] == rules;
    ok := true;
  }

  // ----- the whole section

  predicate UsableResolver(w: World, text: string) {
    TrimSpace(text) != "" && TrimSpace(text) != "localhost" && w.remoteIPv4(TrimSpace(text))
  }

  function FirstUsable(w: World, items: seq<string>): seq<string> {
    if items == [] then []
    else
      var init := FirstUsable(w, items[..|items| - 1]);
      var r := items[|items| - 1];
      if |init| < 2 && UsableResolver(w, r) then init + [TrimSpace(r)] else init
  }

  method LocalResolvers(w: World, items: seq<string>) returns (out: seq<string>)
    ensures out == FirstUsable(w, items) && |out| <= 2
  {
    hide UsableResolver, TrimSpace;
    out := [];
    for i := 0 to |items|
      invariant out == FirstUsable(w, items[..i]) && |out| < 2
    {
      assert items[..i + 1][..i] == items[..i];
      if UsableResolver(w, items[i]) {
        out := out + [TrimSpace(items[i])];
        if |out| == 2 {
          EnoughResolvers(w, items, i + 1);
          return;
        }
      }
    }
    assert items[..|items|] == items;
  }

  lemma {:induction false} EnoughResolvers(w: World, items: seq<string>, n: nat)
    requires n <= |items| && |FirstUsable(w, items[..n])| == 2
    ensures FirstUsable(w, items) == FirstUsable(w, items[..n])
  {
    hide UsableResolver, TrimSpace;
    if n == |items| {
      assert items[..n] == items;
    } else {
      assert items[..|items| - 1][..n] == items[..n];
      EnoughResolvers(w, items[..|items| - 1], n);
    }
  }

  function Hosts(resolvers: seq<string>): seq<string> {
    seq(|resolvers|, i requires 0 <= i < |resolvers| => resolvers[i] + "/32")
  }

  /** The networks that are reached directly, before anything the operator says. */
  function DirectNetworks(w: World, o: Options): seq<string> {
    PRIVATE_CIDRS + (if o.geo then ["geoip:private"] else []) + o.directCIDRs + Hosts(FirstUsable(w, o.localResolvers))
  }

  const ANY := CoreRule(None, [], [], [], "", "", [], "", NoTarget)

  function Opening(w: World, o: Options): seq<CoreRule> {
    [ANY.(inbound := Some("api-in"), target := Outbound("api"))]
    + (if o.dnsOn then [ANY.(inbound := Some("dns-in"), target := Outbound("dns-out"))] else [])
    + [ANY.(ip := Capture.Deduped(DirectNetworks(w, o)), target := Outbound("direct"))]
  }

  function Closing(o: Options): seq<CoreRule> {
    if o.group then [ANY.(network := "tcp,udp", target := Balancer("balancer"))] else []
  }

  method BuildRouting(w: World, o: Options) returns (ok: bool, rules: seq<CoreRule>)
    ensures ok <==> AllValid(w, o.geo, o.rules)
    ensures ok ==> rules == Opening(w, o) + UserRules(o.rules, o.group) + Closing(o)
  {
    hide Capture.Deduped, FirstUsable, UserRules, AllValid;
    rules := [ANY.(inbound := Some("api-in"), target := Outbound("api"))];
    if o.dnsOn {
      rules := rules + [ANY.(inbound := Some("dns-in"), target := Outbound("dns-out"))];
    }
    var direct := PRIVATE_CIDRS;
    if o.geo {
      direct := direct + ["geoip:private"];
    }
    direct := direct + o.directCIDRs;
    var resolvers := LocalResolvers(w, o.localResolvers);
    ghost var before := direct;
    for i := 0 to |resolvers|
      invariant direct == before + Hosts(resolvers[..i])
    {
      assert Hosts(resolvers[..i + 1]) == Hosts(resolvers[..i]) + [resolvers[i] + "/32"];
      direct := direct + [resolvers[i] + "/32"];
    }
    assert resolvers[..|resolvers|] == resolvers;
    assert direct == DirectNetworks(w, o);
    var nets := Capture.Dedupe(direct);
    rules := rules + [ANY.(ip := nets, target := Outbound("direct"))];
    assert rules == Opening(w, o);
    var user;
    ok, user := BuildUserRules(w, o.geo, o.rules, o.group);
    if !ok {
      return;
    }
    rules := rules + user;
    if o.group {
      rules := rules + [ANY.(network := "tcp,udp", target := Balancer("balancer"))];
    }
  }

  // ----- what the operator was promised

  /** The first enabled rule whose matchers all hold. */
  function FirstMeant(w: World, rules: seq<Rule>, c: Connection): Option<Action> {
    if rules == [] then None
    else if rules[0].enabled && Meant(w, rules[0], c) then Some(rules[0].action)
    else FirstMeant(w, rules[1..], c)
  }

  /** Where the list sends a connection, the proxy being for what it leaves open. */
  function Meaning(w: World, rules: seq<Rule>, group: bool, c: Connection): Target {
    match FirstMeant(w, rules, c)
    case Some(a) => TargetOf(a, group)
    case None => ProxyTarget(group)
  }

  /** The routing read off the settings: the control and resolver inbounds first, then what is
      local, then the operator's list, then the proxy. */
  function Promised(w: World, o: Options, c: Connection): Target {
    if c.inbound == "api-in" then Outbound("api")
    else if o.dnsOn && c.inbound == "dns-in" then Outbound("dns-out")
    else if c.address.Some? && AnyNetwork(w, DirectNetworks(w, o), c.address.value) then Outbound("direct")
    else Meaning(w, o.rules, o.group, c)
  }

  /** Without a group the first outbound is the proxy. */
  function Routed(w: World, o: Options, rules: seq<CoreRule>, c: Connection): Target {
    var d := Decide(w, rules, c);
    if d.Some? then d.value else if o.group then Outbound("proxy-0") else Outbound("proxy")
  }

  /** No address is in the network of a blank text. */
  ghost predicate BlankIsNoNetwork(w: World) {
    forall a :: !w.inNetwork("", a)
  }

  lemma TrimmedNext(items: seq<string>, item: string)
    ensures Trimmed(items + [item]) == Trimmed(items) + if TrimSpace(item) == "" then [] else [TrimSpace(item)]
  {
    hide TrimSpace;
    assert (items + [item])[..|items|] == items;
  }

  lemma {:induction false} TrimmedMembers(items: seq<string>)
    requires forall i :: 0 <= i < |items| ==> TrimSpace(items[i]) != ""
    ensures |Trimmed(items)| == |items|
    ensures forall i :: 0 <= i < |items| ==> Trimmed(items)[i] == TrimSpace(items[i])
  {
    hide TrimSpace;
    if items != [] {
      var init, item := items[..|items| - 1], items[|items| - 1];
      assert items == init + [item];
      TrimmedMembers(init);
      TrimmedNext(init, item);
    }
  }

  lemma {:induction false} IndexIs(s: string, c: char, n: nat)
    requires n < |s| && s[n] == c && c !in s[..n]
    ensures IndexOf(s, c) == n
  {
    if n > 0 {
      assert s[0] == s[..n][0] && s[1..][..n - 1] == s[..n][1..];
      IndexIs(s[1..], c, n - 1);
    }
  }

  lemma MatcherMeans(w: World, text: string, host: string)
    ensures CoreDomain(w, Matcher(TrimSpace(text)), host) <==> DomainMeant(w, text, host)
  {
    hide TrimSpace, IsSubdomain, IndexOf;
    var d := TrimSpace(text);
    if ':' !in d {
      var m := "domain:" + d;
      assert m[6] == ':' && m[..6] == "domain" && m[7..] == d;
      IndexIs(m, ':', 6);
    }
  }

  lemma DomainsMean(w: World, r: Rule, geo: bool, c: Connection)
    requires Valid(w, geo, r)
    ensures (Matchers(r.domains) != [] ==>
               c.host.Some?
               && exists i :: 0 <= i < |Matchers(r.domains)| && CoreDomain(w, Matchers(r.domains)[i], c.host.value))
            <==> (r.domains != [] ==> c.host.Some? && AnyDomain(w, r.domains, c.host.value))
  {
    hide TrimSpace, CoreDomain, DomainMeant, Matcher;
    forall i | 0 <= i < |r.domains| ensures TrimSpace(r.domains[i]) != "" {
      assert ValidDomain(w, r.domains[i]);
    }
    TrimmedMembers(r.domains);
    if c.host.Some? {
      var host := c.host.value;
      forall i | 0 <= i < |r.domains|
        ensures CoreDomain(w, Matchers(r.domains)[i], host) <==> DomainMeant(w, r.domains[i], host)
      {
        MatcherMeans(w, r.domains[i], host);
      }
      if AnyDomain(w, r.domains, host) {
        var i :| 0 <= i < |r.domains| && DomainMeant(w, r.domains[i], host);
        assert CoreDomain(w, Matchers(r.domains)[i], host);
      }
    }
  }

  lemma NetworksMean(w: World, nets: seq<string>, address: string)
    requires forall i :: 0 <= i < |nets| ==> ValidIP(w, nets[i])
    ensures |Trimmed(nets)| == |nets|
    ensures (exists i :: 0 <= i < |Trimmed(nets)| && w.inNetwork(Trimmed(nets)[i], address)) <==>
            AnyNetwork(w, nets, address)
  {
    hide TrimSpace;
    forall i | 0 <= i < |nets| ensures TrimSpace(nets[i]) != "" {
      assert ValidIP(w, nets[i]);
    }
    TrimmedMembers(nets);
    if AnyNetwork(w, nets, address) {
      var i :| 0 <= i < |nets| && w.inNetwork(TrimSpace(nets[i]), address);
      assert Trimmed(nets)[i] == TrimSpace(nets[i]);
    }
  }

  lemma WordsArePlain(s: string)
    requires s in {"http", "tls", "quic", "bittorrent", "tcp", "udp", "tcp,udp", "udp,tcp", ""}
    ensures TrimSpace(s) == s
  {
    hide TrimSpace;
    if s == "" {
      NothingToTrim();
    } else {
      assert s[0] in "htqbu" && s[|s| - 1] in "psctd";
      TrimKeeps(s);
    }
  }

  lemma NothingToTrim()
    ensures TrimSpace("") == "" && TrimSpace(" ") == ""
  {
    assert " "[1..] == "" && TrimStart("") == "" && TrimEnd("") == "";
  }

  lemma ProtocolsMean(protocols: seq<string>)
    requires forall i :: 0 <= i < |protocols| ==> protocols[i] in {"http", "tls", "quic", "bittorrent"}
    ensures Trimmed(protocols) == protocols
  {
    hide TrimSpace;
    forall i | 0 <= i < |protocols| ensures TrimSpace(protocols[i]) == protocols[i] != "" {
      WordsArePlain(protocols[i]);
    }
    TrimmedMembers(protocols);
  }

  /** A translated rule matches what the operator's rule means once its vacant port fields are
      taken as not filled in. */
  lemma TranslationKeepsMeaning(w: World, geo: bool, r: Rule, c: Connection, group: bool)
    requires Valid(w, geo, r)
    ensures CoreMatches(w, Translated(r, group), c) <==> Meant(w, Cleared(r), c)
  {
    hide TrimSpace, CoreDomain, DomainMeant, Matcher, ValidDomain, ValidIP, ValidPorts, HasMatcher, NeedsGeoData,
         AnyDomain, AnyNetwork, Trimmed, Matchers, NetworkAllows;
    DomainsMean(w, r, geo, c);
    if c.address.Some? {
      NetworksMean(w, r.ips, c.address.value);
    } else {
      NetworksMean(w, r.ips, "");
    }
    NetworksMean(w, r.sources, c.source);
    ProtocolsMean(r.protocols);
    WordsArePlain(r.network);
  }

  /** The core's reading of a valid rule and the operator's differ on exactly the connections
      that a rule with a vacant port field matches in everything else. */
  lemma VacantPortsWiden(w: World, geo: bool, r: Rule, c: Connection, group: bool)
    requires Valid(w, geo, r)
    ensures (CoreMatches(w, Translated(r, group), c) <==> Meant(w, r, c)) <==>
            !(VacantPorts(r) && Meant(w, Cleared(r), c))
  {
    hide CoreMatches, Translated, Valid, TrimSpace, AnyDomain, AnyNetwork, NetworkAllows;
    TranslationKeepsMeaning(w, geo, r, c, group);
  }

  /** A port of white space is the one thing that validation takes for a matcher and the
      translation drops: such a rule is valid and captures every connection. */
  lemma VacantPortCapturesAll(w: World, geo: bool, c: Connection)
    ensures var r := Rule(true, Block, [], [], [], " ", "", [], "");
            Valid(w, geo, r) && CoreMatches(w, Translated(r, false), c) && !Meant(w, r, c)
  {
    hide TrimSpace, SplitAt;
    NothingToTrim();
  }

  lemma UserRulesNext(r: Rule, rest: seq<Rule>, group: bool)
    ensures UserRules([r] + rest, group) == (if r.enabled then [Translated(r, group)] else []) + UserRules(rest, group)
    decreases rest
  {
    hide Translated;
    if rest == [] {
      assert [r] + rest == [r] && [r][..0] == [];
    } else {
      var init := rest[..|rest| - 1];
      assert ([r] + rest)[..|rest|] == [r] + init;
      UserRulesNext(r, init, group);
    }
  }

  ghost predicate NoVacantPorts(rules: seq<Rule>) {
    forall i :: 0 <= i < |rules| && rules[i].enabled ==> !VacantPorts(rules[i])
  }

  function AllCleared(rules: seq<Rule>): seq<Rule> {
    seq(|rules|, i requires 0 <= i < |rules| => Cleared(rules[i]))
  }

  lemma FirstMeantNext(w: World, rules: seq<Rule>, c: Connection)
    requires rules != []
    ensures FirstMeant(w, rules, c) ==
            if rules[0].enabled && Meant(w, rules[0], c) then Some(rules[0].action) else FirstMeant(w, rules[1..], c)
    ensures AllCleared(rules) != [] && AllCleared(rules)[0] == Cleared(rules[0])
    ensures AllCleared(rules)[1..] == AllCleared(rules[1..])
    ensures NoVacantPorts(rules) ==> NoVacantPorts(rules[1..]) && (rules[0].enabled ==> !VacantPorts(rules[0]))
  {
    hide Meant, VacantPorts, Cleared;
    assert forall i :: 0 <= i < |rules| - 1 ==> rules[1..][i] == rules[i + 1];
  }

  lemma ValidNext(w: World, geo: bool, rules: seq<Rule>)
    requires AllValid(w, geo, rules) && rules != []
    ensures AllValid(w, geo, rules[1..]) && (rules[0].enabled ==> Valid(w, geo, rules[0]))
  {
    hide Valid;
    assert forall i :: 0 <= i < |rules| - 1 ==> rules[1..][i] == rules[i + 1];
  }

  /** A valid list decides as it is meant, vacant port fields taken as not filled in. */
  lemma {:induction false} UserRulesMean(w: World, geo: bool, rules: seq<Rule>, c: Connection, group: bool)
    requires AllValid(w, geo, rules)
    ensures Decide(w, UserRules(rules, group), c) ==
            match FirstMeant(w, AllCleared(rules), c) case None => None case Some(a) => Some(TargetOf(a, group))
  {
    if rules != [] {
      hide UserRules, Decide, FirstMeant, AllCleared, AllValid, CoreMatches, Meant, Valid, TargetOf, Cleared,
           Translated;
      var r, rest := rules[0], rules[1..];
      assert rules == [r] + rest;
      ValidNext(w, geo, rules);
      UserRulesMean(w, geo, rest, c, group);
      UserRulesNext(r, rest, group);
      FirstMeantNext(w, rules, c);
      FirstMeantNext(w, AllCleared(rules), c);
      ClearedKeeps(r);
      if r.enabled {
        TranslationKeepsMeaning(w, geo, r, c, group);
        FirstDecides(w, Translated(r, group), UserRules(rest, group), c);
        TargetKept(r, group);
      } else {
        assert [] + UserRules(rest, group) == UserRules(rest, group);
      }
    } else {
      NothingToDecide(w, group, c);
    }
  }

  lemma ClearedKeeps(r: Rule)
    ensures Cleared(r).enabled == r.enabled && Cleared(r).action == r.action
    ensures !VacantPorts(r) ==> Cleared(r) == r
  {
    hide TrimSpace;
  }

  lemma VacantMeansNothing(w: World, r: Rule, c: Connection)
    ensures VacantPorts(r) ==> !Meant(w, r, c)
  {
    hide TrimSpace, AnyDomain, AnyNetwork, NetworkAllows;
  }

  /** The first enabled rule that matches with its vacant port fields left out has such a field,
      and sends the connection elsewhere than what follows it. */
  predicate Strays(w: World, rules: seq<Rule>, group: bool, c: Connection) {
    if rules == [] then false
    else if rules[0].enabled && Meant(w, Cleared(rules[0]), c) then
      VacantPorts(rules[0]) && TargetOf(rules[0].action, group) != Meaning(w, rules[1..], group, c)
    else Strays(w, rules[1..], group, c)
  }

  lemma MeaningNext(w: World, rules: seq<Rule>, group: bool, c: Connection)
    requires rules != []
    ensures Meaning(w, rules, group, c) ==
            if rules[0].enabled && Meant(w, rules[0], c) then TargetOf(rules[0].action, group)
            else Meaning(w, rules[1..], group, c)
  {
    hide Meant, TargetOf, ProxyTarget;
  }

  lemma {:induction false} StraysExactlyWhen(w: World, rules: seq<Rule>, group: bool, c: Connection)
    ensures Meaning(w, AllCleared(rules), group, c) == Meaning(w, rules, group, c) <==> !Strays(w, rules, group, c)
    ensures NoVacantPorts(rules) ==> !Strays(w, rules, group, c)
  {
    if rules != [] {
      hide Meaning, AllCleared, NoVacantPorts, Meant, TargetOf, Cleared, VacantPorts, ProxyTarget;
      var r, rest := rules[0], rules[1..];
      FirstMeantNext(w, rules, c);
      MeaningNext(w, rules, group, c);
      MeaningNext(w, AllCleared(rules), group, c);
      ClearedKeeps(r);
      VacantMeansNothing(w, r, c);
      StraysExactlyWhen(w, rest, group, c);
    } else {
      assert AllCleared(rules) == rules;
    }
  }

  lemma NothingToDecide(w: World, group: bool, c: Connection)
    ensures Decide(w, UserRules([], group), c) == None
  {
  }

  lemma TargetKept(r: Rule, group: bool)
    ensures Translated(r, group).target == TargetOf(r.action, group)
  {
  }

  lemma OpeningMeans(w: World, o: Options, c: Connection)
    requires BlankIsNoNetwork(w)
    ensures Decide(w, Opening(w, o), c) ==
            if c.inbound == "api-in" then Some(Outbound("api"))
            else if o.dnsOn && c.inbound == "dns-in" then Some(Outbound("dns-out"))
            else if c.address.Some? && AnyNetwork(w, DirectNetworks(w, o), c.address.value)
            then Some(Outbound("direct"))
            else None
  {
    hide Capture.Deduped, DirectNetworks, TrimSpace;
    var api := ANY.(inbound := Some("api-in"), target := Outbound("api"));
    var dns := ANY.(inbound := Some("dns-in"), target := Outbound("dns-out"));
    var local := ANY.(ip := Capture.Deduped(DirectNetworks(w, o)), target := Outbound("direct"));
    LocalMeans(w, DirectNetworks(w, o), c);
    DirectIsNotEmpty(w, o);
    var after := if o.dnsOn then [dns] + ([local] + []) else [local] + [];
    assert Opening(w, o) == [api] + after;
    FirstDecides(w, api, after, c);
    FirstDecides(w, dns, [local] + [], c);
    FirstDecides(w, local, [], c);
  }

  lemma FirstDecides(w: World, r: CoreRule, rest: seq<CoreRule>, c: Connection)
    ensures Decide(w, [r] + rest, c) == if CoreMatches(w, r, c) then Some(r.target) else Decide(w, rest, c)
    ensures Decide(w, [], c) == None
  {
    assert ([r] + rest)[1..] == rest;
  }

  lemma DirectIsNotEmpty(w: World, o: Options)
    ensures Capture.Deduped(DirectNetworks(w, o)) != []
  {
    hide Capture.Deduped, TrimSpace;
    var items := DirectNetworks(w, o);
    Capture.DedupedMembers(items);
    PlainNetwork();
    assert items[0] == "0.0.0.0/8" && Capture.Occurs(items, "0.0.0.0/8");
  }

  lemma PlainNetwork()
    ensures TrimSpace("0.0.0.0/8") == "0.0.0.0/8"
  {
    hide TrimSpace;
    TrimKeeps("0.0.0.0/8");
  }

  lemma LocalMeans(w: World, nets: seq<string>, c: Connection)
    requires BlankIsNoNetwork(w)
    ensures c.address.Some? ==>
              ((exists i :: 0 <= i < |Capture.Deduped(nets)| && w.inNetwork(Capture.Deduped(nets)[i], c.address.value))
               <==> AnyNetwork(w, nets, c.address.value))
  {
    hide Capture.Deduped, TrimSpace;
    Capture.DedupedMembers(nets);
    if c.address.Some? {
      var a := c.address.value;
      if i :| 0 <= i < |Capture.Deduped(nets)| && w.inNetwork(Capture.Deduped(nets)[i], a) {
        assert Capture.Occurs(nets, Capture.Deduped(nets)[i]);
        var j :| 0 <= j < |nets| && TrimSpace(nets[j]) == Capture.Deduped(nets)[i];
      }
      if AnyNetwork(w, nets, a) {
        var j :| 0 <= j < |nets| && w.inNetwork(TrimSpace(nets[j]), a);
        assert Capture.Occurs(nets, TrimSpace(nets[j]));
        var v := TrimSpace(nets[j]);
        assert v in Capture.Deduped(nets);
        var i :| 0 <= i < |Capture.Deduped(nets)| && Capture.Deduped(nets)[i] == v;
      }
    }
  }

  /** What the rules ahead of the operator's decide. */
  predicate DecidedAhead(w: World, o: Options, c: Connection) {
    || c.inbound == "api-in" || (o.dnsOn && c.inbound == "dns-in")
    || (c.address.Some? && AnyNetwork(w, DirectNetworks(w, o), c.address.value))
  }

  /** The generated rules route a connection as the settings promise, vacant port fields taken as
      not filled in; that is what was promised for the list as it stands exactly when the
      connection is decided ahead of it or does not stray. */
  lemma RoutesAsPromised(w: World, o: Options, c: Connection)
    requires BlankIsNoNetwork(w) && AllValid(w, o.geo, o.rules)
    ensures var routed := Routed(w, o, Opening(w, o) + UserRules(o.rules, o.group) + Closing(o), c);
            (&& routed == Promised(w, o.(rules := AllCleared(o.rules)), c)
             && (routed == Promised(w, o, c) <==> DecidedAhead(w, o, c) || !Strays(w, o.rules, o.group, c))
             && (NoVacantPorts(o.rules) ==> routed == Promised(w, o, c)))
  {
    hide Opening, UserRules, CoreMatches, Meant, Valid, VacantPorts, FirstMeant, AnyNetwork, DirectNetworks, TargetOf,
         Strays, AllCleared, NoVacantPorts;
    OpeningMeans(w, o, c);
    UserRulesMean(w, o.geo, o.rules, c, o.group);
    StraysExactlyWhen(w, o.rules, o.group, c);
    DecideJoins(w, Opening(w, o) + UserRules(o.rules, o.group), Closing(o), c);
    DecideJoins(w, Opening(w, o), UserRules(o.rules, o.group), c);
    ClosingMeans(w, o, c);
    SameNetworks(w, o, AllCleared(o.rules));
  }

  lemma SameNetworks(w: World, o: Options, rules: seq<Rule>)
    ensures DirectNetworks(w, o.(rules := rules)) == DirectNetworks(w, o)
  {
  }

  lemma ClosingMeans(w: World, o: Options, c: Connection)
    ensures Decide(w, Closing(o), c) == if o.group then Some(Balancer("balancer")) else None
  {
    if o.group {
      var last := ANY.(network := "tcp,udp", target := Balancer("balancer"));
      assert Closing(o) == [last] && CoreMatches(w, last, c);
    }
  }

  // ----- where a connection ends up

  /** A rule of the list applies to a connection, port fields of white space taken as not filled
      in. */
  predicate Applies(w: World, r: Rule, c: Connection) {
    r.enabled && Meant(w, Cleared(r), c)
  }

  /** The rule at `k` is the first of the list that applies. */
  ghost predicate FirstToApply(w: World, rules: seq<Rule>, c: Connection, k: nat) {
    k < |rules| && Applies(w, rules[k], c) && forall j :: 0 <= j < k ==> !Applies(w, rules[j], c)
  }

  lemma {:induction false} FirstMeantIs(w: World, rules: seq<Rule>, c: Connection, k: nat)
    requires FirstToApply(w, rules, c, k)
    ensures FirstMeant(w, AllCleared(rules), c) == Some(rules[k].action)
  {
    hide Meant, Cleared, FirstMeant, AllCleared, NoVacantPorts;
    FirstMeantNext(w, rules, c);
    FirstMeantNext(w, AllCleared(rules), c);
    ClearedKeeps(rules[0]);
    if k > 0 {
      assert !Applies(w, rules[0], c);
      assert forall j :: 0 <= j < |rules| - 1 ==> rules[1..][j] == rules[j + 1];
      FirstMeantIs(w, rules[1..], c, k - 1);
    }
  }

  lemma {:induction false} NothingMeant(w: World, rules: seq<Rule>, c: Connection)
    requires forall j :: 0 <= j < |rules| ==> !Applies(w, rules[j], c)
    ensures FirstMeant(w, AllCleared(rules), c) == None
  {
    if rules != [] {
      hide Meant, Cleared, FirstMeant, AllCleared, NoVacantPorts;
      FirstMeantNext(w, rules, c);
      FirstMeantNext(w, AllCleared(rules), c);
      ClearedKeeps(rules[0]);
      assert !Applies(w, rules[0], c);
      assert forall j :: 0 <= j < |rules| - 1 ==> rules[1..][j] == rules[j + 1];
      NothingMeant(w, rules[1..], c);
    }
  }

  /** A connection that is not decided ahead of the list goes where its first rule that applies
      says: past the tunnel, nowhere, or into the tunnel, which a group enters by the balancer. */
  lemma FirstRuleDecides(w: World, o: Options, c: Connection, k: nat)
    requires BlankIsNoNetwork(w) && AllValid(w, o.geo, o.rules)
    requires !DecidedAhead(w, o, c) && FirstToApply(w, o.rules, c, k)
    ensures var routed := Routed(w, o, Opening(w, o) + UserRules(o.rules, o.group) + Closing(o), c);
            && (o.rules[k].action == Direct ==> routed == Outbound("direct"))
            && (o.rules[k].action == Block ==> routed == Outbound("block"))
            && (o.rules[k].action == Proxy ==> routed == if o.group then Balancer("balancer") else Outbound("proxy"))
  {
    hide Opening, UserRules, Closing, Routed, Meant, Cleared, FirstMeant, AllCleared, AllValid, AnyNetwork, Strays,
         DirectNetworks, NoVacantPorts;
    RoutesAsPromised(w, o, c);
    SameNetworks(w, o, AllCleared(o.rules));
    FirstMeantIs(w, o.rules, c, k);
  }

  /** The tunnel is for what the list leaves open. */
  lemma NoRuleMeansProxy(w: World, o: Options, c: Connection)
    requires BlankIsNoNetwork(w) && AllValid(w, o.geo, o.rules) && !DecidedAhead(w, o, c)
    requires forall j :: 0 <= j < |o.rules| ==> !Applies(w, o.rules[j], c)
    ensures var routed := Routed(w, o, Opening(w, o) + UserRules(o.rules, o.group) + Closing(o), c);
            routed == if o.group then Balancer("balancer") else Outbound("proxy")
  {
    hide Opening, UserRules, Closing, Routed, Applies, FirstMeant, AllCleared, AllValid, AnyNetwork, Strays,
         DirectNetworks, NoVacantPorts;
    RoutesAsPromised(w, o, c);
    SameNetworks(w, o, AllCleared(o.rules));
    NothingMeant(w, o.rules, c);
  }

  predicate IsPrivate(net: string) {
    net in {"0.0.0.0/8", "10.0.0.0/8", "100.64.0.0/10", "127.0.0.0/8", "169.254.0.0/16", "172.16.0.0/12",
            "192.0.0.0/24", "192.168.0.0/16", "198.18.0.0/15", "224.0.0.0/4", "240.0.0.0/4", "255.255.255.255/32",
            "::1/128", "fc00::/7", "fe80::/10"}
  }

  ghost predicate InPrivate(w: World, address: string) {
    exists net :: w.inNetwork(net, address) && IsPrivate(net)
  }

  /** Which addresses are reached directly whatever the list says: private networks, the
      country-free list when there is geo data, what the options add, and the device's own
      resolvers. */
  ghost predicate IsLocal(w: World, o: Options, address: string) {
    || InPrivate(w, address)
    || (o.geo && w.inNetwork("geoip:private", address))
    || AnyNetwork(w, o.directCIDRs, address)
    || exists k :: 0 <= k < |FirstUsable(w, o.localResolvers)|
                   && w.inNetwork(FirstUsable(w, o.localResolvers)[k] + "/32", address)
  }

  lemma {:induction false} AnyNetworkJoins(w: World, a: seq<string>, b: seq<string>, address: string)
    ensures AnyNetwork(w, a + b, address) <==> AnyNetwork(w, a, address) || AnyNetwork(w, b, address)
  {
    hide TrimSpace;
    if AnyNetwork(w, a, address) {
      var k :| 0 <= k < |a| && w.inNetwork(TrimSpace(a[k]), address);
      assert (a + b)[k] == a[k];
    }
    if AnyNetwork(w, b, address) {
      var k :| 0 <= k < |b| && w.inNetwork(TrimSpace(b[k]), address);
      assert (a + b)[|a| + k] == b[k];
    }
  }

  lemma PrivateIsPlain(k: nat)
    requires k < |PRIVATE_CIDRS|
    ensures TrimSpace(PRIVATE_CIDRS[k]) == PRIVATE_CIDRS[k]
  {
    hide TrimSpace;
    TrimKeeps(PRIVATE_CIDRS[k]);
  }

  lemma PrivateMeans(w: World, address: string)
    ensures AnyNetwork(w, PRIVATE_CIDRS, address) <==> InPrivate(w, address)
  {
    hide TrimSpace;
    forall k | 0 <= k < |PRIVATE_CIDRS| ensures TrimSpace(PRIVATE_CIDRS[k]) == PRIVATE_CIDRS[k] {
      PrivateIsPlain(k);
    }
    if InPrivate(w, address) {
      var net :| w.inNetwork(net, address) && IsPrivate(net);
      assert net in PRIVATE_CIDRS;
      var k :| 0 <= k < |PRIVATE_CIDRS| && PRIVATE_CIDRS[k] == net;
      assert w.inNetwork(TrimSpace(PRIVATE_CIDRS[k]), address);
    }
  }

  lemma GeoMeans(w: World, address: string)
    ensures AnyNetwork(w, ["geoip:private"], address) <==> w.inNetwork("geoip:private", address)
    ensures !AnyNetwork(w, [], address)
  {
    hide TrimSpace;
    TrimKeeps("geoip:private");
    assert w.inNetwork(TrimSpace(["geoip:private"][0]), address) ==> AnyNetwork(w, ["geoip:private"], address);
  }

  /** The resolvers that are used: two at most, the first of those that may be. */
  lemma {:induction false} FirstUsableMeans(w: World, items: seq<string>)
    ensures |FirstUsable(w, items)| <= 2
    ensures forall k :: 0 <= k < |FirstUsable(w, items)| ==>
                          var r := FirstUsable(w, items)[k]; r != "" && r != "localhost" && w.remoteIPv4(r)
    ensures forall k :: 0 <= k < |FirstUsable(w, items)| ==>
                          FirstUsable(w, items)[k] != "" && !IsSpace(FirstUsable(w, items)[k][0])
  {
    hide TrimSpace, IsSpace;
    if items != [] {
      FirstUsableMeans(w, items[..|items| - 1]);
    }
  }

  /** They are taken in the order they are listed in, and every entry that may serve is one while
      fewer than two came before it. */
  lemma {:induction false} ResolversInOrder(w: World, items: seq<string>, i: nat, j: nat)
    requires i < |items| && forall k :: 0 <= k < i ==> !UsableResolver(w, items[k])
    requires var r := TrimSpace(items[i]); r != "" && r != "localhost" && w.remoteIPv4(r)
    requires i < j <= |items| && forall k :: i < k < j ==> !UsableResolver(w, items[k])
    requires j < |items| ==> var r := TrimSpace(items[j]); r != "" && r != "localhost" && w.remoteIPv4(r)
    ensures FirstUsable(w, items) ==
            [TrimSpace(items[i])] + if j < |items| then [TrimSpace(items[j])] else []
  {
    hide TrimSpace;
    var init := items[..|items| - 1];
    if i == |init| {
      NoneUsable(w, init);
    } else if j >= |init| {
      ResolversInOrder(w, init, i, |init|);
    } else {
      ResolversInOrder(w, init, i, j);
    }
  }

  lemma {:induction false} NoneUsable(w: World, items: seq<string>)
    requires forall k :: 0 <= k < |items| ==> !UsableResolver(w, items[k])
    ensures FirstUsable(w, items) == []
  {
    hide UsableResolver, TrimSpace;
    if items != [] {
      NoneUsable(w, items[..|items| - 1]);
    }
  }

  lemma HostsMean(w: World, resolvers: seq<string>, address: string)
    requires forall k :: 0 <= k < |resolvers| ==> resolvers[k] != "" && !IsSpace(resolvers[k][0])
    ensures AnyNetwork(w, Hosts(resolvers), address) <==>
            exists k :: 0 <= k < |resolvers| && w.inNetwork(resolvers[k] + "/32", address)
  {
    hide TrimSpace;
    forall k | 0 <= k < |resolvers| ensures TrimSpace(Hosts(resolvers)[k]) == resolvers[k] + "/32" {
      TrimKeeps(resolvers[k] + "/32");
    }
    if k :| 0 <= k < |resolvers| && w.inNetwork(resolvers[k] + "/32", address) {
      assert w.inNetwork(TrimSpace(Hosts(resolvers)[k]), address);
    }
  }

  lemma LocalNetworks(w: World, o: Options, address: string)
    ensures AnyNetwork(w, DirectNetworks(w, o), address) <==> IsLocal(w, o, address)
  {
    hide AnyNetwork, FirstUsable, Hosts, TrimSpace, IsSpace, InPrivate;
    var geo, hosts := if o.geo then ["geoip:private"] else [], Hosts(FirstUsable(w, o.localResolvers));
    AnyNetworkJoins(w, PRIVATE_CIDRS + geo + o.directCIDRs, hosts, address);
    AnyNetworkJoins(w, PRIVATE_CIDRS + geo, o.directCIDRs, address);
    AnyNetworkJoins(w, PRIVATE_CIDRS, geo, address);
    PrivateMeans(w, address);
    GeoMeans(w, address);
    FirstUsableMeans(w, o.localResolvers);
    HostsMean(w, FirstUsable(w, o.localResolvers), address);
  }

  /** What is decided ahead of the list: the control interface, names while they are taken over,
      and what is local. */
  lemma AheadOfTheList(w: World, o: Options, c: Connection)
    requires BlankIsNoNetwork(w) && AllValid(w, o.geo, o.rules)
    ensures var routed := Routed(w, o, Opening(w, o) + UserRules(o.rules, o.group) + Closing(o), c);
            var names, local := o.dnsOn && c.inbound == "dns-in", c.address.Some? && IsLocal(w, o, c.address.value);
            && (DecidedAhead(w, o, c) <==> c.inbound == "api-in" || names || local)
            && (c.inbound == "api-in" ==> routed == Outbound("api"))
            && (names ==> routed == Outbound("dns-out"))
            && (c.inbound != "api-in" && !names && local ==> routed == Outbound("direct"))
  {
    hide Opening, UserRules, Closing, Routed, Meant, AllCleared, AllValid, AnyNetwork, Strays, DirectNetworks, IsLocal,
         NoVacantPorts, Meaning;
    RoutesAsPromised(w, o, c);
    if c.address.Some? {
      LocalNetworks(w, o, c.address.value);
    }
  }

  /** With a group no connection is left to one member: every one is decided by a rule. */
  lemma GroupDecidesEverything(w: World, o: Options, c: Connection)
    requires o.group
    ensures Decide(w, Opening(w, o) + UserRules(o.rules, o.group) + Closing(o), c).Some?
  {
    hide Opening, UserRules, CoreMatches;
    DecideJoins(w, Opening(w, o) + UserRules(o.rules, o.group), Closing(o), c);
    ClosingMeans(w, o, c);
  }

  function Enabled(rules: seq<Rule>): seq<Rule> {
    if rules == [] then []
    else
      var init := Enabled(rules[..|rules| - 1]);
      if rules[|rules| - 1].enabled then init + [rules[|rules| - 1]] else init
  }

  /** Turning a rule off is the same as taking it out. */
  lemma {:induction false} DisabledRulesAreInert(rules: seq<Rule>, group: bool)
    ensures UserRules(rules, group) == UserRules(Enabled(rules), group)
  {
    if rules != [] {
      hide Translated;
      DisabledRulesAreInert(rules[..|rules| - 1], group);
      var more := Enabled(rules);
      if rules[|rules| - 1].enabled {
        assert more[..|more| - 1] == Enabled(rules[..|rules| - 1]);
      }
    }
  }
}
