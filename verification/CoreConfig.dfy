/**
 The core's whole configuration (internal/xray/config.go, internal/xray/keepalive.go), built from
 the target, the operator's rules and the settings. How one server is dialled is left to the
 environment; everything around it is built here.
 */
module CoreConfig {
  import opened Optional
  import opened Strings
  import Capture
  import L = RuleList
  import Modes
  import R = Routing
  import S = Store

  // ----- what is built

  datatype Sniffing = Sniffing(enabled: bool, routeOnly: bool)

  datatype Inbound = Inbound(
    tag: string, listen: string, port: int, protocol: string, address: string, network: string, transparent: bool,
    sniffing: Option<Sniffing>)

  /** The socket of an outbound: its mark, whether names are resolved here, and the seconds
      between keepalive probes. */
  datatype Sockopt = Sockopt(mark: int, useIP: bool, probe: int)

  /** `heartbeat` is the number of seconds between WebSocket pings. */
  datatype Stream = Stream(network: string, transport: string, heartbeat: int, sockopt: Sockopt)

  datatype Outbound = Outbound(
    tag: string, protocol: string, settings: string, stream: Option<Stream>, concurrency: int)

  datatype NameServer = NameServer(address: string, domains: seq<string>)

  datatype NameService = NameService(servers: seq<NameServer>, queryStrategy: string)

  datatype Observatory = Observatory(probeURL: string, probeInterval: string, burst: bool)

  datatype Balancer = Balancer(strategy: string, expected: Option<int>, fallback: Option<string>)

  datatype Config = Config(
    logLevel: string,
    access: string,
    connIdle: int,
    inbounds: seq<Inbound>,
    dns: Option<NameService>,
    outbounds: seq<Outbound>,
    observatory: Option<Observatory>,
    rules: seq<R.CoreRule>,
    balancer: Option<Balancer>)

  // ----- what it is built from

  type Number32 = p: Modes.Parsed | p.Number? ==> -0x8000_0000 <= p.value < 0x8000_0000 witness Modes.Malformed

  /** A server as the core dials it: the settings of its protocol and of its transport. */
  datatype Dialled = Dialled(settings: string, network: string, transport: string)

  /**
   What a build finds around it: the device's networks and resolvers, the geo data, which
   servers and probe addresses are valid, and how the core at a path dials a server, if it can.
   */
  datatype Env = Env(
    world: L.World,
    geo: bool,
    lanCIDRs: seq<string>,
    wanResolvers: seq<string>,
    number: string -> Number32,
    validProfile: S.Profile -> bool,
    validProbe: string -> bool,
    dial: (S.Profile, string) -> Option<Dialled>)

  /** The profile and the group that the target's id names, the members that exist, and the rest. */
  datatype Inputs = Inputs(
    profile: Option<S.Profile>,
    group: Option<S.Group>,
    members: seq<S.Profile>,
    rules: seq<S.Rule>,
    settings: S.Settings)

  ghost predicate Whole(i: Inputs) {
    && S.Complete(i.settings) && (i.profile.Some? ==> S.WholeProfile(i.profile.value))
    && forall k :: 0 <= k < |i.members| ==> S.WholeProfile(i.members[k])
  }

  function ActionOf(text: string): L.Action {
    if text == "direct" then L.Direct
    else if text == "proxy" then L.Proxy
    else if text == "block" then L.Block
    else L.UnknownAction(text)
  }

  function ToRule(r: S.Rule): L.Rule {
    L.Rule(r.enabled, ActionOf(r.action), r.domains, r.ips, r.sources, r.port, r.sourcePort, r.protocols, r.network)
  }

  function ToRules(rules: seq<S.Rule>): seq<L.Rule> {
    seq(|rules|, i requires 0 <= i < |rules| => ToRule(rules[i]))
  }

  function Mark(env: Env, s: S.Settings): int
    requires S.Complete(s)
  {
    Modes.MarkValue(env.number(TrimSpace(s.texts[S.FwMark])))
  }

  // ----- sniffing

  predicate NeedsNames(rules: seq<S.Rule>) {
    exists i :: 0 <= i < |rules| && rules[i].enabled && rules[i].domains != []
  }

  predicate Sniffs(s: S.Settings, rules: seq<S.Rule>)
    requires S.Complete(s)
  {
    s.texts[S.Sniff] == "on" || (s.texts[S.Sniff] != "off" && NeedsNames(rules))
  }

  method SniffWanted(s: S.Settings, rules: seq<S.Rule>) returns (wanted: bool)
    requires S.Complete(s)
    ensures wanted == Sniffs(s, rules)
  {
    if s.texts[S.Sniff] == "off" {
      return false;
    }
    if s.texts[S.Sniff] == "on" {
      return true;
    }
    for i := 0 to |rules|
      invariant forall k :: 0 <= k < i ==> !(rules[k].enabled && rules[k].domains != [])
    {
      if rules[i].enabled && |rules[i].domains| > 0 {
        return true;
      }
    }
    return false;
  }

  function SniffingFor(s: S.Settings, rules: seq<S.Rule>): Sniffing
    requires S.Complete(s)
  {
    var on := Sniffs(s, rules);
    Sniffing(on, on && DNSOn(s))
  }

  // ----- names

  predicate DNSOn(s: S.Settings)
    requires S.Complete(s)
  {
    s.texts[S.DNSMode] != "off"
  }

  /** A rule that takes its names off the tunnel for everyone. */
  predicate Bypasses(r: S.Rule) {
    r.enabled && r.action == "direct" && r.sources == [] && r.sourcePort == ""
  }

  function BypassMatchers(rules: seq<S.Rule>): seq<string> {
    if rules == [] then []
    else
      var r := rules[|rules| - 1];
      BypassMatchers(rules[..|rules| - 1]) + if Bypasses(r) then R.Matchers(r.domains) else []
  }

  method BypassedDomains(rules: seq<S.Rule>) returns (out: seq<string>)
    ensures out == Capture.Deduped(BypassMatchers(rules))
  {
    hide Capture.Deduped, R.Matchers;
    out := [];
    for i := 0 to |rules|
      invariant out == BypassMatchers(rules[..i])
    {
      assert rules[..i + 1][..i] == rules[..i];
      var r := rules[i];
      if !r.enabled || r.action != "direct" {
        continue;
      }
      if |r.sources| > 0 || r.sourcePort != "" {
        continue;
      }
      var matchers := R.DomainMatchers(r.domains);
      out := out + matchers;
    }
    assert rules[..|rules|] == rules;
    out := Capture.Dedupe(out);
  }

  function Upstream(address: string): string {
    var v := TrimSpace(address);
    if v == "" || L.HasText(v, "://") || v == "localhost" then v else "tcp://" + v
  }

  function LocalServers(resolvers: seq<string>, domains: seq<string>): seq<NameServer> {
    seq(|resolvers|, i requires 0 <= i < |resolvers| => NameServer(resolvers[i], domains))
  }

  /** The names that are taken off the tunnel are asked of the device's own resolvers. */
  function Servers(env: Env, s: S.Settings, rules: seq<S.Rule>): seq<NameServer>
    requires S.Complete(s)
  {
    var local := Capture.Deduped(BypassMatchers(rules));
    (if local == [] then [] else LocalServers(R.FirstUsable(env.world, env.wanResolvers), local))
    + [NameServer(Upstream(s.texts[S.DNS]), [])]
  }

  method NameServers(env: Env, s: S.Settings, rules: seq<S.Rule>) returns (servers: seq<NameServer>)
    requires S.Complete(s)
    ensures servers == Servers(env, s, rules)
  {
    hide Capture.Deduped, BypassMatchers, R.FirstUsable, Upstream;
    servers := [];
    var local := BypassedDomains(rules);
    if |local| > 0 {
      var resolvers := R.LocalResolvers(env.world, env.wanResolvers);
      for i := 0 to |resolvers|
        invariant servers == LocalServers(resolvers[..i], local)
      {
        servers := servers + [NameServer(resolvers[i], local)];
      }
      assert resolvers[..|resolvers|] == resolvers;
    }
    servers := servers + [NameServer(Upstream(s.texts[S.DNS]), [])];
  }

  // ----- the inbounds

  function Base(s: S.Settings, sniffing: Sniffing): seq<Inbound>
    requires S.Complete(s)
  {
    var listen := if s.flags[S.AllowLAN] then "0.0.0.0" else "127.0.0.1";
    [Inbound("api-in", "127.0.0.1", s.numbers[S.StatsPort], "dokodemo-door", "127.0.0.1", "", false, None),
     Inbound("socks-in", listen, s.numbers[S.SocksPort], "socks", "", "", false, Some(sniffing))]
    + if s.numbers[S.HTTPPort] > 0
      then [Inbound("http-in", listen, s.numbers[S.HTTPPort], "http", "", "", false, Some(sniffing))] else []
  }

  function Transparent(s: S.Settings, sniffing: Sniffing): seq<Inbound>
    requires S.Complete(s)
  {
    if s.texts[S.Mode] == "tun" then []
    else
      var tproxy := s.texts[S.Mode] == "tproxy";
      [Inbound("transparent-in", "0.0.0.0", s.numbers[S.TProxyPort], "dokodemo-door", "",
               if tproxy then "tcp,udp" else "tcp", tproxy, Some(sniffing))]
  }

  function DNSInbound(s: S.Settings): seq<Inbound>
    requires S.Complete(s)
  {
    if !DNSOn(s) then []
    else
      [Inbound("dns-in", if s.texts[S.DNSMode] == "dnsmasq" then "127.0.0.1" else "0.0.0.0", s.numbers[S.DNSPort],
               "dokodemo-door", s.texts[S.DNS], "tcp,udp", false, None)]
  }

  function Inbounds(s: S.Settings, rules: seq<S.Rule>): seq<Inbound>
    requires S.Complete(s)
  {
    var sniffing := SniffingFor(s, rules);
    Base(s, sniffing) + Transparent(s, sniffing) + DNSInbound(s)
  }

  // ----- the outbounds

  const TUNNELS: set<string> := {"vless", "vmess", "trojan", "shadowsocks"}

  function Server(env: Env, binary: string, p: S.Profile, tag: string, mark: int): Option<Outbound>
    requires S.WholeProfile(p)
  {
    if !env.validProfile(p) || p.texts[S.Proto] !in TUNNELS then None
    else
      match env.dial(p, binary)
      case None => None
      case Some(d) =>
        var stream := Stream(d.network, d.transport, 0, Sockopt(mark, false, 0));
        Some(Outbound(tag, p.texts[S.Proto], d.settings, Some(stream), if p.flags[S.Mux] then 8 else -1))
  }

  function MemberTag(i: nat): string {
    "proxy-" + Decimal(i)
  }

  /** The servers of a group in order, unless one of them cannot be dialled. */
  function MemberOutbounds(env: Env, binary: string, members: seq<S.Profile>, mark: int): Option<seq<Outbound>>
    requires forall k :: 0 <= k < |members| ==> S.WholeProfile(members[k])
  {
    if members == [] then Some([])
    else
      var n := |members| - 1;
      var init := MemberOutbounds(env, binary, members[..n], mark);
      var last := Server(env, binary, members[n], MemberTag(n), mark);
      if init.None? || last.None? then None else Some(init.value + [last.value])
  }

  function StrategyFor(strategy: string, members: nat): (string, Option<int>) {
    if strategy == "balance" then ("leastLoad", Some(if members < 1 then 1 else members))
    else if strategy == "leastLoad" then ("leastLoad", Some(1))
    else (strategy, None)
  }

  predicate HealthAware(strategy: string) {
    strategy in {"leastPing", "leastLoad", "balance"}
  }

  function BalancerFor(strategy: string, outs: seq<Outbound>): Balancer {
    var (kind, expected) := StrategyFor(strategy, |outs|);
    Balancer(kind, expected, if HealthAware(strategy) && |outs| > 0 then Some(outs[0].tag) else None)
  }

  method BuildGroupOutbounds(env: Env, binary: string, g: S.Group, members: seq<S.Profile>, mark: int)
    returns (ok: bool, outs: seq<Outbound>, balancer: Balancer)
    requires forall k :: 0 <= k < |members| ==> S.WholeProfile(members[k])
    ensures ok <==> MemberOutbounds(env, binary, members, mark).Some?
    ensures ok ==>
              Some(outs) == MemberOutbounds(env, binary, members, mark) && balancer == BalancerFor(g.strategy, outs)
  {
    hide Server, MemberTag, StrategyFor, BalancerFor;
    outs := [];
    for i := 0 to |members|
      invariant MemberOutbounds(env, binary, members[..i], mark) == Some(outs)
    {
      assert members[..i + 1][..i] == members[..i];
      var out := Server(env, binary, members[i], MemberTag(i), mark);
      if out.None? {
        OneFailure(env, binary, members, mark, i + 1);
        balancer := BalancerFor(g.strategy, outs);
        return false, [], balancer;
      }
      outs := outs + [out.value];
    }
    assert members[..|members|] == members;
    balancer := BalancerFor(g.strategy, outs);
    ok := true;
  }

  lemma {:induction false} OneFailure(env: Env, binary: string, members: seq<S.Profile>, mark: int, n: nat)
    requires n <= |members| && forall k :: 0 <= k < |members| ==> S.WholeProfile(members[k])
    requires MemberOutbounds(env, binary, members[..n], mark).None?
    ensures MemberOutbounds(env, binary, members, mark).None?
  {
    hide Server, MemberTag;
    if n == |members| {
      assert members[..n] == members;
    } else {
      assert members[..|members| - 1][..n] == members[..n];
      OneFailure(env, binary, members[..|members| - 1], mark, n);
    }
  }

  function ObservatoryFor(g: S.Group): Option<Observatory> {
    if HealthAware(g.strategy) then Some(Observatory(g.probeURL, g.probeInterval, g.strategy != "leastPing")) else None
  }

  function Fixed(s: S.Settings, mark: int): seq<Outbound>
    requires S.Complete(s)
  {
    [Outbound("direct", "freedom", "", Some(Stream("", "", 0, Sockopt(mark, true, 0))), 0),
     Outbound("block", "blackhole", "", None, 0)]
    + if DNSOn(s) then [Outbound("dns-out", "dns", s.texts[S.DNS], Some(Stream("", "", 0, Sockopt(mark, false, 0))), 0)]
      else []
  }

  // ----- keepalive

  const OVER_TCP: set<string> := {"", "tcp", "raw", "ws", "httpupgrade", "grpc", "h2"}

  predicate KeptOpen(o: Outbound) {
    o.protocol in TUNNELS && o.stream.Some? && o.stream.value.network in OVER_TCP
  }

  function KeptAlive(o: Outbound, seconds: int): Outbound {
    if !KeptOpen(o) then o
    else
      var ss := o.stream.value;
      o.(stream := Some(ss.(heartbeat := if ss.network == "ws" then seconds else ss.heartbeat,
                            sockopt := ss.sockopt.(probe := seconds))))
  }

  function AllKeptAlive(outs: seq<Outbound>, seconds: int): seq<Outbound> {
    if seconds <= 0 then outs else seq(|outs|, i requires 0 <= i < |outs| => KeptAlive(outs[i], seconds))
  }

  method ApplyKeepAlive(before: seq<Outbound>, seconds: int) returns (outs: seq<Outbound>)
    ensures outs == AllKeptAlive(before, seconds)
  {
    outs := before;
    if seconds <= 0 {
      return;
    }
    for i := 0 to |outs|
      invariant |outs| == |before|
      invariant forall k :: 0 <= k < i ==> outs[k] == KeptAlive(before[k], seconds)
      invariant forall k :: i <= k < |outs| ==> outs[k] == before[k]
    {
      var o := outs[i];
      if o.protocol !in TUNNELS || o.stream == None {
        continue;
      }
      var ss := o.stream.value;
      if ss.network !in OVER_TCP {
        continue;
      }
      if ss.network == "ws" {
        ss := ss.(heartbeat := seconds);
      }
      ss := ss.(sockopt := ss.sockopt.(probe := seconds));
      outs := outs[i := o.(stream := Some(ss))];
    }
  }

  // ----- the whole

  predicate ValidGroup(env: Env, g: S.Group) {
    g.members != [] && S.ValidStrategy(g.strategy) && (g.probeURL == "" || env.validProbe(g.probeURL))
  }

  /** What is refused before anything is built. */
  predicate Accepted(env: Env, i: Inputs) {
    && (i.profile.Some? || i.group.Some?)
    && (i.profile.Some? ==> env.validProfile(i.profile.value))
    && (i.group.Some? ==> ValidGroup(env, i.group.value) && i.members != [])
  }

  function Carriers(env: Env, i: Inputs, mark: int): Option<seq<Outbound>>
    requires Whole(i)
  {
    var binary := i.settings.texts[S.XrayBin];
    if i.group.Some? then MemberOutbounds(env, binary, i.members, mark)
    else if i.profile.Some? then
      var o := Server(env, binary, i.profile.value, "proxy", mark);
      if o.Some? then Some([o.value]) else None
    else None
  }

  function RoutingOptions(env: Env, i: Inputs): R.Options
    requires Whole(i)
  {
    R.Options(ToRules(i.rules), DNSOn(i.settings), env.geo, env.lanCIDRs + i.settings.bypassIP, env.wanResolvers,
              i.group.Some?)
  }

  function RulesOf(env: Env, o: R.Options): seq<R.CoreRule> {
    R.Opening(env.world, o) + R.UserRules(o.rules, o.group) + R.Closing(o)
  }

  function Access(level: string): string {
    if level == "debug" || level == "info" then "" else "none"
  }

  function Assembled(env: Env, i: Inputs, carriers: seq<Outbound>): Config
    requires Whole(i)
  {
    var s := i.settings;
    Config(s.texts[S.LogLevel], Access(s.texts[S.LogLevel]),
           if s.numbers[S.ConnIdle] > 0 then s.numbers[S.ConnIdle] else S.DefaultNumber(S.ConnIdle),
           Inbounds(s, i.rules),
           if DNSOn(s) then Some(NameService(Servers(env, s, i.rules), if s.flags[S.IPv6] then "UseIP" else "UseIPv4"))
           else None,
           AllKeptAlive(carriers + Fixed(s, Mark(env, s)), s.numbers[S.KeepAlive]),
           if i.group.Some? then ObservatoryFor(i.group.value) else None,
           RulesOf(env, RoutingOptions(env, i)),
           if i.group.Some? then Some(BalancerFor(i.group.value.strategy, carriers)) else None)
  }

  /** The configuration, or nothing when it is refused. */
  ghost function Built(env: Env, i: Inputs): Option<Config>
    requires Whole(i)
  {
    var carriers := Carriers(env, i, Mark(env, i.settings));
    if !Accepted(env, i) || carriers.None? || !R.AllValid(env.world, env.geo, ToRules(i.rules)) then None
    else Some(Assembled(env, i, carriers.value))
  }

  method Build(env: Env, i: Inputs) returns (cfg: Option<Config>)
    requires Whole(i)
    ensures cfg == Built(env, i)
  {
    hide MemberOutbounds, Server, AllKeptAlive, Servers, Mark, Base, DNSInbound, R.AllValid, R.Opening, R.UserRules,
         R.Closing, BalancerFor, Fixed, ToRules, Sniffs, ValidGroup, ObservatoryFor, Transparent, Access,
         S.DefaultNumber, DNSOn;
    if i.profile == None && i.group == None {
      return None;
    }
    if i.profile.Some? {
      if !env.validProfile(i.profile.value) {
        return None;
      }
    }
    if i.group.Some? {
      if !ValidGroup(env, i.group.value) {
        return None;
      }
      if |i.members| == 0 {
        return None;
      }
    }
    var s := i.settings;
    var mark := Mark(env, s);
    var sniffs := SniffWanted(s, i.rules);
    var sniffing := Sniffing(sniffs, sniffs && DNSOn(s));
    var inbounds := Base(s, sniffing) + Transparent(s, sniffing) + DNSInbound(s);
    var dns := None;
    if DNSOn(s) {
      var servers := NameServers(env, s, i.rules);
      dns := Some(NameService(servers, if s.flags[S.IPv6] then "UseIP" else "UseIPv4"));
    }
    var outbounds, balancer, observatory := [], None, None;
    if i.group.Some? {
      var ok, outs, b := BuildGroupOutbounds(env, s.texts[S.XrayBin], i.group.value, i.members, mark);
      if !ok {
        return None;
      }
      outbounds, balancer, observatory := outs, Some(b), ObservatoryFor(i.group.value);
    } else {
      var o := Server(env, s.texts[S.XrayBin], i.profile.value, "proxy", mark);
      if o == None {
        return None;
      }
      outbounds := [o.value];
    }
    outbounds := outbounds + Fixed(s, mark);
    var ok, rules := R.BuildRouting(env.world, RoutingOptions(env, i));
    if !ok {
      return None;
    }
    outbounds := ApplyKeepAlive(outbounds, s.numbers[S.KeepAlive]);
    cfg := Some(Config(s.texts[S.LogLevel], Access(s.texts[S.LogLevel]),
                       if s.numbers[S.ConnIdle] > 0 then s.numbers[S.ConnIdle] else S.DefaultNumber(S.ConnIdle),
                       inbounds, dns, outbounds, observatory, rules, balancer));
  }

  // ----- what holds of every configuration

  lemma ServerMeans(env: Env, binary: string, p: S.Profile, tag: string, mark: int)
    requires S.WholeProfile(p)
    ensures var o := Server(env, binary, p, tag, mark);
            (&& (o.Some? <==> env.validProfile(p) && p.texts[S.Proto] in TUNNELS && env.dial(p, binary).Some?)
             && (o.Some? ==> o.value.tag == tag && Carries(o.value, mark)))
  {
  }

  /** An outbound of the tunnel: its connections to the server carry the mark. */
  predicate Carries(o: Outbound, mark: int) {
    o.protocol in TUNNELS && o.stream.Some? && o.stream.value.sockopt.mark == mark
  }

  /** A group is built exactly when every member can be dialled, one outbound for each in order. */
  lemma {:induction false} MembersInOrder(env: Env, binary: string, members: seq<S.Profile>, mark: int)
    requires forall k :: 0 <= k < |members| ==> S.WholeProfile(members[k])
    ensures MemberOutbounds(env, binary, members, mark).Some? <==>
            forall k :: 0 <= k < |members| ==> Server(env, binary, members[k], MemberTag(k), mark).Some?
    ensures var outs := MemberOutbounds(env, binary, members, mark);
            outs.Some? ==>
              (&& |outs.value| == |members|
               && forall k :: 0 <= k < |members| ==>
                    outs.value[k].tag == MemberTag(k) && Carries(outs.value[k], mark)
                    && Some(outs.value[k]) == Server(env, binary, members[k], MemberTag(k), mark))
  {
    hide Server, MemberTag, Carries;
    if members != [] {
      var n := |members| - 1;
      MembersInOrder(env, binary, members[..n], mark);
      ServerMeans(env, binary, members[n], MemberTag(n), mark);
    }
  }

  /** The tag of the k-th outbound that carries the tunnel. */
  function CarrierTag(group: bool, k: nat): string {
    if group then MemberTag(k) else "proxy"
  }

  lemma CarriersMean(env: Env, i: Inputs, mark: int)
    requires Whole(i) && Accepted(env, i) && Carriers(env, i, mark).Some?
    ensures var outs := Carriers(env, i, mark).value;
            (&& |outs| == (if i.group.Some? then |i.members| else 1) && |outs| > 0
             && forall k :: 0 <= k < |outs| ==> outs[k].tag == CarrierTag(i.group.Some?, k) && Carries(outs[k], mark))
  {
    hide Server, MemberTag, Carries, MemberOutbounds, ValidGroup;
    MembersInOrder(env, i.settings.texts[S.XrayBin], i.members, mark);
    if i.group.None? {
      ServerMeans(env, i.settings.texts[S.XrayBin], i.profile.value, "proxy", mark);
    }
  }

  lemma KeptAliveKeeps(outs: seq<Outbound>, seconds: int)
    ensures var kept := AllKeptAlive(outs, seconds);
            (&& |kept| == |outs|
             && forall k :: 0 <= k < |outs| ==>
                  (&& kept[k].tag == outs[k].tag && kept[k].protocol == outs[k].protocol
                   && (kept[k].stream.Some? <==> outs[k].stream.Some?)
                   && (outs[k].stream.Some? ==>
                         kept[k].stream.value.sockopt.mark == outs[k].stream.value.sockopt.mark)))
  {
  }

  lemma FixedMeans(s: S.Settings, mark: int)
    requires S.Complete(s)
    ensures var f := Fixed(s, mark);
            (&& |f| == (if DNSOn(s) then 3 else 2) && f[0].tag == "direct" && f[1].tag == "block"
             && (DNSOn(s) ==> f[2].tag == "dns-out")
             && forall k :: 0 <= k < |f| ==>
                  (&& f[k].protocol !in TUNNELS
                   && (f[k].protocol != "blackhole" ==> f[k].stream.Some? && f[k].stream.value.sockopt.mark == mark)))
  {
  }

  /** The outbounds of a configuration: those of the tunnel first, in order, then the direct one,
      the one that drops, and the one for names unless they are left alone. */
  lemma OutboundsMean(env: Env, i: Inputs)
    requires Whole(i) && Built(env, i).Some?
    ensures var outs := Built(env, i).value.outbounds;
            var n := if i.group.Some? then |i.members| else 1;
            (&& n > 0 && |outs| == n + (if DNSOn(i.settings) then 3 else 2)
             && (forall k :: 0 <= k < n ==> outs[k].tag == CarrierTag(i.group.Some?, k))
             && outs[n].tag == "direct" && outs[n + 1].tag == "block"
             && (DNSOn(i.settings) ==> outs[n + 2].tag == "dns-out"))
  {
    hide Carriers, AllKeptAlive, Fixed, CarrierTag, Carries, Mark, Accepted, R.AllValid, Inbounds, Servers, RulesOf,
         BalancerFor, ObservatoryFor, DNSOn, Access, S.DefaultNumber;
    var mark := Mark(env, i.settings);
    CarriersMean(env, i, mark);
    FixedMeans(i.settings, mark);
    var all := Carriers(env, i, mark).value + Fixed(i.settings, mark);
    KeptAliveKeeps(all, i.settings.numbers[S.KeepAlive]);
  }

  /** Every connection the core opens carries the mark that the firewall lets pass, so that none
      of them is captured again. */
  lemma EveryConnectionIsMarked(env: Env, i: Inputs)
    requires Whole(i) && Built(env, i).Some?
    ensures Mark(env, i.settings) > 0
    ensures var outs := Built(env, i).value.outbounds;
            forall k :: 0 <= k < |outs| && outs[k].protocol != "blackhole" ==>
              outs[k].stream.Some? && outs[k].stream.value.sockopt.mark == Mark(env, i.settings)
  {
    hide Carriers, AllKeptAlive, Fixed, CarrierTag, Mark, Accepted, R.AllValid, Inbounds, Servers, RulesOf, BalancerFor,
         ObservatoryFor, DNSOn, Access, S.DefaultNumber;
    var mark := Mark(env, i.settings);
    MarkIsPositive(env, i.settings);
    CarriersMean(env, i, mark);
    FixedMeans(i.settings, mark);
    var all := Carriers(env, i, mark).value + Fixed(i.settings, mark);
    KeptAliveKeeps(all, i.settings.numbers[S.KeepAlive]);
  }

  lemma MarkIsPositive(env: Env, s: S.Settings)
    requires S.Complete(s)
    ensures 0 < Mark(env, s) < 0x8000_0000
  {
  }

  lemma MemberTagsDiffer(a: nat, b: nat)
    ensures MemberTag(a) == MemberTag(b) ==> a == b
    ensures "proxy-" <= MemberTag(a)
  {
    hide Decimal;
    DigitsOfDecimal(a);
    DigitsOfDecimal(b);
    assert MemberTag(a)[6..] == Decimal(a) && MemberTag(b)[6..] == Decimal(b);
  }

  lemma FixedTags()
    ensures var d, b, n, p := "direct", "block", "dns-out", "proxy";
            d != b && d != n && b != n && d != p && b != p && n != p
    ensures var d, b, n := "direct", "block", "dns-out";
            !("proxy-" <= d) && !("proxy-" <= b) && !("proxy-" <= n)
  {
    var d, b, n, p := "direct", "block", "dns-out", "proxy";
    assert d[0] == 'd' && b[0] == 'b' && n[0] == 'd' && p[0] == 'p' && |d| == 6 && |n| == 7;
  }

  /** No two outbounds share a tag, and what the balancer selects by its prefix is exactly the
      members. */
  lemma TagsNameOneOutbound(env: Env, i: Inputs)
    requires Whole(i) && Built(env, i).Some?
    ensures var outs := Built(env, i).value.outbounds;
            forall a, b :: 0 <= a < b < |outs| ==> outs[a].tag != outs[b].tag
    ensures var outs := Built(env, i).value.outbounds;
            forall k :: 0 <= k < |outs| ==> ("proxy-" <= outs[k].tag <==> i.group.Some? && k < |i.members|)
  {
    hide Built, MemberTag, DNSOn;
    OutboundsMean(env, i);
    FixedTags();
    var outs := Built(env, i).value.outbounds;
    var n := if i.group.Some? then |i.members| else 1;
    forall a, b | 0 <= a < b < |outs| ensures outs[a].tag != outs[b].tag {
      MemberTagsDiffer(a, b);
      PrefixOf(outs[a].tag, outs[b].tag);
    }
    forall k | 0 <= k < |outs| ensures "proxy-" <= outs[k].tag <==> i.group.Some? && k < |i.members| {
      MemberTagsDiffer(k, k);
    }
  }

  lemma PrefixOf(a: string, b: string)
    ensures "proxy-" <= a && !("proxy-" <= b) ==> a != b
  {
  }

  /** What a rule points at is there: an outbound by its tag, the control interface, or the
      balancer. */
  ghost predicate Leads(c: Config, t: R.Target) {
    match t
    case Outbound(tag) => tag == "api" || exists k :: 0 <= k < |c.outbounds| && c.outbounds[k].tag == tag
    case Balancer(tag) => tag == "balancer" && c.balancer.Some?
    case NoTarget => false
  }

  ghost predicate HasInbound(c: Config, tag: string) {
    exists n :: 0 <= n < |c.inbounds| && c.inbounds[n].tag == tag
  }

  /** Every rule leads somewhere and every inbound a rule names is there; there is a balancer just
      for a group, and it falls back on the first outbound; that one carries the tunnel. */
  ghost predicate Coherent(c: Config, group: bool) {
    && (forall k :: 0 <= k < |c.rules| ==> Leads(c, c.rules[k].target))
    && (forall k :: 0 <= k < |c.rules| ==> c.rules[k].inbound.Some? ==> HasInbound(c, c.rules[k].inbound.value))
    && (c.balancer.Some? <==> group)
    && c.outbounds != [] && c.outbounds[0].tag == (if group then "proxy-0" else "proxy")
    && (group ==> c.balancer.value.fallback.Some? ==> c.balancer.value.fallback.value == c.outbounds[0].tag)
  }

  lemma {:induction false} UserTargets(env: Env, rules: seq<L.Rule>, group: bool, k: nat)
    requires R.AllValid(env.world, env.geo, rules) && k < |R.UserRules(rules, group)|
    ensures R.UserRules(rules, group)[k].inbound == None
    ensures R.UserRules(rules, group)[k].target in {R.Outbound("direct"), R.Outbound("block"), R.ProxyTarget(group)}
  {
    hide R.Matchers, R.Trimmed, TrimSpace, R.ProxyTarget, L.HasMatcher, L.NeedsGeoData, L.ValidDomain, L.ValidIP,
         L.ValidPorts;
    var init := rules[..|rules| - 1];
    assert R.AllValid(env.world, env.geo, init);
    if k < |R.UserRules(init, group)| {
      UserTargets(env, init, group, k);
    }
  }

  /** Nothing in a configuration points at something that it does not have. */
  lemma NothingDangles(env: Env, i: Inputs)
    requires Whole(i) && Built(env, i).Some?
    ensures Coherent(Built(env, i).value, i.group.Some?)
  {
    hide R.AllValid, R.UserRules, Inbounds, DNSOn, Capture.Deduped, R.DirectNetworks, CarrierTag, Built, ToRules;
    OutboundsMean(env, i);
    BuiltParts(env, i);
    InboundsMean(i.settings, i.rules);
    FirstMember();
    var c := Built(env, i).value;
    var o := RoutingOptions(env, i);
    var open, user := R.Opening(env.world, o), R.UserRules(o.rules, o.group);
    var n := if i.group.Some? then |i.members| else 1;
    assert c.outbounds[n].tag == "direct" && c.outbounds[n + 1].tag == "block";
    assert c.outbounds[0].tag == CarrierTag(i.group.Some?, 0);
    forall k | 0 <= k < |c.rules|
      ensures Leads(c, c.rules[k].target)
      ensures c.rules[k].inbound.Some? ==> HasInbound(c, c.rules[k].inbound.value)
    {
      if |open| <= k < |open| + |user| {
        UserTargets(env, o.rules, o.group, k - |open|);
        assert c.rules[k] == user[k - |open|];
      }
    }
  }

  lemma FirstMember()
    ensures CarrierTag(true, 0) == "proxy-0" && CarrierTag(false, 0) == "proxy"
  {
    assert Decimal(0) == "0";
  }

  lemma BuiltParts(env: Env, i: Inputs)
    requires Whole(i) && Built(env, i).Some?
    ensures var c := Built(env, i).value;
            (&& c.rules == RulesOf(env, RoutingOptions(env, i)) && c.inbounds == Inbounds(i.settings, i.rules)
             && R.AllValid(env.world, env.geo, ToRules(i.rules))
             && (c.balancer.Some? <==> i.group.Some?)
             && (c.balancer.Some? && c.balancer.value.fallback.Some? ==>
                   c.outbounds != [] && c.balancer.value.fallback.value == c.outbounds[0].tag))
  {
    hide AllKeptAlive, Fixed, Mark, Accepted, R.AllValid, Inbounds, Servers, RulesOf, ObservatoryFor, DNSOn, Access,
         S.DefaultNumber, Carriers, ToRules, RoutingOptions, HealthAware, StrategyFor;
    var mark := Mark(env, i.settings);
    KeptAliveKeeps(Carriers(env, i, mark).value + Fixed(i.settings, mark), i.settings.numbers[S.KeepAlive]);
  }

  lemma InboundsMean(s: S.Settings, rules: seq<S.Rule>)
    requires S.Complete(s)
    ensures var ins := Inbounds(s, rules);
            ins != [] && ins[0].tag == "api-in" && (DNSOn(s) ==> ins[|ins| - 1].tag == "dns-in")
  {
    hide SniffingFor;
  }
}
