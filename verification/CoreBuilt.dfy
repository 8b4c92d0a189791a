/**
 What the core's configuration says (internal/xray/config.go, internal/xray/keepalive.go), item
 by item and in the words of the settings.
 */
module CoreBuilt {
  import opened Optional
  import opened Strings
  import opened CoreConfig
  import Capture
  import L = RuleList
  import Modes
  import R = Routing
  import S = Store

  lemma Parts(env: Env, i: Inputs)
    requires CoreConfig.Whole(i) && Built(env, i).Some?
    ensures var c, s := Built(env, i).value, i.settings;
            && c.inbounds == Inbounds(s, i.rules) && c.rules == RulesOf(env, RoutingOptions(env, i))
            && Carriers(env, i, Mark(env, s)).Some?
            && c.outbounds ==
               AllKeptAlive(Carriers(env, i, Mark(env, s)).value + Fixed(s, Mark(env, s)), s.numbers[S.KeepAlive])
    ensures Accepted(env, i) && R.AllValid(env.world, env.geo, ToRules(i.rules))
  {
    hide AllKeptAlive, Fixed, Mark, Accepted, R.AllValid, Inbounds, Servers, RulesOf, ObservatoryFor, BalancerFor,
         DNSOn, Access, S.DefaultNumber, Carriers, ToRules, RoutingOptions, HealthAware, StrategyFor;
  }

  // ----- the inbounds

  /** `x` is the one inbound of its tag. */
  ghost predicate Only(ins: seq<Inbound>, x: Inbound) {
    x in ins && forall y :: y in ins && y.tag == x.tag ==> y == x
  }

  ghost predicate Lacks(ins: seq<Inbound>, tag: string) {
    forall y :: y in ins ==> y.tag != tag
  }

  lemma InboundTags()
    ensures var a, s, h, t, d := "api-in", "socks-in", "http-in", "transparent-in", "dns-in";
            a != s && a != h && a != t && a != d && s != h && s != t && s != d && h != t && h != d && t != d
  {
    var a, s, h, t, d := "api-in", "socks-in", "http-in", "transparent-in", "dns-in";
    assert a[0] == 'a' && s[0] == 's' && h[0] == 'h' && t[0] == 't' && d[0] == 'd';
  }

  lemma Listed(s: S.Settings, rules: seq<S.Rule>, x: Inbound)
    requires S.Complete(s)
    ensures var sniffing := SniffingFor(s, rules);
            x in Inbounds(s, rules) <==>
            x in Base(s, sniffing) || x in Transparent(s, sniffing) || x in DNSInbound(s)
  {
    hide Base, Transparent, DNSInbound, SniffingFor;
  }

  /** The control interface, reached from the device alone. */
  lemma ApiInbound(s: S.Settings, rules: seq<S.Rule>)
    requires S.Complete(s)
    ensures Only(Inbounds(s, rules), Inbound("api-in", "127.0.0.1", s.numbers[S.StatsPort], "dokodemo-door",
                                             "127.0.0.1", "", false, None))
  {
    hide Inbounds, SniffingFor;
    InboundTags();
    var x := Inbound("api-in", "127.0.0.1", s.numbers[S.StatsPort], "dokodemo-door", "127.0.0.1", "", false, None);
    Listed(s, rules, x);
    forall y | y in Inbounds(s, rules) && y.tag == x.tag ensures y == x {
      Listed(s, rules, y);
    }
  }

  /** Names are looked for in what comes in when that was asked for, and otherwise when an enabled
      rule names a domain, unless it was turned off. */
  ghost predicate NamesWanted(s: S.Settings, rules: seq<S.Rule>)
    requires S.Complete(s)
  {
    || s.texts[S.Sniff] == "on"
    || (s.texts[S.Sniff] != "off" && exists r :: r in rules && r.enabled && r.domains != [])
  }

  lemma SniffingIs(s: S.Settings, rules: seq<S.Rule>)
    requires S.Complete(s)
    ensures SniffingFor(s, rules) ==
            Sniffing(NamesWanted(s, rules), NamesWanted(s, rules) && s.texts[S.DNSMode] != "off")
  {
    if k :| 0 <= k < |rules| && rules[k].enabled && rules[k].domains != [] {
      assert rules[k] in rules;
    }
  }

  /** The two for clients that are told of the proxy, which listen to the network when it may use
      them. A port of zero leaves the second out. */
  lemma ProxyInbounds(s: S.Settings, rules: seq<S.Rule>, sniffing: Sniffing)
    requires S.Complete(s) && sniffing == SniffingFor(s, rules)
    ensures var listen := if s.flags[S.AllowLAN] then "0.0.0.0" else "127.0.0.1";
            var socks := Inbound("socks-in", listen, s.numbers[S.SocksPort], "socks", "", "", false, Some(sniffing));
            var http := Inbound("http-in", listen, s.numbers[S.HTTPPort], "http", "", "", false, Some(sniffing));
            && Only(Inbounds(s, rules), socks)
            && (s.numbers[S.HTTPPort] > 0 ==> Only(Inbounds(s, rules), http))
            && (s.numbers[S.HTTPPort] <= 0 ==> Lacks(Inbounds(s, rules), "http-in"))
  {
    hide Inbounds, SniffingFor;
    InboundTags();
    var listen := if s.flags[S.AllowLAN] then "0.0.0.0" else "127.0.0.1";
    var socks := Inbound("socks-in", listen, s.numbers[S.SocksPort], "socks", "", "", false, Some(sniffing));
    var http := Inbound("http-in", listen, s.numbers[S.HTTPPort], "http", "", "", false, Some(sniffing));
    Listed(s, rules, socks);
    Listed(s, rules, http);
    forall y | y in Inbounds(s, rules)
      ensures y.tag == "socks-in" ==> y == socks
      ensures y.tag == "http-in" ==> y == http && s.numbers[S.HTTPPort] > 0
    {
      Listed(s, rules, y);
    }
  }

  /** The one the firewall leads clients to, in every mode that has firewall rules: TCP on its
      port, and in TPROXY mode UDP as well, on a socket that is transparent. */
  lemma TransparentInbound(s: S.Settings, rules: seq<S.Rule>, sniffing: Sniffing)
    requires S.Complete(s) && sniffing == SniffingFor(s, rules)
    ensures var tproxy := s.texts[S.Mode] == "tproxy";
            var x := Inbound("transparent-in", "0.0.0.0", s.numbers[S.TProxyPort], "dokodemo-door", "",
                             if tproxy then "tcp,udp" else "tcp", tproxy, Some(sniffing));
            && (s.texts[S.Mode] != "tun" ==> Only(Inbounds(s, rules), x))
            && (s.texts[S.Mode] == "tun" ==> Lacks(Inbounds(s, rules), "transparent-in"))
  {
    hide Inbounds, SniffingFor;
    InboundTags();
    var tproxy := s.texts[S.Mode] == "tproxy";
    var x := Inbound("transparent-in", "0.0.0.0", s.numbers[S.TProxyPort], "dokodemo-door", "",
                     if tproxy then "tcp,udp" else "tcp", tproxy, Some(sniffing));
    Listed(s, rules, x);
    forall y | y in Inbounds(s, rules) ensures y.tag == x.tag ==> y == x && s.texts[S.Mode] != "tun" {
      Listed(s, rules, y);
    }
  }

  /** The one that answers names unless they are left alone, on behalf of the resolver that was
      set; with dnsmasq in front of it only the device itself asks. */
  lemma NameInbound(s: S.Settings, rules: seq<S.Rule>)
    requires S.Complete(s)
    ensures var x := Inbound("dns-in", if s.texts[S.DNSMode] == "dnsmasq" then "127.0.0.1" else "0.0.0.0",
                             s.numbers[S.DNSPort], "dokodemo-door", s.texts[S.DNS], "tcp,udp", false, None);
            && (s.texts[S.DNSMode] != "off" ==> Only(Inbounds(s, rules), x))
            && (s.texts[S.DNSMode] == "off" ==> Lacks(Inbounds(s, rules), "dns-in"))
  {
    hide Inbounds, SniffingFor;
    InboundTags();
    var x := Inbound("dns-in", if s.texts[S.DNSMode] == "dnsmasq" then "127.0.0.1" else "0.0.0.0",
                     s.numbers[S.DNSPort], "dokodemo-door", s.texts[S.DNS], "tcp,udp", false, None);
    Listed(s, rules, x);
    forall y | y in Inbounds(s, rules) ensures y.tag == x.tag ==> y == x && s.texts[S.DNSMode] != "off" {
      Listed(s, rules, y);
    }
  }

  lemma InboundTagsDiffer(s: S.Settings, rules: seq<S.Rule>)
    requires S.Complete(s)
    ensures var ins := Inbounds(s, rules); forall a, b :: 0 <= a < b < |ins| ==> ins[a].tag != ins[b].tag
  {
    hide SniffingFor;
    InboundTags();
  }

  /** The inbounds of a configuration, each the only one of its tag. */
  lemma InboundsSay(env: Env, i: Inputs, on: bool)
    requires CoreConfig.Whole(i) && Built(env, i).Some? && on == NamesWanted(i.settings, i.rules)
    ensures var ins, s := Built(env, i).value.inbounds, i.settings;
            var listen := if s.flags[S.AllowLAN] then "0.0.0.0" else "127.0.0.1";
            var sniffing := Some(Sniffing(on, on && s.texts[S.DNSMode] != "off"));
            && Only(ins, Inbound("api-in", "127.0.0.1", s.numbers[S.StatsPort], "dokodemo-door", "127.0.0.1", "", false,
                                 None))
            && Only(ins, Inbound("socks-in", listen, s.numbers[S.SocksPort], "socks", "", "", false, sniffing))
            && (if s.numbers[S.HTTPPort] > 0
                then Only(ins, Inbound("http-in", listen, s.numbers[S.HTTPPort], "http", "", "", false, sniffing))
                else Lacks(ins, "http-in"))
            && (if s.texts[S.Mode] == "tproxy"
                then Only(ins, Inbound("transparent-in", "0.0.0.0", s.numbers[S.TProxyPort], "dokodemo-door", "",
                                       "tcp,udp", true, sniffing))
                else if s.texts[S.Mode] != "tun"
                then Only(ins, Inbound("transparent-in", "0.0.0.0", s.numbers[S.TProxyPort], "dokodemo-door", "",
                                       "tcp", false, sniffing))
                else Lacks(ins, "transparent-in"))
            && (if s.texts[S.DNSMode] == "dnsmasq"
                then Only(ins, Inbound("dns-in", "127.0.0.1", s.numbers[S.DNSPort], "dokodemo-door", s.texts[S.DNS],
                                       "tcp,udp", false, None))
                else if s.texts[S.DNSMode] != "off"
                then Only(ins, Inbound("dns-in", "0.0.0.0", s.numbers[S.DNSPort], "dokodemo-door", s.texts[S.DNS],
                                       "tcp,udp", false, None))
                else Lacks(ins, "dns-in"))
    ensures var ins := Built(env, i).value.inbounds;
            && (forall a, b :: 0 <= a < b < |ins| ==> ins[a].tag != ins[b].tag)
            && forall x :: x in ins ==> x.tag in {"api-in", "socks-in", "http-in", "transparent-in", "dns-in"}
  {
    hide Built, Inbounds, NamesWanted, SniffingFor, Only, Lacks, RulesOf, RoutingOptions, Carriers, AllKeptAlive, Fixed,
         Mark, Accepted, R.AllValid, ToRules;
    var s := i.settings;
    Parts(env, i);
    SniffingIs(s, i.rules);
    ApiInbound(s, i.rules);
    ProxyInbounds(s, i.rules, SniffingFor(s, i.rules));
    TransparentInbound(s, i.rules, SniffingFor(s, i.rules));
    NameInbound(s, i.rules);
    InboundTagsDiffer(s, i.rules);
    TheseTags(s, i.rules);
  }

  lemma TheseTags(s: S.Settings, rules: seq<S.Rule>)
    requires S.Complete(s)
    ensures forall x :: x in Inbounds(s, rules) ==>
                          x.tag in {"api-in", "socks-in", "http-in", "transparent-in", "dns-in"}
  {
    hide Inbounds, SniffingFor;
    forall x | x in Inbounds(s, rules)
      ensures x.tag in {"api-in", "socks-in", "http-in", "transparent-in", "dns-in"}
    {
      Listed(s, rules, x);
    }
  }

  // ----- the outbounds

  /** The firewall's mark: the setting when it is a positive number, and 480 otherwise. */
  function MarkSaid(env: Env, s: S.Settings): int
    requires S.Complete(s)
  {
    var p := env.number(TrimSpace(s.texts[S.FwMark]));
    if p.Number? && p.value > 0 then p.value else 480
  }

  /** How many outbounds carry the tunnel. */
  function Carrying(i: Inputs): nat {
    if i.group.Some? then |i.members| else 1
  }

  lemma OthersAreKept(outs: seq<Outbound>, seconds: int, k: nat)
    requires k < |outs| && outs[k].protocol in {"freedom", "blackhole", "dns"}
    ensures k < |AllKeptAlive(outs, seconds)| && AllKeptAlive(outs, seconds)[k] == outs[k]
  {
    var f, b, d, v, m, t, s := "freedom", "blackhole", "dns", "vless", "vmess", "trojan", "shadowsocks";
    assert f[0] == 'f' && b[0] == 'b' && d[0] == 'd' && v[0] == 'v' && m[0] == 'v' && t[0] == 't' && s[0] == 's';
  }

  lemma MarkIsSaid(env: Env, s: S.Settings)
    requires S.Complete(s)
    ensures Mark(env, s) == MarkSaid(env, s)
  {
  }

  lemma FixedAre(s: S.Settings, mark: int)
    requires S.Complete(s)
    ensures var f := Fixed(s, mark);
            && |f| == (if s.texts[S.DNSMode] != "off" then 3 else 2)
            && f[0] == Outbound("direct", "freedom", "", Some(Stream("", "", 0, Sockopt(mark, true, 0))), 0)
            && f[1] == Outbound("block", "blackhole", "", None, 0)
            && (s.texts[S.DNSMode] != "off" ==>
                  f[2] ==
                  Outbound("dns-out", "dns", s.texts[S.DNS], Some(Stream("", "", 0, Sockopt(mark, false, 0))), 0))
  {
  }

  /** What follows the tunnel's outbounds: the one that goes past it and looks names up itself,
      the one that drops, and the one that asks the resolver that was set. */
  lemma FixedSay(env: Env, i: Inputs)
    requires CoreConfig.Whole(i) && Built(env, i).Some?
    ensures var outs, s, n := Built(env, i).value.outbounds, i.settings, Carrying(i);
            var mark := MarkSaid(env, s);
            && |outs| == n + (if s.texts[S.DNSMode] != "off" then 3 else 2)
            && outs[n] == Outbound("direct", "freedom", "", Some(Stream("", "", 0, Sockopt(mark, true, 0))), 0)
            && outs[n + 1] == Outbound("block", "blackhole", "", None, 0)
            && (s.texts[S.DNSMode] != "off" ==>
                  outs[n + 2] ==
                  Outbound("dns-out", "dns", s.texts[S.DNS], Some(Stream("", "", 0, Sockopt(mark, false, 0))), 0))
  {
    hide Built, Carriers, AllKeptAlive, Inbounds, RulesOf, RoutingOptions, R.AllValid, ToRules, Accepted, ValidGroup,
         CarrierTag, Carries, Fixed, Mark, MarkSaid;
    var s, n, mark := i.settings, Carrying(i), Mark(env, i.settings);
    Parts(env, i);
    MarkIsSaid(env, s);
    FixedAre(s, mark);
    CarriersMean(env, i, mark);
    var all, seconds := Carriers(env, i, mark).value + Fixed(s, mark), s.numbers[S.KeepAlive];
    KeptAliveKeeps(all, seconds);
    OthersAreKept(all, seconds, n);
    OthersAreKept(all, seconds, n + 1);
    if s.texts[S.DNSMode] != "off" {
      OthersAreKept(all, seconds, n + 2);
    }
  }

  /** The k-th server that is dialled. */
  function Dialling(i: Inputs, k: nat): S.Profile
    requires k < Carrying(i) && (i.profile.Some? || i.group.Some?)
  {
    if i.group.Some? then i.members[k] else i.profile.value
  }

  lemma CarrierIsServer(env: Env, i: Inputs, mark: int, k: nat)
    requires CoreConfig.Whole(i) && Accepted(env, i) && Carriers(env, i, mark).Some? && k < Carrying(i)
    ensures var outs := Carriers(env, i, mark).value;
            && |outs| == Carrying(i)
            && Server(env, i.settings.texts[S.XrayBin], Dialling(i, k),
                      if i.group.Some? then "proxy-" + Decimal(k) else "proxy", mark) == Some(outs[k])
  {
    hide Server, Decimal, MemberOutbounds, ValidGroup, Carries;
    MembersInOrder(env, i.settings.texts[S.XrayBin], i.members, mark);
  }

  lemma ServerSays(env: Env, binary: string, p: S.Profile, tag: string, mark: int, seconds: int)
    requires S.WholeProfile(p) && Server(env, binary, p, tag, mark).Some?
    ensures env.dial(p, binary).Some?
    ensures var o, d := Server(env, binary, p, tag, mark).value, env.dial(p, binary).value;
            (if seconds <= 0 then o else KeptAlive(o, seconds)) ==
            Outbound(tag, p.texts[S.Proto], d.settings,
                     Some(Stream(d.network, d.transport, if seconds > 0 && d.network == "ws" then seconds else 0,
                                 Sockopt(mark, false, Probing(d.network, seconds)))),
                     if p.flags[S.Mux] then 8 else -1)
  {
    assert "ws" in OVER_TCP;
  }

  /** The seconds between probes: none unless the transport is one TCP connection. */
  function Probing(network: string, seconds: int): int {
    if seconds > 0 && network in {"", "tcp", "raw", "ws", "httpupgrade", "grpc", "h2"} then seconds else 0
  }

  /** The outbound of a server: the protocol and the settings it is dialled with, the firewall's
      mark, the two kinds of keepalive, and eight connections in one when that was asked for. */
  lemma CarrierSays(env: Env, i: Inputs, k: nat)
    requires CoreConfig.Whole(i) && Built(env, i).Some? && k < Carrying(i)
    ensures i.group.Some? || i.profile.Some?
    ensures var outs, s, p := Built(env, i).value.outbounds, i.settings, Dialling(i, k);
            var dialled, seconds := env.dial(p, s.texts[S.XrayBin]), s.numbers[S.KeepAlive];
            && k < |outs| && dialled.Some? && S.WholeProfile(p)
            && outs[k] ==
               Outbound(if i.group.Some? then "proxy-" + Decimal(k) else "proxy", p.texts[S.Proto],
                        dialled.value.settings,
                        Some(Stream(dialled.value.network, dialled.value.transport,
                                    if seconds > 0 && dialled.value.network == "ws" then seconds else 0,
                                    Sockopt(MarkSaid(env, s), false, Probing(dialled.value.network, seconds)))),
                        if p.flags[S.Mux] then 8 else -1)
  {
    hide Built, Carriers, Inbounds, RulesOf, RoutingOptions, R.AllValid, ToRules, ValidGroup, Fixed, Decimal, Server,
         KeptAlive, Probing, Mark, MarkSaid;
    var s, mark := i.settings, Mark(env, i.settings);
    Parts(env, i);
    MarkIsSaid(env, s);
    CarrierIsServer(env, i, mark, k);
    ServerSays(env, s.texts[S.XrayBin], Dialling(i, k), if i.group.Some? then "proxy-" + Decimal(k) else "proxy", mark,
               s.numbers[S.KeepAlive]);
  }

  // ----- the rest

  /** How much is logged, and how long a connection may carry nothing: four hours unless the
      settings say otherwise. */
  lemma LimitsSay(env: Env, i: Inputs)
    requires CoreConfig.Whole(i) && Built(env, i).Some?
    ensures var c, s := Built(env, i).value, i.settings;
            && c.logLevel == s.texts[S.LogLevel]
            && c.access == (if s.texts[S.LogLevel] == "debug" || s.texts[S.LogLevel] == "info" then "" else "none")
            && c.connIdle == if s.numbers[S.ConnIdle] > 0 then s.numbers[S.ConnIdle] else 14400
  {
    hide AllKeptAlive, Fixed, Mark, Accepted, R.AllValid, Inbounds, Servers, RulesOf, ObservatoryFor, BalancerFor,
         DNSOn, Carriers, ToRules, RoutingOptions;
  }

  lemma BalancerParts(env: Env, i: Inputs)
    requires CoreConfig.Whole(i) && Built(env, i).Some?
    ensures var c := Built(env, i).value;
            && (i.group.None? ==> c.balancer == None && c.observatory == None)
            && (i.group.Some? ==>
                  && Carriers(env, i, Mark(env, i.settings)).Some? && ValidGroup(env, i.group.value) && i.members != []
                  && c.balancer ==
                     Some(BalancerFor(i.group.value.strategy, Carriers(env, i, Mark(env, i.settings)).value))
                  && c.observatory == ObservatoryFor(i.group.value))
  {
    hide AllKeptAlive, Fixed, Mark, R.AllValid, Inbounds, Servers, RulesOf, ObservatoryFor, BalancerFor, DNSOn, Access,
         S.DefaultNumber, Carriers, ToRules, RoutingOptions, ValidGroup;
  }

  /** How a group is balanced. The strategies that look at how the servers are doing are given
      something to look at and fall back on the first one; sharing the load is the steadiest
      server's strategy over all of them. */
  lemma BalancerSays(env: Env, i: Inputs)
    requires CoreConfig.Whole(i) && Built(env, i).Some?
    ensures var c := Built(env, i).value;
            && (i.group.None? ==> c.balancer == None && c.observatory == None)
            && (i.group.Some? ==>
                  var g, first := i.group.value, Some("proxy-0");
                  && (g.strategy == "leastPing" ==>
                        && c.balancer == Some(Balancer("leastPing", None, first))
                        && c.observatory == Some(Observatory(g.probeURL, g.probeInterval, false)))
                  && (g.strategy == "leastLoad" ==>
                        && c.balancer == Some(Balancer("leastLoad", Some(1), first))
                        && c.observatory == Some(Observatory(g.probeURL, g.probeInterval, true)))
                  && (g.strategy == "balance" ==>
                        && c.balancer == Some(Balancer("leastLoad", Some(|i.members|), first))
                        && c.observatory == Some(Observatory(g.probeURL, g.probeInterval, true)))
                  && (g.strategy != "leastPing" && g.strategy != "leastLoad" && g.strategy != "balance" ==>
                        && g.strategy in {"random", "roundRobin"}
                        && c.balancer == Some(Balancer(g.strategy, None, None)) && c.observatory == None))
  {
    hide Built, Carriers, Mark, CarrierTag, MemberTag;
    BalancerParts(env, i);
    if i.group.Some? {
      var outs := Carriers(env, i, Mark(env, i.settings)).value;
      Parts(env, i);
      FirstMember();
      CarriersMean(env, i, Mark(env, i.settings));
      BalancerIs(i.group.value, outs);
    }
  }

  lemma BalancerIs(g: S.Group, outs: seq<CoreConfig.Outbound>)
    requires outs != []
    ensures var b, first, n := BalancerFor(g.strategy, outs), Some(outs[0].tag), |outs|;
            && (g.strategy == "leastPing" ==> b == Balancer("leastPing", None, first))
            && (g.strategy == "leastLoad" ==> b == Balancer("leastLoad", Some(1), first))
            && (g.strategy == "balance" ==> b == Balancer("leastLoad", Some(n), first))
            && (g.strategy !in {"leastPing", "leastLoad", "balance"} ==> b == Balancer(g.strategy, None, None))
  {
    var p, l, b := "leastPing", "leastLoad", "balance";
    assert p[5] == 'P' && l[5] == 'L' && b[0] == 'b' && l[0] == 'l' && p[0] == 'l';
  }

  predicate CanDial(env: Env, binary: string, p: S.Profile)
    requires S.WholeProfile(p)
  {
    env.validProfile(p) && p.texts[S.Proto] in {"vless", "vmess", "trojan", "shadowsocks"} && env.dial(p, binary).Some?
  }

  lemma DialsWhen(env: Env, binary: string, p: S.Profile, tag: string, mark: int)
    requires S.WholeProfile(p)
    ensures Server(env, binary, p, tag, mark).Some? <==> CanDial(env, binary, p)
  {
  }

  lemma CarriersWhen(env: Env, i: Inputs, mark: int)
    requires CoreConfig.Whole(i) && (i.profile.Some? || i.group.Some?)
    ensures Carriers(env, i, mark).Some? <==>
            forall k :: 0 <= k < Carrying(i) ==> CanDial(env, i.settings.texts[S.XrayBin], Dialling(i, k))
  {
    hide Decimal, Server, CanDial, MemberOutbounds, MemberTag;
    var binary := i.settings.texts[S.XrayBin];
    if i.group.Some? {
      MembersInOrder(env, binary, i.members, mark);
      forall k | 0 <= k < |i.members|
        ensures Server(env, binary, i.members[k], MemberTag(k), mark).Some? <==>
                CanDial(env, binary, Dialling(i, k))
      {
        DialsWhen(env, binary, i.members[k], MemberTag(k), mark);
      }
    } else {
      DialsWhen(env, binary, i.profile.value, "proxy", mark);
      assert Dialling(i, 0) == i.profile.value;
    }
  }

  lemma RulesValidWhen(env: Env, rules: seq<S.Rule>)
    ensures R.AllValid(env.world, env.geo, ToRules(rules)) <==>
            forall k :: 0 <= k < |rules| && rules[k].enabled ==> L.Valid(env.world, env.geo, ToRule(rules[k]))
  {
    hide L.Valid;
    if R.AllValid(env.world, env.geo, ToRules(rules)) {
      forall k | 0 <= k < |rules| && rules[k].enabled ensures L.Valid(env.world, env.geo, ToRule(rules[k])) {
        assert ToRules(rules)[k].enabled;
      }
    }
  }

  /** A configuration is built unless there is nothing to dial, a server, the group or one of the
      enabled rules is not valid, a group is left without servers, or one of those that it has
      cannot be dialled. */
  lemma BuiltExactlyWhen(env: Env, i: Inputs)
    requires CoreConfig.Whole(i)
    ensures Built(env, i).Some? <==>
            && (i.profile.Some? || i.group.Some?)
            && (i.profile.Some? ==> env.validProfile(i.profile.value))
            && (i.group.Some? ==>
                  var g := i.group.value;
                  && g.members != [] && g.strategy in {"leastPing", "leastLoad", "balance", "random", "roundRobin"}
                  && (g.probeURL == "" || env.validProbe(g.probeURL)) && i.members != [])
            && (forall k :: 0 <= k < Carrying(i) ==> CanDial(env, i.settings.texts[S.XrayBin], Dialling(i, k)))
            && forall k :: 0 <= k < |i.rules| && i.rules[k].enabled ==> L.Valid(env.world, env.geo, ToRule(i.rules[k]))
  {
    hide Assembled, Mark, L.Valid, CanDial, Carriers, R.AllValid, ToRules, Dialling, Carrying;
    if i.profile.Some? || i.group.Some? {
      CarriersWhen(env, i, Mark(env, i.settings));
    }
    RulesValidWhen(env, i.rules);
  }

  // ----- names

  /** `m` is how the core is told of a name of a rule that takes its names off the tunnel for
      everyone: an enabled one that goes past it and asks nothing of the client. */
  ghost predicate TakenOff(rules: seq<S.Rule>, m: string) {
    exists k :: 0 <= k < |rules| && NamedBy(rules[k], m)
  }

  ghost predicate NamedBy(r: S.Rule, m: string) {
    && r.enabled && r.action == "direct" && r.sources == [] && r.sourcePort == ""
    && exists d :: d in r.domains && TrimSpace(d) != ""
                   && m == if ':' in TrimSpace(d) then TrimSpace(d) else "domain:" + TrimSpace(d)
  }

  lemma {:induction false} TrimmedHas(items: seq<string>, v: string)
    ensures v in R.Trimmed(items) <==> v != "" && exists d :: d in items && TrimSpace(d) == v
  {
    hide TrimSpace;
    if items != [] {
      var init, last := items[..|items| - 1], items[|items| - 1];
      TrimmedHas(init, v);
      assert forall d :: d in items <==> d in init || d == last;
    }
  }

  lemma MatchersHave(items: seq<string>, m: string)
    ensures m in R.Matchers(items) <==>
            exists d :: d in items && TrimSpace(d) != ""
                        && m == if ':' in TrimSpace(d) then TrimSpace(d) else "domain:" + TrimSpace(d)
  {
    hide TrimSpace, R.Trimmed;
    var trimmed := R.Trimmed(items);
    if m in R.Matchers(items) {
      var k :| 0 <= k < |trimmed| && m == R.Matcher(trimmed[k]);
      TrimmedHas(items, trimmed[k]);
    }
    if d :| d in items && TrimSpace(d) != ""
            && m == if ':' in TrimSpace(d) then TrimSpace(d) else "domain:" + TrimSpace(d)
    {
      TrimmedHas(items, TrimSpace(d));
      var k :| 0 <= k < |trimmed| && trimmed[k] == TrimSpace(d);
      assert R.Matchers(items)[k] == m;
    }
  }

  lemma {:induction false} BypassHas(rules: seq<S.Rule>, m: string)
    ensures m in BypassMatchers(rules) <==> TakenOff(rules, m)
  {
    if rules != [] {
      hide R.Matchers, NamedBy, Bypasses, BypassMatchers, TakenOff;
      var init, r := rules[..|rules| - 1], rules[|rules| - 1];
      assert rules == init + [r];
      BypassHas(init, m);
      MatchersNamed(r, m);
      BypassNext(init, r, m);
      TakenOffNext(init, r, m);
    }
  }

  lemma TakenOffNext(init: seq<S.Rule>, r: S.Rule, m: string)
    ensures TakenOff(init + [r], m) <==> TakenOff(init, m) || NamedBy(r, m)
  {
    hide NamedBy;
    var rules := init + [r];
    if k :| 0 <= k < |init| && NamedBy(init[k], m) {
      assert NamedBy(rules[k], m);
    }
    assert rules[|init|] == r;
  }

  lemma BypassNext(init: seq<S.Rule>, r: S.Rule, m: string)
    ensures m in BypassMatchers(init + [r]) <==>
            m in BypassMatchers(init) || (Bypasses(r) && m in R.Matchers(r.domains))
  {
    hide R.Matchers, Bypasses;
    assert (init + [r])[..|init|] == init;
  }

  lemma MatchersNamed(r: S.Rule, m: string)
    ensures Bypasses(r) && m in R.Matchers(r.domains) <==> NamedBy(r, m)
  {
    hide TrimSpace, R.Matchers;
    MatchersHave(r.domains, m);
  }

  lemma NameParts(env: Env, i: Inputs)
    requires CoreConfig.Whole(i) && Built(env, i).Some?
    ensures var dns, s := Built(env, i).value.dns, i.settings;
            && (dns.Some? <==> s.texts[S.DNSMode] != "off")
            && (dns.Some? ==>
                  && dns.value.queryStrategy == (if s.flags[S.IPv6] then "UseIP" else "UseIPv4")
                  && dns.value.servers == Servers(env, s, i.rules))
  {
    hide AllKeptAlive, Fixed, Mark, Accepted, R.AllValid, Inbounds, Servers, RulesOf, ObservatoryFor, BalancerFor,
         Access, S.DefaultNumber, Carriers, ToRules, RoutingOptions;
  }

  lemma NamedIsTrim(r: S.Rule, m: string)
    requires NamedBy(r, m)
    ensures m != "" && TrimSpace(m) == m
  {
    hide TrimSpace, IsSpace;
    var d :| d in r.domains && TrimSpace(d) != ""
             && m == if ':' in TrimSpace(d) then TrimSpace(d) else "domain:" + TrimSpace(d);
    var c := 'd';
    assert !IsSpace(c) by {
      NotASpace();
    }
    TrimKeeps(m);
  }

  lemma NotASpace()
    ensures !IsSpace('d')
  {
  }

  lemma LocalNames(rules: seq<S.Rule>, m: string)
    ensures m in Capture.Deduped(BypassMatchers(rules)) <==> TakenOff(rules, m)
  {
    hide TrimSpace, NamedBy, BypassMatchers, Capture.Deduped;
    var all := BypassMatchers(rules);
    Capture.DedupedMembers(all);
    BypassHas(rules, m);
    if TakenOff(rules, m) {
      var k :| 0 <= k < |rules| && NamedBy(rules[k], m);
      NamedIsTrim(rules[k], m);
      var j :| 0 <= j < |all| && all[j] == m;
      assert Capture.Occurs(all, m);
    }
    if m in Capture.Deduped(all) {
      assert Capture.Occurs(all, m);
      var j :| 0 <= j < |all| && TrimSpace(all[j]) == m;
      BypassHas(rules, all[j]);
      var k :| 0 <= k < |rules| && NamedBy(rules[k], all[j]);
      NamedIsTrim(rules[k], all[j]);
    }
  }

  lemma ServersSay(env: Env, s: S.Settings, rules: seq<S.Rule>)
    requires S.Complete(s)
    ensures var servers, local := Servers(env, s, rules), R.FirstUsable(env.world, env.wanResolvers);
            var upstream, n := TrimSpace(s.texts[S.DNS]), |servers| - 1;
            && n >= 0 && servers[n].domains == []
            && servers[n].address ==
               (if upstream == "" || L.HasText(upstream, "://") || upstream == "localhost" then upstream
                else "tcp://" + upstream)
            && ((exists m :: TakenOff(rules, m)) ==> n == |local|)
            && ((forall m :: !TakenOff(rules, m)) ==> n == 0)
            && forall k :: 0 <= k < n ==>
                 && k < |local| && servers[k].address == local[k] && Capture.Distinct(servers[k].domains)
                 && forall m :: m in servers[k].domains <==> TakenOff(rules, m)
  {
    hide TrimSpace, TakenOff, BypassMatchers, Capture.Deduped, R.FirstUsable, L.HasText, Capture.Distinct;
    var names := Capture.Deduped(BypassMatchers(rules));
    Capture.DedupedMembers(BypassMatchers(rules));
    forall m ensures m in names <==> TakenOff(rules, m) {
      LocalNames(rules, m);
    }
    if names != [] {
      assert TakenOff(rules, names[0]);
    }
  }

  /** The resolvers the core asks: the device's own for the names that are taken off the tunnel,
      while it knows of one, then the one that was set, over TCP unless it says how. */
  lemma NamesSay(env: Env, i: Inputs)
    requires CoreConfig.Whole(i) && Built(env, i).Some?
    ensures var dns, s, local := Built(env, i).value.dns, i.settings, R.FirstUsable(env.world, env.wanResolvers);
            var upstream := TrimSpace(s.texts[S.DNS]);
            && (dns.Some? <==> s.texts[S.DNSMode] != "off")
            && (dns.Some? ==>
                  var servers, n := dns.value.servers, |dns.value.servers| - 1;
                  && dns.value.queryStrategy == (if s.flags[S.IPv6] then "UseIP" else "UseIPv4")
                  && n >= 0 && servers[n].domains == []
                  && servers[n].address ==
                     (if upstream == "" || L.HasText(upstream, "://") || upstream == "localhost" then upstream
                      else "tcp://" + upstream)
                  && ((exists m :: TakenOff(i.rules, m)) ==> n == |local|)
                  && ((forall m :: !TakenOff(i.rules, m)) ==> n == 0)
                  && forall k :: 0 <= k < n ==>
                       && k < |local| && servers[k].address == local[k] && Capture.Distinct(servers[k].domains)
                       && forall m :: m in servers[k].domains <==> TakenOff(i.rules, m))
  {
    hide Built, TrimSpace, TakenOff, Servers, R.FirstUsable, L.HasText, Capture.Distinct;
    NameParts(env, i);
    ServersSay(env, i.settings, i.rules);
  }

  // ----- where a connection goes

  /** A rule of the configuration applies to a connection: everything that it says holds, a port
      field that says nothing counting as not filled in. */
  ghost predicate RuleApplies(w: L.World, r: S.Rule, c: L.Connection) {
    && r.enabled
    && (r.domains != [] ==> c.host.Some? && L.AnyDomain(w, r.domains, c.host.value))
    && (r.ips != [] ==> c.address.Some? && L.AnyNetwork(w, r.ips, c.address.value))
    && (r.sources != [] ==> L.AnyNetwork(w, r.sources, c.source))
    && (TrimSpace(r.port) != "" ==> w.portIn(TrimSpace(r.port), c.port))
    && (TrimSpace(r.sourcePort) != "" ==> w.portIn(TrimSpace(r.sourcePort), c.sourcePort))
    && (r.protocols != [] ==> c.protocol in r.protocols)
    && (r.network != "" ==> L.NetworkAllows(r.network, c.network))
  }

  lemma AppliesMeans(w: L.World, r: S.Rule, c: L.Connection)
    ensures R.Applies(w, ToRule(r), c) <==> RuleApplies(w, r, c)
  {
    hide TrimSpace, L.AnyDomain, L.AnyNetwork, L.NetworkAllows, ActionOf;
    R.NothingToTrim();
  }

  /** Decided before the operator's rules: what the core itself is asked, names while they are
      taken over, and what is on the device's own networks or was told to be left alone. */
  ghost predicate Ahead(env: Env, i: Inputs, c: L.Connection)
    requires CoreConfig.Whole(i)
  {
    || c.inbound == "api-in"
    || (i.settings.texts[S.DNSMode] != "off" && c.inbound == "dns-in")
    || (c.address.Some? && Nearby(env, i, c.address.value))
  }

  ghost predicate Nearby(env: Env, i: Inputs, address: string) {
    var resolvers := R.FirstUsable(env.world, env.wanResolvers);
    || (exists net :: env.world.inNetwork(net, address) && R.IsPrivate(net))
    || (env.geo && env.world.inNetwork("geoip:private", address))
    || L.AnyNetwork(env.world, env.lanCIDRs, address) || L.AnyNetwork(env.world, i.settings.bypassIP, address)
    || exists k :: 0 <= k < |resolvers| && env.world.inNetwork(resolvers[k] + "/32", address)
  }

  lemma NearbyMeans(env: Env, i: Inputs, address: string)
    requires CoreConfig.Whole(i)
    ensures R.IsLocal(env.world, RoutingOptions(env, i), address) <==> Nearby(env, i, address)
  {
    hide R.FirstUsable, L.AnyNetwork, R.IsPrivate, ToRules;
    R.AnyNetworkJoins(env.world, env.lanCIDRs, i.settings.bypassIP, address);
  }

  lemma AheadMeans(env: Env, i: Inputs, c: L.Connection)
    requires CoreConfig.Whole(i) && R.BlankIsNoNetwork(env.world)
    requires R.AllValid(env.world, env.geo, ToRules(i.rules))
    ensures R.DecidedAhead(env.world, RoutingOptions(env, i), c) <==> Ahead(env, i, c)
  {
    hide R.AllValid, R.DecidedAhead, R.IsLocal, Nearby, R.Opening, R.UserRules, R.Closing, R.Routed, ToRules;
    R.AheadOfTheList(env.world, RoutingOptions(env, i), c);
    if c.address.Some? {
      NearbyMeans(env, i, c.address.value);
    }
  }

  /** Where the core of a configuration sends a connection. */
  ghost function Sent(env: Env, i: Inputs, c: L.Connection): R.Target
    requires CoreConfig.Whole(i) && Built(env, i).Some?
  {
    R.Routed(env.world, RoutingOptions(env, i), Built(env, i).value.rules, c)
  }

  /** Unless it is decided ahead of them, a connection goes where the first of the operator's rules
      that applies says, and into the tunnel when none does. */
  lemma ConnectionsGoAsSaid(env: Env, i: Inputs, c: L.Connection, k: nat)
    requires CoreConfig.Whole(i) && Built(env, i).Some? && R.BlankIsNoNetwork(env.world) && !Ahead(env, i, c)
    requires k <= |i.rules| && forall j :: 0 <= j < k ==> !RuleApplies(env.world, i.rules[j], c)
    requires k < |i.rules| ==> RuleApplies(env.world, i.rules[k], c)
    ensures var tunnel := if i.group.Some? then R.Balancer("balancer") else R.Outbound("proxy");
            && (k == |i.rules| ==> Sent(env, i, c) == tunnel)
            && (k < |i.rules| && i.rules[k].action == "direct" ==> Sent(env, i, c) == R.Outbound("direct"))
            && (k < |i.rules| && i.rules[k].action == "block" ==> Sent(env, i, c) == R.Outbound("block"))
            && (k < |i.rules| && i.rules[k].action == "proxy" ==> Sent(env, i, c) == tunnel)
  {
    hide Built, R.AllValid, R.DecidedAhead, R.Opening, R.UserRules, R.Closing, R.Routed, Ahead, RuleApplies, R.Applies,
         Inbounds, Carriers, AllKeptAlive, Fixed, Mark, Accepted;
    var o := RoutingOptions(env, i);
    Parts(env, i);
    AheadMeans(env, i, c);
    forall j | 0 <= j < |i.rules|
      ensures R.Applies(env.world, o.rules[j], c) <==> RuleApplies(env.world, i.rules[j], c)
    {
      AppliesMeans(env.world, i.rules[j], c);
    }
    if k < |i.rules| {
      R.FirstRuleDecides(env.world, o, c, k);
    } else {
      R.NoRuleMeansProxy(env.world, o, c);
    }
  }

  /** What is decided ahead of the rules. */
  lemma AheadGoesAsSaid(env: Env, i: Inputs, c: L.Connection)
    requires CoreConfig.Whole(i) && Built(env, i).Some? && R.BlankIsNoNetwork(env.world) && Ahead(env, i, c)
    ensures Sent(env, i, c) ==
            if c.inbound == "api-in" then R.Outbound("api")
            else if i.settings.texts[S.DNSMode] != "off" && c.inbound == "dns-in" then R.Outbound("dns-out")
            else R.Outbound("direct")
  {
    hide Built, R.AllValid, R.DecidedAhead, R.Opening, R.UserRules, R.Closing, R.Routed, R.IsLocal, Nearby, ToRules,
         Inbounds, Carriers, AllKeptAlive, Fixed, Mark, Accepted;
    Parts(env, i);
    R.AheadOfTheList(env.world, RoutingOptions(env, i), c);
    if c.address.Some? {
      NearbyMeans(env, i, c.address.value);
    }
  }
}
