/**
 The capture rules and the core's configuration of one connection (internal/daemon/engine.go), both
 made from the same settings: what is captured finds the core listening, and what the core sends
 is not captured.
 */
module EndToEnd {
  import opened Optional
  import opened Modes
  import opened Capture
  import opened Strings
  import C = CoreConfig
  import B = CoreBuilt
  import Ipt
  import IptCapture
  import Nft
  import NoLoop
  import S = Store

  function ModeOf(text: string): Mode {
    if text == "redirect" then Redirect
    else if text == "tproxy" then TProxy
    else if text == "tun" then Tun
    else Mixed
  }

  /** The plan of a connection, the device's networks and the settings being given. */
  function Planned(env: C.Env, s: S.Settings, lanDevices: seq<string>, wanDevice: string): Plan
    requires S.Complete(s)
  {
    var mark := B.MarkSaid(env, s);
    Plan(ModeOf(s.texts[S.Mode]), lanDevices, env.lanCIDRs, wanDevice, s.numbers[S.TProxyPort], s.numbers[S.DNSPort],
         mark, MarkTProxy(mark), MarkTunUDP(mark), s.flags[S.ProxyRouter], s.texts[S.DNSMode] == "redirect",
         s.flags[S.BlockQUIC], s.bypassIP, s.bypassMAC)
  }

  ghost predicate KnownMode(s: S.Settings)
    requires S.Complete(s)
  {
    s.texts[S.Mode] in {"redirect", "mixed", "tproxy", "tun"}
  }

  /** Where a packet that is taken over is meant to come in. */
  function Door(p: Plan, k: Packet): string {
    if !k.fromRouter && NameLookup(p, k) then "dns-in" else "transparent-in"
  }

  /** The core listens where the packet was sent. */
  ghost predicate Open(ins: seq<C.Inbound>, tag: string, port: int, transparent: bool) {
    exists x :: x in ins && x.tag == tag && x.port == port && x.listen == "0.0.0.0" && x.transparent == transparent
  }

  lemma DoorsAreOpen(env: C.Env, i: C.Inputs)
    requires C.Whole(i) && C.Built(env, i).Some? && KnownMode(i.settings)
    ensures var ins, s := C.Built(env, i).value.inbounds, i.settings;
            && (ModeOf(s.texts[S.Mode]) != Tun ==>
                  Open(ins, "transparent-in", s.numbers[S.TProxyPort], ModeOf(s.texts[S.Mode]) == TProxy))
            && (s.texts[S.DNSMode] == "redirect" ==> Open(ins, "dns-in", s.numbers[S.DNSPort], false))
  {
    hide C.Built, B.NamesWanted;
    var on := B.NamesWanted(i.settings, i.rules);
    B.InboundsSay(env, i, on);
    var ins, s := C.Built(env, i).value.inbounds, i.settings;
    var sniffing := Some(C.Sniffing(on, on && s.texts[S.DNSMode] != "off"));
    var plain := C.Inbound("transparent-in", "0.0.0.0", s.numbers[S.TProxyPort], "dokodemo-door", "", "tcp", false,
                           sniffing);
    var both := C.Inbound("transparent-in", "0.0.0.0", s.numbers[S.TProxyPort], "dokodemo-door", "", "tcp,udp", true,
                          sniffing);
    var names := C.Inbound("dns-in", "0.0.0.0", s.numbers[S.DNSPort], "dokodemo-door", s.texts[S.DNS], "tcp,udp", false,
                           None);
    assert s.texts[S.Mode] == "tproxy" ==> both in ins;
    assert s.texts[S.Mode] != "tproxy" && s.texts[S.Mode] != "tun" ==> plain in ins;
    assert s.texts[S.DNSMode] == "redirect" ==> names in ins;
  }

  /** The resolver that dnsmasq is pointed at. */
  function Resolver(s: S.Settings): string
    requires S.Complete(s)
  {
    "127.0.0.1#" + Itoa(s.numbers[S.DNSPort])
  }

  /** It is the core's own inbound for names, which listens just there. */
  lemma ResolverIsServed(env: C.Env, i: C.Inputs)
    requires C.Whole(i) && C.Built(env, i).Some? && i.settings.texts[S.DNSMode] == "dnsmasq"
    ensures exists x :: x in C.Built(env, i).value.inbounds && x.tag == "dns-in" && x.address == i.settings.texts[S.DNS]
                        && Resolver(i.settings) == x.listen + "#" + Itoa(x.port)
  {
    hide C.Built, B.NamesWanted, Itoa;
    var s := i.settings;
    B.InboundsSay(env, i, B.NamesWanted(s, i.rules));
    var x := C.Inbound("dns-in", "127.0.0.1", s.numbers[S.DNSPort], "dokodemo-door", s.texts[S.DNS], "tcp,udp", false,
                       None);
    assert x in C.Built(env, i).value.inbounds;
    assert x.listen + "#" == "127.0.0.1#";
  }

  /** A packet that comes out redirected or tproxied. */
  predicate Taken(o: Outcome) {
    o.fate.Redirected? || o.fate.TProxied?
  }

  function PortOf(f: Fate): int {
    match f
    case Redirected(port) => port
    case TProxied(port) => port
    case _ => 0
  }

  /** What is taken over comes in at an open door; the door fits, a transparent socket for what is
      tproxied and a plain one for what is redirected, unless in TPROXY mode the packet is a name
      lookup or the router's own. */
  ghost predicate FindsTheCore(p: Plan, k: Packet, o: Outcome, ins: seq<C.Inbound>) {
    Taken(o) ==>
      var transparent := p.mode == TProxy && Door(p, k) == "transparent-in";
      && Open(ins, Door(p, k), PortOf(o.fate), transparent)
      && ((o.fate.TProxied? <==> transparent) <==> !(p.mode == TProxy && (k.fromRouter || NameLookup(p, k))))
  }

  lemma TakenFindsTheCore(env: C.Env, i: C.Inputs, lanDevices: seq<string>, wanDevice: string, k: Packet, o: Outcome)
    requires C.Whole(i) && C.Built(env, i).Some? && KnownMode(i.settings)
    requires ComesOut(Planned(env, i.settings, lanDevices, wanDevice), k, o)
    ensures FindsTheCore(Planned(env, i.settings, lanDevices, wanDevice), k, o, C.Built(env, i).value.inbounds)
  {
    hide C.Built, Spared, Open, B.MarkSaid;
    DoorsAreOpen(env, i);
  }

  /** So in TPROXY mode a client's name lookup that is taken over in the firewall is sent, unrewritten,
      to an inbound whose socket is not transparent. */
  lemma NamesMeetAPlainSocket(env: C.Env, i: C.Inputs, lanDevices: seq<string>, wanDevice: string, k: Packet)
    requires C.Whole(i) && C.Built(env, i).Some?
    requires i.settings.texts[S.Mode] == "tproxy" && i.settings.texts[S.DNSMode] == "redirect"
    requires FromClient(Planned(env, i.settings, lanDevices, wanDevice), k) && k.proto == Udp && k.dport == 53
    ensures var p, ins := Planned(env, i.settings, lanDevices, wanDevice), C.Built(env, i).value.inbounds;
            && Intended(p, k) == Outcome(TProxied(i.settings.numbers[S.DNSPort]), p.markTProxy)
            && (exists x :: x in ins && x.tag == "dns-in" && x.port == i.settings.numbers[S.DNSPort])
            && forall x :: x in ins && x.tag == "dns-in" ==> !x.transparent
  {
    hide C.Built, Spared, B.NamesWanted, B.MarkSaid;
    var p, s := Planned(env, i.settings, lanDevices, wanDevice), i.settings;
    IntendedComesOut(p, k);
    B.InboundsSay(env, i, B.NamesWanted(s, i.rules));
    var x := C.Inbound("dns-in", "0.0.0.0", s.numbers[S.DNSPort], "dokodemo-door", s.texts[S.DNS], "tcp,udp", false,
                       None);
    assert x in C.Built(env, i).value.inbounds;
  }

  /** In either dialect. */
  lemma CapturedIsServed(env: C.Env, i: C.Inputs, lanDevices: seq<string>, wanDevice: string, base: Ipt.Store,
                         t: Nft.Table, k: Packet)
    requires C.Whole(i) && C.Built(env, i).Some? && KnownMode(i.settings) && IptCapture.Clean(base)
    requires var p := Planned(env, i.settings, lanDevices, wanDevice);
             Nft.SetsOf(p, t) && Nft.PlaysAll(p, t.chains, Nft.Roles(p))
    ensures var p, ins := Planned(env, i.settings, lanDevices, wanDevice), C.Built(env, i).value.inbounds;
            && FindsTheCore(p, k, Ipt.Traverse(Ipt.Replay(base, Ipt.InstallAll(Ipt.RolesOf(p), p)), k), ins)
            && FindsTheCore(p, k, Nft.Traverse(t, k), ins)
  {
    hide C.Built, FindsTheCore, ComesOut, Planned, FromClient, Ipt.Traverse, Nft.Traverse, Ipt.Replay, Ipt.InstallAll,
         Ipt.RolesOf, Nft.SetsOf, Nft.PlaysAll, Nft.Roles, IptCapture.Clean;
    var p := Planned(env, i.settings, lanDevices, wanDevice);
    var byIpt := Ipt.Traverse(Ipt.Replay(base, Ipt.InstallAll(Ipt.RolesOf(p), p)), k);
    IptCapture.BothComeOut(base, t, p, k);
    TakenFindsTheCore(env, i, lanDevices, wanDevice, k, byIpt);
    if ComesOut(p, k, Nft.Traverse(t, k)) {
      TakenFindsTheCore(env, i, lanDevices, wanDevice, k, Nft.Traverse(t, k));
    } else {
      LeftAlone(p, k, Nft.Traverse(t, k), C.Built(env, i).value.inbounds);
    }
  }

  lemma LeftAlone(p: Plan, k: Packet, o: Outcome, ins: seq<C.Inbound>)
    ensures o.fate == Untouched ==> FindsTheCore(p, k, o, ins)
  {
  }

  /** What the core sends over any of its outbounds passes the capture rules as it is. */
  lemma CoreIsLeftAlone(env: C.Env, i: C.Inputs, lanDevices: seq<string>, wanDevice: string, base: Ipt.Store,
                        t: Nft.Table, k: Packet, n: nat)
    requires C.Whole(i) && C.Built(env, i).Some? && IptCapture.Clean(base)
    requires var p := Planned(env, i.settings, lanDevices, wanDevice);
             Nft.SetsOf(p, t) && Nft.PlaysAll(p, t.chains, Nft.Roles(p))
    requires var outs := C.Built(env, i).value.outbounds;
             && n < |outs| && outs[n].protocol != "blackhole" && outs[n].stream.Some?
             && k.fromRouter && k.mark == outs[n].stream.value.sockopt.mark
    ensures var p := Planned(env, i.settings, lanDevices, wanDevice);
            && Ipt.Traverse(Ipt.Replay(base, Ipt.InstallAll(Ipt.RolesOf(p), p)), k) == Outcome(Untouched, k.mark)
            && Nft.Traverse(t, k) == Outcome(Untouched, k.mark)
  {
    hide C.Built, Ipt.Traverse, Nft.Traverse, Ipt.Replay, Ipt.InstallAll, Ipt.RolesOf, Nft.SetsOf, Nft.PlaysAll,
         Nft.Roles, IptCapture.Clean, B.MarkSaid, C.Mark;
    C.EveryConnectionIsMarked(env, i);
    B.MarkIsSaid(env, i.settings);
    NoLoop.CoreTrafficIsNotCaptured(Planned(env, i.settings, lanDevices, wanDevice), t, base, k);
  }
}
