/**
 The plan both firewall dialects compile (internal/fw/fw.go), the packets it is about, and
 what capture is supposed to do with each of them, written from the mode predicates.
 */
module Capture {
  import opened Modes
  import Strings

  datatype Plan = Plan(
    mode: Mode,
    lanDevices: seq<string>,
    lanCIDRs: seq<string>,
    wanDevice: string,
    tproxyPort: int,
    dnsPort: int,
    mark: int,
    markTProxy: int,
    markTunUDP: int,
    proxyRouter: bool,
    redirectDNS: bool,
    blockQUIC: bool,
    bypassCIDRs: seq<string>,
    bypassMACs: seq<string>)

  const PRIVATE_CIDRS: seq<string> := [
    "0.0.0.0/8", "10.0.0.0/8", "100.64.0.0/10", "127.0.0.0/8", "169.254.0.0/16", "172.16.0.0/12",
    "192.0.0.0/24", "192.168.0.0/16", "198.18.0.0/15", "224.0.0.0/4", "240.0.0.0/4"]

  // ----- dedupe

  function Keep(kept: seq<string>, v: string): seq<string> {
    if v == "" || v in kept then kept else kept + [v]
  }

  function Deduped(items: seq<string>): seq<string> {
    if items == [] then [] else Keep(Deduped(items[..|items| - 1]), Strings.TrimSpace(items[|items| - 1]))
  }

  method Dedupe(items: seq<string>) returns (out: seq<string>)
    ensures out == Deduped(items)
  {
    var seen: map<string, bool> := map[];
    out := [];
    for i := 0 to |items|
      invariant out == Deduped(items[..i])
      invariant forall v :: v in seen <==> v in out
    {
      assert items[..i + 1][..i] == items[..i];
      var v := Strings.TrimSpace(items[i]);
      if v == "" || v in seen {
        continue;
      }
      seen := seen[v := true];
      out := out + [v];
    }
    assert items[..|items|] == items;
  }

  /** `v` is one of the entries, once trimmed. */
  predicate Occurs(items: seq<string>, v: string) {
    exists i :: 0 <= i < |items| && Strings.TrimSpace(items[i]) == v
  }

  lemma OccursInLonger(items: seq<string>, item: string, v: string)
    ensures Occurs(items + [item], v) <==> Occurs(items, v) || Strings.TrimSpace(item) == v
  {
    hide Strings.TrimSpace;
    var longer := items + [item];
    if Occurs(items, v) {
      var i :| 0 <= i < |items| && Strings.TrimSpace(items[i]) == v;
      assert longer[i] == items[i];
    }
    assert longer[|items|] == item;
  }

  ghost predicate Distinct(s: seq<string>) {
    forall i, j :: 0 <= i < j < |s| ==> s[i] != s[j]
  }

  lemma KeepMembers(kept: seq<string>, v: string)
    ensures forall w :: w in Keep(kept, v) <==> w in kept || (w == v && v != "")
    ensures Distinct(kept) ==> Distinct(Keep(kept, v))
  {
  }

  /** What dedupe keeps: each nonempty trimmed entry, once. */
  lemma {:induction false} DedupedMembers(items: seq<string>)
    ensures forall v :: v in Deduped(items) <==> v != "" && Occurs(items, v)
    ensures Distinct(Deduped(items))
  {
    if items != [] {
      hide Strings.TrimSpace, Occurs, Keep, Distinct;
      var before, item := items[..|items| - 1], items[|items| - 1];
      assert items == before + [item];
      DedupedMembers(before);
      KeepMembers(Deduped(before), Strings.TrimSpace(item));
      forall v {
        OccursInLonger(before, item, v);
      }
    }
  }

  function AllBypass(p: Plan): seq<string> {
    Deduped(PRIVATE_CIDRS + p.lanCIDRs + p.bypassCIDRs)
  }

  // ----- packets

  datatype Proto = Tcp | Udp | OtherProto

  /**
   A packet as the capture rules see it. `nets` holds the network texts that contain its
   destination, so that nothing is assumed about how a text is read as a network.
   `forwarded` says that routing would pass an uncaptured packet on, `transparent` that a
   transparent socket for it exists already.
   */
  datatype Packet = Packet(
    fromRouter: bool,
    iif: string,
    smac: string,
    nets: set<string>,
    proto: Proto,
    dport: int,
    mark: int,
    forwarded: bool,
    transparent: bool)

  datatype Fate = Untouched | Redirected(port: int) | TProxied(port: int) | Rejected

  datatype Outcome = Outcome(fate: Fate, mark: int)

  // ----- the specification

  predicate Listed(nets: set<string>, items: seq<string>) {
    exists i :: 0 <= i < |items| && Strings.TrimSpace(items[i]) != "" && Strings.TrimSpace(items[i]) in nets
  }

  /** Bound for a private, local or excluded network. */
  predicate Spared(p: Plan, k: Packet) {
    Listed(k.nets, PRIVATE_CIDRS) || Listed(k.nets, p.lanCIDRs) || Listed(k.nets, p.bypassCIDRs)
  }

  lemma SparedIsBypass(p: Plan, k: Packet)
    ensures Spared(p, k) <==> exists c :: c in AllBypass(p) && c in k.nets
  {
    var all := PRIVATE_CIDRS + p.lanCIDRs + p.bypassCIDRs;
    DedupedMembers(all);
    ListedJoins(k.nets, PRIVATE_CIDRS + p.lanCIDRs, p.bypassCIDRs);
    ListedJoins(k.nets, PRIVATE_CIDRS, p.lanCIDRs);
    if c :| c in AllBypass(p) && c in k.nets {
      assert Occurs(all, c);
      var i :| 0 <= i < |all| && Strings.TrimSpace(all[i]) == c;
      assert Listed(k.nets, all);
    }
    if Listed(k.nets, all) {
      var i :| 0 <= i < |all| && Strings.TrimSpace(all[i]) != "" && Strings.TrimSpace(all[i]) in k.nets;
      assert Strings.TrimSpace(all[i]) in AllBypass(p);
    }
  }

  lemma ListedJoins(nets: set<string>, a: seq<string>, b: seq<string>)
    ensures Listed(nets, a + b) <==> Listed(nets, a) || Listed(nets, b)
  {
    if i :| 0 <= i < |a| && Strings.TrimSpace(a[i]) != "" && Strings.TrimSpace(a[i]) in nets {
      assert (a + b)[i] == a[i];
    }
    if i :| 0 <= i < |b| && Strings.TrimSpace(b[i]) != "" && Strings.TrimSpace(b[i]) in nets {
      assert (a + b)[|a| + i] == b[i];
    }
    if i :| 0 <= i < |a + b| && Strings.TrimSpace((a + b)[i]) != "" && Strings.TrimSpace((a + b)[i]) in nets {
      assert (a + b)[i] == if i < |a| then a[i] else b[i - |a|];
    }
  }

  /** Comes from a client-facing interface. */
  predicate InScope(p: Plan, k: Packet) {
    if p.lanDevices != [] then k.iif in p.lanDevices
    else p.wanDevice != "" ==> k.iif != p.wanDevice
  }

  predicate IsDNS(k: Packet) {
    k.proto != OtherProto && k.dport == 53
  }

  /** What is to become of a client's packet, and of one the router itself sends. */
  function Intended(p: Plan, k: Packet): Outcome {
    if Spared(p, k) then Outcome(Untouched, k.mark)
    else if k.fromRouter then
      if !p.proxyRouter || !p.mode.NeedsFirewallCapture() || k.mark == p.mark then Outcome(Untouched, k.mark)
      else if k.proto == Tcp then Outcome(Redirected(p.tproxyPort), k.mark)
      else if k.proto == Udp && p.mode.MarksUDPForTun() && !(p.redirectDNS && k.dport == 53)
      then Outcome(Untouched, p.markTunUDP)
      else Outcome(Untouched, k.mark)
    else if !InScope(p, k) || k.smac in p.bypassMACs then Outcome(Untouched, k.mark)
    else if p.redirectDNS && IsDNS(k) then
      if p.mode.NeedsTProxy() then Outcome(TProxied(p.dnsPort), p.markTProxy)
      else Outcome(Redirected(p.dnsPort), k.mark)
    else if k.proto == OtherProto then Outcome(Untouched, k.mark)
    else if p.mode.NeedsTProxy() then Outcome(TProxied(p.tproxyPort), p.markTProxy)
    else if k.proto == Tcp && p.mode.CapturesTCPViaRedirect() then Outcome(Redirected(p.tproxyPort), k.mark)
    else if k.proto == Udp && p.mode.MarksUDPForTun() then Outcome(Untouched, p.markTunUDP)
    else if k.proto == Udp && !p.mode.CarriesUDP() && p.blockQUIC && k.forwarded && k.dport == 443
    then Outcome(Rejected, k.mark)
    else Outcome(Untouched, k.mark)
  }

  // ----- what each chain is for

  /** Where a packet stands inside a chain: what has happened to it, and whether the chain is
      over for it. */
  datatype Flow = Flow(out: Outcome, over: bool)

  /** The client traffic a chain is allowed to touch. */
  predicate Capturable(p: Plan, k: Packet) {
    InScope(p, k) && k.smac !in p.bypassMACs && !Spared(p, k)
  }

  datatype Role = NATRole | DNSOnlyRole | UDPMarkRole | TProxyRole | QUICRole | OutputNATRole | OutputMarkRole

  /** What a chain of each kind does to a packet it lets through its guards. */
  function Effect(role: Role, p: Plan, k: Packet, o: Outcome): Flow {
    match role
    case NATRole =>
      if !Capturable(p, k) then Flow(o, true)
      else if p.redirectDNS && IsDNS(k) then Flow(o.(fate := Redirected(p.dnsPort)), true)
      else if k.proto == Tcp then Flow(o.(fate := Redirected(p.tproxyPort)), true)
      else Flow(o, false)
    case DNSOnlyRole =>
      if !Capturable(p, k) then Flow(o, true)
      else if IsDNS(k) then Flow(o.(fate := Redirected(p.dnsPort)), true)
      else Flow(o, false)
    case UDPMarkRole =>
      if !Capturable(p, k) || (p.redirectDNS && IsDNS(k)) then Flow(o, true)
      else if k.proto == Udp then Flow(o.(mark := p.markTunUDP), false)
      else Flow(o, false)
    case TProxyRole =>
      if !Capturable(p, k) then Flow(o, true)
      else if k.proto == OtherProto then Flow(o, false)
      else if k.transparent then Flow(o.(mark := p.markTProxy), true)
      else if p.redirectDNS && IsDNS(k) then Flow(Outcome(TProxied(p.dnsPort), p.markTProxy), true)
      else Flow(Outcome(TProxied(p.tproxyPort), p.markTProxy), true)
    case QUICRole =>
      if !Capturable(p, k) then Flow(o, true)
      else if k.proto == Udp && k.dport == 443 then Flow(o.(fate := Rejected), true)
      else Flow(o, false)
    case OutputNATRole =>
      if o.mark == p.mark || Spared(p, k) then Flow(o, true)
      else if k.proto == Tcp then Flow(o.(fate := Redirected(p.tproxyPort)), true)
      else Flow(o, false)
    case OutputMarkRole =>
      if o.mark == p.mark || Spared(p, k) || (p.redirectDNS && k.proto == Udp && k.dport == 53) then Flow(o, true)
      else if k.proto == Udp then Flow(o.(mark := p.markTunUDP), false)
      else Flow(o, false)
  }

  lemma OnlyQUICRefuses(role: Role, p: Plan, k: Packet, o: Outcome)
    requires role != QUICRole && !o.fate.Rejected?
    ensures !Effect(role, p, k, o).out.fate.Rejected?
  {
    hide Capturable, Spared;
  }

  lemma RouterEffectIsIntended(p: Plan, k: Packet)
    requires k.fromRouter
    ensures var o := Outcome(Untouched, k.mark);
            (if !p.proxyRouter || p.mode == Tun then o
             else if p.mode == Mixed then Effect(OutputNATRole, p, k, Effect(OutputMarkRole, p, k, o).out).out
             else Effect(OutputNATRole, p, k, o).out) == Intended(p, k)
  {
    hide Spared, Capturable;
  }

  // ----- mode by mode

  predicate IsPrivate(net: string) {
    net in {"0.0.0.0/8", "10.0.0.0/8", "100.64.0.0/10", "127.0.0.0/8", "169.254.0.0/16", "172.16.0.0/12",
            "192.0.0.0/24", "192.168.0.0/16", "198.18.0.0/15", "224.0.0.0/4", "240.0.0.0/4"}
  }

  lemma PrivateIsPlain(k: nat)
    requires k < |PRIVATE_CIDRS|
    ensures Strings.TrimSpace(PRIVATE_CIDRS[k]) == PRIVATE_CIDRS[k] != ""
  {
    hide Strings.TrimSpace;
    Strings.TrimKeeps(PRIVATE_CIDRS[k]);
  }

  /** Which destinations are left alone: private networks, the device's own, and excluded ones. */
  lemma SparedSays(p: Plan, k: Packet)
    ensures Spared(p, k) <==>
            || (exists net :: net in k.nets && IsPrivate(net))
            || Listed(k.nets, p.lanCIDRs) || Listed(k.nets, p.bypassCIDRs)
  {
    hide Strings.TrimSpace;
    forall i | 0 <= i < |PRIVATE_CIDRS| ensures Strings.TrimSpace(PRIVATE_CIDRS[i]) == PRIVATE_CIDRS[i] != "" {
      PrivateIsPlain(i);
    }
    if net :| net in k.nets && IsPrivate(net) {
      assert net in PRIVATE_CIDRS;
      var i :| 0 <= i < |PRIVATE_CIDRS| && PRIVATE_CIDRS[i] == net;
      assert Strings.TrimSpace(PRIVATE_CIDRS[i]) in k.nets;
    }
  }

  /** What arrives from a client that is not excluded and goes somewhere that is not spared. */
  predicate FromClient(p: Plan, k: Packet) {
    && !k.fromRouter && k.smac !in p.bypassMACs && !Spared(p, k)
    && if p.lanDevices != [] then k.iif in p.lanDevices else p.wanDevice == "" || k.iif != p.wanDevice
  }

  /** What the router sends of itself, to be proxied like a client's, and not the core's. */
  predicate OfRouter(p: Plan, k: Packet) {
    k.fromRouter && p.proxyRouter && k.mark != p.mark && !Spared(p, k)
  }

  predicate NameLookup(p: Plan, k: Packet) {
    p.redirectDNS && k.dport == 53 && (k.proto == Tcp || k.proto == Udp)
  }

  /** `o` is how a client's packet comes out, mode by mode: redirect takes TCP and may refuse
      QUIC that would be forwarded, mixed takes TCP and marks UDP for the tunnel, TPROXY takes
      both and marks them for the core, and full TUN leaves them to the routing. Names are taken
      over in every mode while they are to be. */
  predicate ClientComesOut(p: Plan, k: Packet, o: Outcome) {
    && (k.proto == OtherProto ==> o == Outcome(Untouched, k.mark))
    && (NameLookup(p, k) ==>
          o == if p.mode == TProxy then Outcome(TProxied(p.dnsPort), p.markTProxy)
               else Outcome(Redirected(p.dnsPort), k.mark))
    && (k.proto == Tcp && !NameLookup(p, k) ==>
          match p.mode
          case Redirect => o == Outcome(Redirected(p.tproxyPort), k.mark)
          case Mixed => o == Outcome(Redirected(p.tproxyPort), k.mark)
          case TProxy => o == Outcome(TProxied(p.tproxyPort), p.markTProxy)
          case Tun => o == Outcome(Untouched, k.mark))
    && (k.proto == Udp && !NameLookup(p, k) ==>
          match p.mode
          case Redirect =>
            o == Outcome(if p.blockQUIC && k.dport == 443 && k.forwarded then Rejected else Untouched, k.mark)
          case Mixed => o == Outcome(Untouched, p.markTunUDP)
          case TProxy => o == Outcome(TProxied(p.tproxyPort), p.markTProxy)
          case Tun => o == Outcome(Untouched, k.mark))
  }

  /** And one of the router's own: TCP is redirected in every mode that has firewall rules, and in
      mixed mode UDP is marked for the tunnel, name lookups aside. */
  predicate RouterComesOut(p: Plan, k: Packet, o: Outcome) {
    match p.mode
    case Tun => o == Outcome(Untouched, k.mark)
    case Mixed =>
      o == if k.proto == Tcp then Outcome(Redirected(p.tproxyPort), k.mark)
           else if k.proto == Udp && !NameLookup(p, k) then Outcome(Untouched, p.markTunUDP)
           else Outcome(Untouched, k.mark)
    case _ => o == Outcome(if k.proto == Tcp then Redirected(p.tproxyPort) else Untouched, k.mark)
  }

  /** Everything else comes out as it was. */
  predicate ComesOut(p: Plan, k: Packet, o: Outcome) {
    if FromClient(p, k) then ClientComesOut(p, k, o)
    else if OfRouter(p, k) then RouterComesOut(p, k, o)
    else o == Outcome(Untouched, k.mark)
  }

  lemma IntendedComesOut(p: Plan, k: Packet)
    ensures ComesOut(p, k, Intended(p, k))
  {
    hide Spared;
  }
}
