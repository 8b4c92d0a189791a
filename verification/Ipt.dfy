/**
 The iptables dialect (internal/fw/ipt.go): the rule store of the kernel, the commands that
 change it, and a semantics for packets that pass it.
 */
module Ipt {
  import opened Modes
  import opened Capture

  datatype Tbl = NatTable | MangleTable | FilterTable

  datatype Match =
    | Any
    | FromMac(mac: string)
    | ToNet(net: string)
    | ProtoIs(proto: Proto)
    | ProtoDport(proto: Proto, port: int)
    | InIface(device: string)
    | NotInIface(device: string)
    | MarkIs(mark: int)

  /** A foreign rule, one the daemon did not write, is opaque: it is only known to not jump to
      the daemon's chains, and its verdicts are no part of what is compared here. */
  type ForeignName = name: string | name !in OWN witness "ACCEPT"

  datatype Target =
    | JumpTo(chain: string)
    | Return
    | RedirectTo(port: int)
    | SetMark(mark: int)
    | TProxyOn(port: int, mark: int)
    | Reject
    | Foreign(name: ForeignName)

  datatype Rule = Rule(when: Match, target: Target)

  type Key = (Tbl, string)

  type Store = map<Key, seq<Rule>>

  const PRE := "XWRT_PRE"
  const MARK := "XWRT_MARK"
  const OUT := "XWRT_OUT"
  const QUIC := "XWRT_QUIC"

  const OWN: seq<string> := [PRE, MARK, OUT, QUIC]
  const HOOKS: seq<string> := ["PREROUTING", "OUTPUT", "FORWARD"]
  const TABLES: seq<Tbl> := [NatTable, MangleTable, FilterTable]

  // ----- commands

  datatype Cmd =
    | NewChain(t: Tbl, chain: string)
    | AppendRule(t: Tbl, chain: string, rule: Rule)
    | InsertTop(t: Tbl, chain: string, rule: Rule)
    | DeleteRule(t: Tbl, chain: string, num: int)
    | FlushChain(t: Tbl, chain: string)
    | DeleteChain(t: Tbl, chain: string)

  predicate JumpsTo(r: Rule, chain: string) {
    r.target == JumpTo(chain)
  }

  predicate Referenced(st: Store, t: Tbl, chain: string) {
    exists k, i :: k in st && k.0 == t && 0 <= i < |st[k]| && JumpsTo(st[k][i], chain)
  }

  /** Whether the kernel can carry the command out at all. */
  predicate Legal(c: Cmd, st: Store) {
    match c
    case NewChain(t, chain) => (t, chain) !in st
    case AppendRule(t, chain, _) => (t, chain) in st
    case InsertTop(t, chain, _) => (t, chain) in st
    case DeleteRule(t, chain, num) => (t, chain) in st && 1 <= num <= |st[(t, chain)]|
    case FlushChain(t, chain) => (t, chain) in st
    case DeleteChain(t, chain) => (t, chain) in st && st[(t, chain)] == [] && !Referenced(st, t, chain)
  }

  function Exec(c: Cmd, st: Store): Store {
    if !Legal(c, st) then st
    else match c
      case NewChain(t, chain) => st[(t, chain) := []]
      case AppendRule(t, chain, rule) => st[(t, chain) := st[(t, chain)] + [rule]]
      case InsertTop(t, chain, rule) => st[(t, chain) := [rule] + st[(t, chain)]]
      case DeleteRule(t, chain, num) => st[(t, chain) := st[(t, chain)][..num - 1] + st[(t, chain)][num..]]
      case FlushChain(t, chain) => st[(t, chain) := []]
      case DeleteChain(t, chain) => st - {(t, chain)}
  }

  function Replay(st: Store, cmds: seq<Cmd>): Store {
    if cmds == [] then st else Exec(cmds[|cmds| - 1], Replay(st, cmds[..|cmds| - 1]))
  }

  lemma {:induction false} ReplayJoins(st: Store, a: seq<Cmd>, b: seq<Cmd>)
    ensures Replay(st, a + b) == Replay(Replay(st, a), b)
  {
    if b == [] {
      assert a + b == a;
    } else {
      assert (a + b)[..|a + b| - 1] == a + b[..|b| - 1];
      ReplayJoins(st, a, b[..|b| - 1]);
    }
  }

  // ----- the commands of a plan

  function MacGuards(macs: seq<string>): seq<Rule> {
    seq(|macs|, i requires 0 <= i < |macs| => Rule(FromMac(macs[i]), Return))
  }

  function NetGuards(nets: seq<string>): seq<Rule> {
    seq(|nets|, i requires 0 <= i < |nets| => Rule(ToNet(nets[i]), Return))
  }

  function Both(port: int, first: Proto, second: Proto, target: Target): seq<Rule> {
    [Rule(ProtoDport(first, port), target), Rule(ProtoDport(second, port), target)]
  }

  /** The rules of the chain that plays a role, in order. */
  function Rules(role: Role, p: Plan): seq<Rule> {
    var guards := MacGuards(p.bypassMACs) + NetGuards(AllBypass(p));
    var own := [Rule(MarkIs(p.mark), Return)] + NetGuards(AllBypass(p));
    match role
    case NATRole =>
      guards
      + (if p.redirectDNS then Both(53, Udp, Tcp, RedirectTo(p.dnsPort)) else [])
      + [Rule(ProtoIs(Tcp), RedirectTo(p.tproxyPort))]
    case DNSOnlyRole => guards + Both(53, Udp, Tcp, RedirectTo(p.dnsPort))
    case UDPMarkRole =>
      guards
      + (if p.redirectDNS then Both(53, Udp, Tcp, Return) else [])
      + [Rule(ProtoIs(Udp), SetMark(p.markTunUDP))]
    case TProxyRole =>
      guards
      + (if p.redirectDNS then Both(53, Udp, Tcp, TProxyOn(p.dnsPort, p.markTProxy)) else [])
      + [Rule(ProtoIs(Tcp), TProxyOn(p.tproxyPort, p.markTProxy)),
         Rule(ProtoIs(Udp), TProxyOn(p.tproxyPort, p.markTProxy))]
    case QUICRole => guards + [Rule(ProtoDport(Udp, 443), Reject)]
    case OutputNATRole => own + [Rule(ProtoIs(Tcp), RedirectTo(p.tproxyPort))]
    case OutputMarkRole =>
      own
      + (if p.redirectDNS then [Rule(ProtoDport(Udp, 53), Return)] else [])
      + [Rule(ProtoIs(Udp), SetMark(p.markTunUDP))]
  }

  function TableOf(role: Role): Tbl {
    match role
    case NATRole => NatTable
    case DNSOnlyRole => NatTable
    case OutputNATRole => NatTable
    case QUICRole => FilterTable
    case _ => MangleTable
  }

  function ChainOf(role: Role): string {
    match role
    case UDPMarkRole => MARK
    case QUICRole => QUIC
    case OutputNATRole => OUT
    case OutputMarkRole => OUT
    case _ => PRE
  }

  function HookNameOf(role: Role): string {
    match role
    case QUICRole => "FORWARD"
    case OutputNATRole => "OUTPUT"
    case OutputMarkRole => "OUTPUT"
    case _ => "PREROUTING"
  }

  predicate ForRouter(role: Role) {
    role == OutputNATRole || role == OutputMarkRole
  }

  /** How the hook is told to enter the chain: once per client-facing device, or once for
      everything but the upstream device, or once for everything. */
  function Entries(p: Plan, role: Role): seq<Match> {
    if ForRouter(role) then [Any]
    else if p.lanDevices != [] then seq(|p.lanDevices|, i requires 0 <= i < |p.lanDevices| => InIface(p.lanDevices[i]))
    else if p.wanDevice != "" then [NotInIface(p.wanDevice)]
    else [Any]
  }

  function Appends(t: Tbl, chain: string, rules: seq<Rule>): seq<Cmd> {
    seq(|rules|, i requires 0 <= i < |rules| => AppendRule(t, chain, rules[i]))
  }

  function Inserts(t: Tbl, hook: string, chain: string, entries: seq<Match>): seq<Cmd> {
    seq(|entries|, i requires 0 <= i < |entries| => InsertTop(t, hook, Rule(entries[i], JumpTo(chain))))
  }

  /** Everything one chain takes: create it, fill it, hook it. */
  function Install(role: Role, p: Plan): seq<Cmd> {
    var t, c := TableOf(role), ChainOf(role);
    [NewChain(t, c)] + Appends(t, c, Rules(role, p)) + Inserts(t, HookNameOf(role), c, Entries(p, role))
  }

  function InstallAll(roles: seq<Role>, p: Plan): seq<Cmd> {
    if roles == [] then [] else InstallAll(roles[..|roles| - 1], p) + Install(roles[|roles| - 1], p)
  }

  /** The chains of a plan, in the order they are installed. */
  function RolesOf(p: Plan): seq<Role> {
    if !p.mode.NeedsFirewallCapture() then (if p.redirectDNS then [DNSOnlyRole] else [])
    else
      (if p.mode.CapturesTCPViaRedirect() then [NATRole] else [])
      + (if p.mode.MarksUDPForTun() then [UDPMarkRole] else [])
      + (if p.mode.NeedsTProxy() then [TProxyRole] else [])
      + (if p.proxyRouter && (p.mode.CapturesTCPViaRedirect() || p.mode.NeedsTProxy()) then [OutputNATRole] else [])
      + (if p.proxyRouter && p.mode.MarksUDPForTun() then [OutputMarkRole] else [])
      + (if p.blockQUIC && !p.mode.CarriesUDP() then [QUICRole] else [])
  }

  // ----- how packets pass the store

  predicate Matches(m: Match, k: Packet, mark: int) {
    match m
    case Any => true
    case FromMac(mac) => k.smac == mac
    case ToNet(net) => net in k.nets
    case ProtoIs(proto) => k.proto == proto
    case ProtoDport(proto, port) => k.proto == proto && k.dport == port
    case InIface(device) => k.iif == device
    case NotInIface(device) => k.iif != device
    case MarkIs(m) => mark == m
  }

  /** One rule of a chain of the daemon's: how the packet stands after it, and whether the chain
      is over. */
  function RunRule(r: Rule, k: Packet, o: Outcome): Flow {
    if !Matches(r.when, k, o.mark) then Flow(o, false)
    else match r.target
      case JumpTo(_) => Flow(o, false)
      case Return => Flow(o, true)
      case RedirectTo(port) => Flow(o.(fate := Redirected(port)), true)
      case SetMark(mark) => Flow(o.(mark := mark), false)
      case TProxyOn(port, mark) => Flow(Outcome(TProxied(port), mark), true)
      case Reject => Flow(o.(fate := Rejected), true)
      case Foreign(_) => Flow(o, false)
  }

  function RunChain(rules: seq<Rule>, k: Packet, o: Outcome): Flow {
    if rules == [] then Flow(o, false)
    else
      var f := RunRule(rules[0], k, o);
      if f.over then f else RunChain(rules[1..], k, f.out)
  }

  /** A hook of a table: jumps into the daemon's chains are followed, and a packet that a chain
      decided about goes no further; the device's own rules are passed over. */
  function RunHookRules(st: Store, t: Tbl, rules: seq<Rule>, k: Packet, o: Outcome): Outcome {
    if rules == [] then o
    else if rules[0].target.JumpTo? && (t, rules[0].target.chain) in st && Matches(rules[0].when, k, o.mark) then
      var f := RunChain(st[(t, rules[0].target.chain)], k, o);
      if f.over && f.out.fate != o.fate then f.out else RunHookRules(st, t, rules[1..], k, f.out)
    else RunHookRules(st, t, rules[1..], k, o)
  }

  function RunHook(st: Store, t: Tbl, hook: string, k: Packet, o: Outcome): Outcome {
    if (t, hook) in st then RunHookRules(st, t, st[(t, hook)], k, o) else o
  }

  /** The way of a packet through the device: mangle before nat on each hook, and the forward
      hook for what arrived and is routed on. */
  function Traverse(st: Store, k: Packet): Outcome {
    var start := Outcome(Untouched, k.mark);
    if k.fromRouter then RunHook(st, NatTable, "OUTPUT", k, RunHook(st, MangleTable, "OUTPUT", k, start))
    else
      var o := RunHook(st, NatTable, "PREROUTING", k, RunHook(st, MangleTable, "PREROUTING", k, start));
      if o.fate.Untouched? && k.forwarded then RunHook(st, FilterTable, "FORWARD", k, o) else o
  }
}
