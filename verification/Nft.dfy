/**
 The nftables dialect (internal/fw/nft.go). A table is modelled as the kernel reads it:
 base chains on hooks, run in priority order, each a list of rules. The writer appends
 chains one by one; each of its methods says what the chain it wrote does to every packet.
 */
module Nft {
  import opened Modes
  import opened Capture

  datatype Hook = Prerouting | Forward | Output

  datatype Kind = NatChain | FilterChain | RouteChain

  datatype Match =
    | IifNotIn(devices: seq<string>)
    | IifIs(device: string)
    | SaddrInBypassMACs
    | DaddrInBypass
    | L4Proto(proto: Proto)
    | Dport(proto: Proto, port: int)
    | MarkIs(mark: int)
    | SocketTransparent(proto: Proto)

  datatype Stmt = Return | Accept | RedirectTo(port: int) | TProxyTo(port: int) | SetMark(mark: int) | Reject

  datatype Rule = Rule(when: Match, stmts: seq<Stmt>)

  datatype Chain = Chain(name: string, kind: Kind, hook: Hook, priority: int, rules: seq<Rule>)

  datatype Table = Table(bypass: seq<string>, bypassMACs: seq<string>, chains: seq<Chain>)

  // ----- how the kernel runs a table

  predicate Matches(t: Table, m: Match, k: Packet, mark: int) {
    match m
    case IifNotIn(devices) => k.iif !in devices
    case IifIs(device) => k.iif == device
    case SaddrInBypassMACs => k.smac in t.bypassMACs
    case DaddrInBypass => exists c :: c in t.bypass && c in k.nets
    case L4Proto(proto) => k.proto == proto
    case Dport(proto, port) => k.proto == proto && k.dport == port
    case MarkIs(m) => mark == m
    case SocketTransparent(proto) => k.proto == proto && k.transparent
  }

  function RunStmts(stmts: seq<Stmt>, o: Outcome): Flow {
    if stmts == [] then Flow(o, false)
    else match stmts[0]
      case Return => Flow(o, true)
      case Accept => Flow(o, true)
      case RedirectTo(port) => Flow(o.(fate := Redirected(port)), true)
      case TProxyTo(port) => RunStmts(stmts[1..], o.(fate := TProxied(port)))
      case SetMark(mark) => RunStmts(stmts[1..], o.(mark := mark))
      case Reject => Flow(o.(fate := Rejected), true)
  }

  function RunRule(t: Table, r: Rule, k: Packet, o: Outcome): Flow {
    if Matches(t, r.when, k, o.mark) then RunStmts(r.stmts, o) else Flow(o, false)
  }

  function RunRules(t: Table, rules: seq<Rule>, k: Packet, o: Outcome): Flow {
    if rules == [] then Flow(o, false)
    else
      var f := RunRule(t, rules[0], k, o);
      if f.over then f else RunRules(t, rules[1..], k, f.out)
  }

  /** Base chains in the order the hook runs them. */
  function ByPriority(chains: seq<Chain>): seq<Chain> {
    if chains == [] then [] else InsertByPriority(ByPriority(chains[..|chains| - 1]), chains[|chains| - 1])
  }

  function InsertByPriority(sorted: seq<Chain>, c: Chain): seq<Chain> {
    if sorted == [] || c.priority < sorted[0].priority then [c] + sorted
    else [sorted[0]] + InsertByPriority(sorted[1..], c)
  }

  function OnHook(chains: seq<Chain>, hook: Hook): seq<Chain> {
    if chains == [] then []
    else
      var rest := OnHook(chains[..|chains| - 1], hook);
      if chains[|chains| - 1].hook == hook then rest + [chains[|chains| - 1]] else rest
  }

  /** Every base chain of a hook sees the packet; only a refusal stops it early. */
  function RunChains(t: Table, chains: seq<Chain>, k: Packet, o: Outcome): Outcome {
    if chains == [] || o.fate.Rejected? then o
    else RunChains(t, chains[1..], k, RunRules(t, chains[0].rules, k, o).out)
  }

  function RunHook(t: Table, hook: Hook, k: Packet, o: Outcome): Outcome {
    RunChains(t, ByPriority(OnHook(t.chains, hook)), k, o)
  }

  /** The way of a packet through the device: what the router sends passes the output hook;
      what arrives passes the prerouting hook and, if it is routed on, the forward hook. */
  function Traverse(t: Table, k: Packet): Outcome {
    var start := Outcome(Untouched, k.mark);
    if k.fromRouter then RunHook(t, Output, k, start)
    else
      var o := RunHook(t, Prerouting, k, start);
      if o.fate.Untouched? && k.forwarded then RunHook(t, Forward, k, o) else o
  }

  lemma {:induction false} RulesInSequence(t: Table, a: seq<Rule>, b: seq<Rule>, k: Packet, o: Outcome)
    ensures var f := RunRules(t, a, k, o);
            RunRules(t, a + b, k, o) == if f.over then f else RunRules(t, b, k, f.out)
  {
    if a == [] {
      assert a + b == b;
    } else {
      assert (a + b)[1..] == a[1..] + b;
      var f := RunRule(t, a[0], k, o);
      if !f.over {
        RulesInSequence(t, a[1..], b, k, f.out);
      }
    }
  }

  lemma OneMoreRule(t: Table, rules: seq<Rule>, r: Rule, k: Packet, o: Outcome)
    ensures var f := RunRules(t, rules, k, o);
            RunRules(t, rules + [r], k, o) == if f.over then f else RunRule(t, r, k, f.out)
  {
    RulesInSequence(t, rules, [r], k, o);
    var f := RunRules(t, rules, k, o);
    var g := RunRule(t, r, k, f.out);
    assert [r][1..] == [];
    assert RunRules(t, [], k, g.out) == Flow(g.out, false);
    assert RunRules(t, [r], k, f.out) == g;
  }

  // ----- what each chain is for

  predicate SetsOf(p: Plan, t: Table) {
    t.bypass == AllBypass(p) && t.bypassMACs == p.bypassMACs
  }

  /** The chain does what its role says, to every packet. */
  ghost predicate Plays(role: Role, p: Plan, rules: seq<Rule>) {
    forall t: Table, k: Packet, o: Outcome :: SetsOf(p, t) ==> RunRules(t, rules, k, o) == Effect(role, p, k, o)
  }

  /** The rules leave everything but the capturable packets alone and decide nothing else. */
  ghost predicate Guards(p: Plan, rules: seq<Rule>) {
    forall t: Table, k: Packet, o: Outcome ::
      SetsOf(p, t) ==> RunRules(t, rules, k, o) == Flow(o, !Capturable(p, k))
  }

  // ----- the writer

  /** One more rule at the end of a chain, for a packet that stands at `f`. */
  function Then(t: Table, f: Flow, r: Rule, k: Packet): Flow {
    if f.over then f else RunRule(t, r, k, f.out)
  }

  method Append(rules: seq<Rule>, rule: Rule) returns (longer: seq<Rule>)
    ensures forall t: Table, k: Packet, o: Outcome ::
              RunRules(t, longer, k, o) == Then(t, RunRules(t, rules, k, o), rule, k)
  {
    longer := rules + [rule];
    forall t: Table, k: Packet, o: Outcome
      ensures RunRules(t, longer, k, o) == Then(t, RunRules(t, rules, k, o), rule, k)
    {
      OneMoreRule(t, rules, rule, k, o);
    }
  }

  lemma TProxyStmts(o: Outcome, port: int, mark: int)
    ensures RunStmts([TProxyTo(port), SetMark(mark), Accept], o) == Flow(Outcome(TProxied(port), mark), true)
    ensures RunStmts([SetMark(mark), Accept], o) == Flow(o.(mark := mark), true)
  {
    var o1 := o.(fate := TProxied(port));
    assert [TProxyTo(port), SetMark(mark), Accept][1..] == [SetMark(mark), Accept];
    assert [SetMark(mark), Accept][1..] == [Accept];
    assert RunStmts([Accept], o.(mark := mark)) == Flow(o.(mark := mark), true);
    assert RunStmts([Accept], o1.(mark := mark)) == Flow(o1.(mark := mark), true);
    assert RunStmts([SetMark(mark), Accept], o1) == Flow(o1.(mark := mark), true);
  }

  lemma OneStmt(o: Outcome, stmt: Stmt)
    ensures stmt.Return? || stmt.Accept? ==> RunStmts([stmt], o) == Flow(o, true)
    ensures stmt.RedirectTo? ==> RunStmts([stmt], o) == Flow(o.(fate := Redirected(stmt.port)), true)
    ensures stmt.SetMark? ==> RunStmts([stmt], o) == Flow(o.(mark := stmt.mark), false)
    ensures stmt.Reject? ==> RunStmts([stmt], o) == Flow(o.(fate := Rejected), true)
  {
    assert [stmt][1..] == [];
  }

  /** Only the client-facing interfaces pass. */
  method InterfaceGuard(p: Plan) returns (rules: seq<Rule>)
    ensures forall t: Table, k: Packet, o: Outcome :: RunRules(t, rules, k, o) == Flow(o, !InScope(p, k))
  {
    rules := [];
    if |p.lanDevices| > 0 {
      rules := rules + [Rule(IifNotIn(p.lanDevices), [Return])];
    } else if p.wanDevice != "" {
      rules := rules + [Rule(IifIs(p.wanDevice), [Return])];
    }
    forall t: Table, k: Packet, o: Outcome
      ensures RunRules(t, rules, k, o) == Flow(o, !InScope(p, k))
    {
      InterfaceFlow(p, t, k, o, rules);
    }
  }

  lemma InterfaceFlow(p: Plan, t: Table, k: Packet, o: Outcome, rules: seq<Rule>)
    requires rules == if |p.lanDevices| > 0 then [Rule(IifNotIn(p.lanDevices), [Return])]
                      else if p.wanDevice != "" then [Rule(IifIs(p.wanDevice), [Return])]
                      else []
    ensures RunRules(t, rules, k, o) == Flow(o, !InScope(p, k))
  {
    assert RunRules(t, [], k, o) == Flow(o, false);
    OneStmt(o, Return);
    if rules != [] {
      OneMoreRule(t, [], rules[0], k, o);
      assert [] + [rules[0]] == rules;
    }
  }

  lemma GuardFlow(p: Plan, t: Table, k: Packet, o: Outcome)
    requires SetsOf(p, t)
    ensures var scoped := Flow(o, !InScope(p, k));
            var known := if |p.bypassMACs| > 0 then Then(t, scoped, Rule(SaddrInBypassMACs, [Return]), k) else scoped;
            Then(t, known, Rule(DaddrInBypass, [Return]), k) == Flow(o, !Capturable(p, k))
  {
    hide Spared, InScope, RunStmts, AllBypass;
    OneStmt(o, Return);
    SparedIsBypass(p, k);
  }

  /** Limits capture to client-facing interfaces and to what is not excluded. */
  method ScopeGuards(p: Plan) returns (rules: seq<Rule>)
    ensures Guards(p, rules)
  {
    hide RunRules, InScope, Capturable, Then, SetsOf;
    rules := InterfaceGuard(p);
    if |p.bypassMACs| > 0 {
      rules := Append(rules, Rule(SaddrInBypassMACs, [Return]));
    }
    rules := Append(rules, Rule(DaddrInBypass, [Return]));
    forall t: Table, k: Packet, o: Outcome | SetsOf(p, t)
      ensures RunRules(t, rules, k, o) == Flow(o, !Capturable(p, k))
    {
      GuardFlow(p, t, k, o);
    }
  }

  /** The core's own packets and the bypassed destinations leave an output chain at once. */
  method OutputGuards(p: Plan) returns (rules: seq<Rule>)
    ensures forall t: Table, k: Packet, o: Outcome ::
              SetsOf(p, t) ==> RunRules(t, rules, k, o) == Flow(o, o.mark == p.mark || Spared(p, k))
  {
    hide Spared;
    rules := Append([], Rule(MarkIs(p.mark), [Return]));
    rules := Append(rules, Rule(DaddrInBypass, [Return]));
    forall t: Table, k: Packet, o: Outcome | SetsOf(p, t)
      ensures RunRules(t, rules, k, o) == Flow(o, o.mark == p.mark || Spared(p, k))
    {
      assert RunRules(t, [], k, o) == Flow(o, false);
      hide RunRules, RunStmts;
      OneStmt(o, Return);
      SparedIsBypass(p, k);
    }
  }

  lemma DNSThenTcp(p: Plan, t: Table, k: Packet, o: Outcome)
    ensures var guarded := Flow(o, !Capturable(p, k));
            var hijacked := Then(t, Then(t, guarded, Rule(Dport(Udp, 53), [RedirectTo(p.dnsPort)]), k),
                                 Rule(Dport(Tcp, 53), [RedirectTo(p.dnsPort)]), k);
            && hijacked == Effect(DNSOnlyRole, p, k, o)
            && (p.redirectDNS ==>
                  Then(t, hijacked, Rule(L4Proto(Tcp), [RedirectTo(p.tproxyPort)]), k) == Effect(NATRole, p, k, o))
    ensures !p.redirectDNS ==>
              Then(t, Flow(o, !Capturable(p, k)), Rule(L4Proto(Tcp), [RedirectTo(p.tproxyPort)]), k)
              == Effect(NATRole, p, k, o)
  {
    hide RunRules, RunStmts, Capturable;
    OneStmt(o, RedirectTo(p.dnsPort));
    OneStmt(o, RedirectTo(p.tproxyPort));
  }

  method NATRules(p: Plan) returns (rules: seq<Rule>)
    ensures Plays(NATRole, p, rules)
  {
    hide RunRules, Capturable, Effect, Then;
    rules := ScopeGuards(p);
    if p.redirectDNS {
      rules := Append(rules, Rule(Dport(Udp, 53), [RedirectTo(p.dnsPort)]));
      rules := Append(rules, Rule(Dport(Tcp, 53), [RedirectTo(p.dnsPort)]));
    }
    rules := Append(rules, Rule(L4Proto(Tcp), [RedirectTo(p.tproxyPort)]));
    forall t: Table, k: Packet, o: Outcome | SetsOf(p, t)
      ensures RunRules(t, rules, k, o) == Effect(NATRole, p, k, o)
    {
      DNSThenTcp(p, t, k, o);
    }
  }

  method DNSOnlyRules(p: Plan) returns (rules: seq<Rule>)
    ensures Plays(DNSOnlyRole, p, rules)
  {
    hide RunRules, Capturable, Effect, Then;
    rules := ScopeGuards(p);
    rules := Append(rules, Rule(Dport(Udp, 53), [RedirectTo(p.dnsPort)]));
    rules := Append(rules, Rule(Dport(Tcp, 53), [RedirectTo(p.dnsPort)]));
    forall t: Table, k: Packet, o: Outcome | SetsOf(p, t)
      ensures RunRules(t, rules, k, o) == Effect(DNSOnlyRole, p, k, o)
    {
      DNSThenTcp(p, t, k, o);
    }
  }

  lemma UDPMarkFlow(p: Plan, t: Table, k: Packet, o: Outcome)
    ensures var guarded := Flow(o, !Capturable(p, k));
            var hijacked := Then(t, guarded, Rule(Dport(Udp, 53), [Return]), k);
            var dns := if p.redirectDNS then Then(t, hijacked, Rule(Dport(Tcp, 53), [Return]), k) else guarded;
            Then(t, dns, Rule(L4Proto(Udp), [SetMark(p.markTunUDP)]), k) == Effect(UDPMarkRole, p, k, o)
  {
    hide RunRules, RunStmts, Capturable;
    OneStmt(o, Return);
    OneStmt(o, SetMark(p.markTunUDP));
  }

  method UDPMarkRules(p: Plan) returns (rules: seq<Rule>)
    ensures Plays(UDPMarkRole, p, rules)
  {
    hide RunRules, Capturable, Effect, Then;
    rules := ScopeGuards(p);
    if p.redirectDNS {
      rules := Append(rules, Rule(Dport(Udp, 53), [Return]));
      rules := Append(rules, Rule(Dport(Tcp, 53), [Return]));
    }
    rules := Append(rules, Rule(L4Proto(Udp), [SetMark(p.markTunUDP)]));
    forall t: Table, k: Packet, o: Outcome | SetsOf(p, t)
      ensures RunRules(t, rules, k, o) == Effect(UDPMarkRole, p, k, o)
    {
      UDPMarkFlow(p, t, k, o);
    }
  }

  lemma QUICFlow(p: Plan, t: Table, k: Packet, o: Outcome)
    ensures Then(t, Flow(o, !Capturable(p, k)), Rule(Dport(Udp, 443), [Reject]), k) == Effect(QUICRole, p, k, o)
  {
    hide RunRules, RunStmts, Capturable;
    OneStmt(o, Reject);
  }

  method QUICRules(p: Plan) returns (rules: seq<Rule>)
    ensures Plays(QUICRole, p, rules)
  {
    hide RunRules, Capturable, Effect, Then;
    rules := ScopeGuards(p);
    rules := Append(rules, Rule(Dport(Udp, 443), [Reject]));
    forall t: Table, k: Packet, o: Outcome | SetsOf(p, t)
      ensures RunRules(t, rules, k, o) == Effect(QUICRole, p, k, o)
    {
      QUICFlow(p, t, k, o);
    }
  }

  lemma TProxyFlow(p: Plan, t: Table, k: Packet, o: Outcome)
    ensures var m := p.markTProxy;
            var guarded := Flow(o, !Capturable(p, k));
            var own := Then(t, Then(t, guarded, Rule(SocketTransparent(Tcp), [SetMark(m), Accept]), k),
                            Rule(SocketTransparent(Udp), [SetMark(m), Accept]), k);
            var dns := if !p.redirectDNS then own
                       else Then(t, Then(t, own, Rule(Dport(Udp, 53), [TProxyTo(p.dnsPort), SetMark(m), Accept]), k),
                                 Rule(Dport(Tcp, 53), [TProxyTo(p.dnsPort), SetMark(m), Accept]), k);
            Then(t, Then(t, dns, Rule(L4Proto(Tcp), [TProxyTo(p.tproxyPort), SetMark(m), Accept]), k),
                 Rule(L4Proto(Udp), [TProxyTo(p.tproxyPort), SetMark(m), Accept]), k)
            == Effect(TProxyRole, p, k, o)
  {
    hide RunRules, RunStmts, Capturable;
    TProxyStmts(o, p.dnsPort, p.markTProxy);
    TProxyStmts(o, p.tproxyPort, p.markTProxy);
  }

  method TProxyRules(p: Plan) returns (rules: seq<Rule>)
    ensures Plays(TProxyRole, p, rules)
  {
    hide RunRules, Capturable, Effect, Then;
    rules := ScopeGuards(p);
    rules := Append(rules, Rule(SocketTransparent(Tcp), [SetMark(p.markTProxy), Accept]));
    rules := Append(rules, Rule(SocketTransparent(Udp), [SetMark(p.markTProxy), Accept]));
    if p.redirectDNS {
      rules := Append(rules, Rule(Dport(Udp, 53), [TProxyTo(p.dnsPort), SetMark(p.markTProxy), Accept]));
      rules := Append(rules, Rule(Dport(Tcp, 53), [TProxyTo(p.dnsPort), SetMark(p.markTProxy), Accept]));
    }
    rules := Append(rules, Rule(L4Proto(Tcp), [TProxyTo(p.tproxyPort), SetMark(p.markTProxy), Accept]));
    rules := Append(rules, Rule(L4Proto(Udp), [TProxyTo(p.tproxyPort), SetMark(p.markTProxy), Accept]));
    forall t: Table, k: Packet, o: Outcome | SetsOf(p, t)
      ensures RunRules(t, rules, k, o) == Effect(TProxyRole, p, k, o)
    {
      TProxyFlow(p, t, k, o);
    }
  }

  lemma OutputFlow(p: Plan, t: Table, k: Packet, o: Outcome)
    ensures var guarded := Flow(o, o.mark == p.mark || Spared(p, k));
            var dns := if !p.redirectDNS then guarded else Then(t, guarded, Rule(Dport(Udp, 53), [Return]), k);
            (&& Then(t, guarded, Rule(L4Proto(Tcp), [RedirectTo(p.tproxyPort)]), k) == Effect(OutputNATRole, p, k, o)
             && Then(t, dns, Rule(L4Proto(Udp), [SetMark(p.markTunUDP)]), k) == Effect(OutputMarkRole, p, k, o))
  {
    hide RunRules, RunStmts, Spared;
    OneStmt(o, RedirectTo(p.tproxyPort));
    OneStmt(o, Return);
    OneStmt(o, SetMark(p.markTunUDP));
  }

  method OutputNATRules(p: Plan) returns (rules: seq<Rule>)
    ensures Plays(OutputNATRole, p, rules)
  {
    hide RunRules, Spared, Effect, Then;
    rules := OutputGuards(p);
    rules := Append(rules, Rule(L4Proto(Tcp), [RedirectTo(p.tproxyPort)]));
    forall t: Table, k: Packet, o: Outcome | SetsOf(p, t)
      ensures RunRules(t, rules, k, o) == Effect(OutputNATRole, p, k, o)
    {
      OutputFlow(p, t, k, o);
    }
  }

  method OutputMarkRules(p: Plan) returns (rules: seq<Rule>)
    ensures Plays(OutputMarkRole, p, rules)
  {
    hide RunRules, Spared, Effect, Then;
    rules := OutputGuards(p);
    if p.redirectDNS {
      rules := Append(rules, Rule(Dport(Udp, 53), [Return]));
    }
    rules := Append(rules, Rule(L4Proto(Udp), [SetMark(p.markTunUDP)]));
    forall t: Table, k: Packet, o: Outcome | SetsOf(p, t)
      ensures RunRules(t, rules, k, o) == Effect(OutputMarkRole, p, k, o)
    {
      OutputFlow(p, t, k, o);
    }
  }

  /** Where a chain of each role hangs. */
  predicate Hangs(c: Chain, role: Role) {
    match role
    case NATRole => c.kind == NatChain && c.hook == Prerouting && c.priority == -105
    case DNSOnlyRole => c.kind == NatChain && c.hook == Prerouting && c.priority == -105
    case UDPMarkRole => c.kind == FilterChain && c.hook == Prerouting && c.priority == -150
    case TProxyRole => c.kind == FilterChain && c.hook == Prerouting && c.priority == -150
    case QUICRole => c.kind == FilterChain && c.hook == Forward && c.priority == -25
    case OutputNATRole => c.kind == NatChain && c.hook == Output && c.priority == -105
    case OutputMarkRole => c.kind == RouteChain && c.hook == Output && c.priority == -150
  }

  ghost predicate PlaysAll(p: Plan, chains: seq<Chain>, roles: seq<Role>) {
    && |chains| == |roles|
    && forall i :: 0 <= i < |roles| ==> Hangs(chains[i], roles[i]) && Plays(roles[i], p, chains[i].rules)
  }

  lemma PlaysOneMore(p: Plan, chains: seq<Chain>, roles: seq<Role>, c: Chain, role: Role)
    requires PlaysAll(p, chains, roles) && Hangs(c, role) && Plays(role, p, c.rules)
    ensures PlaysAll(p, chains + [c], roles + [role])
  {
    hide Plays;
  }

  /** The table under construction, for one plan. */
  class Writer {
    const p: Plan
    var chains: seq<Chain>
    ghost var roles: seq<Role>

    ghost predicate Valid()
      reads this
    {
      PlaysAll(p, chains, roles)
    }

    constructor (p: Plan)
      ensures Valid() && this.p == p && chains == [] && roles == []
    {
      this.p := p;
      chains, roles := [], [];
    }

    method Write(name: string, kind: Kind, hook: Hook, priority: int, rules: seq<Rule>, ghost role: Role)
      requires Valid() && Hangs(Chain(name, kind, hook, priority, rules), role) && Plays(role, p, rules)
      modifies this
      ensures Valid() && roles == old(roles) + [role]
    {
      hide PlaysAll, Plays;
      PlaysOneMore(p, chains, roles, Chain(name, kind, hook, priority, rules), role);
      chains := chains + [Chain(name, kind, hook, priority, rules)];
      roles := roles + [role];
    }

    method WriteNATChain()
      requires Valid()
      modifies this
      ensures Valid() && roles == old(roles) + [NATRole]
    {
      hide Plays;
      var rules := NATRules(p);
      Write("prerouting", NatChain, Prerouting, -105, rules, NATRole);
    }

    method WriteDNSOnlyChain()
      requires Valid()
      modifies this
      ensures Valid() && roles == old(roles) + [DNSOnlyRole]
    {
      hide Plays;
      var rules := DNSOnlyRules(p);
      Write("prerouting", NatChain, Prerouting, -105, rules, DNSOnlyRole);
    }

    method WriteUDPMarkChain()
      requires Valid()
      modifies this
      ensures Valid() && roles == old(roles) + [UDPMarkRole]
    {
      hide Plays;
      var rules := UDPMarkRules(p);
      Write("mangle_prerouting", FilterChain, Prerouting, -150, rules, UDPMarkRole);
    }

    method WriteQUICChain()
      requires Valid()
      modifies this
      ensures Valid() && roles == old(roles) + [QUICRole]
    {
      hide Plays;
      var rules := QUICRules(p);
      Write("forward", FilterChain, Forward, -25, rules, QUICRole);
    }

    method WriteTProxyChain()
      requires Valid()
      modifies this
      ensures Valid() && roles == old(roles) + [TProxyRole]
    {
      hide Plays;
      var rules := TProxyRules(p);
      Write("prerouting", FilterChain, Prerouting, -150, rules, TProxyRole);
    }

    /** The router's own TCP, where the mode can take it. */
    method WriteOutputNATChain()
      requires Valid()
      modifies this
      ensures Valid() && roles == old(roles) + [OutputNATRole]
    {
      hide Plays;
      var rules := OutputNATRules(p);
      Write("output", NatChain, Output, -105, rules, OutputNATRole);
    }

    /** The router's own UDP in mixed mode. */
    method WriteOutputMarkChain()
      requires Valid()
      modifies this
      ensures Valid() && roles == old(roles) + [OutputMarkRole]
    {
      hide Plays;
      var rules := OutputMarkRules(p);
      Write("mangle_output", RouteChain, Output, -150, rules, OutputMarkRole);
    }
  }

  // ----- the whole table

  /** The chains a plan calls for. */
  ghost function Roles(p: Plan): seq<Role> {
    (if p.mode.CapturesTCPViaRedirect() then [NATRole] else [])
    + (if !p.mode.NeedsFirewallCapture() && p.redirectDNS then [DNSOnlyRole] else [])
    + (if p.mode.MarksUDPForTun() then [UDPMarkRole] else [])
    + (if p.mode.NeedsTProxy() then [TProxyRole] else [])
    + (if p.proxyRouter && p.mode.NeedsFirewallCapture() then [OutputNATRole] else [])
    + (if p.proxyRouter && p.mode.MarksUDPForTun() then [OutputMarkRole] else [])
    + (if p.blockQUIC && !p.mode.CarriesUDP() then [QUICRole] else [])
  }

  method WriteOutputChains(w: Writer)
    requires w.Valid() && w.p.proxyRouter
    modifies w
    ensures w.Valid()
    ensures w.roles == old(w.roles)
                       + (if w.p.mode.NeedsFirewallCapture() then [OutputNATRole] else [])
                       + (if w.p.mode.MarksUDPForTun() then [OutputMarkRole] else [])
  {
    if w.p.proxyRouter && (w.p.mode.CapturesTCPViaRedirect() || w.p.mode.NeedsTProxy()) {
      w.WriteOutputNATChain();
    }
    if w.p.proxyRouter && w.p.mode.MarksUDPForTun() {
      w.WriteOutputMarkChain();
    }
  }

  /** Renders the complete table. */
  method Ruleset(p: Plan) returns (t: Table)
    ensures SetsOf(p, t) && PlaysAll(p, t.chains, Roles(p))
  {
    hide PlaysAll, Deduped;
    var bypass := Dedupe(PRIVATE_CIDRS + p.lanCIDRs + p.bypassCIDRs);
    var w := new Writer(p);
    if p.mode.CapturesTCPViaRedirect() {
      w.WriteNATChain();
    }
    if !p.mode.NeedsFirewallCapture() && p.redirectDNS {
      w.WriteDNSOnlyChain();
    }
    if p.mode.MarksUDPForTun() {
      w.WriteUDPMarkChain();
    }
    if p.mode.NeedsTProxy() {
      w.WriteTProxyChain();
    }
    if p.proxyRouter && p.mode.NeedsFirewallCapture() {
      WriteOutputChains(w);
    }
    if p.blockQUIC && !p.mode.CarriesUDP() {
      w.WriteQUICChain();
    }
    assert w.roles == Roles(p);
    t := Table(bypass, p.bypassMACs, w.chains);
  }

  /** One chain on a hook, or two of which the later-written runs first. */
  lemma OrderOfTwo(a: Chain, b: Chain)
    ensures ByPriority([]) == []
    ensures ByPriority([a]) == [a]
    ensures b.priority < a.priority ==> ByPriority([a, b]) == [b, a]
  {
    assert [a][..0] == [];
    assert ByPriority([a]) == InsertByPriority([], a);
    assert [a, b][..1] == [a];
    assert ByPriority([a, b]) == InsertByPriority([a], b);
  }

  lemma RunOne(t: Table, c: Chain, k: Packet, o: Outcome)
    requires !o.fate.Rejected?
    ensures RunChains(t, [], k, o) == o
    ensures RunChains(t, [c], k, o) == RunRules(t, c.rules, k, o).out
  {
    assert [c][1..] == [];
  }

  lemma RunTwo(t: Table, a: Chain, b: Chain, k: Packet, o: Outcome)
    requires !o.fate.Rejected? && !RunRules(t, a.rules, k, o).out.fate.Rejected?
    ensures RunChains(t, [a, b], k, o) == RunRules(t, b.rules, k, RunRules(t, a.rules, k, o).out).out
  {
    assert [a, b][1..] == [b];
    RunOne(t, b, k, RunRules(t, a.rules, k, o).out);
  }

  lemma HookOfOne(p: Plan, t: Table, hook: Hook, c: Chain, role: Role, k: Packet, o: Outcome)
    requires SetsOf(p, t) && OnHook(t.chains, hook) == [c] && Plays(role, p, c.rules) && !o.fate.Rejected?
    ensures RunHook(t, hook, k, o) == Effect(role, p, k, o).out
  {
    OrderOfTwo(c, c);
    RunOne(t, c, k, o);
  }

  lemma HookOfTwo(p: Plan, t: Table, hook: Hook, a: Chain, first: Chain, aRole: Role, firstRole: Role,
                  k: Packet, o: Outcome)
    requires SetsOf(p, t) && OnHook(t.chains, hook) == [a, first] && first.priority < a.priority
    requires Plays(aRole, p, a.rules) && Plays(firstRole, p, first.rules)
    requires !o.fate.Rejected? && !Effect(firstRole, p, k, o).out.fate.Rejected?
    ensures RunHook(t, hook, k, o) == Effect(aRole, p, k, Effect(firstRole, p, k, o).out).out
  {
    OrderOfTwo(a, first);
    RunTwo(t, first, a, k, o);
  }

  lemma HookOfNone(t: Table, hook: Hook, k: Packet, o: Outcome)
    requires OnHook(t.chains, hook) == []
    ensures RunHook(t, hook, k, o) == o
  {
  }

  /** The chains of each hook, in the order they were written. */
  ghost function RolesOn(roles: seq<Role>, hook: Hook): seq<Role> {
    if roles == [] then []
    else
      var rest := RolesOn(roles[..|roles| - 1], hook);
      var r := roles[|roles| - 1];
      if HookOf(r) == hook then rest + [r] else rest
  }

  ghost function HookOf(r: Role): Hook {
    match r
    case QUICRole => Forward
    case OutputNATRole => Output
    case OutputMarkRole => Output
    case _ => Prerouting
  }

  lemma {:induction false} ChainsFollowRoles(p: Plan, chains: seq<Chain>, roles: seq<Role>, hook: Hook)
    requires PlaysAll(p, chains, roles)
    ensures PlaysAll(p, OnHook(chains, hook), RolesOn(roles, hook))
  {
    if roles != [] {
      hide Plays;
      var n := |roles| - 1;
      assert PlaysAll(p, chains[..n], roles[..n]);
      ChainsFollowRoles(p, chains[..n], roles[..n], hook);
      assert Hangs(chains[n], roles[n]);
      if HookOf(roles[n]) == hook {
        PlaysOneMore(p, OnHook(chains[..n], hook), RolesOn(roles[..n], hook), chains[n], roles[n]);
      }
    }
  }

  lemma {:induction false} RolesOnJoins(a: seq<Role>, b: seq<Role>, hook: Hook)
    ensures RolesOn(a + b, hook) == RolesOn(a, hook) + RolesOn(b, hook)
  {
    if b == [] {
      assert a + b == a;
    } else {
      assert (a + b)[..|a + b| - 1] == a + b[..|b| - 1];
      RolesOnJoins(a, b[..|b| - 1], hook);
    }
  }

  lemma RolesOnOne(r: Role, hook: Hook)
    ensures RolesOn([r], hook) == if HookOf(r) == hook then [r] else []
  {
    assert [r][..0] == [];
  }

  ghost function When(wanted: bool, r: Role): seq<Role> {
    if wanted then [r] else []
  }

  lemma RolesOnHook(p: Plan, hook: Hook)
    ensures RolesOn(Roles(p), hook) ==
              WhenOn(When(p.mode.CapturesTCPViaRedirect(), NATRole), hook)
              + WhenOn(When(!p.mode.NeedsFirewallCapture() && p.redirectDNS, DNSOnlyRole), hook)
              + WhenOn(When(p.mode.MarksUDPForTun(), UDPMarkRole), hook)
              + WhenOn(When(p.mode.NeedsTProxy(), TProxyRole), hook)
              + WhenOn(When(p.proxyRouter && p.mode.NeedsFirewallCapture(), OutputNATRole), hook)
              + WhenOn(When(p.proxyRouter && p.mode.MarksUDPForTun(), OutputMarkRole), hook)
              + WhenOn(When(p.blockQUIC && !p.mode.CarriesUDP(), QUICRole), hook)
  {
    var front := When(p.mode.CapturesTCPViaRedirect(), NATRole);
    var dns := When(!p.mode.NeedsFirewallCapture() && p.redirectDNS, DNSOnlyRole);
    var mark := When(p.mode.MarksUDPForTun(), UDPMarkRole);
    var tproxy := When(p.mode.NeedsTProxy(), TProxyRole);
    var out := When(p.proxyRouter && p.mode.NeedsFirewallCapture(), OutputNATRole);
    var outMark := When(p.proxyRouter && p.mode.MarksUDPForTun(), OutputMarkRole);
    var quic := When(p.blockQUIC && !p.mode.CarriesUDP(), QUICRole);
    assert Roles(p) == front + dns + mark + tproxy + out + outMark + quic;
    hide RolesOn, Roles, WhenOn;
    RolesOnJoins(front + dns + mark + tproxy + out + outMark, quic, hook);
    RolesOnJoins(front + dns + mark + tproxy + out, outMark, hook);
    RolesOnJoins(front + dns + mark + tproxy, out, hook);
    RolesOnJoins(front + dns + mark, tproxy, hook);
    RolesOnJoins(front + dns, mark, hook);
    RolesOnJoins(front, dns, hook);
    WhenIsOn(front, hook);
    WhenIsOn(dns, hook);
    WhenIsOn(mark, hook);
    WhenIsOn(tproxy, hook);
    WhenIsOn(out, hook);
    WhenIsOn(outMark, hook);
    WhenIsOn(quic, hook);
  }

  lemma RolesOnPlan(p: Plan)
    ensures RolesOn(Roles(p), Prerouting) ==
              (match p.mode
               case Redirect => [NATRole]
               case Mixed => [NATRole, UDPMarkRole]
               case TProxy => [TProxyRole]
               case Tun => if p.redirectDNS then [DNSOnlyRole] else [])
    ensures RolesOn(Roles(p), Output) ==
              (if !p.proxyRouter || p.mode == Tun then []
               else if p.mode == Mixed then [OutputNATRole, OutputMarkRole]
               else [OutputNATRole])
    ensures RolesOn(Roles(p), Forward) == if p.mode == Redirect && p.blockQUIC then [QUICRole] else []
  {
    RolesOnHook(p, Prerouting);
    RolesOnHook(p, Output);
    RolesOnHook(p, Forward);
    hide RolesOn, Roles;
  }

  ghost function WhenOn(roles: seq<Role>, hook: Hook): seq<Role> {
    if roles != [] && HookOf(roles[0]) == hook then roles else []
  }

  lemma WhenIsOn(roles: seq<Role>, hook: Hook)
    requires |roles| <= 1
    ensures RolesOn(roles, hook) == WhenOn(roles, hook)
  {
    if roles != [] {
      RolesOnOne(roles[0], hook);
      assert roles == [roles[0]];
    }
  }

  /** A client's packet that already belongs to a transparent socket. */
  predicate OwnedByTransparentSocket(p: Plan, k: Packet) {
    !k.fromRouter && p.mode.NeedsTProxy() && Capturable(p, k) && k.proto != OtherProto && k.transparent
  }

  lemma Players(p: Plan, chains: seq<Chain>, roles: seq<Role>)
    requires PlaysAll(p, chains, roles)
    ensures roles == [] ==> chains == []
    ensures |roles| == 1 ==> chains == [chains[0]] && Plays(roles[0], p, chains[0].rules)
    ensures |roles| == 2 ==>
              && chains == [chains[0], chains[1]]
              && Hangs(chains[0], roles[0]) && Plays(roles[0], p, chains[0].rules)
              && Hangs(chains[1], roles[1]) && Plays(roles[1], p, chains[1].rules)
  {
    hide Plays;
  }

  lemma PreroutingEffect(p: Plan, t: Table, k: Packet)
    requires SetsOf(p, t) && PlaysAll(p, t.chains, Roles(p))
    ensures var o := Outcome(Untouched, k.mark);
            RunHook(t, Prerouting, k, o) ==
            (match p.mode
             case Redirect => Effect(NATRole, p, k, o).out
             case Mixed => Effect(NATRole, p, k, Effect(UDPMarkRole, p, k, o).out).out
             case TProxy => Effect(TProxyRole, p, k, o).out
             case Tun => if p.redirectDNS then Effect(DNSOnlyRole, p, k, o).out else o)
  {
    hide *;
    var o := Outcome(Untouched, k.mark);
    ChainsFollowRoles(p, t.chains, Roles(p), Prerouting);
    RolesOnPlan(p);
    var cs, roles := OnHook(t.chains, Prerouting), RolesOn(Roles(p), Prerouting);
    Players(p, cs, roles);
    match p.mode
    case Redirect =>
      HookOfOne(p, t, Prerouting, cs[0], NATRole, k, o);
    case Mixed =>
      HangingOrder(cs[0], roles[0], cs[1], roles[1]);
      OnlyQUICRefuses(UDPMarkRole, p, k, o);
      HookOfTwo(p, t, Prerouting, cs[0], cs[1], NATRole, UDPMarkRole, k, o);
    case TProxy =>
      HookOfOne(p, t, Prerouting, cs[0], TProxyRole, k, o);
    case Tun =>
      if p.redirectDNS {
          HookOfOne(p, t, Prerouting, cs[0], DNSOnlyRole, k, o);
      } else {
        HookOfNone(t, Prerouting, k, o);
      }
  }

  lemma OutputEffect(p: Plan, t: Table, k: Packet)
    requires SetsOf(p, t) && PlaysAll(p, t.chains, Roles(p))
    ensures var o := Outcome(Untouched, k.mark);
            RunHook(t, Output, k, o) ==
            if !p.proxyRouter || p.mode == Tun then o
            else if p.mode == Mixed then Effect(OutputNATRole, p, k, Effect(OutputMarkRole, p, k, o).out).out
            else Effect(OutputNATRole, p, k, o).out
  {
    hide *;
    var o := Outcome(Untouched, k.mark);
    ChainsFollowRoles(p, t.chains, Roles(p), Output);
    RolesOnPlan(p);
    var cs, roles := OnHook(t.chains, Output), RolesOn(Roles(p), Output);
    Players(p, cs, roles);
    if !p.proxyRouter || p.mode == Tun {
      HookOfNone(t, Output, k, o);
    } else if p.mode == Mixed {
      assert |roles| == 2 && roles[0] == OutputNATRole && roles[1] == OutputMarkRole;
      HangingOrder(cs[0], roles[0], cs[1], roles[1]);
      OnlyQUICRefuses(OutputMarkRole, p, k, o);
      HookOfTwo(p, t, Output, cs[0], cs[1], OutputNATRole, OutputMarkRole, k, o);
    } else {
      assert |roles| == 1 && roles[0] == OutputNATRole;
      HookOfOne(p, t, Output, cs[0], OutputNATRole, k, o);
    }
  }

  /** The marking chains run before the translating ones of the same hook. */
  lemma HangingOrder(a: Chain, aRole: Role, b: Chain, bRole: Role)
    requires Hangs(a, aRole) && Hangs(b, bRole)
    requires (aRole == OutputNATRole && bRole == OutputMarkRole) || (aRole == NATRole && bRole == UDPMarkRole)
    ensures b.priority < a.priority
  {
  }

  lemma ForwardEffect(p: Plan, t: Table, k: Packet, o: Outcome)
    requires SetsOf(p, t) && PlaysAll(p, t.chains, Roles(p)) && !o.fate.Rejected?
    ensures RunHook(t, Forward, k, o) ==
            if p.mode == Redirect && p.blockQUIC then Effect(QUICRole, p, k, o).out else o
  {
    hide *;
    ChainsFollowRoles(p, t.chains, Roles(p), Forward);
    RolesOnPlan(p);
    var cs, roles := OnHook(t.chains, Forward), RolesOn(Roles(p), Forward);
    Players(p, cs, roles);
    if p.mode == Redirect && p.blockQUIC {
      HookOfOne(p, t, Forward, cs[0], QUICRole, k, o);
    } else {
      HookOfNone(t, Forward, k, o);
    }
  }

  /** What the nftables table does with every packet: what the plan intends, except that a
      packet whose transparent socket exists is only marked again. */
  lemma NftMeetsIntent(p: Plan, t: Table, k: Packet)
    requires SetsOf(p, t) && PlaysAll(p, t.chains, Roles(p))
    ensures Traverse(t, k) ==
            if OwnedByTransparentSocket(p, k) then Outcome(Untouched, p.markTProxy) else Intended(p, k)
  {
    hide RunHook, Spared, InScope, PlaysAll, SetsOf, Roles;
    var o := Outcome(Untouched, k.mark);
    if k.fromRouter {
      OutputEffect(p, t, k);
      RouterEffectIsIntended(p, k);
    } else {
      PreroutingEffect(p, t, k);
      var after := RunHook(t, Prerouting, k, o);
      if after.fate.Untouched? {
        ForwardEffect(p, t, k, after);
      }
    }
  }
}
