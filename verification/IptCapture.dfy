/**
 What the iptables chains of a plan do to packets, and that the two dialects agree.
 */
module IptCapture {
  import opened Modes
  import opened Capture
  import opened Ipt
  import Nft

  // ----- the chains

  lemma {:induction false} ChainInSequence(a: seq<Rule>, b: seq<Rule>, k: Packet, o: Outcome)
    ensures var f := RunChain(a, k, o);
            RunChain(a + b, k, o) == if f.over then f else RunChain(b, k, f.out)
  {
    if a == [] {
      assert a + b == b;
    } else {
      assert (a + b)[1..] == a[1..] + b;
      var f := RunRule(a[0], k, o);
      if !f.over {
        ChainInSequence(a[1..], b, k, f.out);
      }
    }
  }

  lemma OneRule(r: Rule, k: Packet, o: Outcome)
    ensures RunChain([], k, o) == Flow(o, false)
    ensures RunChain([r], k, o) == RunRule(r, k, o)
  {
    assert [r][1..] == [];
    assert RunChain([], k, RunRule(r, k, o).out) == Flow(RunRule(r, k, o).out, false);
  }

  lemma TwoRules(r: Rule, q: Rule, k: Packet, o: Outcome)
    ensures var f := RunRule(r, k, o);
            RunChain([r, q], k, o) == if f.over then f else RunRule(q, k, f.out)
  {
    ChainInSequence([r], [q], k, o);
    assert [r] + [q] == [r, q];
    OneRule(r, k, o);
    OneRule(q, k, RunRule(r, k, o).out);
  }

  lemma {:induction false} MacGuardsRun(macs: seq<string>, k: Packet, o: Outcome)
    ensures RunChain(MacGuards(macs), k, o) == Flow(o, k.smac in macs)
  {
    if macs == [] {
      assert MacGuards(macs) == [];
    } else {
      var init, last := macs[..|macs| - 1], macs[|macs| - 1];
      assert MacGuards(macs) == MacGuards(init) + [Rule(FromMac(last), Return)];
      hide RunChain;
      MacGuardsRun(init, k, o);
      ChainInSequence(MacGuards(init), [Rule(FromMac(last), Return)], k, o);
      OneRule(Rule(FromMac(last), Return), k, o);
      assert macs == init + [last];
    }
  }

  lemma {:induction false} NetGuardsRun(nets: seq<string>, k: Packet, o: Outcome)
    ensures RunChain(NetGuards(nets), k, o) == Flow(o, exists c :: c in nets && c in k.nets)
  {
    if nets == [] {
      assert NetGuards(nets) == [];
    } else {
      var init, last := nets[..|nets| - 1], nets[|nets| - 1];
      assert NetGuards(nets) == NetGuards(init) + [Rule(ToNet(last), Return)];
      hide RunChain;
      NetGuardsRun(init, k, o);
      ChainInSequence(NetGuards(init), [Rule(ToNet(last), Return)], k, o);
      OneRule(Rule(ToNet(last), Return), k, o);
      assert nets == init + [last];
    }
  }

  lemma ClientGuardsRun(p: Plan, rest: seq<Rule>, k: Packet, o: Outcome)
    requires InScope(p, k)
    ensures RunChain(MacGuards(p.bypassMACs) + NetGuards(AllBypass(p)) + rest, k, o) ==
            if Capturable(p, k) then RunChain(rest, k, o) else Flow(o, true)
  {
    hide RunChain, MacGuards, NetGuards, Spared, AllBypass, InScope;
    var macs, nets := MacGuards(p.bypassMACs), NetGuards(AllBypass(p));
    ChainInSequence(macs + nets, rest, k, o);
    ChainInSequence(macs, nets, k, o);
    MacGuardsRun(p.bypassMACs, k, o);
    NetGuardsRun(AllBypass(p), k, o);
    SparedIsBypass(p, k);
  }

  lemma RouterGuardsRun(p: Plan, rest: seq<Rule>, k: Packet, o: Outcome)
    ensures RunChain([Rule(MarkIs(p.mark), Return)] + NetGuards(AllBypass(p)) + rest, k, o) ==
            if o.mark == p.mark || Spared(p, k) then Flow(o, true) else RunChain(rest, k, o)
  {
    hide RunChain, NetGuards, Spared, AllBypass;
    var own, nets := [Rule(MarkIs(p.mark), Return)], NetGuards(AllBypass(p));
    ChainInSequence(own + nets, rest, k, o);
    ChainInSequence(own, nets, k, o);
    OneRule(own[0], k, o);
    NetGuardsRun(AllBypass(p), k, o);
    SparedIsBypass(p, k);
  }

  /** iptables never looks for an existing transparent socket. */
  function Anew(k: Packet): Packet {
    k.(transparent := false)
  }

  lemma ClientChainPlays(role: Role, p: Plan, k: Packet, o: Outcome)
    requires !ForRouter(role) && InScope(p, k)
    ensures RunChain(Rules(role, p), k, o) == Effect(role, p, Anew(k), o)
  {
    hide RunChain, MacGuards, NetGuards, Spared, AllBypass, InScope;
    var guards := MacGuards(p.bypassMACs) + NetGuards(AllBypass(p));
    var tail := Tail(role, p);
    assert Rules(role, p) == guards + tail;
    ClientGuardsRun(p, tail, k, o);
    SameNets(p, k);
    if Capturable(p, k) {
      TailRuns(role, p, k, o);
    }
  }

  lemma SameNets(p: Plan, k: Packet)
    ensures Spared(p, k) == Spared(p, Anew(k)) && InScope(p, k) == InScope(p, Anew(k))
  {
  }

  /** A role's rules after its guards. */
  function Tail(role: Role, p: Plan): seq<Rule> {
    match role
    case NATRole =>
      (if p.redirectDNS then Both(53, Udp, Tcp, RedirectTo(p.dnsPort)) else [])
      + [Rule(ProtoIs(Tcp), RedirectTo(p.tproxyPort))]
    case DNSOnlyRole => Both(53, Udp, Tcp, RedirectTo(p.dnsPort))
    case UDPMarkRole =>
      (if p.redirectDNS then Both(53, Udp, Tcp, Return) else []) + [Rule(ProtoIs(Udp), SetMark(p.markTunUDP))]
    case TProxyRole =>
      (if p.redirectDNS then Both(53, Udp, Tcp, TProxyOn(p.dnsPort, p.markTProxy)) else [])
      + [Rule(ProtoIs(Tcp), TProxyOn(p.tproxyPort, p.markTProxy)),
         Rule(ProtoIs(Udp), TProxyOn(p.tproxyPort, p.markTProxy))]
    case QUICRole => [Rule(ProtoDport(Udp, 443), Reject)]
    case OutputNATRole => [Rule(ProtoIs(Tcp), RedirectTo(p.tproxyPort))]
    case OutputMarkRole =>
      (if p.redirectDNS then [Rule(ProtoDport(Udp, 53), Return)] else []) + [Rule(ProtoIs(Udp), SetMark(p.markTunUDP))]
  }

  lemma BothRun(target: Target, k: Packet, o: Outcome)
    requires !target.SetMark? && !target.JumpTo? && !target.Foreign?
    ensures RunChain(Both(53, Udp, Tcp, target), k, o) ==
            if IsDNS(k) then RunRule(Rule(Any, target), k, o) else Flow(o, false)
  {
    hide RunChain;
    TwoRules(Rule(ProtoDport(Udp, 53), target), Rule(ProtoDport(Tcp, 53), target), k, o);
  }

  lemma TailRuns(role: Role, p: Plan, k: Packet, o: Outcome)
    requires !ForRouter(role) && Capturable(p, k) && Capturable(p, Anew(k))
    ensures RunChain(Tail(role, p), k, o) == Effect(role, p, Anew(k), o)
  {
    hide RunChain, Both, Capturable;
    match role
    case NATRole =>
      var tcp := Rule(ProtoIs(Tcp), RedirectTo(p.tproxyPort));
      OneRule(tcp, k, o);
      if p.redirectDNS {
        BothRun(RedirectTo(p.dnsPort), k, o);
        ChainInSequence(Both(53, Udp, Tcp, RedirectTo(p.dnsPort)), [tcp], k, o);
      } else {
        assert [] + [tcp] == [tcp];
      }
    case DNSOnlyRole =>
      BothRun(RedirectTo(p.dnsPort), k, o);
    case UDPMarkRole =>
      var udp := Rule(ProtoIs(Udp), SetMark(p.markTunUDP));
      OneRule(udp, k, o);
      if p.redirectDNS {
        BothRun(Return, k, o);
        ChainInSequence(Both(53, Udp, Tcp, Return), [udp], k, o);
      } else {
        assert [] + [udp] == [udp];
      }
    case TProxyRole =>
      var tcp := Rule(ProtoIs(Tcp), TProxyOn(p.tproxyPort, p.markTProxy));
      var udp := Rule(ProtoIs(Udp), TProxyOn(p.tproxyPort, p.markTProxy));
      TwoRules(tcp, udp, k, o);
      if p.redirectDNS {
        BothRun(TProxyOn(p.dnsPort, p.markTProxy), k, o);
        ChainInSequence(Both(53, Udp, Tcp, TProxyOn(p.dnsPort, p.markTProxy)), [tcp, udp], k, o);
      } else {
        assert [] + [tcp, udp] == [tcp, udp];
      }
    case QUICRole =>
      OneRule(Rule(ProtoDport(Udp, 443), Reject), k, o);
    case OutputNATRole =>
    case OutputMarkRole =>
  }

  lemma RouterChainPlays(role: Role, p: Plan, k: Packet, o: Outcome)
    requires ForRouter(role)
    ensures RunChain(Rules(role, p), k, o) == Effect(role, p, Anew(k), o)
  {
    hide RunChain, NetGuards, Spared, AllBypass;
    var tail := Tail(role, p);
    assert Rules(role, p) == [Rule(MarkIs(p.mark), Return)] + NetGuards(AllBypass(p)) + tail;
    RouterGuardsRun(p, tail, k, o);
    SameNets(p, k);
    if role == OutputNATRole {
      OneRule(Rule(ProtoIs(Tcp), RedirectTo(p.tproxyPort)), k, o);
    } else {
      var udp := Rule(ProtoIs(Udp), SetMark(p.markTunUDP));
      OneRule(udp, k, o);
      if p.redirectDNS {
        TwoRules(Rule(ProtoDport(Udp, 53), Return), udp, k, o);
        assert [Rule(ProtoDport(Udp, 53), Return)] + [udp] == [Rule(ProtoDport(Udp, 53), Return), udp];
      } else {
        assert [] + [udp] == [udp];
      }
    }
  }

  // ----- the store a plan leaves behind

  /** The jumps of a hook after its entries were inserted one above the other. */
  function Jumps(chain: string, entries: seq<Match>): seq<Rule> {
    if entries == [] then []
    else [Rule(entries[|entries| - 1], JumpTo(chain))] + Jumps(chain, entries[..|entries| - 1])
  }

  lemma {:induction false} AppendsResult(st: Store, t: Tbl, chain: string, rules: seq<Rule>)
    requires (t, chain) in st
    ensures Replay(st, Appends(t, chain, rules)) == st[(t, chain) := st[(t, chain)] + rules]
  {
    if rules == [] {
      assert Appends(t, chain, rules) == [];
      assert st[(t, chain)] + rules == st[(t, chain)];
    } else {
      var init, last := rules[..|rules| - 1], rules[|rules| - 1];
      AppendsResult(st, t, chain, init);
      var cmds := Appends(t, chain, rules);
      assert cmds[..|cmds| - 1] == Appends(t, chain, init);
      assert st[(t, chain)] + rules == st[(t, chain)] + init + [last];
    }
  }

  lemma OneMoreInsert(st: Store, t: Tbl, hook: string, chain: string, init: seq<Match>, last: Match)
    requires (t, hook) in st
    ensures Exec(InsertTop(t, hook, Rule(last, JumpTo(chain))), st[(t, hook) := Jumps(chain, init) + st[(t, hook)]]) ==
            st[(t, hook) := Jumps(chain, init + [last]) + st[(t, hook)]]
  {
    assert (init + [last])[..|init|] == init;
    var before := Jumps(chain, init) + st[(t, hook)];
    assert [Rule(last, JumpTo(chain))] + before == Jumps(chain, init + [last]) + st[(t, hook)];
    assert st[(t, hook) := before][(t, hook) := [Rule(last, JumpTo(chain))] + before] ==
           st[(t, hook) := [Rule(last, JumpTo(chain))] + before];
  }

  lemma {:induction false} InsertsResult(st: Store, t: Tbl, hook: string, chain: string, entries: seq<Match>)
    requires (t, hook) in st
    ensures Replay(st, Inserts(t, hook, chain, entries)) == st[(t, hook) := Jumps(chain, entries) + st[(t, hook)]]
  {
    if entries == [] {
      assert Inserts(t, hook, chain, entries) == [];
      assert Jumps(chain, entries) + st[(t, hook)] == st[(t, hook)];
    } else {
      hide Exec, Jumps;
      var init, last := entries[..|entries| - 1], entries[|entries| - 1];
      assert entries == init + [last];
      InsertsResult(st, t, hook, chain, init);
      OneMoreInsert(st, t, hook, chain, init, last);
      var cmds := Inserts(t, hook, chain, entries);
      assert cmds[..|cmds| - 1] == Inserts(t, hook, chain, init);
      assert cmds[|cmds| - 1] == InsertTop(t, hook, Rule(last, JumpTo(chain)));
    }
  }

  function ChainKey(role: Role): (k: Key)
    ensures k.1 in OWN
  {
    (TableOf(role), ChainOf(role))
  }

  function HookKey(role: Role): (k: Key)
    ensures k.1 !in OWN
  {
    (TableOf(role), HookNameOf(role))
  }

  predicate Placed(role: Role, st: Store) {
    ChainKey(role) !in st && HookKey(role) in st
  }

  function AfterInstall(st: Store, role: Role, p: Plan): Store
    requires Placed(role, st)
  {
    st[ChainKey(role) := Rules(role, p)][HookKey(role) := Jumps(ChainOf(role), Entries(p, role)) + st[HookKey(role)]]
  }

  lemma InstallResult(st: Store, role: Role, p: Plan)
    requires Placed(role, st)
    ensures Replay(st, Install(role, p)) == AfterInstall(st, role, p)
  {
    hide Replay, Rules, Entries, Appends, Inserts;
    var t, c, h := TableOf(role), ChainOf(role), HookNameOf(role);
    var create, fill, enter := [NewChain(t, c)], Appends(t, c, Rules(role, p)), Inserts(t, h, c, Entries(p, role));
    ReplayJoins(st, create + fill, enter);
    ReplayJoins(st, create, fill);
    ReplayOne(st, NewChain(t, c));
    AppendsResult(st[(t, c) := []], t, c, Rules(role, p));
    var filled := st[(t, c) := []][(t, c) := [] + Rules(role, p)];
    assert [] + Rules(role, p) == Rules(role, p);
    InsertsResult(filled, t, h, c, Entries(p, role));
    assert c != h;
  }

  lemma ReplayOne(st: Store, c: Cmd)
    ensures Replay(st, [c]) == Exec(c, st)
  {
    assert [c][..0] == [];
  }

  /** Roles that can be installed side by side: no two share a chain or a hook. */
  predicate SideBySide(roles: seq<Role>) {
    forall i, j :: 0 <= i < j < |roles| ==>
      ChainKey(roles[i]) != ChainKey(roles[j]) && HookKey(roles[i]) != HookKey(roles[j])
  }

  predicate Clean(st: Store) {
    && (forall k :: k in st ==> k.1 !in OWN && forall i :: 0 <= i < |st[k]| ==> st[k][i].target.Foreign?)
    && (NatTable, "PREROUTING") in st && (NatTable, "OUTPUT") in st
    && (MangleTable, "PREROUTING") in st && (MangleTable, "OUTPUT") in st
    && (FilterTable, "FORWARD") in st
  }

  /** What the store holds once the chains of `roles` are installed on a clean one. */
  ghost predicate Holds(st: Store, base: Store, roles: seq<Role>, p: Plan) {
    && (forall i :: 0 <= i < |roles| ==> InPlace(st, base, roles[i], p))
    && (forall k :: k in base && Unhooked(roles, k) ==> k in st && st[k] == base[k])
    && (forall k :: k in st && k !in base ==> Created(roles, k))
  }

  ghost predicate InPlace(st: Store, base: Store, role: Role, p: Plan) {
    && HookKey(role) in base
    && ChainKey(role) in st && st[ChainKey(role)] == Rules(role, p)
    && HookKey(role) in st && st[HookKey(role)] == Jumps(ChainOf(role), Entries(p, role)) + base[HookKey(role)]
  }

  ghost predicate Unhooked(roles: seq<Role>, k: Key) {
    forall i :: 0 <= i < |roles| ==> k != HookKey(roles[i])
  }

  ghost predicate Created(roles: seq<Role>, k: Key) {
    exists i :: 0 <= i < |roles| && k == ChainKey(roles[i])
  }

  lemma HookKeyInClean(base: Store, role: Role)
    requires Clean(base)
    ensures HookKey(role) in base && ChainKey(role) !in base
  {
  }

  lemma KeysOneMore(roles: seq<Role>, role: Role, k: Key)
    ensures Unhooked(roles + [role], k) <==> Unhooked(roles, k) && k != HookKey(role)
    ensures Created(roles + [role], k) <==> Created(roles, k) || k == ChainKey(role)
  {
    hide HookKey, ChainKey;
    var more := roles + [role];
    assert more[|roles|] == role;
    assert forall i :: 0 <= i < |roles| ==> more[i] == roles[i];
  }

  lemma HoldsOneMore(st: Store, base: Store, roles: seq<Role>, role: Role, p: Plan)
    requires Clean(base) && SideBySide(roles + [role]) && Holds(st, base, roles, p)
    ensures Placed(role, st) && Holds(AfterInstall(st, role, p), base, roles + [role], p)
  {
    hide Rules, Entries, Jumps, Clean, Unhooked, Created, HookKey, ChainKey;
    var more := roles + [role];
    assert more[|roles|] == role;
    assert forall i :: 0 <= i < |roles| ==>
             more[i] == roles[i] && ChainKey(roles[i]) != ChainKey(role) && HookKey(roles[i]) != HookKey(role);
    HookKeyInClean(base, role);
    assert Unhooked(roles, HookKey(role)) && !Created(roles, ChainKey(role)) by {
      NotYetThere(roles, role);
    }
    var after := AfterInstall(st, role, p);
    forall i | 0 <= i < |roles| ensures InPlace(after, base, roles[i], p) {
      assert InPlace(st, base, roles[i], p);
      assert HookKey(roles[i]) != ChainKey(role);
      assert ChainKey(roles[i]) != HookKey(role);
    }
    assert HookKey(role) != ChainKey(role);
    assert InPlace(after, base, role, p);
    forall k ensures k in base && Unhooked(more, k) ==> k in after && after[k] == base[k] {
      KeysOneMore(roles, role, k);
    }
    forall k ensures k in after && k !in base ==> Created(more, k) {
      KeysOneMore(roles, role, k);
    }
  }

  lemma NotYetThere(roles: seq<Role>, role: Role)
    requires SideBySide(roles + [role])
    ensures Unhooked(roles, HookKey(role)) && !Created(roles, ChainKey(role))
  {
    hide HookKey, ChainKey;
    var more := roles + [role];
    assert more[|roles|] == role;
    assert forall i :: 0 <= i < |roles| ==> more[i] == roles[i];
  }

  lemma {:induction false} InstallAllResult(base: Store, roles: seq<Role>, p: Plan)
    requires Clean(base) && SideBySide(roles)
    ensures Holds(Replay(base, InstallAll(roles, p)), base, roles, p)
  {
    if roles != [] {
      var init, last := roles[..|roles| - 1], roles[|roles| - 1];
      assert roles == init + [last];
      hide Holds, Clean, AfterInstall, Install;
      InstallAllResult(base, init, p);
      ReplayJoins(base, InstallAll(init, p), Install(last, p));
      var st := Replay(base, InstallAll(init, p));
      HoldsOneMore(st, base, init, last, p);
      InstallResult(st, last, p);
    }
  }

  // ----- the hooks

  predicate Entered(entries: seq<Match>, k: Packet) {
    exists i :: 0 <= i < |entries| && Matches(entries[i], k, 0)
  }

  lemma EnteredMeans(p: Plan, role: Role, k: Packet)
    ensures Entered(Entries(p, role), k) <==> ForRouter(role) || InScope(p, k)
  {
    var entries := Entries(p, role);
    if ForRouter(role) || p.lanDevices == [] {
      assert |entries| == 1 && (Matches(entries[0], k, 0) <==> ForRouter(role) || InScope(p, k));
    } else {
      if k.iif in p.lanDevices {
        var i :| 0 <= i < |p.lanDevices| && p.lanDevices[i] == k.iif;
        assert Matches(entries[i], k, 0);
      }
    }
  }

  lemma {:induction false} ForeignRulesPass(st: Store, t: Tbl, rules: seq<Rule>, k: Packet, o: Outcome)
    requires forall i :: 0 <= i < |rules| ==> rules[i].target.Foreign?
    ensures RunHookRules(st, t, rules, k, o) == o
  {
    if rules != [] {
      ForeignRulesPass(st, t, rules[1..], k, o);
    }
  }

  ghost predicate NoMarkEntries(entries: seq<Match>) {
    forall i :: 0 <= i < |entries| ==> !entries[i].MarkIs?
  }

  lemma NoMarkEntriesOf(p: Plan, role: Role)
    ensures NoMarkEntries(Entries(p, role))
    ensures ForRouter(role) ==> |Entries(p, role)| == 1
  {
  }

  lemma EnterOnce(st: Store, t: Tbl, r: Rule, rest: seq<Rule>, k: Packet, o: Outcome)
    requires r.target.JumpTo? && (t, r.target.chain) in st && !r.when.MarkIs?
    ensures var f := RunChain(st[(t, r.target.chain)], k, o);
            RunHookRules(st, t, [r] + rest, k, o) ==
              if Matches(r.when, k, 0) then
                (if f.over && f.out.fate != o.fate then f.out else RunHookRules(st, t, rest, k, f.out))
              else RunHookRules(st, t, rest, k, o)
  {
    hide RunChain;
    assert ([r] + rest)[1..] == rest;
    assert Matches(r.when, k, 0) == Matches(r.when, k, o.mark);
  }

  lemma EnteredSplit(entries: seq<Match>, k: Packet)
    requires entries != []
    ensures Entered(entries, k) <==> Matches(entries[|entries| - 1], k, 0) || Entered(entries[..|entries| - 1], k)
  {
    hide Matches;
  }

  /** Entering a chain through any number of matching jumps is entering it once, when running it
      again changes nothing. */
  lemma {:induction false} JumpsRun(st: Store, t: Tbl, chain: string, entries: seq<Match>, rest: seq<Rule>,
                                    k: Packet, o: Outcome, x: Outcome)
    requires (t, chain) in st && NoMarkEntries(entries)
    requires forall i :: 0 <= i < |rest| ==> rest[i].target.Foreign?
    requires RunChain(st[(t, chain)], k, o).out == x
    requires |entries| <= 1 || RunChain(st[(t, chain)], k, x).out == x
    ensures RunHookRules(st, t, Jumps(chain, entries) + rest, k, o) == if Entered(entries, k) then x else o
  {
    hide RunChain, RunHookRules, Matches, Entered;
    if entries == [] {
      assert Jumps(chain, entries) + rest == rest;
      ForeignRulesPass(st, t, rest, k, o);
      assert !Entered(entries, k) by {
        NotEntered(k);
      }
    } else {
      var init, last := entries[..|entries| - 1], entries[|entries| - 1];
      var r := Rule(last, JumpTo(chain));
      assert Jumps(chain, entries) + rest == [r] + (Jumps(chain, init) + rest);
      EnterOnce(st, t, r, Jumps(chain, init) + rest, k, o);
      EnteredSplit(entries, k);
      if init == [] {
        NotEntered(k);
        assert Jumps(chain, init) + rest == rest;
        ForeignRulesPass(st, t, rest, k, x);
        ForeignRulesPass(st, t, rest, k, o);
      } else {
        JumpsRun(st, t, chain, init, rest, k, x, x);
        JumpsRun(st, t, chain, init, rest, k, o, x);
      }
    }
  }

  lemma NotEntered(k: Packet)
    ensures !Entered([], k)
  {
  }

  lemma EffectIdempotent(role: Role, p: Plan, k: Packet, o: Outcome)
    requires !ForRouter(role)
    ensures Effect(role, p, k, Effect(role, p, k, o).out).out == Effect(role, p, k, o).out
    ensures !InScope(p, k) ==> Effect(role, p, k, o).out == o
  {
    hide Spared, InScope;
  }

  /** A hook that a role's chain is on applies the role's effect. */
  lemma HookWithRole(st: Store, base: Store, roles: seq<Role>, role: Role, p: Plan, k: Packet, o: Outcome)
    requires Clean(base) && Holds(st, base, roles, p) && role in roles
    ensures RunHook(st, TableOf(role), HookNameOf(role), k, o) == Effect(role, p, Anew(k), o).out
  {
    hide RunHookRules, RunChain, Rules, Entries, Jumps, Entered, Unhooked, Created, Effect;
    assert InPlace(st, base, role, p);
    var t, c := TableOf(role), ChainOf(role);
    var entries, rest := Entries(p, role), base[HookKey(role)];
    var x := Effect(role, p, Anew(k), o).out;
    NoMarkEntriesOf(p, role);
    EnteredMeans(p, role, k);
    if ForRouter(role) {
      RouterChainPlays(role, p, k, o);
      JumpsRun(st, t, c, entries, rest, k, o, x);
    } else if InScope(p, k) {
      ClientChainPlays(role, p, k, o);
      EffectIdempotent(role, p, Anew(k), o);
      ClientChainPlays(role, p, k, x);
      JumpsRun(st, t, c, entries, rest, k, o, x);
    } else {
      SameNets(p, k);
      EffectIdempotent(role, p, Anew(k), o);
      NeverEntered(st, t, c, entries, rest, k, o);
    }
  }

  lemma {:induction false} NeverEntered(st: Store, t: Tbl, chain: string, entries: seq<Match>, rest: seq<Rule>,
        k: Packet, o: Outcome)
    requires (t, chain) in st && NoMarkEntries(entries) && !Entered(entries, k)
    requires forall i :: 0 <= i < |rest| ==> rest[i].target.Foreign?
    ensures RunHookRules(st, t, Jumps(chain, entries) + rest, k, o) == o
  {
    hide RunChain, RunHookRules, Matches, Entered;
    if entries == [] {
      assert Jumps(chain, entries) + rest == rest;
      ForeignRulesPass(st, t, rest, k, o);
    } else {
      var init, last := entries[..|entries| - 1], entries[|entries| - 1];
      assert Jumps(chain, entries) + rest == [Rule(last, JumpTo(chain))] + (Jumps(chain, init) + rest);
      EnterOnce(st, t, Rule(last, JumpTo(chain)), Jumps(chain, init) + rest, k, o);
      EnteredSplit(entries, k);
      NeverEntered(st, t, chain, init, rest, k, o);
    }
  }

  /** A hook without a chain of the daemon's leaves the packet as it is. */
  lemma HookWithoutRole(st: Store, base: Store, roles: seq<Role>, p: Plan, t: Tbl, hook: string, k: Packet, o: Outcome)
    requires Clean(base) && Holds(st, base, roles, p) && (t, hook) in base && Unhooked(roles, (t, hook))
    ensures RunHook(st, t, hook, k, o) == o
  {
    hide Created;
    ForeignRulesPass(st, t, base[(t, hook)], k, o);
  }

  // ----- the whole plan

  predicate Wanted(p: Plan, role: Role) {
    match role
    case NATRole => p.mode == Redirect || p.mode == Mixed
    case DNSOnlyRole => p.mode == Tun && p.redirectDNS
    case UDPMarkRole => p.mode == Mixed
    case TProxyRole => p.mode == TProxy
    case OutputNATRole => p.proxyRouter && p.mode != Tun
    case OutputMarkRole => p.proxyRouter && p.mode == Mixed
    case QUICRole => p.mode == Redirect && p.blockQUIC
  }

  lemma RolesAreWanted(p: Plan)
    ensures forall role :: role in RolesOf(p) <==> Wanted(p, role)
  {
  }

  lemma RolesByMode(p: Plan)
    ensures RolesOf(p) ==
            match p.mode
            case Redirect =>
              [NATRole] + (if p.proxyRouter then [OutputNATRole] else []) + (if p.blockQUIC then [QUICRole] else [])
            case Mixed =>
              if p.proxyRouter then [NATRole, UDPMarkRole, OutputNATRole, OutputMarkRole] else [NATRole, UDPMarkRole]
            case TProxy => if p.proxyRouter then [TProxyRole, OutputNATRole] else [TProxyRole]
            case Tun => if p.redirectDNS then [DNSOnlyRole] else []
  {
  }

  /** No two chains of a plan share their name or their hook. */
  lemma RolesFitTogether(p: Plan)
    ensures SideBySide(RolesOf(p))
  {
    hide RolesOf, ChainKey, HookKey;
    RolesByMode(p);
    RolesApart();
  }

  lemma RolesApart()
    ensures ChainKey(NATRole) != ChainKey(UDPMarkRole) && HookKey(NATRole) != HookKey(UDPMarkRole)
    ensures ChainKey(NATRole) != ChainKey(OutputNATRole) && HookKey(NATRole) != HookKey(OutputNATRole)
    ensures ChainKey(NATRole) != ChainKey(OutputMarkRole) && HookKey(NATRole) != HookKey(OutputMarkRole)
    ensures ChainKey(NATRole) != ChainKey(QUICRole) && HookKey(NATRole) != HookKey(QUICRole)
    ensures ChainKey(UDPMarkRole) != ChainKey(OutputNATRole) && HookKey(UDPMarkRole) != HookKey(OutputNATRole)
    ensures ChainKey(UDPMarkRole) != ChainKey(OutputMarkRole) && HookKey(UDPMarkRole) != HookKey(OutputMarkRole)
    ensures ChainKey(OutputNATRole) != ChainKey(OutputMarkRole) && HookKey(OutputNATRole) != HookKey(OutputMarkRole)
    ensures ChainKey(OutputNATRole) != ChainKey(QUICRole) && HookKey(OutputNATRole) != HookKey(QUICRole)
    ensures ChainKey(TProxyRole) != ChainKey(OutputNATRole) && HookKey(TProxyRole) != HookKey(OutputNATRole)
  {
    HooksDiffer();
  }

  lemma HooksDiffer()
    ensures var pre, out, forward := "PREROUTING", "OUTPUT", "FORWARD"; pre != out && pre != forward && out != forward
    ensures PRE != MARK && PRE != OUT && PRE != QUIC && MARK != OUT && MARK != QUIC && OUT != QUIC
  {
    assert |"PREROUTING"| == 10 && |"OUTPUT"| == 6 && |"FORWARD"| == 7;
    assert PRE[|PRE| - 1] != MARK[|MARK| - 1] || |PRE| != |MARK|;
  }

  lemma UnhookedUnlessWanted(p: Plan, k: Key)
    requires forall role :: Wanted(p, role) ==> HookKey(role) != k
    ensures Unhooked(RolesOf(p), k)
  {
    hide HookKey, Wanted, RolesOf;
    RolesAreWanted(p);
    var roles := RolesOf(p);
    forall i | 0 <= i < |roles| ensures k != HookKey(roles[i]) {
      assert roles[i] in roles;
    }
  }

  lemma ClientHooks(st: Store, base: Store, p: Plan, k: Packet, o: Outcome)
    requires Clean(base) && Holds(st, base, RolesOf(p), p)
    ensures RunHook(st, MangleTable, "PREROUTING", k, o) ==
            (match p.mode
             case Mixed => Effect(UDPMarkRole, p, Anew(k), o).out
             case TProxy => Effect(TProxyRole, p, Anew(k), o).out
             case _ => o)
    ensures RunHook(st, NatTable, "PREROUTING", k, o) ==
            (match p.mode
             case TProxy => o
             case Tun => if p.redirectDNS then Effect(DNSOnlyRole, p, Anew(k), o).out else o
             case _ => Effect(NATRole, p, Anew(k), o).out)
    ensures RunHook(st, FilterTable, "FORWARD", k, o) ==
            if p.mode == Redirect && p.blockQUIC then Effect(QUICRole, p, Anew(k), o).out else o
  {
    hide Effect, RunHook, Holds, RolesOf, Unhooked;
    RolesAreWanted(p);
    var roles := RolesOf(p);
    if p.mode == Mixed {
      HookWithRole(st, base, roles, UDPMarkRole, p, k, o);
    } else if p.mode == TProxy {
      HookWithRole(st, base, roles, TProxyRole, p, k, o);
    } else {
      UnhookedUnlessWanted(p, (MangleTable, "PREROUTING"));
      HookWithoutRole(st, base, roles, p, MangleTable, "PREROUTING", k, o);
    }
    if p.mode == Redirect || p.mode == Mixed {
      HookWithRole(st, base, roles, NATRole, p, k, o);
    } else if p.mode == Tun && p.redirectDNS {
      HookWithRole(st, base, roles, DNSOnlyRole, p, k, o);
    } else {
      UnhookedUnlessWanted(p, (NatTable, "PREROUTING"));
      HookWithoutRole(st, base, roles, p, NatTable, "PREROUTING", k, o);
    }
    if p.mode == Redirect && p.blockQUIC {
      HookWithRole(st, base, roles, QUICRole, p, k, o);
    } else {
      UnhookedUnlessWanted(p, (FilterTable, "FORWARD"));
      HookWithoutRole(st, base, roles, p, FilterTable, "FORWARD", k, o);
    }
  }

  lemma RouterHooks(st: Store, base: Store, p: Plan, k: Packet, o: Outcome)
    requires Clean(base) && Holds(st, base, RolesOf(p), p)
    ensures RunHook(st, MangleTable, "OUTPUT", k, o) ==
            if p.proxyRouter && p.mode == Mixed then Effect(OutputMarkRole, p, Anew(k), o).out else o
    ensures RunHook(st, NatTable, "OUTPUT", k, o) ==
            if p.proxyRouter && p.mode != Tun then Effect(OutputNATRole, p, Anew(k), o).out else o
  {
    hide Effect, RunHook, Holds, RolesOf, Unhooked;
    RolesAreWanted(p);
    var roles := RolesOf(p);
    if p.proxyRouter && p.mode == Mixed {
      HookWithRole(st, base, roles, OutputMarkRole, p, k, o);
    } else {
      UnhookedUnlessWanted(p, (MangleTable, "OUTPUT"));
      HookWithoutRole(st, base, roles, p, MangleTable, "OUTPUT", k, o);
    }
    if p.proxyRouter && p.mode != Tun {
      HookWithRole(st, base, roles, OutputNATRole, p, k, o);
    } else {
      UnhookedUnlessWanted(p, (NatTable, "OUTPUT"));
      HookWithoutRole(st, base, roles, p, NatTable, "OUTPUT", k, o);
    }
  }

  lemma ClientEffectsAreIntended(p: Plan, k: Packet)
    requires !k.fromRouter && !k.transparent
    ensures var start := Outcome(Untouched, k.mark);
            var o1 := match p.mode
              case Mixed => Effect(UDPMarkRole, p, k, start).out
              case TProxy => Effect(TProxyRole, p, k, start).out
              case _ => start;
            var o2 := match p.mode
              case TProxy => o1
              case Tun => (if p.redirectDNS then Effect(DNSOnlyRole, p, k, o1).out else o1)
              case _ => Effect(NATRole, p, k, o1).out;
            (if o2.fate.Untouched? && k.forwarded && p.mode == Redirect && p.blockQUIC
             then Effect(QUICRole, p, k, o2).out else o2)
            == Intended(p, k)
  {
    hide Spared, InScope;
  }

  lemma AnewIsAsIntended(p: Plan, k: Packet)
    ensures Intended(p, Anew(k)) == Intended(p, k)
  {
    hide Spared, InScope;
    SameNets(p, k);
  }

  /** What the iptables rules of a plan do with every packet is what the plan intends. */
  lemma IptMeetsIntent(base: Store, p: Plan, k: Packet)
    requires Clean(base)
    ensures Traverse(Replay(base, InstallAll(RolesOf(p), p)), k) == Intended(p, k)
  {
    hide Effect, RunHook, Holds, RolesOf, Intended, Clean, InstallAll, Replay, SideBySide;
    var st := Replay(base, InstallAll(RolesOf(p), p));
    RolesFitTogether(p);
    InstallAllResult(base, RolesOf(p), p);
    AnewIsAsIntended(p, k);
    var start := Outcome(Untouched, k.mark);
    if k.fromRouter {
      var o1 := RunHook(st, MangleTable, "OUTPUT", k, start);
      RouterHooks(st, base, p, k, start);
      RouterHooks(st, base, p, k, o1);
      RouterEffectIsIntended(p, Anew(k));
    } else {
      var o1 := RunHook(st, MangleTable, "PREROUTING", k, start);
      ClientHooks(st, base, p, k, start);
      ClientHooks(st, base, p, k, o1);
      ClientHooks(st, base, p, k, RunHook(st, NatTable, "PREROUTING", k, o1));
      ClientEffectsAreIntended(p, Anew(k));
    }
  }

  /** The two dialects do the same with every packet, except for one that belongs to an existing
      transparent socket in tproxy mode: nftables marks it again, iptables sends it to the
      transparent inbound again. */
  lemma DialectsAgree(base: Store, t: Nft.Table, p: Plan, k: Packet)
    requires Clean(base) && Nft.SetsOf(p, t) && Nft.PlaysAll(p, t.chains, Nft.Roles(p))
    ensures Traverse(Replay(base, InstallAll(RolesOf(p), p)), k) == Nft.Traverse(t, k)
            <==> !Nft.OwnedByTransparentSocket(p, k)
  {
    hide *;
    IptMeetsIntent(base, p, k);
    Nft.NftMeetsIntent(p, t, k);
    if Nft.OwnedByTransparentSocket(p, k) {
      OwnedIsTaken(p, k);
    }
  }

  /** How every packet comes out of either dialect. The one exception is nftables' shortcut for
      what belongs to an existing transparent socket. */
  lemma BothComeOut(base: Store, t: Nft.Table, p: Plan, k: Packet)
    requires Clean(base) && Nft.SetsOf(p, t) && Nft.PlaysAll(p, t.chains, Nft.Roles(p))
    ensures ComesOut(p, k, Traverse(Replay(base, InstallAll(RolesOf(p), p)), k))
    ensures if p.mode == TProxy && FromClient(p, k) && k.transparent && k.proto != OtherProto
            then Nft.Traverse(t, k) == Outcome(Untouched, p.markTProxy)
            else ComesOut(p, k, Nft.Traverse(t, k))
  {
    hide Spared, ComesOut, Intended, Traverse, Nft.Traverse, Replay, InstallAll, RolesOf, Nft.SetsOf, Nft.PlaysAll,
         Nft.Roles, Clean;
    IptMeetsIntent(base, p, k);
    Nft.NftMeetsIntent(p, t, k);
    IntendedComesOut(p, k);
  }

  lemma OwnedIsTaken(p: Plan, k: Packet)
    requires Nft.OwnedByTransparentSocket(p, k)
    ensures Intended(p, k).fate.TProxied?
  {
    hide Spared, InScope;
  }
}
