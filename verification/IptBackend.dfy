/**
 The iptables backend at work (internal/fw/ipt.go): commands issued one by one, any of which
 may fail, and the loops that take everything out again.
 */
module IptBackend {
  import opened Modes
  import opened Capture
  import opened Ipt
  import opened Deletion
  import opened IptRevert
  import IptCapture
  import Policy

  const TPROXY_TABLE: int := 181
  const TPROXY_PREF: int := 181
  const TPROXY_DELETES: nat := 4

  /** The kernel's rule store. A command may fail for reasons of its own, and fails when it is
      not legal. `done` keeps what took effect since `start`. */
  class Tables {
    var st: Store
    ghost var start: Store
    ghost var done: seq<Cmd>

    ghost predicate Valid()
      reads this
    {
      st == Replay(start, done)
    }

    constructor (st: Store)
      ensures Valid() && this.st == st && start == st && done == []
    {
      this.st := st;
      start, done := st, [];
    }

    method Run(c: Cmd) returns (ok: bool)
      requires Valid()
      modifies this
      ensures Valid() && start == old(start)
      ensures ok ==> Legal(c, old(st)) && done == old(done) + [c] && st == Exec(c, old(st))
      ensures !ok ==> done == old(done) && st == old(st)
    {
      hide Legal;
      var willing: bool := *;
      ok := willing && Legal(c, st);
      if ok {
        assert (done + [c])[..|done|] == done;
        st := Exec(c, st);
        done := done + [c];
      }
    }

    /** A command of a teardown, which fails only when it is not legal. */
    method Undo(c: Cmd) returns (ok: bool)
      requires Valid()
      modifies this
      ensures Valid() && start == old(start)
      ensures ok == Legal(c, old(st)) && st == Exec(c, old(st))
    {
      hide Legal;
      ok := Legal(c, st);
      if ok {
        assert (done + [c])[..|done|] == done;
        st := Exec(c, st);
        done := done + [c];
      }
    }

    method List(t: Tbl, hook: string) returns (ok: bool, lines: seq<Line>)
      ensures ok == ((t, hook) in st)
      ensures ok ==> lines == Listing(hook, st[(t, hook)])
    {
      ok := (t, hook) in st;
      lines := if ok then Listing(hook, st[(t, hook)]) else [];
    }

    /** Starts counting commands anew, from the store as it is. */
    ghost method Mark()
      modifies `start, `done
      ensures Valid() && start == st && done == []
    {
      start, done := st, [];
    }
  }

  // ----- sequences of commands that may stop short

  /** What was done is a beginning of the commands, and all of them on success. */
  ghost predicate Partly(before: seq<Cmd>, cmds: seq<Cmd>, after: seq<Cmd>, ok: bool) {
    && before <= after <= before + cmds
    && (ok ==> after == before + cmds)
  }

  lemma StoppedShort(before: seq<Cmd>, prior: seq<Cmd>, part: seq<Cmd>, rest: seq<Cmd>, after: seq<Cmd>, ok: bool)
    requires Partly(before + prior, part, after, ok)
    ensures Partly(before, prior + part + rest, after, false)
    ensures ok ==> after == before + (prior + part)
    ensures ok && rest == [] ==> Partly(before, prior + part + rest, after, true)
  {
    assert before + prior + part == before + (prior + part);
    assert before + (prior + part + rest) == before + (prior + part) + rest;
  }

  method AppendRules(tables: Tables, t: Tbl, chain: string, rules: seq<Rule>) returns (ok: bool)
    requires tables.Valid()
    modifies tables
    ensures tables.Valid() && tables.start == old(tables.start)
    ensures Partly(old(tables.done), Appends(t, chain, rules), tables.done, ok)
  {
    hide Tables.Valid, Exec, Legal;
    ghost var cmds := Appends(t, chain, rules);
    ok := true;
    for i := 0 to |rules|
      invariant tables.Valid() && tables.start == old(tables.start)
      invariant ok && tables.done == old(tables.done) + cmds[..i]
    {
      ok := tables.Run(AppendRule(t, chain, rules[i]));
      if !ok {
        return;
      }
      assert cmds[..i] + [cmds[i]] == cmds[..i + 1];
    }
  }

  function NewChainCmds(t: Tbl, chain: string, guards: seq<Rule>): seq<Cmd> {
    [NewChain(t, chain)] + Appends(t, chain, guards)
  }

  function Guards(p: Plan): seq<Rule> {
    MacGuards(p.bypassMACs) + NetGuards(AllBypass(p))
  }

  function OwnGuards(p: Plan): seq<Rule> {
    [Rule(MarkIs(p.mark), Return)] + NetGuards(AllBypass(p))
  }

  lemma AppendsJoin(t: Tbl, chain: string, a: seq<Rule>, b: seq<Rule>)
    ensures Appends(t, chain, a + b) == Appends(t, chain, a) + Appends(t, chain, b)
  {
  }

  /** Creates a chain with its opening rules, given in two parts. */
  method CreateChain(tables: Tables, t: Tbl, chain: string, first: seq<Rule>, second: seq<Rule>) returns (ok: bool)
    requires tables.Valid()
    modifies tables
    ensures tables.Valid() && tables.start == old(tables.start)
    ensures Partly(old(tables.done), NewChainCmds(t, chain, first + second), tables.done, ok)
  {
    hide Tables.Valid, Appends, Exec, Legal;
    ghost var before := tables.done;
    AppendsJoin(t, chain, first, second);
    ghost var a, b, c := [NewChain(t, chain)], Appends(t, chain, first), Appends(t, chain, second);
    assert NewChainCmds(t, chain, first + second) == [] + a + (b + c) == a + b + c == (a + b) + c + [];
    ok := tables.Run(NewChain(t, chain));
    if !ok {
      return;
    }
    ok := AppendRules(tables, t, chain, first);
    StoppedShort(before, a, b, c, tables.done, ok);
    if !ok {
      return;
    }
    ok := AppendRules(tables, t, chain, second);
    StoppedShort(before, a + b, c, [], tables.done, ok);
  }

  method NewCaptureChain(tables: Tables, t: Tbl, chain: string, p: Plan) returns (ok: bool)
    requires tables.Valid()
    modifies tables
    ensures tables.Valid() && tables.start == old(tables.start)
    ensures Partly(old(tables.done), NewChainCmds(t, chain, Guards(p)), tables.done, ok)
  {
    hide Tables.Valid, NewChainCmds, Partly, Deduped;
    var nets := Dedupe(PRIVATE_CIDRS + p.lanCIDRs + p.bypassCIDRs);
    ok := CreateChain(tables, t, chain, MacGuards(p.bypassMACs), NetGuards(nets));
  }

  /** Enters the chain from a hook: once per client-facing device, or once. */
  method Hook(tables: Tables, t: Tbl, hook: string, chain: string, p: Plan) returns (ok: bool)
    requires tables.Valid()
    modifies tables
    ensures tables.Valid() && tables.start == old(tables.start)
    ensures Partly(old(tables.done), Inserts(t, hook, chain, Entries(p, NATRole)), tables.done, ok)
  {
    hide Tables.Valid, Exec, Legal;
    ghost var cmds := Inserts(t, hook, chain, Entries(p, NATRole));
    if |p.lanDevices| > 0 {
      ok := true;
      for i := 0 to |p.lanDevices|
        invariant tables.Valid() && tables.start == old(tables.start)
        invariant ok && tables.done == old(tables.done) + cmds[..i]
      {
        ok := tables.Run(InsertTop(t, hook, Rule(InIface(p.lanDevices[i]), JumpTo(chain))));
        if !ok {
          return;
        }
        assert cmds[..i] + [cmds[i]] == cmds[..i + 1];
      }
      return;
    }
    if p.wanDevice != "" {
      assert cmds == [InsertTop(t, hook, Rule(NotInIface(p.wanDevice), JumpTo(chain)))];
      ok := tables.Run(InsertTop(t, hook, Rule(NotInIface(p.wanDevice), JumpTo(chain))));
      return;
    }
    assert cmds == [InsertTop(t, hook, Rule(Any, JumpTo(chain)))];
    ok := tables.Run(InsertTop(t, hook, Rule(Any, JumpTo(chain))));
  }

  lemma ClientEntries(p: Plan, role: Role)
    requires !ForRouter(role)
    ensures Entries(p, role) == Entries(p, NATRole)
  {
  }

  /** A chain in the order it is written: created with its guards, what it does about DNS, what
      it does about the rest, the hook. */
  lemma InStages(role: Role, p: Plan, guards: seq<Rule>, dns: seq<Rule>, rest: seq<Rule>)
    requires Rules(role, p) == guards + dns + rest
    ensures var t, c := TableOf(role), ChainOf(role);
            Install(role, p) ==
            NewChainCmds(t, c, guards) + Appends(t, c, dns) + Appends(t, c, rest)
            + Inserts(t, HookNameOf(role), c, Entries(p, role))
  {
    hide Appends, Inserts, Rules, Entries;
    var t, c := TableOf(role), ChainOf(role);
    AppendsJoin(t, c, guards + dns, rest);
    AppendsJoin(t, c, guards, dns);
  }

  /** The rules and the hook of a chain for clients that exists already. */
  method FillAndHook(tables: Tables, ghost before: seq<Cmd>, t: Tbl, hook: string, chain: string, dns: seq<Rule>,
                     rest: seq<Rule>, p: Plan, ghost role: Role) returns (ok: bool)
    requires tables.Valid() && !ForRouter(role)
    requires (t, hook, chain) == (TableOf(role), HookNameOf(role), ChainOf(role))
    requires Rules(role, p) == Guards(p) + dns + rest
    requires tables.done == before + NewChainCmds(t, chain, Guards(p))
    modifies tables
    ensures tables.Valid() && tables.start == old(tables.start)
    ensures Partly(before, Install(role, p), tables.done, ok)
  {
    hide *;
    ghost var a, b, c := NewChainCmds(t, chain, Guards(p)), Appends(t, chain, dns), Appends(t, chain, rest);
    ghost var d := Inserts(t, hook, chain, Entries(p, role));
    ClientEntries(p, role);
    InStages(role, p, Guards(p), dns, rest);
    assert a + b + c + d == a + b + (c + d) == (a + b) + c + d == (a + b + c) + d + [];
    ok := AppendRules(tables, t, chain, dns);
    StoppedShort(before, a, b, c + d, tables.done, ok);
    if !ok {
      return;
    }
    ok := AppendRules(tables, t, chain, rest);
    StoppedShort(before, a + b, c, d, tables.done, ok);
    if !ok {
      return;
    }
    ok := Hook(tables, t, hook, chain, p);
    StoppedShort(before, a + b + c, d, [], tables.done, ok);
  }

  lemma StoppedCreating(role: Role, p: Plan, dns: seq<Rule>, rest: seq<Rule>, before: seq<Cmd>, after: seq<Cmd>)
    requires Rules(role, p) == Guards(p) + dns + rest
    requires Partly(before, NewChainCmds(TableOf(role), ChainOf(role), Guards(p)), after, false)
    ensures Partly(before, Install(role, p), after, false)
  {
    hide Rules, Guards, Partly, Install, NewChainCmds, Appends, Inserts, Entries;
    var t, c := TableOf(role), ChainOf(role);
    var a, b := NewChainCmds(t, c, Guards(p)), Appends(t, c, dns);
    var d, e := Appends(t, c, rest), Inserts(t, HookNameOf(role), c, Entries(p, role));
    InStages(role, p, Guards(p), dns, rest);
    assert before + [] == before;
    assert a + b + d + e == [] + a + (b + d + e);
    StoppedShort(before, [], a, b + d + e, after, false);
  }

  method ApplyNAT(tables: Tables, p: Plan) returns (ok: bool)
    requires tables.Valid()
    modifies tables
    ensures tables.Valid() && tables.start == old(tables.start)
    ensures Partly(old(tables.done), Install(NATRole, p), tables.done, ok)
  {
    hide Tables.Valid, Partly, Install, NewChainCmds, AllBypass;
    var dns := if p.redirectDNS then Both(53, Udp, Tcp, RedirectTo(p.dnsPort)) else [];
    var rest := [Rule(ProtoIs(Tcp), RedirectTo(p.tproxyPort))];
    ghost var before := tables.done;
    ok := NewCaptureChain(tables, NatTable, PRE, p);
    if !ok {
      StoppedCreating(NATRole, p, dns, rest, before, tables.done);
      return;
    }
    AllOfThem(before, NewChainCmds(NatTable, PRE, Guards(p)), tables.done);
    ok := FillAndHook(tables, before, NatTable, "PREROUTING", PRE, dns, rest, p, NATRole);
  }

  lemma AllOfThem(before: seq<Cmd>, cmds: seq<Cmd>, after: seq<Cmd>)
    requires Partly(before, cmds, after, true)
    ensures after == before + cmds
  {
  }

  method ApplyDNSOnly(tables: Tables, p: Plan) returns (ok: bool)
    requires tables.Valid()
    modifies tables
    ensures tables.Valid() && tables.start == old(tables.start)
    ensures Partly(old(tables.done), Install(DNSOnlyRole, p), tables.done, ok)
  {
    hide Tables.Valid, Partly, Install, NewChainCmds, AllBypass;
    var dns := Both(53, Udp, Tcp, RedirectTo(p.dnsPort));
    ghost var before := tables.done;
    ok := NewCaptureChain(tables, NatTable, PRE, p);
    if !ok {
      StoppedCreating(DNSOnlyRole, p, dns, [], before, tables.done);
      return;
    }
    AllOfThem(before, NewChainCmds(NatTable, PRE, Guards(p)), tables.done);
    ok := FillAndHook(tables, before, NatTable, "PREROUTING", PRE, dns, [], p, DNSOnlyRole);
  }

  method ApplyUDPMark(tables: Tables, p: Plan) returns (ok: bool)
    requires tables.Valid()
    modifies tables
    ensures tables.Valid() && tables.start == old(tables.start)
    ensures Partly(old(tables.done), Install(UDPMarkRole, p), tables.done, ok)
  {
    hide Tables.Valid, Partly, Install, NewChainCmds, AllBypass;
    var dns := if p.redirectDNS then Both(53, Udp, Tcp, Return) else [];
    var rest := [Rule(ProtoIs(Udp), SetMark(p.markTunUDP))];
    ghost var before := tables.done;
    ok := NewCaptureChain(tables, MangleTable, MARK, p);
    if !ok {
      StoppedCreating(UDPMarkRole, p, dns, rest, before, tables.done);
      return;
    }
    AllOfThem(before, NewChainCmds(MangleTable, MARK, Guards(p)), tables.done);
    ok := FillAndHook(tables, before, MangleTable, "PREROUTING", MARK, dns, rest, p, UDPMarkRole);
  }

  method ApplyTProxy(tables: Tables, p: Plan) returns (ok: bool)
    requires tables.Valid()
    modifies tables
    ensures tables.Valid() && tables.start == old(tables.start)
    ensures Partly(old(tables.done), Install(TProxyRole, p), tables.done, ok)
  {
    hide Tables.Valid, Partly, Install, NewChainCmds, AllBypass;
    var dns := if p.redirectDNS then Both(53, Udp, Tcp, TProxyOn(p.dnsPort, p.markTProxy)) else [];
    var take := TProxyOn(p.tproxyPort, p.markTProxy);
    var rest := [Rule(ProtoIs(Tcp), take), Rule(ProtoIs(Udp), take)];
    ghost var before := tables.done;
    ok := NewCaptureChain(tables, MangleTable, PRE, p);
    if !ok {
      StoppedCreating(TProxyRole, p, dns, rest, before, tables.done);
      return;
    }
    AllOfThem(before, NewChainCmds(MangleTable, PRE, Guards(p)), tables.done);
    ok := FillAndHook(tables, before, MangleTable, "PREROUTING", PRE, dns, rest, p, TProxyRole);
  }

  method ApplyQUICBlock(tables: Tables, p: Plan) returns (ok: bool)
    requires tables.Valid()
    modifies tables
    ensures tables.Valid() && tables.start == old(tables.start)
    ensures Partly(old(tables.done), Install(QUICRole, p), tables.done, ok)
  {
    hide Tables.Valid, Partly, Install, NewChainCmds, AllBypass;
    var rest := [Rule(ProtoDport(Udp, 443), Reject)];
    ghost var before := tables.done;
    ok := NewCaptureChain(tables, FilterTable, QUIC, p);
    if !ok {
      StoppedCreating(QUICRole, p, [], rest, before, tables.done);
      return;
    }
    AllOfThem(before, NewChainCmds(FilterTable, QUIC, Guards(p)), tables.done);
    ok := FillAndHook(tables, before, FilterTable, "FORWARD", QUIC, [], rest, p, QUICRole);
  }

  /** One of the two chains for the router's own traffic. */
  method ApplyOutputChain(tables: Tables, role: Role, dns: seq<Rule>, rest: seq<Rule>, p: Plan) returns (ok: bool)
    requires tables.Valid() && ForRouter(role) && Rules(role, p) == OwnGuards(p) + dns + rest
    modifies tables
    ensures tables.Valid() && tables.start == old(tables.start)
    ensures Partly(old(tables.done), Install(role, p), tables.done, ok)
  {
    hide Tables.Valid, Partly, Install, NewChainCmds, Deduped, Appends, Inserts, Rules;
    var t, chain := TableOf(role), ChainOf(role);
    ghost var before := tables.done;
    ghost var a, b, c := NewChainCmds(t, chain, OwnGuards(p)), Appends(t, chain, dns), Appends(t, chain, rest);
    ghost var d := Inserts(t, "OUTPUT", chain, [Any]);
    InStages(role, p, OwnGuards(p), dns, rest);
    assert before == before + [];
    assert Install(role, p) == [] + a + (b + c + d) == a + b + (c + d) == (a + b) + c + d == (a + b + c) + d + [];
    var nets := Dedupe(PRIVATE_CIDRS + p.lanCIDRs + p.bypassCIDRs);
    ok := CreateChain(tables, t, chain, [Rule(MarkIs(p.mark), Return)], NetGuards(nets));
    StoppedShort(before, [], a, b + c + d, tables.done, ok);
    if !ok {
      return;
    }
    assert [] + a == a;
    ok := AppendRules(tables, t, chain, dns);
    StoppedShort(before, a, b, c + d, tables.done, ok);
    if !ok {
      return;
    }
    ok := AppendRules(tables, t, chain, rest);
    StoppedShort(before, a + b, c, d, tables.done, ok);
    if !ok {
      return;
    }
    ok := HookOnce(tables, t, "OUTPUT", chain);
    StoppedShort(before, a + b + c, d, [], tables.done, ok);
  }

  method HookOnce(tables: Tables, t: Tbl, hook: string, chain: string) returns (ok: bool)
    requires tables.Valid()
    modifies tables
    ensures tables.Valid() && tables.start == old(tables.start)
    ensures Partly(old(tables.done), Inserts(t, hook, chain, [Any]), tables.done, ok)
  {
    hide Tables.Valid, Exec, Legal;
    assert Inserts(t, hook, chain, [Any]) == [InsertTop(t, hook, Rule(Any, JumpTo(chain)))];
    ok := tables.Run(InsertTop(t, hook, Rule(Any, JumpTo(chain))));
  }

  // ----- several chains

  /** A beginning of what these roles take, and all of it on success. */
  ghost predicate Reached(roles: seq<Role>, p: Plan, done: seq<Cmd>, ok: bool) {
    done <= InstallAll(roles, p) && (ok ==> done == InstallAll(roles, p))
  }

  lemma ReachedNext(roles: seq<Role>, role: Role, p: Plan, after: seq<Cmd>, ok: bool)
    requires Partly(InstallAll(roles, p), Install(role, p), after, ok)
    ensures Reached(roles + [role], p, after, ok)
  {
    hide Install;
    assert (roles + [role])[..|roles|] == roles;
  }

  lemma {:induction false} FewerRoles(roles: seq<Role>, more: seq<Role>, p: Plan)
    requires roles <= more
    ensures InstallAll(roles, p) <= InstallAll(more, p)
  {
    hide Install;
    if roles != more {
      FewerRoles(roles, more[..|more| - 1], p);
    }
  }

  // ----- the policy route of tproxy mode

  function RoutingRemoved(st: Policy.State): Policy.State {
    var flushed := Policy.Exec(Policy.RouteFlush(TPROXY_TABLE), st);
    flushed.(rules := DeleteUpTo(st.rules, Policy.AtPref(TPROXY_PREF), TPROXY_DELETES))
  }

  function TProxyRule(mark: int): Policy.IpRule {
    Policy.IpRule(TPROXY_PREF, Policy.FwMark(mark), TPROXY_TABLE)
  }

  function RoutingAdded(st: Policy.State, mark: int): Policy.State {
    var before := RoutingRemoved(st);
    Policy.State(Policy.InsertByPref(before.rules, TProxyRule(mark)),
                 before.tables[TPROXY_TABLE := [Policy.LocalDefault]])
  }

  /** With the route of TPROXY mode its table holds the one local route and the marked packets have
      one rule more at its preference; without it the table is empty and up to four such rules
      are gone. Nothing else changes. */
  lemma RoutingSays(st: Policy.State, mark: int)
    ensures Policy.RoutesOf(RoutingRemoved(st), 181) == []
    ensures Policy.RoutesOf(RoutingAdded(st, mark), 181) == [Policy.LocalDefault]
    ensures forall t :: t != 181 ==>
              && Policy.RoutesOf(RoutingRemoved(st), t) == Policy.RoutesOf(st, t)
              && Policy.RoutesOf(RoutingAdded(st, mark), t) == Policy.RoutesOf(st, t)
    ensures Count(st.rules, Policy.AtPref(181)) <= 4 ==>
              RoutingRemoved(st).rules == Without(st.rules, Policy.AtPref(181))
    ensures Count(RoutingRemoved(st).rules, Policy.AtPref(181)) ==
            if Count(st.rules, Policy.AtPref(181)) <= 4 then 0 else Count(st.rules, Policy.AtPref(181)) - 4
    ensures RoutingAdded(st, mark).rules ==
            Policy.InsertByPref(RoutingRemoved(st).rules, Policy.IpRule(181, Policy.FwMark(mark), 181))
  {
    hide Count, Without, DeleteUpTo, Policy.AtPref, Policy.InsertByPref;
    DeleteUpToResult(st.rules, Policy.AtPref(181), 4);
  }

  method DelTProxyRouting(routing: Policy.Kernel)
    requires routing.Valid()
    modifies routing
    ensures routing.Valid() && routing.st == RoutingRemoved(old(routing.st))
  {
    hide Policy.Kernel.Valid;
    var _ := routing.Undo(Policy.RouteFlush(TPROXY_TABLE));
    routing.DeleteRules(TPROXY_PREF, TPROXY_DELETES);
  }

  /** On success the marked packets have a rule and the rule's table exactly the one local
      route; a failure may leave the rule behind, which the caller's Revert takes out. */
  method AddTProxyRouting(routing: Policy.Kernel, mark: int) returns (ok: bool)
    requires routing.Valid()
    modifies routing
    ensures routing.Valid()
    ensures var before := RoutingRemoved(old(routing.st));
            if ok then routing.st == RoutingAdded(old(routing.st), mark)
            else
              || routing.st == before
              || routing.st == before.(rules := WithoutFirst(Policy.InsertByPref(before.rules, TProxyRule(mark)),
                                                             Policy.OnMark(mark, TPROXY_TABLE)))
  {
    hide Policy.Kernel.Valid, Policy.InsertByPref, Count, WithoutFirst, DeleteUpTo, Policy.OnMark, Policy.AtPref;
    DelTProxyRouting(routing);
    assert Policy.RoutesOf(routing.st, TPROXY_TABLE) == [];
    assert [] + [Policy.LocalDefault] == [Policy.LocalDefault];
    ok := routing.Run(Policy.RuleAdd(TProxyRule(mark)));
    if !ok {
      return;
    }
    ok := routing.Run(Policy.RouteAdd(TPROXY_TABLE, Policy.LocalDefault));
    if !ok {
      ghost var added := routing.st.rules;
      var deleted := routing.Undo(Policy.RuleDelMark(mark, TPROXY_TABLE));
      if !deleted {
        WithoutFirstCounts(added, Policy.OnMark(mark, TPROXY_TABLE));
      }
    }
  }

  // ----- taking everything out

  /** Deletes the first jump of a hook to a chain, found by its number in the listing. */
  method DeleteJump(tables: Tables, t: Tbl, hook: string, chain: string) returns (ok: bool)
    requires tables.Valid() && hook !in OWN && chain in OWN
    modifies tables
    ensures tables.Valid() && tables.start == old(tables.start)
    ensures ok == ((t, hook) in old(tables.st) && CountJumps(old(tables.st)[(t, hook)], chain) > 0)
    ensures tables.st ==
            if ok then old(tables.st)[(t, hook) := WithoutFirst(old(tables.st)[(t, hook)], JumpsInto(chain))]
            else old(tables.st)
  {
    hide Tables.Valid, Listing, FirstNumber, First, WithoutFirst, Count, JumpsInto;
    var listed, lines := tables.List(t, hook);
    if !listed {
      return false;
    }
    ghost var rules := tables.st[(t, hook)];
    ListingFindsFirstJump(hook, rules, chain);
    CountIsNone(rules, JumpsInto(chain));
    CutAtFirst(rules, JumpsInto(chain));
    var num := FindRuleNumber(lines, chain);
    if num == 0 {
      return false;
    }
    ok := tables.Undo(DeleteRule(t, hook, num));
  }

  method DeleteJumps(tables: Tables, t: Tbl, hook: string, chain: string)
    requires tables.Valid() && hook !in OWN && chain in OWN
    modifies tables
    ensures tables.Valid() && tables.start == old(tables.start)
    ensures var k := (t, hook);
            tables.st ==
            if k in old(tables.st)
            then old(tables.st)[k := DeleteUpTo(old(tables.st)[k], JumpsInto(chain), MAX_DELETES)]
            else old(tables.st)
  {
    hide Tables.Valid, Count, JumpsInto, WithoutFirst;
    ghost var k, before := (t, hook), tables.st;
    var i := 0;
    while i < MAX_DELETES
      invariant i <= MAX_DELETES
      invariant tables.Valid() && tables.start == old(tables.start)
      invariant tables.st.Keys == before.Keys
      invariant forall other :: other in before && other != k ==> tables.st[other] == before[other]
      invariant k in before ==>
                  DeleteUpTo(before[k], JumpsInto(chain), MAX_DELETES)
                  == DeleteUpTo(tables.st[k], JumpsInto(chain), MAX_DELETES - i)
    {
      var ok := DeleteJump(tables, t, hook, chain);
      if !ok {
        if k in before {
          DeletingNoneIsDone(tables.st[k], JumpsInto(chain), MAX_DELETES - i);
        }
        return;
      }
      i := i + 1;
    }
  }

  function DeleteFor(rules: seq<Rule>, chains: seq<string>): seq<Rule> {
    if chains == [] then rules
    else DeleteUpTo(DeleteFor(rules, chains[..|chains| - 1]), JumpsInto(chains[|chains| - 1]), MAX_DELETES)
  }

  lemma DeleteForAll(rules: seq<Rule>)
    ensures DeleteFor(rules, OWN) == DeleteEach(rules)
  {
    hide DeleteUpTo, JumpsInto;
    assert OWN[..3] == [PRE, MARK, OUT] && OWN[..2] == [PRE, MARK] == OWN[..3][..2];
    assert OWN[..1] == [PRE] == OWN[..2][..1] && OWN[..1][..0] == [];
    assert DeleteFor(rules, [PRE]) == DeleteUpTo(rules, JumpsInto(PRE), MAX_DELETES);
    assert DeleteFor(rules, [PRE, MARK]) == DeleteUpTo(DeleteFor(rules, [PRE]), JumpsInto(MARK), MAX_DELETES);
  }

  method RevertHook(tables: Tables, t: Tbl, hook: string)
    requires tables.Valid() && hook !in OWN
    modifies tables
    ensures tables.Valid() && tables.start == old(tables.start)
    ensures var k := (t, hook);
            tables.st ==
            if k in old(tables.st) then old(tables.st)[k := DeleteEach(old(tables.st)[k])] else old(tables.st)
  {
    hide Tables.Valid, DeleteUpTo, DeleteEach, JumpsInto;
    ghost var k, before := (t, hook), tables.st;
    for i := 0 to |OWN|
      invariant tables.Valid() && tables.start == old(tables.start)
      invariant tables.st == if k in before then before[k := DeleteFor(before[k], OWN[..i])] else before
    {
      DeleteJumps(tables, t, hook, OWN[i]);
      assert OWN[..i + 1][..i] == OWN[..i];
    }
    assert OWN[..|OWN|] == OWN;
    if k in before {
      DeleteForAll(before[k]);
    }
  }

  method RevertOneTable(tables: Tables, t: Tbl)
    requires tables.Valid()
    modifies tables
    ensures tables.Valid() && tables.start == old(tables.start)
    ensures tables.st == RevertTable(old(tables.st), t)
  {
    hide Tables.Valid, DeleteEach, Exec, Legal;
    ghost var before := tables.st;
    HooksAreDistinct();
    for i := 0 to |HOOKS|
      invariant tables.Valid() && tables.start == old(tables.start)
      invariant tables.st == RevertHooks(before, t, HOOKS[..i])
    {
      RevertHook(tables, t, HOOKS[i]);
      assert HOOKS[..i + 1][..i] == HOOKS[..i];
    }
    assert HOOKS[..|HOOKS|] == HOOKS;
    ghost var unhooked := tables.st;
    for i := 0 to |OWN|
      invariant tables.Valid() && tables.start == old(tables.start)
      invariant tables.st == RevertChains(unhooked, t, OWN[..i])
    {
      var _ := tables.Undo(FlushChain(t, OWN[i]));
      var _ := tables.Undo(DeleteChain(t, OWN[i]));
      assert OWN[..i + 1][..i] == OWN[..i];
    }
    assert OWN[..|OWN|] == OWN;
  }

  method Revert(tables: Tables, routing: Policy.Kernel)
    requires tables.Valid() && routing.Valid()
    modifies tables, routing
    ensures tables.Valid() && tables.start == old(tables.start) && routing.Valid()
    ensures tables.st == Reverted(old(tables.st))
    ensures routing.st == RoutingRemoved(old(routing.st))
  {
    hide Tables.Valid, Policy.Kernel.Valid, RevertTable, RoutingRemoved;
    RevertOneTable(tables, TABLES[0]);
    RevertOneTable(tables, TABLES[1]);
    RevertOneTable(tables, TABLES[2]);
    DelTProxyRouting(routing);
  }

  // ----- the backend

  function CaptureRoles(p: Plan): seq<Role> {
    (if p.mode.CapturesTCPViaRedirect() then [NATRole] else [])
    + (if p.mode.MarksUDPForTun() then [UDPMarkRole] else [])
    + (if p.mode.NeedsTProxy() then [TProxyRole] else [])
  }

  function OutputRoles(p: Plan): seq<Role> {
    if !p.proxyRouter then []
    else
      (if p.mode.CapturesTCPViaRedirect() || p.mode.NeedsTProxy() then [OutputNATRole] else [])
      + (if p.mode.MarksUDPForTun() then [OutputMarkRole] else [])
  }

  lemma RolesInOrder(p: Plan)
    requires p.mode.NeedsFirewallCapture()
    ensures CaptureRoles(p) + OutputRoles(p) <= RolesOf(p)
    ensures RolesOf(p) ==
            CaptureRoles(p) + OutputRoles(p) + if p.blockQUIC && !p.mode.CarriesUDP() then [QUICRole] else []
  {
  }

  method ApplyCapture(tables: Tables, p: Plan, hasIp: bool) returns (ok: bool)
    requires tables.Valid() && tables.done == []
    modifies tables
    ensures tables.Valid() && tables.start == old(tables.start)
    ensures Reached(CaptureRoles(p), p, tables.done, ok)
  {
    hide Tables.Valid, Partly, Reached, Install, InstallAll;
    ghost var roles: seq<Role> := [];
    NoRoles(p);
    ok := true;
    if p.mode.CapturesTCPViaRedirect() {
      ok := ApplyNAT(tables, p);
      ReachedNext(roles, NATRole, p, tables.done, ok);
      roles := roles + [NATRole];
      AllReached(roles, p, tables.done, ok);
      if !ok {
        StillReached(roles, CaptureRoles(p), p, tables.done);
        return;
      }
    }
    if p.mode.MarksUDPForTun() {
      ok := ApplyUDPMark(tables, p);
      ReachedNext(roles, UDPMarkRole, p, tables.done, ok);
      roles := roles + [UDPMarkRole];
    }
    if p.mode.NeedsTProxy() {
      if !hasIp {
        StillReached(roles, CaptureRoles(p), p, tables.done);
        return false;
      }
      ok := ApplyTProxy(tables, p);
      ReachedNext(roles, TProxyRole, p, tables.done, ok);
      roles := roles + [TProxyRole];
    }
    assert roles == CaptureRoles(p);
  }

  lemma NoRoles(p: Plan)
    ensures InstallAll([], p) == [] && Reached([], p, [], true) && Reached([], p, [], false)
  {
  }

  lemma AllReached(roles: seq<Role>, p: Plan, done: seq<Cmd>, ok: bool)
    requires Reached(roles, p, done, ok)
    ensures ok ==> done == InstallAll(roles, p)
  {
  }

  lemma StillReached(roles: seq<Role>, more: seq<Role>, p: Plan, done: seq<Cmd>)
    requires Reached(roles, p, done, false) && roles <= more
    ensures Reached(more, p, done, false)
  {
    FewerRoles(roles, more, p);
  }

  method ApplyOutput(tables: Tables, p: Plan, ghost roles: seq<Role>) returns (ok: bool)
    requires tables.Valid() && tables.done == InstallAll(roles, p) && p.proxyRouter
    modifies tables
    ensures tables.Valid() && tables.start == old(tables.start)
    ensures Reached(roles + OutputRoles(p), p, tables.done, ok)
  {
    hide Tables.Valid, Partly, Reached, Install, InstallAll, AllBypass;
    ok := true;
    ghost var sofar := roles;
    Complete(roles, p);
    assert roles + [] == roles;
    if p.mode.CapturesTCPViaRedirect() || p.mode.NeedsTProxy() {
      ok := ApplyOutputChain(tables, OutputNATRole, [], [Rule(ProtoIs(Tcp), RedirectTo(p.tproxyPort))], p);
      ReachedNext(roles, OutputNATRole, p, tables.done, ok);
      sofar := roles + [OutputNATRole];
      AllReached(sofar, p, tables.done, ok);
      if !ok {
        StillReached(sofar, roles + OutputRoles(p), p, tables.done);
        return;
      }
    }
    if p.mode.MarksUDPForTun() {
      var dns := if p.redirectDNS then [Rule(ProtoDport(Udp, 53), Return)] else [];
      ok := ApplyOutputChain(tables, OutputMarkRole, dns, [Rule(ProtoIs(Udp), SetMark(p.markTunUDP))], p);
      ReachedNext(sofar, OutputMarkRole, p, tables.done, ok);
      sofar := sofar + [OutputMarkRole];
    }
    assert sofar == roles + OutputRoles(p);
  }

  lemma Complete(roles: seq<Role>, p: Plan)
    ensures Reached(roles, p, InstallAll(roles, p), true)
  {
  }

  /** The part of Apply for the modes that capture. */
  method ApplyChains(tables: Tables, routing: Policy.Kernel, p: Plan, hasIp: bool)
    returns (ok: bool, ghost left: seq<Cmd>, ghost rolledBack: bool)
    requires tables.Valid() && tables.done == [] && routing.Valid() && p.mode.NeedsFirewallCapture()
    modifies tables, routing
    ensures tables.Valid() && routing.Valid()
    ensures Reached(RolesOf(p), p, left, ok) && (ok ==> !rolledBack)
    ensures var installed := Replay(old(tables.start), left);
            tables.st == if rolledBack then Reverted(installed) else installed
    ensures ok && p.mode.NeedsTProxy() ==> routing.st == RoutingAdded(old(routing.st), p.markTProxy)
    ensures ok && !p.mode.NeedsTProxy() ==> routing.st == old(routing.st)
  {
    hide Partly, Reached, Install, InstallAll, AllBypass, RolesOf, CaptureRoles, OutputRoles, Reverted,
         Policy.Kernel.Valid, RoutingAdded, RoutingRemoved, Replay;
    rolledBack := false;
    RolesInOrder(p);
    ghost var roles := CaptureRoles(p);
    ok := ApplyCapture(tables, p, hasIp);
    left := tables.done;
    if !ok {
      StillReached(roles, RolesOf(p), p, left);
      return;
    }
    AllReached(roles, p, left, ok);
    if p.mode.NeedsTProxy() {
      ok := AddTProxyRouting(routing, p.markTProxy);
      if !ok {
        Complete(roles, p);
        NotAll(roles, p, left);
        StillReached(roles, RolesOf(p), p, left);
        Revert(tables, routing);
        rolledBack := true;
        return;
      }
    }
    if p.proxyRouter {
      ok := ApplyOutput(tables, p, roles);
      left := tables.done;
      roles := roles + OutputRoles(p);
      if !ok {
        StillReached(roles, RolesOf(p), p, left);
        return;
      }
      AllReached(roles, p, left, ok);
    } else {
      NoOutput(roles, p);
    }
    Complete(roles, p);
    if p.blockQUIC && !p.mode.CarriesUDP() {
      ok := ApplyQUICBlock(tables, p);
      left := tables.done;
      ReachedNext(roles, QUICRole, p, left, ok);
      roles := roles + [QUICRole];
    }
    assert roles == RolesOf(p);
  }

  lemma ValidMeans(tables: Tables)
    requires tables.Valid()
    ensures tables.st == Replay(tables.start, tables.done)
  {
  }

  lemma NoOutput(roles: seq<Role>, p: Plan)
    requires !p.proxyRouter
    ensures roles + OutputRoles(p) == roles
  {
  }

  lemma NotAll(roles: seq<Role>, p: Plan, done: seq<Cmd>)
    requires Reached(roles, p, done, true)
    ensures Reached(roles, p, done, false)
  {
  }

  lemma DNSOnlyOrNothing(p: Plan)
    requires !p.mode.NeedsFirewallCapture()
    ensures RolesOf(p) == if p.redirectDNS then [DNSOnlyRole] else []
    ensures !p.mode.NeedsTProxy()
  {
  }

  lemma ReachedMeans(roles: seq<Role>, p: Plan, left: seq<Cmd>, ok: bool)
    requires Reached(roles, p, left, ok)
    ensures left <= InstallAll(roles, p) && (ok ==> left == InstallAll(roles, p))
  {
  }

  lemma LeavesAsBefore(base: Store, p: Plan, left: seq<Cmd>, rolledBack: bool)
    requires left <= InstallAll(RolesOf(p), p)
    ensures IptCapture.Clean(base) && |p.lanDevices| <= 8 ==>
              var installed := Replay(base, left);
              Reverted(if rolledBack then Reverted(installed) else installed) == base
  {
    hide InstallAll, RolesOf, Reverted, IptCapture.Clean;
    if IptCapture.Clean(base) && |p.lanDevices| <= 8 {
      var cmds := InstallAll(RolesOf(p), p);
      AnyPrefixIsReverted(base, p, |left|);
      AnyPrefixIsReverted(base, p, 0);
      assert cmds[..|left|] == left && cmds[..0] == [];
      assert Replay(base, []) == base;
    }
  }

  /** Every packet is treated as the plan intends. */
  ghost predicate AsIntended(st: Store, p: Plan) {
    forall k :: Traverse(st, k) == Intended(p, k)
  }

  lemma InstalledAsIntended(base: Store, p: Plan)
    ensures IptCapture.Clean(base) ==> AsIntended(Replay(base, InstallAll(RolesOf(p), p)), p)
  {
    hide IptCapture.Clean, Traverse, Intended, Replay, InstallAll, RolesOf;
    if IptCapture.Clean(base) {
      forall k ensures Traverse(Replay(base, InstallAll(RolesOf(p), p)), k) == Intended(p, k) {
        IptCapture.IptMeetsIntent(base, p, k);
      }
    }
  }

  /** Applies a plan. However far it comes, what is installed is a beginning of the plan's
      commands on top of the reverted store, or that with everything taken out once more. With
      at most eight client-facing devices reverting therefore gives the same afterwards as
      before: applying and reverting, in any order and however they fail, never lose or disturb
      a rule of the device. On success every packet is treated as intended. */
  method Apply(tables: Tables, routing: Policy.Kernel, p: Plan, hasIp: bool)
    returns (ok: bool, ghost left: seq<Cmd>, ghost rolledBack: bool)
    requires tables.Valid() && routing.Valid()
    modifies tables, routing
    ensures tables.Valid() && routing.Valid()
    ensures left <= InstallAll(RolesOf(p), p)
    ensures ok ==> left == InstallAll(RolesOf(p), p) && !rolledBack
    ensures var installed := Replay(Reverted(old(tables.st)), left);
            tables.st == if rolledBack then Reverted(installed) else installed
    ensures ok ==>
              routing.st == if p.mode.NeedsTProxy() then RoutingAdded(RoutingRemoved(old(routing.st)), p.markTProxy)
                            else RoutingRemoved(old(routing.st))
    ensures IptCapture.Clean(Reverted(old(tables.st))) && |p.lanDevices| <= 8
            ==> Reverted(tables.st) == Reverted(old(tables.st))
    ensures ok && IptCapture.Clean(Reverted(old(tables.st))) ==> AsIntended(tables.st, p)
  {
    hide Tables.Valid, Policy.Kernel.Valid, Reverted, Replay, IptCapture.Clean, Install, InstallAll, RolesOf,
         RoutingRemoved, RoutingAdded, Reached, Partly, AsIntended;
    Revert(tables, routing);
    tables.Mark();
    ValidMeans(tables);
    ghost var base := tables.st;
    rolledBack := false;
    if !p.mode.NeedsFirewallCapture() {
      DNSOnlyOrNothing(p);
      NoRoles(p);
      ok := true;
      if p.redirectDNS {
        ok := ApplyDNSOnly(tables, p);
        ReachedNext([], DNSOnlyRole, p, tables.done, ok);
        assert [] + [DNSOnlyRole] == [DNSOnlyRole];
      }
      left := tables.done;
      ValidMeans(tables);
    } else {
      ok, left, rolledBack := ApplyChains(tables, routing, p, hasIp);
    }
    ReachedMeans(RolesOf(p), p, left, ok);
    LeavesAsBefore(base, p, left, rolledBack);
    InstalledAsIntended(base, p);
  }
}
