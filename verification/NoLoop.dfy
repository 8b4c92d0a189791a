/**
 Firewall marks, policy rules and routing tables together: the core's own packets do not come
 back into the core, and in mixed mode exactly the traffic meant for the tunnel reaches it.
 */
module NoLoop {
  import opened Modes
  import opened Capture
  import opened Policy
  import Tun
  import Nft
  import Ipt
  import IptBackend
  import IptCapture

  /** Other programs' rules by where they stand: before ours, and behind the exempt networks, the
      core's escape and the tunnel's rule. */
  datatype Foreign = Foreign(early: seq<IpRule>, between: seq<IpRule>, beyond: seq<IpRule>, late: seq<IpRule>)

  /** The rule list of an installation. */
  function InstalledRules(o: Foreign, s: Tun.Settings, scope: Tun.Scope, nets: seq<string>): seq<IpRule> {
    o.early + NetRules(nets) + o.between + [CoreRule(s)] + o.beyond + [Tun.ScopeRule(s, scope)] + o.late
  }

  /** The rules of others before the tunnel's. */
  function Ahead(o: Foreign): seq<IpRule> {
    o.early + o.between + o.beyond
  }

  function NetRules(nets: seq<string>): seq<IpRule> {
    seq(|nets|, i requires 0 <= i < |nets| => Tun.NetRule(nets[i]))
  }

  function CoreRule(s: Tun.Settings): IpRule {
    IpRule(Tun.PREF_CORE_MARK, FwMark(s.mark), MAIN_TABLE)
  }

  ghost predicate Below(rules: seq<IpRule>, pref: int) {
    forall i :: 0 <= i < |rules| ==> rules[i].pref <= pref
  }

  ghost predicate Above(rules: seq<IpRule>, pref: int) {
    forall i :: 0 <= i < |rules| ==> rules[i].pref > pref
  }

  lemma {:induction false} InsertBetween(a: seq<IpRule>, r: IpRule, b: seq<IpRule>)
    requires Below(a, r.pref) && Above(b, r.pref)
    ensures InsertByPref(a + b, r) == a + [r] + b
  {
    if a == [] {
      assert a + b == b;
      assert a + [r] + b == [r] + b;
    } else {
      assert (a + b)[1..] == a[1..] + b;
      InsertBetween(a[1..], r, b);
      assert a + [r] + b == [a[0]] + (a[1..] + [r] + b);
    }
  }

  /** Where the rules of others can stand once those at our preferences were removed: anywhere. */
  ghost predicate Placed(o: Foreign, pref: int) {
    && Below(o.early, Tun.PREF_BYPASS_NETS)
    && Above(o.between, Tun.PREF_BYPASS_NETS) && Below(o.between, Tun.PREF_CORE_MARK)
    && Above(o.beyond, Tun.PREF_CORE_MARK) && Below(o.beyond, pref)
    && Above(o.late, pref)
  }

  lemma BoundsJoin(a: seq<IpRule>, b: seq<IpRule>, pref: int)
    ensures Below(a, pref) && Below(b, pref) ==> Below(a + b, pref)
    ensures Above(a, pref) && Above(b, pref) ==> Above(a + b, pref)
  {
  }

  lemma BoundsWiden(a: seq<IpRule>, low: int, high: int)
    requires low <= high
    ensures Below(a, low) ==> Below(a, high)
    ensures Above(a, high) ==> Above(a, low)
  {
  }

  lemma {:induction false} SplitAt(rules: seq<IpRule>, pref: int) returns (n: nat)
    requires Sorted(rules)
    ensures n <= |rules| && Below(rules[..n], pref) && Above(rules[n..], pref)
  {
    if rules == [] || rules[0].pref > pref {
      n := 0;
    } else {
      n := SplitAt(rules[1..], pref);
      assert rules[..n + 1] == [rules[0]] + rules[1..][..n];
      assert rules[n + 1..] == rules[1..][n..];
      n := n + 1;
    }
  }

  lemma TailIsSorted(rules: seq<IpRule>, n: nat)
    requires Sorted(rules) && n <= |rules|
    ensures Sorted(rules[n..])
  {
  }

  lemma PrefixKeepsBound(rules: seq<IpRule>, n: nat, pref: int)
    requires n <= |rules| && Above(rules, pref)
    ensures Above(rules[..n], pref)
  {
  }

  lemma Pieces(rules: seq<IpRule>, a: nat, b: nat, c: nat)
    requires a <= |rules| && b <= |rules[a..]| && c <= |rules[a..][b..]|
    ensures var tail := rules[a..]; var rest := tail[b..]; rules == rules[..a] + tail[..b] + rest[..c] + rest[c..]
  {
    var tail := rules[a..];
    var rest := tail[b..];
    assert tail == tail[..b] + rest;
    assert rest == rest[..c] + rest[c..];
  }

  /** A list that is kept by preference falls apart that way. */
  lemma SortedIsPlaced(rules: seq<IpRule>, pref: int) returns (o: Foreign)
    requires Sorted(rules) && pref > Tun.PREF_CORE_MARK
    ensures Placed(o, pref) && rules == o.early + o.between + o.beyond + o.late
  {
    hide Sorted, Below, Above;
    var a := SplitAt(rules, Tun.PREF_BYPASS_NETS);
    TailIsSorted(rules, a);
    var tail := rules[a..];
    var b := SplitAt(tail, Tun.PREF_CORE_MARK);
    TailIsSorted(tail, b);
    var rest := tail[b..];
    var c := SplitAt(rest, pref);
    PrefixKeepsBound(tail, b, Tun.PREF_BYPASS_NETS);
    PrefixKeepsBound(rest, c, Tun.PREF_CORE_MARK);
    o := Foreign(rules[..a], tail[..b], rest[..c], rest[c..]);
    Pieces(rules, a, b, c);
  }

  lemma {:induction false} NetsInstalled(st: State, early: seq<IpRule>, rest: seq<IpRule>, nets: seq<string>)
    requires st.rules == early + rest
    requires Below(early, Tun.PREF_BYPASS_NETS) && Above(rest, Tun.PREF_BYPASS_NETS)
    ensures Replay(st, Tun.NetCmds(nets)) == st.(rules := early + NetRules(nets) + rest)
  {
    if nets == [] {
      assert Tun.NetCmds(nets) == [] && NetRules(nets) == [];
      assert early + [] == early;
    } else {
      var init, last := nets[..|nets| - 1], nets[|nets| - 1];
      var cmds := Tun.NetCmds(nets);
      assert cmds[..|cmds| - 1] == Tun.NetCmds(init);
      NetsInstalled(st, early, rest, init);
      var a := early + NetRules(init);
      InsertBetween(a, Tun.NetRule(last), rest);
      assert NetRules(nets) == NetRules(init) + [Tun.NetRule(last)];
      assert a + [Tun.NetRule(last)] + rest == early + NetRules(nets) + rest;
    }
  }

  lemma {:induction false} ReplayJoins(st: State, a: seq<Cmd>, b: seq<Cmd>)
    ensures Replay(st, a + b) == Replay(Replay(st, a), b)
  {
    if b == [] {
      assert a + b == a;
    } else {
      assert (a + b)[..|a + b| - 1] == a + b[..|b| - 1];
      ReplayJoins(st, a, b[..|b| - 1]);
    }
  }

  lemma ReplayOne(st: State, c: Cmd)
    ensures Replay(st, [c]) == Exec(c, st)
  {
    assert [c][..0] == [];
  }

  /** What a complete installation leaves behind, wherever the rules of others stand. */
  lemma InstallResult(st: State, o: Foreign, s: Tun.Settings, scope: Tun.Scope, nets: seq<string>)
    requires st.rules == o.early + o.between + o.beyond + o.late && Placed(o, Tun.ScopeRule(s, scope).pref)
    ensures Replay(st, Tun.InstallCmds(s, scope, nets)) ==
            State(InstalledRules(o, s, scope, nets),
                  st.tables[s.routeTable := RoutesOf(st, s.routeTable) + [DefaultVia(s.tunName)]])
  {
    hide Replay, Tun.NetCmds, NetRules, InsertByPref, Tun.InstallCmds, InstalledRules, Placed, Below, Above;
    var route, core, last := RouteAdd(s.routeTable, DefaultVia(s.tunName)), CoreRule(s), Tun.ScopeRule(s, scope);
    InThreeSteps(st, s, scope, nets);
    var st1 := Exec(route, st);
    CoreInserted(o, core, last.pref);
    var st2 := Exec(RuleAdd(core), st1);
    var rest := o.between + [core] + o.beyond + o.late;
    assert st2.rules == o.early + rest;
    NetsInstalled(st2, o.early, rest, nets);
    var st3 := Replay(st2, Tun.NetCmds(nets));
    ScopeInserted(o, s, scope, nets);
    assert st3.rules == o.early + NetRules(nets) + rest;
  }

  lemma InThreeSteps(st: State, s: Tun.Settings, scope: Tun.Scope, nets: seq<string>)
    ensures var st2 := Exec(RuleAdd(CoreRule(s)), Exec(RouteAdd(s.routeTable, DefaultVia(s.tunName)), st));
            Replay(st, Tun.InstallCmds(s, scope, nets)) ==
            Exec(RuleAdd(Tun.ScopeRule(s, scope)), Replay(st2, Tun.NetCmds(nets)))
  {
    hide Replay, Tun.NetCmds, Exec;
    var route, core, last := RouteAdd(s.routeTable, DefaultVia(s.tunName)), CoreRule(s), Tun.ScopeRule(s, scope);
    assert Tun.InstallCmds(s, scope, nets) == [route] + [RuleAdd(core)] + Tun.NetCmds(nets) + [RuleAdd(last)];
    ReplayJoins(st, [route] + [RuleAdd(core)] + Tun.NetCmds(nets), [RuleAdd(last)]);
    ReplayJoins(st, [route] + [RuleAdd(core)], Tun.NetCmds(nets));
    ReplayJoins(st, [route], [RuleAdd(core)]);
    ReplayOne(st, route);
    ReplayOne(Exec(route, st), RuleAdd(core));
    ReplayOne(Replay(st, [route] + [RuleAdd(core)] + Tun.NetCmds(nets)), RuleAdd(last));
  }

  lemma CoreInserted(o: Foreign, core: IpRule, pref: int)
    requires Placed(o, pref) && core.pref == Tun.PREF_CORE_MARK && pref > Tun.PREF_CORE_MARK
    ensures InsertByPref(o.early + o.between + o.beyond + o.late, core) ==
            o.early + (o.between + [core] + o.beyond + o.late)
    ensures Above(o.between + [core] + o.beyond + o.late, Tun.PREF_BYPASS_NETS)
    ensures Below(o.early, Tun.PREF_BYPASS_NETS)
  {
    hide Below, Above, InsertByPref;
    var a, b := o.early + o.between, o.beyond + o.late;
    BoundsWiden(o.early, Tun.PREF_BYPASS_NETS, Tun.PREF_CORE_MARK);
    BoundsJoin(o.early, o.between, Tun.PREF_CORE_MARK);
    BoundsWiden(o.late, Tun.PREF_CORE_MARK, pref);
    BoundsJoin(o.beyond, o.late, Tun.PREF_CORE_MARK);
    InsertBetween(a, core, b);
    assert o.early + o.between + o.beyond + o.late == a + b;
    assert a + [core] + b == o.early + (o.between + [core] + o.beyond + o.late);
    OneAbove(core, Tun.PREF_BYPASS_NETS);
    BoundsWiden(o.beyond, Tun.PREF_BYPASS_NETS, Tun.PREF_CORE_MARK);
    BoundsWiden(o.late, Tun.PREF_BYPASS_NETS, Tun.PREF_CORE_MARK);
    BoundsJoin(o.between, [core], Tun.PREF_BYPASS_NETS);
    BoundsJoin(o.between + [core], o.beyond, Tun.PREF_BYPASS_NETS);
    BoundsJoin(o.between + [core] + o.beyond, o.late, Tun.PREF_BYPASS_NETS);
  }

  lemma OneAbove(r: IpRule, pref: int)
    ensures r.pref > pref ==> Above([r], pref)
    ensures r.pref <= pref ==> Below([r], pref)
  {
  }

  lemma ScopeInserted(o: Foreign, s: Tun.Settings, scope: Tun.Scope, nets: seq<string>)
    requires Placed(o, Tun.ScopeRule(s, scope).pref)
    ensures var before := o.early + NetRules(nets) + (o.between + [CoreRule(s)] + o.beyond + o.late);
            InsertByPref(before, Tun.ScopeRule(s, scope)) == InstalledRules(o, s, scope, nets)
  {
    hide Below, Above, InsertByPref, NetRules;
    var core, last := CoreRule(s), Tun.ScopeRule(s, scope);
    NetRulesBelow(nets);
    BoundsWiden(o.early, Tun.PREF_BYPASS_NETS, last.pref);
    BoundsWiden(NetRules(nets), Tun.PREF_BYPASS_NETS, last.pref);
    BoundsWiden(o.between, Tun.PREF_CORE_MARK, last.pref);
    OneAbove(core, last.pref);
    var a := o.early + NetRules(nets);
    BoundsJoin(o.early, NetRules(nets), last.pref);
    BoundsJoin(a, o.between, last.pref);
    BoundsJoin(a + o.between, [core], last.pref);
    BoundsJoin(a + o.between + [core], o.beyond, last.pref);
    InsertBetween(a + o.between + [core] + o.beyond, last, o.late);
    assert a + (o.between + [core] + o.beyond + o.late) == a + o.between + [core] + o.beyond + o.late;
  }

  lemma NetRulesBelow(nets: seq<string>)
    ensures Below(NetRules(nets), Tun.PREF_BYPASS_NETS)
  {
  }

  // ----- looking a packet up

  lemma {:induction false} LookUpJoins(st: State, a: seq<IpRule>, b: seq<IpRule>, k: Packet)
    ensures LookUp(st, a + b, k) == if LookUp(st, a, k).Found? then LookUp(st, a, k) else LookUp(st, b, k)
  {
    if a == [] {
      assert a + b == b;
    } else {
      assert (a + b)[1..] == a[1..] + b;
      LookUpJoins(st, a[1..], b, k);
    }
  }

  lemma {:induction false} LookUpNets(st: State, nets: seq<string>, k: Packet)
    ensures LookUp(st, NetRules(nets), k) ==
            if (exists net :: net in nets && net in k.nets) && HasRoute(st, MAIN_TABLE, k) then Found(MAIN_TABLE)
            else Unreachable
  {
    hide HasRoute;
    if nets == [] {
      assert NetRules(nets) == [];
    } else {
      LookUpNets(st, nets[1..], k);
      assert NetRules(nets)[1..] == NetRules(nets[1..]);
      assert nets == [nets[0]] + nets[1..];
    }
  }

  lemma LookUpOne(st: State, r: IpRule, k: Packet)
    ensures LookUp(st, [r], k) ==
            if Selects(r.selector, k) && HasRoute(st, r.table, k) then Found(r.table) else Unreachable
  {
    hide HasRoute;
    assert [r][1..] == [];
    assert LookUp(st, [], k) == Unreachable;
  }

  ghost predicate NotInto(rules: seq<IpRule>, table: int) {
    forall i :: 0 <= i < |rules| ==> rules[i].table != table
  }

  lemma {:induction false} LookUpNotInto(st: State, rules: seq<IpRule>, table: int, k: Packet)
    requires NotInto(rules, table)
    ensures LookUp(st, rules, k) != Found(table)
  {
    if rules != [] {
      LookUpNotInto(st, rules[1..], table, k);
    }
  }

  /** The state of the routing when the tunnel is up. */
  ghost predicate Up(st: State, o: Foreign, s: Tun.Settings, scope: Tun.Scope, nets: seq<string>) {
    && st.rules == InstalledRules(o, s, scope, nets)
    && NotInto(Ahead(o), s.routeTable) && NotInto(o.late, s.routeTable) && s.routeTable != MAIN_TABLE
    && DefaultVia(s.tunName) in RoutesOf(st, s.routeTable)
  }

  lemma NotIntoParts(o: Foreign, table: int)
    requires NotInto(Ahead(o), table)
    ensures NotInto(o.early, table) && NotInto(o.between, table) && NotInto(o.beyond, table)
  {
    var all := Ahead(o);
    assert forall i :: 0 <= i < |o.early| ==> all[i] == o.early[i];
    assert forall i :: 0 <= i < |o.between| ==> all[|o.early| + i] == o.between[i];
    assert forall i :: 0 <= i < |o.beyond| ==> all[|o.early| + |o.between| + i] == o.beyond[i];
  }

  /** Looking up an installation asks its seven parts in turn. */
  lemma LookUpParts(st: State, o: Foreign, s: Tun.Settings, scope: Tun.Scope, nets: seq<string>, k: Packet)
    ensures LookUp(st, InstalledRules(o, s, scope, nets), k) ==
            if LookUp(st, o.early, k).Found? then LookUp(st, o.early, k)
            else if LookUp(st, NetRules(nets), k).Found? then LookUp(st, NetRules(nets), k)
            else if LookUp(st, o.between, k).Found? then LookUp(st, o.between, k)
            else if LookUp(st, [CoreRule(s)], k).Found? then LookUp(st, [CoreRule(s)], k)
            else if LookUp(st, o.beyond, k).Found? then LookUp(st, o.beyond, k)
            else if LookUp(st, [Tun.ScopeRule(s, scope)], k).Found? then LookUp(st, [Tun.ScopeRule(s, scope)], k)
            else LookUp(st, o.late, k)
    ensures LookUp(st, Ahead(o), k).Found? <==>
            LookUp(st, o.early, k).Found? || LookUp(st, o.between, k).Found? || LookUp(st, o.beyond, k).Found?
  {
    hide LookUp, NetRules;
    var a := o.early + NetRules(nets);
    var b := a + o.between;
    var c := b + [CoreRule(s)];
    var d := c + o.beyond;
    LookUpJoins(st, d + [Tun.ScopeRule(s, scope)], o.late, k);
    LookUpJoins(st, d, [Tun.ScopeRule(s, scope)], k);
    LookUpJoins(st, c, o.beyond, k);
    LookUpJoins(st, b, [CoreRule(s)], k);
    LookUpJoins(st, a, o.between, k);
    LookUpJoins(st, o.early, NetRules(nets), k);
    LookUpJoins(st, o.early + o.between, o.beyond, k);
    LookUpJoins(st, o.early, o.between, k);
  }

  /** When a packet ends up in the tunnel's table: no rule of others before the tunnel's decides
      about it, it is not kept on the main table as the core's own or as bound for an exempt
      network, and the tunnel's rule selects it. */
  lemma ReachesTunnel(st: State, o: Foreign, s: Tun.Settings, scope: Tun.Scope, nets: seq<string>, k: Packet)
    requires Up(st, o, s, scope, nets)
    ensures LookUp(st, st.rules, k) == Found(s.routeTable) <==>
            && !LookUp(st, Ahead(o), k).Found?
            && !(((exists net :: net in nets && net in k.nets) || k.mark == s.mark) && HasRoute(st, MAIN_TABLE, k))
            && (scope == Tun.ScopeMarkedUDP ==> k.mark == s.markTunUDP)
  {
    hide LookUp, NetRules, NotInto, InstalledRules, Ahead;
    LookUpParts(st, o, s, scope, nets, k);
    LookUpNets(st, nets, k);
    LookUpOne(st, CoreRule(s), k);
    LookUpOne(st, Tun.ScopeRule(s, scope), k);
    NotIntoParts(o, s.routeTable);
    LookUpNotInto(st, o.early, s.routeTable, k);
    LookUpNotInto(st, o.between, s.routeTable, k);
    LookUpNotInto(st, o.beyond, s.routeTable, k);
    LookUpNotInto(st, o.late, s.routeTable, k);
    assert HasRoute(st, s.routeTable, k) by {
      var routes := RoutesOf(st, s.routeTable);
      var i :| 0 <= i < |routes| && routes[i] == DefaultVia(s.tunName);
      assert Reaches(routes[i], k);
    }
    hide HasRoute;
  }

  // ----- the core's own traffic

  /** The core's packets pass both dialects of the capture rules as they are, in every mode,
      whether or not the router's own traffic is captured. */
  lemma CoreTrafficIsNotCaptured(p: Plan, t: Nft.Table, base: Ipt.Store, k: Packet)
    requires k.fromRouter && k.mark == p.mark
    requires Nft.SetsOf(p, t) && Nft.PlaysAll(p, t.chains, Nft.Roles(p)) && IptCapture.Clean(base)
    ensures Nft.Traverse(t, k) == Outcome(Untouched, k.mark)
    ensures Ipt.Traverse(Ipt.Replay(base, Ipt.InstallAll(Ipt.RolesOf(p), p)), k) == Outcome(Untouched, k.mark)
  {
    Nft.NftMeetsIntent(p, t, k);
    IptCapture.IptMeetsIntent(base, p, k);
  }

  /** And they are routed into the tunnel only in full TUN mode when no rule of others before the
      tunnel's decides and the main table has no route for them: the escape rule then falls
      through. */
  lemma CoreLoopsExactlyWhen(st: State, o: Foreign, s: Tun.Settings, scope: Tun.Scope, nets: seq<string>, k: Packet)
    requires Up(st, o, s, scope, nets) && k.mark == s.mark && s.mark != s.markTunUDP
    ensures LookUp(st, st.rules, k) == Found(s.routeTable) <==>
            scope == Tun.ScopeAll && !LookUp(st, Ahead(o), k).Found? && !HasRoute(st, MAIN_TABLE, k)
  {
    ReachesTunnel(st, o, s, scope, nets, k);
  }

  const NO_OTHERS := Foreign([], [], [], [])

  const DEFAULTS := Tun.Settings("xwrt0", 180, 480, 482)

  /** Such a packet: with the tunnel installed and nothing in the main table, one of the core's
      goes into the tunnel. */
  lemma CoreCanLoop()
    ensures exists st, k: Packet ::
              && st == Replay(State([], map[]), Tun.InstallCmds(DEFAULTS, Tun.ScopeAll, []))
              && Up(st, NO_OTHERS, DEFAULTS, Tun.ScopeAll, [])
              && k.fromRouter && k.mark == DEFAULTS.mark && LookUp(st, st.rules, k) == Found(DEFAULTS.routeTable)
  {
    hide LookUp, Replay, Tun.InstallCmds;
    var st := Replay(State([], map[]), Tun.InstallCmds(DEFAULTS, Tun.ScopeAll, []));
    InstallResult(State([], map[]), NO_OTHERS, DEFAULTS, Tun.ScopeAll, []);
    var k := Packet(true, "", "", {}, Tcp, 443, 480, false, false);
    CoreLoopsExactlyWhen(st, NO_OTHERS, DEFAULTS, Tun.ScopeAll, [], k);
    assert Ahead(NO_OTHERS) == [];
    NothingFound(st, k);
  }

  lemma NothingFound(st: State, k: Packet)
    ensures LookUp(st, [], k) == Unreachable
  {
  }

  // ----- TPROXY mode

  /** With the route of TPROXY mode in place, a packet that capture marked for the core is
      delivered locally unless a rule of others at the same or a smaller preference decides, and
      every other packet is routed as without it. */
  lemma MarkedGoesToCore(st: State, mark: int, k: Packet) returns (n: nat)
    ensures var before, after := IptBackend.RoutingRemoved(st), IptBackend.RoutingAdded(st, mark);
            && n <= |before.rules| && (forall i :: 0 <= i < n ==> before.rules[i].pref <= 181)
            && (n < |before.rules| ==> before.rules[n].pref > 181)
            && LookUp(after, after.rules, k) ==
               if k.mark == mark && !LookUp(after, before.rules[..n], k).Found? then Found(181)
               else LookUp(after, before.rules, k)
    ensures RoutesOf(IptBackend.RoutingAdded(st, mark), 181) == [LocalDefault]
  {
    hide LookUp, IptBackend.RoutingRemoved, IptBackend.RoutingAdded, InsertByPref;
    var before, after := IptBackend.RoutingRemoved(st), IptBackend.RoutingAdded(st, mark);
    var own := IpRule(181, FwMark(mark), 181);
    IptBackend.RoutingSays(st, mark);
    n := InsertSplits(before.rules, own);
    assert before.rules == before.rules[..n] + before.rules[n..];
    LookUpJoins(after, before.rules[..n] + [own], before.rules[n..], k);
    LookUpJoins(after, before.rules[..n], [own], k);
    LookUpJoins(after, before.rules[..n], before.rules[n..], k);
    LookUpOne(after, own, k);
    assert Reaches(RoutesOf(after, 181)[0], k);
  }

  // ----- mixed mode

  /** The UDP meant for the tunnel: a client's that capture is for, and the router's own when that
      is to be proxied, but not the core's nor a name lookup that is redirected. */
  predicate ForTunnel(p: Plan, k: Packet) {
    && k.proto == Udp
    && if k.fromRouter
       then p.proxyRouter && k.mark != p.mark && !Spared(p, k) && !(p.redirectDNS && k.dport == 53)
       else Capturable(p, k)
  }

  /** In mixed mode a packet that capture leaves alone or marks reaches the tunnel exactly when it
      is UDP meant for it, unless a rule of others decides before. The exempt networks of the
      routing are among the bypassed ones, so they take nothing away. */
  lemma MixedModeTunnelsUDP(p: Plan, st: State, o: Foreign, s: Tun.Settings, nets: seq<string>, k: Packet)
    requires p.mode == Mixed && p.markTunUDP == s.markTunUDP && p.mark == s.mark && s.mark != s.markTunUDP
    requires Up(st, o, s, Tun.ScopeMarkedUDP, nets)
    requires forall net :: net in nets ==> net in Deduped(p.lanCIDRs + p.bypassCIDRs)
    requires k.mark != s.markTunUDP && Intended(p, k).fate.Untouched?
    ensures var marked := k.(mark := Intended(p, k).mark);
            LookUp(st, st.rules, marked) == Found(s.routeTable) <==>
            !LookUp(st, Ahead(o), marked).Found? && ForTunnel(p, k)
  {
    hide LookUp, Spared, InScope, Up, HasRoute, Ahead;
    var marked := k.(mark := Intended(p, k).mark);
    ReachesTunnel(st, o, s, Tun.ScopeMarkedUDP, nets, marked);
    if !Spared(p, k) {
      NotSparedNotExempt(p, nets, k);
    }
  }

  lemma NotSparedNotExempt(p: Plan, nets: seq<string>, k: Packet)
    requires !Spared(p, k)
    requires forall net :: net in nets ==> net in Deduped(p.lanCIDRs + p.bypassCIDRs)
    ensures forall net :: net in nets ==> net !in k.nets
  {
    hide Deduped;
    var own := p.lanCIDRs + p.bypassCIDRs;
    DedupedMembers(own);
    ListedJoins(k.nets, p.lanCIDRs, p.bypassCIDRs);
    forall net | net in nets ensures net !in k.nets {
      if net in k.nets {
        hide *;
        OccursIsListed(own, net, k.nets);
      }
    }
  }

  lemma OccursIsListed(items: seq<string>, net: string, nets: set<string>)
    requires Occurs(items, net) && net != "" && net in nets
    ensures Listed(nets, items)
  {
  }
}
