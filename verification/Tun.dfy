/**
 The policy routes of the TUN device (internal/mode/tun.go): installing them, taking them out
 again with the bounded delete loop, and what they do to a packet.
 */
module Tun {
  import opened Capture
  import opened Policy
  import opened Deletion
  import Strings

  const PREF_BYPASS_NETS: int := 90
  const PREF_CORE_MARK: int := 100
  const PREF_TUN_MARKED: int := 190
  const PREF_TUN_DEFAULT: int := 200
  const PREFS: seq<int> := [PREF_BYPASS_NETS, PREF_CORE_MARK, PREF_TUN_MARKED, PREF_TUN_DEFAULT]
  const MAX_DELETES: nat := 32

  datatype Scope = ScopeAll | ScopeMarkedUDP

  datatype Settings = Settings(tunName: string, routeTable: int, mark: int, markTunUDP: int)

  /** What removing leaves of the rules. */
  function DeletePrefs(rules: seq<IpRule>, prefs: seq<int>): seq<IpRule> {
    if prefs == [] then rules
    else DeleteUpTo(DeletePrefs(rules, prefs[..|prefs| - 1]), AtPref(prefs[|prefs| - 1]), MAX_DELETES)
  }

  function Removed(st: State, routeTable: int): State {
    Exec(RouteFlush(routeTable), st.(rules := DeletePrefs(st.rules, PREFS)))
  }

  /** The rules that are not this device's. */
  function Others(rules: seq<IpRule>, prefs: seq<int>): seq<IpRule> {
    if prefs == [] then rules
    else Without(Others(rules, prefs[..|prefs| - 1]), AtPref(prefs[|prefs| - 1]))
  }

  /** The networks that keep using the main table: the local and the excluded ones that parse. */
  function ExemptNets(lanCIDRs: seq<string>, bypassCIDRs: seq<string>, valid: set<string>): seq<string> {
    OnlyValid(Deduped(lanCIDRs + bypassCIDRs), valid)
  }

  function OnlyValid(nets: seq<string>, valid: set<string>): seq<string> {
    if nets == [] then []
    else
      var rest := OnlyValid(nets[..|nets| - 1], valid);
      if nets[|nets| - 1] in valid then rest + [nets[|nets| - 1]] else rest
  }

  function NetRule(net: string): IpRule {
    IpRule(PREF_BYPASS_NETS, To(net), MAIN_TABLE)
  }

  function ScopeRule(s: Settings, scope: Scope): IpRule {
    match scope
    case ScopeMarkedUDP => IpRule(PREF_TUN_MARKED, FwMark(s.markTunUDP), s.routeTable)
    case ScopeAll => IpRule(PREF_TUN_DEFAULT, Everything, s.routeTable)
  }

  function NetCmds(nets: seq<string>): seq<Cmd> {
    seq(|nets|, i requires 0 <= i < |nets| => RuleAdd(NetRule(nets[i])))
  }

  /** The commands of a complete installation, after the cleaning. */
  function InstallCmds(s: Settings, scope: Scope, nets: seq<string>): seq<Cmd> {
    [RouteAdd(s.routeTable, DefaultVia(s.tunName)), RuleAdd(IpRule(PREF_CORE_MARK, FwMark(s.mark), MAIN_TABLE))]
    + NetCmds(nets)
    + [RuleAdd(ScopeRule(s, scope))]
  }

  /** Some of `all`. */
  predicate Among(some: seq<string>, all: seq<string>) {
    |some| <= |all| && forall x :: x in some ==> x in all
  }

  method RemoveRoutes(kernel: Kernel, routeTable: int)
    requires kernel.Valid()
    modifies kernel
    ensures kernel.Valid()
    ensures kernel.st == Removed(old(kernel.st), routeTable)
  {
    ghost var before := kernel.st;
    for i := 0 to |PREFS|
      invariant kernel.Valid()
      invariant kernel.st == before.(rules := DeletePrefs(before.rules, PREFS[..i]))
    {
      kernel.DeleteRules(PREFS[i], MAX_DELETES);
      assert PREFS[..i + 1][..i] == PREFS[..i];
    }
    assert PREFS[..|PREFS|] == PREFS;
    var _ := kernel.Undo(RouteFlush(routeTable));
  }

  /** Installs the routes. Whatever fails, what took effect is the beginning of a complete
      installation for some of the exempt networks; on success it is all of one, the others being
      those the kernel refused to be told about. */
  method InstallRoutes(kernel: Kernel, s: Settings, scope: Scope, lanCIDRs: seq<string>, bypassCIDRs: seq<string>,
                       valid: set<string>) returns (ok: bool, ghost kept: seq<string>)
    requires kernel.Valid()
    modifies kernel
    ensures kernel.Valid()
    ensures kernel.start == Removed(old(kernel.st), s.routeTable)
    ensures Among(kept, ExemptNets(lanCIDRs, bypassCIDRs, valid))
    ensures kernel.done <= InstallCmds(s, scope, kept)
    ensures ok ==> kernel.done == InstallCmds(s, scope, kept)
    ensures ok ==> kernel.tried == InstallCmds(s, scope, ExemptNets(lanCIDRs, bypassCIDRs, valid))
  {
    kept := [];
    RemoveRoutes(kernel, s.routeTable);
    kernel.Mark();
    ok := kernel.Run(RouteAdd(s.routeTable, DefaultVia(s.tunName)));
    if !ok {
      return;
    }
    ok := kernel.Run(RuleAdd(IpRule(PREF_CORE_MARK, FwMark(s.mark), MAIN_TABLE)));
    if !ok {
      return;
    }
    ghost var opening := kernel.done;
    assert opening == [RouteAdd(s.routeTable, DefaultVia(s.tunName)),
                       RuleAdd(IpRule(PREF_CORE_MARK, FwMark(s.mark), MAIN_TABLE))];
    var nets := Dedupe(lanCIDRs + bypassCIDRs);
    kept := AddNetRules(kernel, nets, valid);
    ExemptNetsMeans(lanCIDRs, bypassCIDRs, valid);
    ghost var before, tried := kernel.done, kernel.tried;
    ok := kernel.Run(RuleAdd(ScopeRule(s, scope)));
    AllDone(s, scope, kept, before);
    AllDone(s, scope, ExemptNets(lanCIDRs, bypassCIDRs, valid), tried);
  }

  /** Which networks are exempt: each of the device's own and each excluded one that parses, once. */
  lemma ExemptNetsSay(lanCIDRs: seq<string>, bypassCIDRs: seq<string>, valid: set<string>)
    ensures var nets := ExemptNets(lanCIDRs, bypassCIDRs, valid);
            && (forall net :: net in nets <==>
                  net in valid && net != "" && (Occurs(lanCIDRs, net) || Occurs(bypassCIDRs, net)))
            && Distinct(nets)
  {
    hide Deduped, OnlyValid, Distinct, Occurs;
    var all := lanCIDRs + bypassCIDRs;
    DedupedMembers(all);
    OnlyValidMeans(Deduped(all), valid);
    forall net ensures Occurs(all, net) <==> Occurs(lanCIDRs, net) || Occurs(bypassCIDRs, net) {
      OccursInEither(lanCIDRs, bypassCIDRs, net);
    }
  }

  lemma OccursInEither(a: seq<string>, b: seq<string>, v: string)
    ensures Occurs(a + b, v) <==> Occurs(a, v) || Occurs(b, v)
  {
    hide Strings.TrimSpace;
    if i :| 0 <= i < |a| && Strings.TrimSpace(a[i]) == v {
      assert (a + b)[i] == a[i];
    }
    if i :| 0 <= i < |b| && Strings.TrimSpace(b[i]) == v {
      assert (a + b)[|a| + i] == b[i];
    }
  }

  lemma {:induction false} OnlyValidMeans(nets: seq<string>, valid: set<string>)
    ensures forall net :: net in OnlyValid(nets, valid) <==> net in nets && net in valid
    ensures Distinct(nets) ==> Distinct(OnlyValid(nets, valid))
  {
    if nets != [] {
      var init, last := nets[..|nets| - 1], nets[|nets| - 1];
      OnlyValidMeans(init, valid);
      assert nets == init + [last];
      if Distinct(nets) {
        assert forall i :: 0 <= i < |init| ==> init[i] != last by {
          assert forall i :: 0 <= i < |init| ==> nets[i] != nets[|init|];
        }
        assert last !in OnlyValid(init, valid);
      }
    }
  }

  lemma ExemptNetsMeans(lanCIDRs: seq<string>, bypassCIDRs: seq<string>, valid: set<string>)
    ensures ExemptNets(lanCIDRs, bypassCIDRs, valid) == OnlyValid(Deduped(lanCIDRs + bypassCIDRs), valid)
  {
  }

  lemma AllDone(s: Settings, scope: Scope, kept: seq<string>, before: seq<Cmd>)
    requires before == [RouteAdd(s.routeTable, DefaultVia(s.tunName)),
                        RuleAdd(IpRule(PREF_CORE_MARK, FwMark(s.mark), MAIN_TABLE))] + NetCmds(kept)
    ensures before <= InstallCmds(s, scope, kept)
    ensures before + [RuleAdd(ScopeRule(s, scope))] == InstallCmds(s, scope, kept)
  {
  }

  lemma OneMoreNet(nets: seq<string>, net: string)
    ensures NetCmds(nets + [net]) == NetCmds(nets) + [RuleAdd(NetRule(net))]
  {
  }

  /** The exempt networks, each of which may be refused without consequence. */
  method AddNetRules(kernel: Kernel, nets: seq<string>, valid: set<string>) returns (ghost kept: seq<string>)
    requires kernel.Valid()
    modifies kernel
    ensures kernel.Valid() && kernel.start == old(kernel.start)
    ensures Among(kept, OnlyValid(nets, valid))
    ensures kernel.done == old(kernel.done) + NetCmds(kept)
    ensures kernel.tried == old(kernel.tried) + NetCmds(OnlyValid(nets, valid))
  {
    kept := [];
    assert NetCmds([]) == [];
    for i := 0 to |nets|
      invariant kernel.Valid() && kernel.start == old(kernel.start)
      invariant Among(kept, OnlyValid(nets[..i], valid))
      invariant kernel.done == old(kernel.done) + NetCmds(kept)
      invariant kernel.tried == old(kernel.tried) + NetCmds(OnlyValid(nets[..i], valid))
    {
      assert nets[..i + 1][..i] == nets[..i];
      if nets[i] in valid {
        hide Kernel.Valid, NetCmds, NetRule, Exec, Legal, InsertByPref;
        ghost var sofar := OnlyValid(nets[..i], valid);
        OneMoreNet(sofar, nets[i]);
        var added := kernel.Run(RuleAdd(NetRule(nets[i])));
        if added {
          OneMoreNet(kept, nets[i]);
          kept := kept + [nets[i]];
        }
      }
    }
    assert nets[..|nets|] == nets;
  }

  // ----- removing after installing

  predicate Few(rules: seq<IpRule>) {
    forall i :: 0 <= i < |PREFS| ==> Count(rules, AtPref(PREFS[i])) <= MAX_DELETES
  }

  lemma PrefsApart(a: int, b: int)
    requires a != b
    ensures Apart(AtPref(a), AtPref(b))
  {
  }

  lemma {:induction false} DeletePrefsResult(rules: seq<IpRule>, prefs: seq<int>)
    requires forall i, j :: 0 <= i < j < |prefs| ==> prefs[i] != prefs[j]
    ensures forall pref :: pref !in prefs ==>
              Count(DeletePrefs(rules, prefs), AtPref(pref)) == Count(rules, AtPref(pref))
    ensures forall pref :: pref in prefs ==>
              Count(DeletePrefs(rules, prefs), AtPref(pref)) ==
              if Count(rules, AtPref(pref)) <= MAX_DELETES then 0 else Count(rules, AtPref(pref)) - MAX_DELETES
    ensures (forall pref :: pref in prefs ==> Count(rules, AtPref(pref)) <= MAX_DELETES)
            ==> DeletePrefs(rules, prefs) == Others(rules, prefs)
  {
    if prefs != [] {
      hide Count, AtPref;
      var init, last := prefs[..|prefs| - 1], prefs[|prefs| - 1];
      assert prefs == init + [last];
      DeletePrefsResult(rules, init);
      var before := DeletePrefs(rules, init);
      DeleteUpToResult(before, AtPref(last), MAX_DELETES);
      forall pref | pref != last
        ensures Count(DeleteUpTo(before, AtPref(last), MAX_DELETES), AtPref(pref)) == Count(before, AtPref(pref))
      {
        PrefsApart(last, pref);
        DeleteUpToSpares(before, AtPref(last), AtPref(pref), MAX_DELETES);
      }
    }
  }

  lemma {:induction false} OthersCounts(rules: seq<IpRule>, prefs: seq<int>)
    ensures forall pref :: pref in prefs ==> Count(Others(rules, prefs), AtPref(pref)) == 0
    ensures forall pref :: Count(rules, AtPref(pref)) == 0 ==> Count(Others(rules, prefs), AtPref(pref)) == 0
    ensures (forall pref :: pref in prefs ==> Count(rules, AtPref(pref)) == 0) ==> Others(rules, prefs) == rules
  {
    if prefs != [] {
      hide Count, AtPref;
      var init, last := prefs[..|prefs| - 1], prefs[|prefs| - 1];
      assert prefs == init + [last];
      OthersCounts(rules, init);
      var before := Others(rules, init);
      WithoutCounts(before, AtPref(last));
      forall pref | pref != last
        ensures Count(Without(before, AtPref(last)), AtPref(pref)) == Count(before, AtPref(pref))
      {
        PrefsApart(last, pref);
        WithoutSpares(before, AtPref(last), AtPref(pref));
      }
      if forall pref :: pref in prefs ==> Count(rules, AtPref(pref)) == 0 {
        assert last in prefs && forall pref :: pref in init ==> pref in prefs;
        NoneToRemove(before, AtPref(last));
      }
    }
  }

  lemma {:induction false} OthersJoin(a: seq<IpRule>, b: seq<IpRule>, prefs: seq<int>)
    ensures Others(a + b, prefs) == Others(a, prefs) + Others(b, prefs)
  {
    if prefs != [] {
      var init := prefs[..|prefs| - 1];
      OthersJoin(a, b, init);
      CountJoins(Others(a, init), Others(b, init), AtPref(prefs[|prefs| - 1]));
    }
  }

  lemma {:induction false} OthersOfOne(r: IpRule, prefs: seq<int>)
    ensures Others([r], prefs) == if r.pref in prefs then [] else [r]
  {
    if prefs != [] {
      var init, last := prefs[..|prefs| - 1], prefs[|prefs| - 1];
      assert prefs == init + [last];
      OthersOfOne(r, init);
      AtPrefMeans(last, r);
      assert [r][1..] == [];
      assert Without([r], AtPref(last)) == if r.pref == last then [] else [r];
    }
  }

  /** Adding a rule of ours disturbs none of the others. */
  lemma OthersIgnoreOwn(rules: seq<IpRule>, r: IpRule, prefs: seq<int>)
    requires r.pref in prefs
    ensures Others(InsertByPref(rules, r), prefs) == Others(rules, prefs)
  {
    var n := InsertSplits(rules, r);
    OthersJoin(rules[..n] + [r], rules[n..], prefs);
    OthersJoin(rules[..n], [r], prefs);
    OthersJoin(rules[..n], rules[n..], prefs);
    OthersOfOne(r, prefs);
    assert rules[..n] + rules[n..] == rules;
  }

  lemma PrefsAreDistinct()
    ensures forall i, j :: 0 <= i < j < |PREFS| ==> PREFS[i] != PREFS[j]
    ensures forall pref :: pref in PREFS <==> pref == 90 || pref == 100 || pref == 190 || pref == 200
  {
  }

  /** Removing leaves exactly the other rules, in order, if and only if no preference of ours
      has more than thirty-two rules. */
  lemma RemovingRestores(st: State, routeTable: int)
    ensures Removed(st, routeTable).rules == Others(st.rules, PREFS) <==> Few(st.rules)
    ensures Removed(st, routeTable).tables == st.tables[routeTable := []]
  {
    hide DeletePrefs, Others, Count, AtPref;
    PrefsAreDistinct();
    DeletePrefsResult(st.rules, PREFS);
    OthersCounts(st.rules, PREFS);
    if !Few(st.rules) {
      var i :| 0 <= i < |PREFS| && Count(st.rules, AtPref(PREFS[i])) > MAX_DELETES;
      assert PREFS[i] in PREFS;
    } else {
      forall pref | pref in PREFS ensures Count(st.rules, AtPref(pref)) <= MAX_DELETES {
        var i :| 0 <= i < |PREFS| && PREFS[i] == pref;
      }
    }
  }

  ghost predicate OwnCmd(c: Cmd, s: Settings) {
    match c
    case RuleAdd(r) => r.pref in PREFS
    case RouteAdd(table, _) => table == s.routeTable
    case _ => false
  }

  /** How many of the commands add a rule at a preference. */
  ghost function Adds(cmds: seq<Cmd>, pref: int): nat {
    if cmds == [] then 0
    else
      var c := cmds[|cmds| - 1];
      Adds(cmds[..|cmds| - 1], pref) + if c.RuleAdd? && c.rule.pref == pref then 1 else 0
  }

  /** Own commands leave the other rules and the other tables alone, and each adds at most the
      one rule it names. */
  lemma {:induction false} OwnCmdsKeep(st: State, s: Settings, cmds: seq<Cmd>)
    requires forall i :: 0 <= i < |cmds| ==> OwnCmd(cmds[i], s)
    ensures Others(Replay(st, cmds).rules, PREFS) == Others(st.rules, PREFS)
    ensures Replay(st, cmds).tables[s.routeTable := []] == st.tables[s.routeTable := []]
    ensures forall pref ::
              Count(Replay(st, cmds).rules, AtPref(pref)) == Count(st.rules, AtPref(pref)) + Adds(cmds, pref)
  {
    if cmds != [] {
      hide Others, Count, AtPref, InsertByPref, RoutesOf;
      var init, c := cmds[..|cmds| - 1], cmds[|cmds| - 1];
      assert OwnCmd(c, s);
      OwnCmdsKeep(st, s, init);
      var before := Replay(st, init);
      if c.RuleAdd? {
        OthersIgnoreOwn(before.rules, c.rule, PREFS);
        forall pref: int
          ensures Count(Replay(st, cmds).rules, AtPref(pref)) == Count(st.rules, AtPref(pref)) + Adds(cmds, pref)
        {
          InsertCounts(before.rules, c.rule, AtPref(pref));
          AtPrefMeans(pref, c.rule);
        }
      }
    }
  }

  lemma AtPrefMeans(pref: int, r: IpRule)
    ensures AtPref(pref)(r) <==> r.pref == pref
  {
  }

  lemma {:induction false} NetCmdsAdd(nets: seq<string>, pref: int)
    ensures Adds(NetCmds(nets), pref) == if pref == PREF_BYPASS_NETS then |nets| else 0
  {
    if nets == [] {
      assert NetCmds(nets) == [];
    } else {
      var cmds := NetCmds(nets);
      assert cmds[..|cmds| - 1] == NetCmds(nets[..|nets| - 1]);
      NetCmdsAdd(nets[..|nets| - 1], pref);
    }
  }

  lemma {:induction false} AddsJoin(a: seq<Cmd>, b: seq<Cmd>, pref: int)
    ensures Adds(a + b, pref) == Adds(a, pref) + Adds(b, pref)
  {
    if b == [] {
      assert a + b == a;
    } else {
      assert (a + b)[..|a + b| - 1] == a + b[..|b| - 1];
      AddsJoin(a, b[..|b| - 1], pref);
    }
  }

  lemma AddsOfOne(c: Cmd, pref: int)
    ensures Adds([c], pref) == if c.RuleAdd? && c.rule.pref == pref then 1 else 0
  {
    assert [c][..0] == [];
  }

  lemma InstallAdds(s: Settings, scope: Scope, nets: seq<string>, pref: int)
    ensures Adds(InstallCmds(s, scope, nets), pref) ==
            (if pref == PREF_BYPASS_NETS then |nets|
             else if pref == PREF_CORE_MARK || pref == ScopeRule(s, scope).pref then 1
             else 0)
  {
    var route, core :=
      RouteAdd(s.routeTable, DefaultVia(s.tunName)), RuleAdd(IpRule(PREF_CORE_MARK, FwMark(s.mark), MAIN_TABLE));
    var last := RuleAdd(ScopeRule(s, scope));
    hide Adds, NetCmds;
    AddsJoin([route, core] + NetCmds(nets), [last], pref);
    AddsJoin([route, core], NetCmds(nets), pref);
    assert [route] + [core] == [route, core];
    AddsJoin([route], [core], pref);
    AddsOfOne(route, pref);
    AddsOfOne(core, pref);
    AddsOfOne(last, pref);
    NetCmdsAdd(nets, pref);
  }

  lemma InstallCmdsAreOwn(s: Settings, scope: Scope, nets: seq<string>)
    ensures forall i :: 0 <= i < |InstallCmds(s, scope, nets)| ==> OwnCmd(InstallCmds(s, scope, nets)[i], s)
  {
  }

  /** No rule of another program's at our four preferences. */
  ghost predicate Unused(rules: seq<IpRule>) {
    forall pref :: pref in PREFS ==> Count(rules, AtPref(pref)) == 0
  }

  lemma AddsOfPrefix(cmds: seq<Cmd>, n: nat, pref: int)
    requires n <= |cmds|
    ensures Adds(cmds[..n], pref) <= Adds(cmds, pref)
  {
    assert cmds == cmds[..n] + cmds[n..];
    AddsJoin(cmds[..n], cmds[n..], pref);
  }

  /** However far an installation for at most 32 networks got, removing it restores the rule
      list exactly; and every table but the tunnel's is as it was. */
  lemma AnyPrefixIsRemoved(st: State, s: Settings, scope: Scope, nets: seq<string>, done: seq<Cmd>)
    requires Unused(st.rules) && done <= InstallCmds(s, scope, nets)
    requires |nets| <= 32
    ensures Removed(Replay(st, done), s.routeTable) == st.(tables := st.tables[s.routeTable := []])
  {
    hide *;
    Restoring(st, s, scope, nets, done);
  }

  lemma Restoring(st: State, s: Settings, scope: Scope, nets: seq<string>, done: seq<Cmd>)
    requires Unused(st.rules) && done <= InstallCmds(s, scope, nets)
    ensures |nets| <= 32 ==>
              Removed(Replay(st, done), s.routeTable) == st.(tables := st.tables[s.routeTable := []])
    ensures done == InstallCmds(s, scope, nets) && |nets| > 32 ==>
              Removed(Replay(st, done), s.routeTable).rules != st.rules
  {
    hide Removed, Others, Count, AtPref, Adds, InstallCmds, Replay;
    var cmds := InstallCmds(s, scope, nets);
    InstallCmdsAreOwn(s, scope, nets);
    assert done == cmds[..|done|];
    OwnCmdsKeep(st, s, done);
    PrefsAreDistinct();
    OthersCounts(st.rules, PREFS);
    RemovingRestores(Replay(st, done), s.routeTable);
    forall pref ensures Adds(done, pref) <= Adds(cmds, pref) {
      AddsOfPrefix(cmds, |done|, pref);
    }
    forall i | 0 <= i < |PREFS|
      ensures Count(Replay(st, done).rules, AtPref(PREFS[i])) <= (if i == 0 then |nets| else 1)
    {
      assert PREFS[i] in PREFS;
      InstallAdds(s, scope, nets, PREFS[i]);
    }
    if done == cmds {
      InstallAdds(s, scope, nets, PREF_BYPASS_NETS);
      assert PREFS[0] == PREF_BYPASS_NETS && PREFS[0] in PREFS;
    }
  }

  /** A complete installation is undone exactly when it has at most 32 network rules. */
  lemma RemovedExactlyUpToBound(st: State, s: Settings, scope: Scope, nets: seq<string>)
    requires Unused(st.rules)
    ensures Removed(Replay(st, InstallCmds(s, scope, nets)), s.routeTable).rules == st.rules <==> |nets| <= 32
  {
    hide *;
    Restoring(st, s, scope, nets, InstallCmds(s, scope, nets));
  }

  /** Installing again after an installation gives what installing once gives. */
  lemma InstallingTwice(st: State, s: Settings, scope: Scope, nets: seq<string>)
    requires Unused(st.rules) && |nets| <= 32
    ensures var once := Replay(Removed(st, s.routeTable), InstallCmds(s, scope, nets));
            Replay(Removed(once, s.routeTable), InstallCmds(s, scope, nets)) == once
  {
    hide InstallCmds, Replay, DeletePrefs, Others, AtPref;
    var base := Removed(st, s.routeTable);
    assert Removed(st, s.routeTable) == st.(tables := st.tables[s.routeTable := []]) by {
      NothingToRemove(st, s.routeTable);
    }
    AnyPrefixIsRemoved(base, s, scope, nets, InstallCmds(s, scope, nets));
    assert base.tables[s.routeTable := []] == base.tables;
  }

  lemma NothingToRemove(st: State, routeTable: int)
    requires Unused(st.rules)
    ensures Removed(st, routeTable) == st.(tables := st.tables[routeTable := []])
  {
    hide DeletePrefs, Others, Count, AtPref;
    RemovingRestores(st, routeTable);
    OthersCounts(st.rules, PREFS);
    forall i | 0 <= i < |PREFS| ensures Count(st.rules, AtPref(PREFS[i])) <= MAX_DELETES {
      assert PREFS[i] in PREFS;
    }
  }

  /** The main table survives the removal unless the tunnel is configured to use it as its own. */
  lemma MainTableUntouched(st: State, s: Settings, scope: Scope, nets: seq<string>, done: seq<Cmd>)
    requires Unused(st.rules) && done <= InstallCmds(s, scope, nets) && |nets| <= 32
    ensures RoutesOf(Removed(Replay(st, done), s.routeTable), MAIN_TABLE) == RoutesOf(st, MAIN_TABLE)
            <==> s.routeTable != MAIN_TABLE || RoutesOf(st, MAIN_TABLE) == []
  {
    hide Removed, Replay, InstallCmds, Unused;
    AnyPrefixIsRemoved(st, s, scope, nets, done);
  }
}
