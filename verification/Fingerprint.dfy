/**
 Whether a saved edit reaches the running core (internal/daemon/fingerprint.go): the material a
 connection is built from, kept at connect time and compared later. The hash is taken to tell
 any two materials apart, so the material stands for it.
 */
module Fingerprint {
  import opened Optional
  import C = CoreConfig
  import S = Store

  datatype TargetKind = ProfileTarget | GroupTarget

  datatype Material = Material(
    kind: TargetKind, active: string, profile: Option<S.Profile>, group: Option<S.Group>, members: seq<S.Profile>,
    rules: seq<S.Rule>, settings: S.Settings)

  function FindProfile(profiles: seq<S.Profile>, id: string): (p: Option<S.Profile>)
    ensures p.Some? ==> p.value.id == id && p.value in profiles
  {
    if profiles == [] then None
    else if profiles[0].id == id then Some(profiles[0])
    else FindProfile(profiles[1..], id)
  }

  function FindGroup(groups: seq<S.Group>, id: string): Option<S.Group> {
    if groups == [] then None else if groups[0].id == id then Some(groups[0]) else FindGroup(groups[1..], id)
  }

  /** The members that still exist, in the group's order. */
  function MembersOf(profiles: seq<S.Profile>, ids: seq<string>): (members: seq<S.Profile>)
    ensures forall p :: p in members ==> p in profiles
  {
    if ids == [] then []
    else
      var init := MembersOf(profiles, ids[..|ids| - 1]);
      var p := FindProfile(profiles, ids[|ids| - 1]);
      if p.Some? then init + [p.value] else init
  }

  /** The settings, the five blanked that are about the daemon and not about the connection. */
  function CoreSettingsOf(s: S.Settings): S.Settings {
    s.(texts := s.texts[S.Active := ""][S.ActiveKind := ""],
       numbers := s.numbers[S.APIPort := 0],
       flags := s.flags[S.AutoConnect := false][S.Enabled := false])
  }

  function MaterialFor(d: S.Data, target: string): Material {
    var g := FindGroup(d.groups, target);
    if g.Some? then
      Material(GroupTarget, target, None, g, MembersOf(d.profiles, g.value.members), d.rules,
               CoreSettingsOf(d.settings))
    else
      Material(ProfileTarget, target, FindProfile(d.profiles, target), None, [], d.rules, CoreSettingsOf(d.settings))
  }

  // ----- what a connect builds

  /** A connect hands the build whatever the id names, both ways, and the settings as they are. */
  function InputsOf(d: S.Data, target: string): C.Inputs {
    var g := FindGroup(d.groups, target);
    var members := if g.Some? then MembersOf(d.profiles, g.value.members) else [];
    C.Inputs(FindProfile(d.profiles, target), g, members, d.rules, d.settings)
  }

  lemma InputsAreWhole(d: S.Data, target: string)
    requires S.Whole(d)
    ensures C.Whole(InputsOf(d, target))
  {
    hide FindGroup, S.WholeProfile, S.Complete;
    var i := InputsOf(d, target);
    forall k | 0 <= k < |i.members| ensures S.WholeProfile(i.members[k]) {
      assert i.members[k] in d.profiles;
    }
  }

  ghost function ConnectBuild(env: C.Env, d: S.Data, target: string): Option<C.Config>
    requires S.Whole(d)
  {
    InputsAreWhole(d, target);
    C.Built(env, InputsOf(d, target))
  }

  // ----- the five settings

  /** The settings agree on every option but the five that are blanked. */
  ghost predicate Agree(s: S.Settings, t: S.Settings)
    requires S.Complete(s) && S.Complete(t)
  {
    && (forall o: S.TextOpt :: o != S.Active && o != S.ActiveKind ==> s.texts[o] == t.texts[o])
    && (forall o: S.NumberOpt :: o != S.APIPort ==> s.numbers[o] == t.numbers[o])
    && (forall o: S.FlagOpt :: o != S.AutoConnect && o != S.Enabled ==> s.flags[o] == t.flags[o])
    && s.bypassIP == t.bypassIP && s.bypassMAC == t.bypassMAC
  }

  lemma BlankedTexts(s: S.Settings, t: S.Settings)
    requires S.Complete(s) && S.Complete(t)
    ensures CoreSettingsOf(s).texts == CoreSettingsOf(t).texts <==>
            forall o: S.TextOpt :: o != S.Active && o != S.ActiveKind ==> s.texts[o] == t.texts[o]
  {
    var a, b := CoreSettingsOf(s).texts, CoreSettingsOf(t).texts;
    if a == b {
      forall o: S.TextOpt | o != S.Active && o != S.ActiveKind ensures s.texts[o] == t.texts[o] {
        assert a[o] == s.texts[o] && b[o] == t.texts[o];
      }
    }
  }

  lemma BlankedNumbers(s: S.Settings, t: S.Settings)
    requires S.Complete(s) && S.Complete(t)
    ensures CoreSettingsOf(s).numbers == CoreSettingsOf(t).numbers <==>
            forall o: S.NumberOpt :: o != S.APIPort ==> s.numbers[o] == t.numbers[o]
  {
    var a, b := CoreSettingsOf(s).numbers, CoreSettingsOf(t).numbers;
    if a == b {
      forall o: S.NumberOpt | o != S.APIPort ensures s.numbers[o] == t.numbers[o] {
        assert a[o] == s.numbers[o] && b[o] == t.numbers[o];
      }
    }
  }

  lemma BlankedFlags(s: S.Settings, t: S.Settings)
    requires S.Complete(s) && S.Complete(t)
    ensures CoreSettingsOf(s).flags == CoreSettingsOf(t).flags <==>
            forall o: S.FlagOpt :: o != S.AutoConnect && o != S.Enabled ==> s.flags[o] == t.flags[o]
  {
    var a, b := CoreSettingsOf(s).flags, CoreSettingsOf(t).flags;
    if a == b {
      forall o: S.FlagOpt | o != S.AutoConnect && o != S.Enabled ensures s.flags[o] == t.flags[o] {
        assert a[o] == s.flags[o] && b[o] == t.flags[o];
      }
    }
  }

  /** Blanking tells exactly whether two settings agree. */
  lemma BlankedIsAgreed(s: S.Settings, t: S.Settings)
    requires S.Complete(s) && S.Complete(t)
    ensures CoreSettingsOf(s) == CoreSettingsOf(t) <==> Agree(s, t)
  {
    hide CoreSettingsOf;
    BlankedTexts(s, t);
    BlankedNumbers(s, t);
    BlankedFlags(s, t);
    BlankedLists(s);
    BlankedLists(t);
    var a, b := CoreSettingsOf(s), CoreSettingsOf(t);
    if Agree(s, t) {
      assert a.texts == b.texts && a.numbers == b.numbers && a.flags == b.flags;
    }
  }

  lemma BlankedLists(s: S.Settings)
    ensures CoreSettingsOf(s).bypassIP == s.bypassIP && CoreSettingsOf(s).bypassMAC == s.bypassMAC
  {
  }

  ghost predicate SameCoreTexts(s: S.Settings, t: S.Settings)
    requires S.Complete(s) && S.Complete(t)
  {
    && s.texts[S.Mode] == t.texts[S.Mode] && s.texts[S.Sniff] == t.texts[S.Sniff]
    && s.texts[S.DNS] == t.texts[S.DNS] && s.texts[S.DNSMode] == t.texts[S.DNSMode]
    && s.texts[S.LogLevel] == t.texts[S.LogLevel] && s.texts[S.FwMark] == t.texts[S.FwMark]
    && s.texts[S.XrayBin] == t.texts[S.XrayBin]
  }

  ghost predicate SameCoreNumbers(s: S.Settings, t: S.Settings)
    requires S.Complete(s) && S.Complete(t)
  {
    && s.numbers[S.StatsPort] == t.numbers[S.StatsPort] && s.numbers[S.SocksPort] == t.numbers[S.SocksPort]
    && s.numbers[S.HTTPPort] == t.numbers[S.HTTPPort] && s.numbers[S.TProxyPort] == t.numbers[S.TProxyPort]
    && s.numbers[S.DNSPort] == t.numbers[S.DNSPort] && s.numbers[S.ConnIdle] == t.numbers[S.ConnIdle]
    && s.numbers[S.KeepAlive] == t.numbers[S.KeepAlive]
  }

  /** The settings agree on the options that the core's configuration is built from. */
  ghost predicate AgreeForCore(s: S.Settings, t: S.Settings)
    requires S.Complete(s) && S.Complete(t)
  {
    && SameCoreTexts(s, t) && SameCoreNumbers(s, t)
    && s.flags[S.AllowLAN] == t.flags[S.AllowLAN] && s.flags[S.IPv6] == t.flags[S.IPv6]
    && s.bypassIP == t.bypassIP
  }

  lemma SameInbounds(s: S.Settings, t: S.Settings, rules: seq<S.Rule>)
    requires S.Complete(s) && S.Complete(t) && AgreeForCore(s, t)
    ensures C.Inbounds(s, rules) == C.Inbounds(t, rules) && C.DNSOn(s) == C.DNSOn(t)
  {
    hide C.NeedsNames, S.Complete;
  }

  lemma SameOutbounds(env: C.Env, s: S.Settings, t: S.Settings, rules: seq<S.Rule>)
    requires S.Complete(s) && S.Complete(t) && AgreeForCore(s, t)
    ensures C.Mark(env, s) == C.Mark(env, t) && C.Servers(env, s, rules) == C.Servers(env, t, rules)
    ensures C.Fixed(s, C.Mark(env, s)) == C.Fixed(t, C.Mark(env, t))
  {
    hide C.Upstream, C.BypassMatchers;
  }

  /** No other setting can reach the core's configuration. */
  lemma OnlyTheseSettingsReach(env: C.Env, i: C.Inputs, t: S.Settings)
    requires C.Whole(i) && S.Complete(t) && AgreeForCore(i.settings, t)
    ensures C.Built(env, i.(settings := t)) == C.Built(env, i)
  {
    hide C.Inbounds, C.DNSOn, C.Servers, C.Mark, C.Fixed, C.Server, C.MemberOutbounds, C.AllKeptAlive, C.RulesOf,
         C.ToRules, C.ObservatoryFor, C.BalancerFor, C.ValidGroup, C.Access, S.DefaultNumber;
    SameInbounds(i.settings, t, i.rules);
    SameOutbounds(env, i.settings, t, i.rules);
  }

  /** In particular none of the five can. */
  lemma BlankedSettingsReachNothing(env: C.Env, i: C.Inputs, t: S.Settings)
    requires C.Whole(i) && S.Complete(t) && Agree(i.settings, t)
    ensures C.Built(env, i.(settings := t)) == C.Built(env, i)
  {
    hide C.Built, Agree, AgreeForCore, S.Complete;
    AgreedForCore(i.settings, t);
    OnlyTheseSettingsReach(env, i, t);
  }

  lemma AgreedForCore(s: S.Settings, t: S.Settings)
    requires S.Complete(s) && S.Complete(t) && Agree(s, t)
    ensures AgreeForCore(s, t)
  {
    hide SameCoreTexts, SameCoreNumbers, S.Complete;
    AgreedTexts(s, t);
    AgreedNumbers(s, t);
  }

  lemma AgreedTexts(s: S.Settings, t: S.Settings)
    requires S.Complete(s) && S.Complete(t) && Agree(s, t)
    ensures SameCoreTexts(s, t)
  {
    hide S.Complete;
  }

  lemma AgreedNumbers(s: S.Settings, t: S.Settings)
    requires S.Complete(s) && S.Complete(t) && Agree(s, t)
    ensures SameCoreNumbers(s, t)
  {
    hide S.Complete;
  }

  // ----- equal material

  /** The id names a profile and a group at once. */
  predicate Ambiguous(d: S.Data, target: string) {
    FindGroup(d.groups, target).Some? && FindProfile(d.profiles, target).Some?
  }

  /** A profile that shares its id with the group that is connected stops the build when it is not
      valid, and takes no other part in it. */
  predicate Blocks(env: C.Env, d: S.Data, target: string) {
    var p := FindProfile(d.profiles, target);
    FindGroup(d.groups, target).Some? && p.Some? && !env.validProfile(p.value)
  }

  /** The build without the profile that shares the group's id. */
  ghost function UnblockedBuild(env: C.Env, d: S.Data, target: string): Option<C.Config>
    requires S.Whole(d)
  {
    InputsAreWhole(d, target);
    var i := InputsOf(d, target);
    C.Built(env, if i.group.Some? then i.(profile := None) else i)
  }

  lemma ProfileOnlyBlocks(env: C.Env, d: S.Data, target: string)
    requires S.Whole(d)
    ensures ConnectBuild(env, d, target) == if Blocks(env, d, target) then None else UnblockedBuild(env, d, target)
  {
    hide C.Inbounds, C.Servers, C.Mark, C.Fixed, C.Server, C.MemberOutbounds, C.AllKeptAlive, C.RulesOf, C.ToRules,
         C.ObservatoryFor, C.BalancerFor, C.ValidGroup, C.Access, S.DefaultNumber, MembersOf, FindProfile, FindGroup;
    InputsAreWhole(d, target);
  }

  lemma SameUnblocked(env: C.Env, d: S.Data, e: S.Data, target: string)
    requires S.Whole(d) && S.Whole(e) && MaterialFor(d, target) == MaterialFor(e, target)
    ensures UnblockedBuild(env, d, target) == UnblockedBuild(env, e, target)
  {
    hide C.Built, MembersOf, FindProfile, FindGroup, CoreSettingsOf, Agree, S.WholeProfile;
    InputsAreWhole(d, target);
    InputsAreWhole(e, target);
    BlankedIsAgreed(d.settings, e.settings);
    var i, j := InputsOf(d, target), InputsOf(e, target);
    var a := if i.group.Some? then i.(profile := None) else i;
    var b := if j.group.Some? then j.(profile := None) else j;
    assert b == a.(settings := e.settings);
    BlankedSettingsReachNothing(env, a, e.settings);
  }

  /** Configurations of equal material build the same, whatever the environment, exactly when a
      profile of the group's own id stops both builds or neither, or the build fails anyway. */
  lemma SameMaterialBuildsExactlyWhen(env: C.Env, d: S.Data, e: S.Data, target: string)
    requires S.Whole(d) && S.Whole(e) && MaterialFor(d, target) == MaterialFor(e, target)
    ensures ConnectBuild(env, d, target) == ConnectBuild(env, e, target) <==>
            (Blocks(env, d, target) == Blocks(env, e, target) || UnblockedBuild(env, d, target).None?)
  {
    hide ConnectBuild, UnblockedBuild, Blocks, MaterialFor;
    SameUnblocked(env, d, e, target);
    ProfileOnlyBlocks(env, d, target);
    ProfileOnlyBlocks(env, e, target);
  }

  /** As long as no id names a profile and a group at once, equal material means equal
      configurations for the core in every environment. */
  lemma SameMaterialSameBuild(env: C.Env, d: S.Data, e: S.Data, target: string)
    requires S.Whole(d) && S.Whole(e) && !Ambiguous(d, target) && !Ambiguous(e, target)
    requires MaterialFor(d, target) == MaterialFor(e, target)
    ensures ConnectBuild(env, d, target) == ConnectBuild(env, e, target)
  {
    hide ConnectBuild, UnblockedBuild, MaterialFor;
    SameMaterialBuildsExactlyWhen(env, d, e, target);
  }

  // ----- edits

  /** The profiles a connection to the target can have anything to do with. */
  predicate Concerns(d: S.Data, target: string, id: string) {
    var g := FindGroup(d.groups, target);
    if g.Some? then id in g.value.members else id == target
  }

  /** Nothing that the connection has to do with was edited: the target's group, the servers it
      concerns, the rules, and every setting but the five. */
  ghost predicate Unedited(d: S.Data, e: S.Data, target: string)
    requires S.Complete(d.settings) && S.Complete(e.settings)
  {
    && FindGroup(d.groups, target) == FindGroup(e.groups, target)
    && (forall id :: Concerns(d, target, id) ==> FindProfile(d.profiles, id) == FindProfile(e.profiles, id))
    && d.rules == e.rules && Agree(d.settings, e.settings)
  }

  lemma {:induction false} SameMembers(a: seq<S.Profile>, b: seq<S.Profile>, ids: seq<string>)
    requires forall id :: id in ids ==> FindProfile(a, id) == FindProfile(b, id)
    ensures MembersOf(a, ids) == MembersOf(b, ids)
  {
    if ids != [] {
      SameMembers(a, b, ids[..|ids| - 1]);
      assert ids[|ids| - 1] in ids;
    }
  }

  lemma {:induction false} MembersAreFound(profiles: seq<S.Profile>, ids: seq<string>)
    ensures forall p :: p in MembersOf(profiles, ids) <==> p.id in ids && FindProfile(profiles, p.id) == Some(p)
  {
    hide FindProfile;
    if ids != [] {
      MembersAreFound(profiles, ids[..|ids| - 1]);
      var id := ids[|ids| - 1];
      assert ids == ids[..|ids| - 1] + [id];
      FoundByID(profiles, id);
    }
  }

  lemma FoundByID(profiles: seq<S.Profile>, id: string)
    ensures var p := FindProfile(profiles, id); p.Some? ==> p.value.id == id
  {
  }

  /** An id names the first server that has it, or none. */
  lemma {:induction false} FirstIsFound(profiles: seq<S.Profile>, id: string, i: nat)
    requires i <= |profiles| && (forall j :: 0 <= j < i ==> profiles[j].id != id)
    requires i < |profiles| ==> profiles[i].id == id
    ensures FindProfile(profiles, id) == if i < |profiles| then Some(profiles[i]) else None
  {
    if i > 0 {
      assert forall j :: 0 <= j < |profiles| - 1 ==> profiles[1..][j] == profiles[j + 1];
      FirstIsFound(profiles[1..], id, i - 1);
    }
  }

  /** Members are taken in the group's order, those that name no server left out. */
  lemma {:induction false} MembersJoin(profiles: seq<S.Profile>, a: seq<string>, b: seq<string>)
    ensures MembersOf(profiles, a + b) == MembersOf(profiles, a) + MembersOf(profiles, b)
    ensures |a| == 1 ==>
              MembersOf(profiles, a) ==
              match FindProfile(profiles, a[0]) case Some(p) => [p] case None => []
  {
    hide FindProfile;
    if b == [] {
      assert a + b == a;
    } else {
      assert (a + b)[..|a + b| - 1] == a + b[..|b| - 1];
      MembersJoin(profiles, a, b[..|b| - 1]);
    }
  }

  /** The members tell what each of the ids names. */
  lemma MembersTell(a: seq<S.Profile>, b: seq<S.Profile>, ids: seq<string>)
    requires MembersOf(a, ids) == MembersOf(b, ids)
    ensures forall id :: id in ids ==> FindProfile(a, id) == FindProfile(b, id)
  {
    hide MembersOf, FindProfile;
    MembersAreFound(a, ids);
    MembersAreFound(b, ids);
    forall id | id in ids ensures FindProfile(a, id) == FindProfile(b, id) {
      FoundByID(a, id);
      FoundByID(b, id);
      if FindProfile(a, id).Some? {
        assert FindProfile(a, id).value in MembersOf(b, ids);
      }
      if FindProfile(b, id).Some? {
        assert FindProfile(b, id).value in MembersOf(a, ids);
      }
    }
  }

  /** The material stays the same exactly when the target does and nothing that the connection has
      to do with is edited. */
  lemma MaterialTellsEdits(d: S.Data, e: S.Data, target: string, now: string)
    requires S.Complete(d.settings) && S.Complete(e.settings)
    ensures MaterialFor(d, target) == MaterialFor(e, now) <==> target == now && Unedited(d, e, target)
  {
    hide MembersOf, FindProfile, FindGroup, CoreSettingsOf, Agree;
    BlankedIsAgreed(d.settings, e.settings);
    var g := FindGroup(d.groups, target);
    if target == now && g.Some? && g == FindGroup(e.groups, target) {
      if Unedited(d, e, target) {
        forall id | id in g.value.members ensures FindProfile(d.profiles, id) == FindProfile(e.profiles, id) {
          assert Concerns(d, target, id);
        }
        SameMembers(d.profiles, e.profiles, g.value.members);
      } else if MembersOf(d.profiles, g.value.members) == MembersOf(e.profiles, g.value.members) {
        MembersTell(d.profiles, e.profiles, g.value.members);
      }
    }
    if target == now && g.None? {
      assert Concerns(d, target, target);
    }
  }

  function DefaultSettings(): (s: S.Settings)
    ensures S.Complete(s)
  {
    S.Settings(map o: S.TextOpt :: S.DefaultText(o), map o: S.NumberOpt :: S.DefaultNumber(o),
               map o: S.FlagOpt :: S.DefaultFlag(o), [], [])
  }

  predicate NoFlag(f: S.ProfileFlag) {
    false
  }

  function PlainServer(id: string, port: int): (p: S.Profile)
    ensures S.WholeProfile(p) && p.id == id && p.port == port && p.texts[S.Proto] == "vless"
  {
    S.Profile(id, map o: S.ProfileText :: S.ProfileDefault(o), port, 0, map f: S.ProfileFlag :: NoFlag(f))
  }

  /** A group of one server, and a second server that has the group's id. */
  function SharedID(port: int): S.Data {
    S.Data(DefaultSettings(), [PlainServer("m", 443), PlainServer("x", port)],
           [S.Group("x", "", "random", ["m"], "", "")], [], [])
  }

  function PlainEnv(): C.Env {
    var world := C.L.World((a, b) => false, (a, b) => false, (a, b) => false, (a, b) => false, a => false, a => false,
                           a => false);
    C.Env(world, false, [], [], t => C.Modes.Malformed, (p: S.Profile) => p.port != 0, t => true,
          (p, b) => Some(C.Dialled("", "tcp", "")))
  }

  lemma SharedIDIsFound(port: int)
    ensures S.Whole(SharedID(port)) && FindGroup(SharedID(port).groups, "x") == Some(SharedID(port).groups[0])
    ensures FindProfile(SharedID(port).profiles, "x") == Some(PlainServer("x", port))
    ensures MembersOf(SharedID(port).profiles, ["m"]) == [PlainServer("m", 443)]
  {
    hide PlainServer, DefaultSettings;
    var ps := SharedID(port).profiles;
    assert ps[1..] == [PlainServer("x", port)];
    assert ["m"][..0] == [];
    assert MembersOf(ps, []) == [];
  }

  lemma SharedIDBuilds(port: int)
    ensures S.Whole(SharedID(port)) && UnblockedBuild(PlainEnv(), SharedID(port), "x").Some?
  {
    hide PlainServer, DefaultSettings, C.RulesOf, C.Inbounds, C.Servers, C.Mark, C.Fixed, C.AllKeptAlive,
         C.ObservatoryFor, C.BalancerFor, C.Access, S.DefaultNumber, C.MemberOutbounds, MembersOf, FindProfile,
         FindGroup;
    SharedIDIsFound(port);
    var env, d := PlainEnv(), SharedID(port);
    var members, mark := [PlainServer("m", 443)], C.Mark(env, d.settings);
    C.MembersInOrder(env, d.settings.texts[S.XrayBin], members, mark);
    C.ServerMeans(env, d.settings.texts[S.XrayBin], members[0], C.MemberTag(0), mark);
    InputsAreWhole(d, "x");
  }

  /** An id that names both hides an edit of the profile that stops the next connect. */
  lemma SharedIdHidesAnEdit()
    ensures exists env: C.Env, d: S.Data, e: S.Data, target ::
              S.Whole(d) && S.Whole(e) && MaterialFor(d, target) == MaterialFor(e, target)
              && ConnectBuild(env, d, target) != ConnectBuild(env, e, target)
  {
    hide ConnectBuild, UnblockedBuild, PlainServer, DefaultSettings, MembersOf, FindProfile, FindGroup, CoreSettingsOf,
         S.WholeProfile, S.Complete;
    var env, d, e := PlainEnv(), SharedID(443), SharedID(0);
    SharedIDIsFound(443);
    SharedIDIsFound(0);
    SharedIDBuilds(443);
    SameMaterialBuildsExactlyWhen(env, d, e, "x");
  }

  function WithoutProfile(profiles: seq<S.Profile>, id: string): seq<S.Profile> {
    if profiles == [] then []
    else if profiles[0].id == id then WithoutProfile(profiles[1..], id)
    else [profiles[0]] + WithoutProfile(profiles[1..], id)
  }

  lemma {:induction false} OthersAreFound(profiles: seq<S.Profile>, id: string, other: string)
    requires id != other
    ensures FindProfile(WithoutProfile(profiles, id), other) == FindProfile(profiles, other)
  {
    if profiles != [] {
      OthersAreFound(profiles[1..], id, other);
      if profiles[0].id != id {
        assert WithoutProfile(profiles, id)[1..] == WithoutProfile(profiles[1..], id);
      }
    }
  }

  lemma {:induction false} FoundBehind(profiles: seq<S.Profile>, p: S.Profile, id: string)
    requires p.id != id
    ensures FindProfile(profiles + [p], id) == FindProfile(profiles, id)
  {
    if profiles == [] {
      assert profiles + [p] == [p];
    } else {
      assert (profiles + [p])[1..] == profiles[1..] + [p];
      FoundBehind(profiles[1..], p, id);
    }
  }

  /** Deleting, adding or replacing a server that the connection has nothing to do with leaves
      nothing to apply. */
  lemma OtherServersAreInvisible(d: S.Data, target: string, p: S.Profile)
    requires S.Complete(d.settings) && !Concerns(d, target, p.id)
    ensures Unedited(d, d.(profiles := WithoutProfile(d.profiles, p.id)), target)
    ensures Unedited(d, d.(profiles := d.profiles + [p]), target)
    ensures Unedited(d, d.(profiles := WithoutProfile(d.profiles, p.id) + [p]), target)
  {
    forall id | Concerns(d, target, id)
      ensures FindProfile(WithoutProfile(d.profiles, p.id), id) == FindProfile(d.profiles, id)
      ensures FindProfile(d.profiles + [p], id) == FindProfile(d.profiles, id)
      ensures FindProfile(WithoutProfile(d.profiles, p.id) + [p], id) == FindProfile(d.profiles, id)
    {
      OthersAreFound(d.profiles, p.id, id);
      FoundBehind(d.profiles, p, id);
      FoundBehind(WithoutProfile(d.profiles, p.id), p, id);
    }
  }

  /** Connecting stores the target as the active one; that leaves nothing to apply. */
  lemma ConnectingLeavesNothingToApply(d: S.Data, target: string, kind: string)
    requires S.Complete(d.settings)
    ensures var s := d.settings;
            var e := d.(settings := s.(texts := s.texts[S.Active := target][S.ActiveKind := kind],
                                       flags := s.flags[S.Enabled := true]));
            S.Complete(e.settings) && e.settings.texts[S.Active] == target && Unedited(d, e, target)
  {
  }

  lemma AnotherSource(s: S.Settings, repo: string)
    requires S.Complete(s) && repo != s.texts[S.UpdateRepo]
    ensures var t := s.(texts := s.texts[S.UpdateRepo := repo]); S.Complete(t) && AgreeForCore(s, t) && !Agree(s, t)
  {
    var t := s.(texts := s.texts[S.UpdateRepo := repo]);
    assert t.texts[S.UpdateRepo] != s.texts[S.UpdateRepo];
  }

  lemma UneditedAgrees(d: S.Data, e: S.Data, target: string)
    requires S.Complete(d.settings) && S.Complete(e.settings)
    ensures Unedited(d, e, target) ==> Agree(d.settings, e.settings)
  {
    hide Agree;
  }

  /** Not every edit that is noticed makes a difference: another release source changes the
      material, and the configuration that is built stays the same. */
  lemma SomeNoticedEditsReachNothing(env: C.Env, d: S.Data, target: string, repo: string)
    requires S.Whole(d) && repo != d.settings.texts[S.UpdateRepo]
    ensures var e := d.(settings := d.settings.(texts := d.settings.texts[S.UpdateRepo := repo]));
            (&& S.Whole(e) && !Unedited(d, e, target) && MaterialFor(d, target) != MaterialFor(e, target)
             && ConnectBuild(env, d, target) == ConnectBuild(env, e, target))
  {
    hide C.Built, MaterialFor, Unedited, Agree, AgreeForCore, S.Complete, S.WholeProfile;
    AnotherSource(d.settings, repo);
    var e := d.(settings := d.settings.(texts := d.settings.texts[S.UpdateRepo := repo]));
    UneditedAgrees(d, e, target);
    MaterialTellsEdits(d, e, target, target);
    InputsAreWhole(d, target);
    OnlyTheseSettingsReach(env, InputsOf(d, target), e.settings);
  }

  // ----- the notice

  class Connection {
    var connected: bool
    var live: Option<Material>
    ghost var built: S.Data
    ghost var target: string

    /** What is kept is the material of the configuration that the connection was built from. */
    ghost predicate Valid()
      reads this
    {
      connected && live.Some? ==> S.Whole(built) && live.value == MaterialFor(built, target)
    }

    constructor ()
      ensures Valid() && !connected
    {
      connected, live := false, None;
    }

    /** `hashed` says whether the material could be taken. */
    method Connected(d: S.Data, id: string, hashed: bool)
      requires S.Whole(d)
      modifies this
      ensures Valid() && connected && built == d && target == id && (live.Some? <==> hashed)
    {
      connected, built, target := true, d, id;
      live := if hashed then Some(MaterialFor(d, id)) else None;
    }

    method Disconnected()
      modifies this
      ensures Valid() && !connected && live == None
    {
      connected, live := false, None;
    }

    /** Says that something is left to apply unless nothing the connection has to do with was
        edited; then the core would be given the same configuration again. */
    method ConfigChanged(stored: Option<S.Data>) returns (changed: bool)
      requires Valid() && (stored.Some? ==> S.Whole(stored.value))
      ensures !connected ==> !changed
      ensures connected && (live == None || stored == None) ==> changed
      ensures connected && live.Some? && stored.Some? ==>
                (!changed <==>
                 stored.value.settings.texts[S.Active] == target && Unedited(built, stored.value, target))
      ensures connected && !changed && !Ambiguous(built, target) && !Ambiguous(stored.value, target) ==>
                forall env :: ConnectBuild(env, stored.value, target) == ConnectBuild(env, built, target)
    {
      hide MaterialFor, Unedited, ConnectBuild, Ambiguous, S.WholeProfile;
      if !connected {
        return false;
      }
      if live == None {
        return true;
      }
      if stored == None {
        return true;
      }
      var active := stored.value.settings.texts[S.Active];
      MaterialTellsEdits(built, stored.value, target, active);
      changed := MaterialFor(stored.value, active) != live.value;
      if !changed && !Ambiguous(built, target) && !Ambiguous(stored.value, target) {
        forall env ensures ConnectBuild(env, stored.value, target) == ConnectBuild(env, built, target) {
          SameMaterialSameBuild(env, stored.value, built, target);
        }
      }
    }
  }
}
