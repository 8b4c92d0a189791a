/**
 The configuration saved to its file and loaded again (internal/ucicfg/store.go): the main
 section is found by its name, the others by their type.
 */
module StoreFile {
  import opened Optional
  import opened Strings
  import opened UciText
  import opened Store
  import opened StoreText
  import M = UciModel

  // ----- load

  function Typed(sections: seq<M.Section>, kind: Kind): seq<Section> {
    if sections == [] then []
    else
      var init := Typed(sections[..|sections| - 1], kind);
      var s := sections[|sections| - 1];
      if s.typ == TypeName(kind) then init + [FromText(kind, s)] else init
  }

  /** The first section that is called main, whatever its type. */
  function MainNamed(sections: seq<M.Section>): seq<Section> {
    if sections == [] then []
    else
      var init := MainNamed(sections[..|sections| - 1]);
      var s := sections[|sections| - 1];
      if init == [] && s.name == MAIN then [FromText(Main, s)] else init
  }

  function FromPackage(p: M.Package): seq<Section> {
    MainNamed(p.sections) + Typed(p.sections, Profiles) + Typed(p.sections, Groups) + Typed(p.sections, Rules)
    + Typed(p.sections, Subscriptions)
  }

  function LoadText(text: string): Data {
    Load(FromPackage(M.Parsed(PACKAGE, text)))
  }

  // ----- save

  /** The sections as they are printed, whatever the order the options of each were set in. */
  ghost function ToSections(sections: seq<Section>, orders: nat -> seq<string>): (r: seq<M.Section>)
    requires AllFit(sections)
    ensures |r| == |sections|
  {
    seq(|sections|, i requires 0 <= i < |sections| => ToText(sections[i], orders(i)))
  }

  ghost function SaveText(d: Data, orders: nat -> seq<string>): string
    requires Whole(d)
  {
    SavedFits(d, '\n');
    M.Text(M.Package(PACKAGE, ToSections(Save(d), orders)))
  }

  // ----- what is read of it

  ghost function ReadName(s: Section, order: seq<string>, before: seq<M.Section>): string
    requires Fits(s)
  {
    M.NameRead(ToText(s, order), M.AnonCount(before))
  }

  /** The sections with every value and every name cut at its first apostrophe. */
  ghost function ReadSections(sections: seq<Section>, orders: nat -> seq<string>): (r: seq<Section>)
    requires AllFit(sections)
    ensures |r| == |sections|
  {
    var t := ToSections(sections, orders);
    seq(|sections|, i requires 0 <= i < |sections| => Cutoff(sections[i], ReadName(sections[i], orders(i), t[..i])))
  }

  lemma OneMoreSection(sections: seq<Section>, orders: nat -> seq<string>)
    requires sections != [] && AllFit(sections)
    ensures var init, n := sections[..|sections| - 1], |sections| - 1;
            (&& AllFit(init)
             && ToSections(sections, orders) == ToSections(init, orders) + [ToText(sections[n], orders(n))]
             && ReadSections(sections, orders) ==
                ReadSections(init, orders)
                + [Cutoff(sections[n], ReadName(sections[n], orders(n), ToSections(init, orders)))])
  {
    hide Fits, ToText, Cutoff, ReadName;
    var init, n := sections[..|sections| - 1], |sections| - 1;
    var t, u := ToSections(sections, orders), ToSections(init, orders);
    assert t == u + [ToText(sections[n], orders(n))];
    forall i | 0 <= i < n ensures t[..i] == u[..i] {
    }
    assert t[..n] == u;
  }

  lemma OneMoreRead(before: seq<M.Section>, t: M.Section)
    ensures M.AllReadBack(before + [t]) == M.AllReadBack(before) + [M.ReadBack(t, M.AnonCount(before))]
  {
    hide M.ReadBack, M.AnonCount;
    assert (before + [t])[..|before|] == before;
  }

  lemma OneMoreTyped(before: seq<M.Section>, t: M.Section, kind: Kind)
    ensures Typed(before + [t], kind) ==
            Typed(before, kind) + if t.typ == TypeName(kind) then [FromText(kind, t)] else []
    ensures MainNamed(before + [t]) ==
            if MainNamed(before) == [] && t.name == MAIN then [FromText(Main, t)] else MainNamed(before)
  {
    hide FromText, TypeName;
    assert (before + [t])[..|before|] == before;
  }

  lemma OneMoreOfKind(before: seq<Section>, s: Section, kind: Kind)
    ensures OfKind(before + [s], kind) == OfKind(before, kind) + if s.kind == kind then [s] else []
  {
    assert (before + [s])[..|before|] == before;
  }

  lemma TextKept(s: Section, order: seq<string>, anon: nat)
    requires Fits(s)
    ensures var t := M.ReadBack(ToText(s, order), anon);
            t.typ == TypeName(s.kind) && t.name == M.NameRead(ToText(s, order), anon)
  {
    hide M.NameRead, M.Written, Fits;
  }

  lemma {:induction false} TypedOfRead(sections: seq<Section>, orders: nat -> seq<string>, kind: Kind)
    requires AllFit(sections)
    ensures Typed(M.AllReadBack(ToSections(sections, orders)), kind) == OfKind(ReadSections(sections, orders), kind)
  {
    if sections != [] {
      hide Fits, ToText, Cutoff, M.ReadBack, M.AnonCount, M.AllReadBack, ToSections, ReadSections, Typed, OfKind,
           FromText, M.NameRead, TypeName;
      var init, n := sections[..|sections| - 1], |sections| - 1;
      var s, u := sections[n], ToSections(init, orders);
      OneMoreSection(sections, orders);
      TypedOfRead(init, orders, kind);
      var t, anon := ToText(s, orders(n)), M.AnonCount(u);
      OneMoreRead(u, t);
      OneMoreTyped(M.AllReadBack(u), M.ReadBack(t, anon), kind);
      TextKept(s, orders(n), anon);
      SectionComesBack(s, orders(n), anon);
      TypesDiffer(s.kind, kind);
      OneMoreOfKind(ReadSections(init, orders), Cutoff(s, ReadName(s, orders(n), u)), kind);
      CutoffKind(s, ReadName(s, orders(n), u));
    }
  }

  lemma CutoffKind(s: Section, name: string)
    ensures Cutoff(s, name).kind == s.kind && Cutoff(s, name).id == name
  {
    hide Cut, M.CutAll;
  }

  lemma MainIsRead(s: Section, order: seq<string>)
    requires Fits(s) && s.id == MAIN
    ensures ReadName(s, order, []) == MAIN
  {
    hide Fits;
    CutKeeps(MAIN);
  }

  lemma {:induction false} MainOfRead(sections: seq<Section>, orders: nat -> seq<string>)
    requires AllFit(sections) && sections != [] && sections[0].id == MAIN && sections[0].kind == Main
    ensures MainNamed(M.AllReadBack(ToSections(sections, orders))) == [ReadSections(sections, orders)[0]]
    ensures ReadSections(sections, orders)[0].kind == Main
  {
    hide Fits, ToText, Cutoff, M.ReadBack, M.AnonCount, M.AllReadBack, ToSections, ReadSections, Typed, MainNamed,
         FromText, M.NameRead, TypeName;
    var init, n := sections[..|sections| - 1], |sections| - 1;
    var s, u := sections[n], ToSections(init, orders);
    OneMoreSection(sections, orders);
    var t, anon := ToText(s, orders(n)), M.AnonCount(u);
    OneMoreRead(u, t);
    OneMoreTyped(M.AllReadBack(u), M.ReadBack(t, anon), Main);
    if n == 0 {
      NothingRead(u);
      MainIsRead(s, orders(0));
      TextKept(s, orders(0), anon);
      SectionComesBack(s, orders(0), anon);
      CutoffKind(s, MAIN);
    } else {
      MainOfRead(init, orders);
    }
  }

  lemma NothingRead(none: seq<M.Section>)
    requires none == []
    ensures M.AllReadBack(none) == [] && MainNamed([]) == []
  {
  }

  lemma {:induction false} AllTyped(sections: seq<M.Section>, kind: Kind)
    ensures AllOf(Typed(sections, kind), kind)
  {
    hide FromText, TypeName;
    if sections != [] {
      AllTyped(sections[..|sections| - 1], kind);
      FromTextKind(kind, sections[|sections| - 1]);
    }
  }

  lemma {:induction false} AllMain(sections: seq<M.Section>)
    ensures AllOf(MainNamed(sections), Main)
  {
    hide FromText;
    if sections != [] {
      AllMain(sections[..|sections| - 1]);
      FromTextKind(Main, sections[|sections| - 1]);
    }
  }

  lemma FromTextKind(kind: Kind, t: M.Section)
    ensures FromText(kind, t).kind == kind && FromText(kind, t).id == t.name
  {
  }

  /** What the sections of each kind are taken from. */
  lemma KindsOfPackage(p: M.Package, kind: Kind)
    ensures OfKind(FromPackage(p), kind) == if kind == Main then MainNamed(p.sections) else Typed(p.sections, kind)
  {
    hide OfKind, Typed, MainNamed;
    var m, ps, gs := MainNamed(p.sections), Typed(p.sections, Profiles), Typed(p.sections, Groups);
    var rs, ss := Typed(p.sections, Rules), Typed(p.sections, Subscriptions);
    AllMain(p.sections);
    AllTyped(p.sections, Profiles);
    AllTyped(p.sections, Groups);
    AllTyped(p.sections, Rules);
    AllTyped(p.sections, Subscriptions);
    OfOneKind(m, Main, kind);
    OfOneKind(ps, Profiles, kind);
    OfOneKind(gs, Groups, kind);
    OfOneKind(rs, Rules, kind);
    OfOneKind(ss, Subscriptions, kind);
    OfKindJoins(m + ps + gs + rs, ss, kind);
    OfKindJoins(m + ps + gs, rs, kind);
    OfKindJoins(m + ps, gs, kind);
    OfKindJoins(m, ps, kind);
  }

  lemma {:induction false} FirstStays(sections: seq<Section>)
    requires sections != []
    ensures var own := OfKind(sections, sections[0].kind); own != [] && own[0] == sections[0]
  {
    var init, s := sections[..|sections| - 1], sections[|sections| - 1];
    OneMoreOfKind(init, s, sections[0].kind);
    assert init + [s] == sections;
    if init == [] {
      assert OfKind(init, s.kind) == [];
    } else {
      FirstStays(init);
    }
  }

  lemma SameLoad(a: seq<Section>, b: seq<Section>)
    requires forall kind :: kind != Main ==> OfKind(a, kind) == OfKind(b, kind)
    requires OfKind(a, Main) != [] && OfKind(b, Main) != [] && OfKind(a, Main)[0] == OfKind(b, Main)[0]
    ensures Load(a) == Load(b)
  {
    hide OfKind, LoadSettings, LoadProfile, LoadGroup, LoadRule, LoadSubscription;
  }

  /** What is loaded from a file that was saved: the saved sections, every text cut at its first
      apostrophe. */
  lemma SavedIsRead(d: Data, orders: nat -> seq<string>)
    requires Whole(d) && Lacks(d, '\n')
    ensures AllFit(Save(d)) && LoadText(SaveText(d, orders)) == Load(ReadSections(Save(d), orders))
  {
    hide Fits, Lacks, AllFit, M.Text, M.Parsed, M.PrintableSection, ToText, Load, OfKind, FromPackage, ReadSections,
         MainNamed, Typed, M.AllReadBack, SectionLacks, Cutoff, TypeName, Save, Bare;
    SavedFits(d, '\n');
    var saved := Save(d);
    var p := M.Package(PACKAGE, ToSections(saved, orders));
    SavedIsPrintable(saved, orders);
    M.WrittenIsReadBack(p);
    var q := M.AsRead(p);
    var f, r := FromPackage(q), ReadSections(saved, orders);
    SavedStartsWithMain(d);
    MainOfRead(saved, orders);
    FirstStays(r);
    KindsOfPackage(q, Main);
    forall kind | kind != Main ensures OfKind(f, kind) == OfKind(r, kind) {
      KindsOfPackage(q, kind);
      TypedOfRead(saved, orders, kind);
    }
    SameLoad(f, r);
  }

  lemma SavedStartsWithMain(d: Data)
    requires Whole(d)
    ensures Save(d) != [] && Save(d)[0].id == MAIN && Save(d)[0].kind == Main
  {
    hide SavedTexts, SavedNumbers, SavedFlags, ProfileSections, GroupSections, RuleSections, SubscriptionSections;
  }

  lemma SavedIsPrintable(sections: seq<Section>, orders: nat -> seq<string>)
    requires AllFit(sections) && AllSectionsLack(sections, '\n')
    ensures M.Printable(M.Package(PACKAGE, ToSections(sections, orders)))
  {
    hide Fits, SectionLacks, ToText, M.PrintableSection;
    forall i | 0 <= i < |sections| ensures M.PrintableSection(ToText(sections[i], orders(i))) {
      SectionIsPrintable(sections[i], orders(i));
    }
  }

  // ----- what is loaded lacks what the sections lack

  lemma GetLacks(s: Section, k: Key, l: ListOpt, c: char)
    requires SectionLacks(s, c)
    ensures c !in Get(s, k) && AllLack(List(s, l), c)
  {
  }

  lemma DefaultLacks(o: TextOpt, c: char)
    requires Special(c)
    ensures c !in DefaultText(o)
  {
  }

  lemma NormalTextLacks(o: TextOpt, v: string, c: char)
    requires Special(c) && c !in v
    ensures c !in NormalText(o, v) && c !in TextRead(o, v) && c !in "mixed"
  {
    hide DefaultText;
    DefaultLacks(o, c);
  }

  lemma LoadedSettingsLack(s: Section, c: char)
    requires SectionLacks(s, c) && Special(c)
    ensures Complete(LoadSettings(s)) && SettingsLack(LoadSettings(s), c)
  {
    hide NormalText, NormalNumber, TextRead, ToBool, ToInt, Get, List, AllLack, SectionLacks;
    var r := Read(s);
    forall o: TextOpt ensures c !in NormalText(o, r.texts[o]) {
      GetLacks(s, Text(o), BypassIP, c);
      NormalTextLacks(o, Get(s, Text(o)), c);
      NormalTextLacks(o, r.texts[o], c);
    }
    GetLacks(s, ProxyUDP, BypassIP, c);
    GetLacks(s, ProxyUDP, BypassMAC, c);
  }

  lemma LoadedProfileLacks(s: Section, c: char)
    requires SectionLacks(s, c) && Special(c)
    ensures WholeProfile(LoadProfile(s)) && ProfileLacks(LoadProfile(s), c)
  {
    hide ToBool, ToInt, Get, List;
    var p := LoadProfile(s);
    forall o: ProfileText ensures c !in p.texts[o] {
      GetLacks(s, OfProfile(o), Member, c);
      ProfileDefaultLacks(o, c);
    }
  }

  lemma ProfileDefaultLacks(o: ProfileText, c: char)
    requires Special(c)
    ensures c !in ProfileDefault(o)
  {
  }

  lemma LoadedGroupLacks(s: Section, c: char)
    requires SectionLacks(s, c) && Special(c)
    ensures GroupLacks(LoadGroup(s), c)
  {
    hide NormalGroup, Get, List, SectionLacks;
    GetLacks(s, Name, Member, c);
    GetLacks(s, Strategy, Member, c);
    GetLacks(s, ProbeURL, Member, c);
    GetLacks(s, ProbeInterval, Member, c);
    SectionNameLacks(s, c);
    var g := Group(s.id, Get(s, Name), Get(s, Strategy), List(s, Member), Get(s, ProbeURL), Get(s, ProbeInterval));
    NormalGroupLacks(g, c);
  }

  lemma SectionNameLacks(s: Section, c: char)
    requires SectionLacks(s, c)
    ensures c !in s.id
  {
  }

  lemma LoadedRuleLacks(s: Section, c: char)
    requires SectionLacks(s, c) && Special(c)
    ensures RuleLacks(LoadRule(s), c)
  {
    hide ToBool, Get, List, SectionLacks, AllLack;
    GetLacks(s, Name, Domains, c);
    GetLacks(s, RuleAction, IPs, c);
    GetLacks(s, RulePort, Sources, c);
    GetLacks(s, RuleSourcePort, Protocols, c);
    GetLacks(s, RuleNetwork, Protocols, c);
    SectionNameLacks(s, c);
    var direct := "direct";
    assert c !in direct;
  }

  lemma LoadedSubscriptionLacks(s: Section, c: char)
    requires SectionLacks(s, c) && Special(c)
    ensures SubscriptionLacks(LoadSubscription(s), c)
  {
    hide ToInt;
  }

  lemma {:induction false} OfKindAre(sections: seq<Section>, kind: Kind)
    ensures forall i :: 0 <= i < |OfKind(sections, kind)| ==> OfKind(sections, kind)[i] in sections
  {
    if sections != [] {
      OfKindAre(sections[..|sections| - 1], kind);
    }
  }

  lemma OfKindLacks(sections: seq<Section>, kind: Kind, c: char)
    requires AllSectionsLack(sections, c)
    ensures AllSectionsLack(OfKind(sections, kind), c)
  {
    hide SectionLacks, OfKind;
    OfKindAre(sections, kind);
  }

  lemma NoMainLacks(c: char)
    requires Special(c)
    ensures SectionLacks(Section(Main, "main", map[], map[]), c)
  {
    var main := "main";
    assert c !in main;
  }

  /** Loading brings in neither of the two characters. */
  lemma LoadedLacks(sections: seq<Section>, c: char)
    requires AllSectionsLack(sections, c) && Special(c)
    ensures Whole(Load(sections)) && Lacks(Load(sections), c)
  {
    hide OfKind, LoadSettings, LoadProfile, LoadGroup, LoadRule, LoadSubscription, SectionLacks, SettingsLack,
         ProfileLacks, GroupLacks, RuleLacks, SubscriptionLacks, Complete, WholeProfile, Special;
    var d := Load(sections);
    var main := OfKind(sections, Main);
    OfKindLacks(sections, Main, c);
    NoMainLacks(c);
    LoadedSettingsLack(if main == [] then Section(Main, "main", map[], map[]) else main[0], c);
    OfKindLacks(sections, Profiles, c);
    forall i | 0 <= i < |d.profiles| ensures WholeProfile(d.profiles[i]) && ProfileLacks(d.profiles[i], c) {
      LoadedProfileLacks(OfKind(sections, Profiles)[i], c);
    }
    OfKindLacks(sections, Groups, c);
    forall i | 0 <= i < |d.groups| ensures GroupLacks(d.groups[i], c) {
      LoadedGroupLacks(OfKind(sections, Groups)[i], c);
    }
    OfKindLacks(sections, Rules, c);
    forall i | 0 <= i < |d.rules| ensures RuleLacks(d.rules[i], c) {
      LoadedRuleLacks(OfKind(sections, Rules)[i], c);
    }
    OfKindLacks(sections, Subscriptions, c);
    forall i | 0 <= i < |d.subscriptions| ensures SubscriptionLacks(d.subscriptions[i], c) {
      LoadedSubscriptionLacks(OfKind(sections, Subscriptions)[i], c);
    }
  }

  // ----- the round trip

  lemma CutoffLacks(s: Section, name: string, c: char)
    requires c == '\'' || (c == '\n' && SectionLacks(s, c))
    requires c !in name
    ensures SectionLacks(Cutoff(s, name), c)
  {
    hide Cut;
    var r := Cutoff(s, name);
    forall k | k in s.options ensures c !in r.options[k] {
      CutKeeps(s.options[k]);
    }
    forall l | l in s.lists ensures AllLack(r.lists[l], c) {
      forall i | 0 <= i < |s.lists[l]| ensures c !in r.lists[l][i] {
        CutKeeps(s.lists[l][i]);
      }
    }
  }

  lemma CutoffKeeps(s: Section)
    requires SectionLacks(s, '\'')
    ensures Cutoff(s, s.id) == s
  {
    hide Cut;
    var r := Cutoff(s, s.id);
    forall k | k in s.options ensures r.options[k] == s.options[k] {
      CutKeeps(s.options[k]);
    }
    forall l | l in s.lists ensures r.lists[l] == s.lists[l] {
      forall i | 0 <= i < |s.lists[l]| ensures r.lists[l][i] == s.lists[l][i] {
        CutKeeps(s.lists[l][i]);
      }
    }
    assert r.options == s.options && r.lists == s.lists;
  }

  lemma ReadNameLacks(s: Section, order: seq<string>, before: seq<M.Section>, c: char)
    requires Fits(s) && Special(c) && (c == '\n' ==> c !in s.id)
    ensures c !in ReadName(s, order, before)
    ensures s.id != "" && '\'' !in s.id ==> ReadName(s, order, before) == s.id
  {
    hide Cut, M.AnonName, M.AnonCount, TypeName, Fits;
    CutKeeps(s.id);
    TypesDiffer(s.kind, s.kind);
    M.NumberedName(TypeName(s.kind), M.AnonCount(before));
  }

  lemma ReadLacks(sections: seq<Section>, orders: nat -> seq<string>, c: char)
    requires AllFit(sections) && (c == '\'' || (c == '\n' && AllSectionsLack(sections, c)))
    ensures AllSectionsLack(ReadSections(sections, orders), c)
  {
    hide Fits, Cutoff, ReadName, SectionLacks;
    var t := ToSections(sections, orders);
    forall i | 0 <= i < |sections|
      ensures SectionLacks(Cutoff(sections[i], ReadName(sections[i], orders(i), t[..i])), c)
    {
      if c == '\n' {
        SectionNameLacks(sections[i], c);
      }
      ReadNameLacks(sections[i], orders(i), t[..i], c);
      CutoffLacks(sections[i], ReadName(sections[i], orders(i), t[..i]), c);
    }
  }

  ghost predicate AllNamed(sections: seq<Section>) {
    forall i :: 0 <= i < |sections| ==> sections[i].id != ""
  }

  lemma ReadIsSame(sections: seq<Section>, orders: nat -> seq<string>)
    requires AllFit(sections) && AllSectionsLack(sections, '\'') && AllNamed(sections)
    ensures ReadSections(sections, orders) == sections
  {
    hide Fits, Cutoff, ReadName, SectionLacks;
    var t := ToSections(sections, orders);
    forall i | 0 <= i < |sections|
      ensures Cutoff(sections[i], ReadName(sections[i], orders(i), t[..i])) == sections[i]
    {
      SectionNameLacks(sections[i], '\'');
      ReadNameLacks(sections[i], orders(i), t[..i], '\'');
      CutoffKeeps(sections[i]);
    }
  }

  /** Every entry has an id: saving gives one to what has none. */
  ghost predicate HasIDs(d: Data) {
    && (forall i :: 0 <= i < |d.profiles| ==> d.profiles[i].id != "")
    && (forall i :: 0 <= i < |d.groups| ==> d.groups[i].id != "")
    && (forall i :: 0 <= i < |d.rules| ==> d.rules[i].id != "")
    && (forall i :: 0 <= i < |d.subscriptions| ==> d.subscriptions[i].id != "")
  }

  lemma NamedJoin(a: seq<Section>, b: seq<Section>)
    requires AllNamed(a) && AllNamed(b)
    ensures AllNamed(a + b)
  {
  }

  lemma SavedIsNamed(d: Data)
    requires Whole(d) && HasIDs(d)
    ensures AllNamed(Save(d))
  {
    hide SavedTexts, SavedNumbers, SavedFlags, SavedProfileTexts, SavedProfileFlags, Itoa, FromBool, RuleOptions,
         RuleLists, OneText, OneList;
    var m, ps, gs := [SaveSettings(d.settings)], ProfileSections(d.profiles), GroupSections(d.groups);
    var rs, ss := RuleSections(d.rules), SubscriptionSections(d.subscriptions);
    NamedJoin(m, ps);
    NamedJoin(m + ps, gs);
    NamedJoin(m + ps + gs, rs);
    NamedJoin(m + ps + gs + rs, ss);
  }

  /** Whatever the file says: what is loaded has every option and an id for every entry, nothing
      in it is left to a default, and no text in it holds a newline. */
  lemma LoadedIsGood(text: string)
    ensures var d := LoadText(text); Whole(d) && Lacks(d, '\n') && HasIDs(d) && CanonicalData(d)
  {
    hide M.Parsed, Load, Save, Lacks, HasIDs, FromPackage, AllSectionsLack, AllNamed;
    var p := M.Parsed(PACKAGE, text);
    var sections := FromPackage(p);
    M.ParsedIsOneLine(PACKAGE, text);
    PackageLacksNewlines(p);
    LoadedLacks(sections, '\n');
    LoadedHasIDs(sections);
    LoadedConfigurationStays(sections);
    ConfigurationComesBack(Load(sections));
  }

  lemma FromTextLacks(kind: Kind, t: M.Section)
    requires M.LineSection(t)
    ensures SectionLacks(FromText(kind, t), '\n') && FromText(kind, t).id != ""
  {
    hide KeysOf, ListsOf;
  }

  lemma {:induction false} TypedLacks(sections: seq<M.Section>, kind: Kind)
    requires M.LineSections(sections)
    ensures AllSectionsLack(Typed(sections, kind), '\n') && AllNamed(Typed(sections, kind))
    ensures AllSectionsLack(MainNamed(sections), '\n') && AllNamed(MainNamed(sections))
  {
    hide FromText, TypeName, M.LineSection, SectionLacks;
    if sections != [] {
      TypedLacks(sections[..|sections| - 1], kind);
      FromTextLacks(kind, sections[|sections| - 1]);
      FromTextLacks(Main, sections[|sections| - 1]);
    }
  }

  lemma LackJoin(a: seq<Section>, b: seq<Section>, c: char)
    requires AllSectionsLack(a, c) && AllSectionsLack(b, c) && AllNamed(a) && AllNamed(b)
    ensures AllSectionsLack(a + b, c) && AllNamed(a + b)
  {
    hide SectionLacks;
  }

  lemma PackageLacksNewlines(p: M.Package)
    requires M.LineSections(p.sections)
    ensures AllSectionsLack(FromPackage(p), '\n') && AllNamed(FromPackage(p))
  {
    hide M.LineSections, AllSectionsLack, AllNamed, Typed, MainNamed;
    var m, ps, gs := MainNamed(p.sections), Typed(p.sections, Profiles), Typed(p.sections, Groups);
    var rs, ss := Typed(p.sections, Rules), Typed(p.sections, Subscriptions);
    TypedLacks(p.sections, Profiles);
    TypedLacks(p.sections, Groups);
    TypedLacks(p.sections, Rules);
    TypedLacks(p.sections, Subscriptions);
    LackJoin(m, ps, '\n');
    LackJoin(m + ps, gs, '\n');
    LackJoin(m + ps + gs, rs, '\n');
    LackJoin(m + ps + gs + rs, ss, '\n');
  }

  lemma OfKindNamed(sections: seq<Section>, kind: Kind)
    requires AllNamed(sections)
    ensures AllNamed(OfKind(sections, kind))
  {
    hide OfKind;
    OfKindAre(sections, kind);
  }

  lemma LoadedHasIDs(sections: seq<Section>)
    requires AllNamed(sections)
    ensures HasIDs(Load(sections))
  {
    hide OfKind, LoadSettings, ToBool, ToInt, Get, List, NormalGroup;
    OfKindNamed(sections, Profiles);
    OfKindNamed(sections, Groups);
    OfKindNamed(sections, Rules);
    OfKindNamed(sections, Subscriptions);
    forall g: Group ensures NormalGroup(g).id == g.id {
      NormalGroupID(g);
    }
  }

  lemma NormalGroupID(g: Group)
    ensures NormalGroup(g).id == g.id
  {
  }

  /** Saved to the file and loaded again a configuration comes back as it was if and only if
      nothing in it is left to a default and no text in it holds an apostrophe or a newline. */
  lemma ConfigurationFileComesBack(d: Data, orders: nat -> seq<string>)
    requires Whole(d) && HasIDs(d)
    ensures LoadText(SaveText(d, orders)) == d <==> CanonicalData(d) && Lacks(d, '\'') && Lacks(d, '\n')
  {
    hide SaveText, LoadText, Load, Save, Lacks, AllFit, AllSectionsLack, AllNamed, ReadSections, HasIDs, CanonicalData;
    LoadedIsGood(SaveText(d, orders));
    if Lacks(d, '\n') {
      SavedIsRead(d, orders);
      var saved := Save(d);
      SavedFits(d, '\'');
      SavedIsNamed(d);
      ReadLacks(saved, orders, '\'');
      LoadedLacks(ReadSections(saved, orders), '\'');
      if Lacks(d, '\'') {
        ReadIsSame(saved, orders);
        ConfigurationComesBack(d);
      }
    }
  }

  /** After a save without newlines no apostrophe is left. */
  lemma SavingDropsApostrophes(d: Data, orders: nat -> seq<string>)
    requires Whole(d) && Lacks(d, '\n')
    ensures var e := LoadText(SaveText(d, orders)); Whole(e) && Lacks(e, '\'')
  {
    hide SaveText, LoadText, Load, Save, Lacks, AllFit, AllSectionsLack, ReadSections;
    SavedIsRead(d, orders);
    ReadLacks(Save(d), orders, '\'');
    LoadedLacks(ReadSections(Save(d), orders), '\'');
  }

  /** From any file: a first save and load changes what was loaded only if an apostrophe is in it,
      and a second one never changes anything. */
  lemma SavingTwiceIsSavingOnce(text: string, orders: nat -> seq<string>, more: nat -> seq<string>)
    ensures var d := LoadText(text); Whole(d) && (LoadText(SaveText(d, orders)) == d <==> Lacks(d, '\''))
    ensures var d := LoadText(text);
            Whole(d) && var e := LoadText(SaveText(d, orders)); Whole(e) && LoadText(SaveText(e, more)) == e
  {
    hide SaveText, LoadText, Lacks, HasIDs, CanonicalData;
    var d := LoadText(text);
    LoadedIsGood(text);
    ConfigurationFileComesBack(d, orders);
    var e := LoadText(SaveText(d, orders));
    LoadedIsGood(SaveText(d, orders));
    SavingDropsApostrophes(d, orders);
    ConfigurationFileComesBack(e, more);
  }

  // ----- what a save changes in memory

  function Named(id: string, name: string): string {
    if id == "" then name else id
  }

  /** The configuration in memory once it was saved: every entry has got an id, and the gaps of the
      groups are filled in. */
  function AfterSave(d: Data, ids: (Kind, nat) -> string): Data {
    d.(profiles := seq(|d.profiles|, i requires 0 <= i < |d.profiles| =>
                         d.profiles[i].(id := Named(d.profiles[i].id, ids(Profiles, i)))),
       groups := seq(|d.groups|, i requires 0 <= i < |d.groups| =>
                       NormalGroup(d.groups[i].(id := Named(d.groups[i].id, ids(Groups, i))))),
       rules := seq(|d.rules|, i requires 0 <= i < |d.rules| =>
                      d.rules[i].(id := Named(d.rules[i].id, ids(Rules, i)))),
       subscriptions := seq(|d.subscriptions|, i requires 0 <= i < |d.subscriptions| =>
                              d.subscriptions[i].(id := Named(d.subscriptions[i].id, ids(Subscriptions, i)))))
  }

  lemma AfterSaveIsWhole(d: Data, ids: (Kind, nat) -> string)
    requires Whole(d) && forall kind, i :: ids(kind, i) != ""
    ensures var e := AfterSave(d, ids);
            (&& Whole(e) && HasIDs(e)
             && (CanonicalData(e) <==>
                 (&& Canonical(d.settings)
                  && (forall i :: 0 <= i < |d.profiles| ==> CanonicalProfile(d.profiles[i]))
                  && (forall i :: 0 <= i < |d.rules| ==> d.rules[i].action != ""))))
  {
    hide NormalGroup, Canonical, Complete;
    var e := AfterSave(d, ids);
    forall i | 0 <= i < |d.groups| ensures NormalGroup(e.groups[i]) == e.groups[i] && e.groups[i].id != "" {
      var g := d.groups[i].(id := Named(d.groups[i].id, ids(Groups, i)));
      NormalGroupStays(g);
      NormalGroupID(g);
    }
    forall i | 0 <= i < |d.profiles|
      ensures e.profiles[i].id != "" && (CanonicalProfile(e.profiles[i]) <==> CanonicalProfile(d.profiles[i]))
    {
    }
    forall i | 0 <= i < |d.rules| ensures e.rules[i].id != "" && e.rules[i].action == d.rules[i].action {
    }
  }

  /** The file holds what memory holds after a save if and only if the settings, servers and rules
      leave nothing to a default and no text holds an apostrophe or a newline. */
  lemma FileHoldsWhatMemoryHolds(d: Data, ids: (Kind, nat) -> string, orders: nat -> seq<string>)
    requires Whole(d) && forall kind, i :: ids(kind, i) != ""
    ensures var e := AfterSave(d, ids);
            (&& Whole(e)
             && (LoadText(SaveText(e, orders)) == e <==>
                 (&& Canonical(d.settings)
                  && (forall i :: 0 <= i < |d.profiles| ==> CanonicalProfile(d.profiles[i]))
                  && (forall i :: 0 <= i < |d.rules| ==> d.rules[i].action != "")
                  && Lacks(e, '\'') && Lacks(e, '\n'))))
  {
    hide SaveText, LoadText, Lacks, HasIDs, CanonicalData, Canonical, CanonicalProfile, Complete, WholeProfile,
         AfterSave;
    AfterSaveIsWhole(d, ids);
    ConfigurationFileComesBack(AfterSave(d, ids), orders);
  }
}
