/**
 The configuration as a file (internal/ucicfg/store.go): every section under its type, every
 option under its name, printed and parsed.
 */
module StoreText {
  import opened Optional
  import opened Strings
  import opened UciText
  import opened Store
  import opened StoreNames
  import M = UciModel

  const PACKAGE := "xwrt"
  const MAIN := "main"

  function TypeName(kind: Kind): string {
    match kind
    case Main => "xwrt"
    case Profiles => "profile"
    case Groups => "group"
    case Rules => "rule"
    case Subscriptions => "subscription"
  }

  lemma TypesDiffer(a: Kind, b: Kind)
    ensures TypeName(a) == TypeName(b) ==> a == b
    ensures Bare(TypeName(a)) && '\n' !in TypeName(a) && '\'' !in TypeName(a)
  {
    assert |TypeName(Main)| == 4 && |TypeName(Profiles)| == 7 && |TypeName(Groups)| == 5;
    assert |TypeName(Rules)| == 4 && |TypeName(Subscriptions)| == 12;
    assert TypeName(Main)[0] == 'x' && TypeName(Rules)[0] == 'r';
    TypeIsWord(a);
    UnspacedIsBare(TypeName(a));
  }

  lemma TypeIsWord(kind: Kind)
    ensures Unspaced(TypeName(kind))
  {
  }

  // ----- a section as text

  function KeysOf(kind: Kind): set<Key> {
    match kind
    case Main =>
      (set o: TextOpt :: Text(o)) + (set o: NumberOpt :: Number(o)) + (set o: FlagOpt :: Flag(o)) + {ProxyUDP}
    case Profiles =>
      (set o: ProfileText :: OfProfile(o)) + (set o: ProfileFlag :: Key.ProfileFlag(o)) + {ProfilePort, AlterID}
    case Groups => {Name, Strategy, ProbeURL, ProbeInterval}
    case Rules => {Name, RuleEnabled, RuleAction, RulePort, RuleSourcePort, RuleNetwork}
    case Subscriptions => {Name, URL, Updated, Count}
  }

  function ListsOf(kind: Kind): set<ListOpt> {
    match kind
    case Main => {BypassIP, BypassMAC}
    case Groups => {Member}
    case Rules => {Domains, IPs, Sources, Protocols}
    case _ => {}
  }

  lemma KeysAreOf(kind: Kind, k: Key)
    ensures k in KeysOf(kind) <==> KeyOf(kind, k)
  {
    match k
    case Text(o) =>
    case Number(o) =>
    case Flag(o) =>
    case OfProfile(o) =>
    case ProfileFlag(o) =>
    case _ =>
  }

  lemma ListsAreOf(kind: Kind, l: ListOpt)
    ensures l in ListsOf(kind) <==> ListOf(kind, l)
  {
  }

  /** The options and lists of a section are those of its kind, and no list is empty. */
  ghost predicate Fits(s: Section) {
    && (forall k :: k in s.options ==> KeyOf(s.kind, k))
    && (forall l :: l in s.lists ==> ListOf(s.kind, l) && s.lists[l] != [])
  }

  lemma NamesOfKind(kind: Kind)
    ensures forall k, j :: KeyOf(kind, k) && KeyOf(kind, j) && SavedAs(k) == SavedAs(j) ==> k == j
    ensures forall k, j :: ListOf(kind, k) && ListOf(kind, j) && SavedList(k) == SavedList(j) ==> k == j
    ensures forall k, l :: KeyOf(kind, k) && ListOf(kind, l) ==> SavedAs(k) != SavedList(l)
  {
    hide SavedAs, SavedList, KeyOf, ListOf;
    forall k, j | KeyOf(kind, k) && KeyOf(kind, j) && SavedAs(k) == SavedAs(j) ensures k == j {
      NamesDiffer(kind, One(k), One(j));
    }
    forall k, j | ListOf(kind, k) && ListOf(kind, j) && SavedList(k) == SavedList(j) ensures k == j {
      NamesDiffer(kind, Many(k), Many(j));
    }
    forall k, l | KeyOf(kind, k) && ListOf(kind, l) ensures SavedAs(k) != SavedList(l) {
      if SavedAs(k) == SavedList(l) {
        NamesDiffer(kind, One(k), Many(l));
      }
    }
  }

  /** A section as it is printed, whatever the order its options were set in. */
  ghost function ToText(s: Section, order: seq<string>): M.Section
    requires Fits(s)
  {
    NamesOfKind(s.kind);
    M.Section(s.id, TypeName(s.kind), false, map k | k in s.options :: SavedAs(k) := s.options[k],
              map l | l in s.lists :: SavedList(l) := s.lists[l], order)
  }

  /** What is read from a section, option by option under its name. */
  function FromText(kind: Kind, t: M.Section): Section {
    Section(kind, t.name, map k | k in KeysOf(kind) && ReadAs(k) in t.options :: t.options[ReadAs(k)],
            map l | l in ListsOf(kind) && ReadList(l) in t.lists :: t.lists[ReadList(l)])
  }

  /** A section with every value cut at its first apostrophe. */
  function Cutoff(s: Section, name: string): Section {
    Section(s.kind, name, map k | k in s.options :: Cut(s.options[k]), map l | l in s.lists :: M.CutAll(s.lists[l]))
  }

  lemma TextHolds(s: Section, order: seq<string>)
    requires Fits(s)
    ensures forall k :: KeyOf(s.kind, k) ==> (SavedAs(k) in ToText(s, order).options <==> k in s.options)
    ensures forall k :: k in s.options ==> ToText(s, order).options[SavedAs(k)] == s.options[k]
    ensures forall l :: ListOf(s.kind, l) ==> (SavedList(l) in ToText(s, order).lists <==> l in s.lists)
    ensures forall l :: l in s.lists ==> ToText(s, order).lists[SavedList(l)] == s.lists[l]
  {
    hide SavedAs, SavedList, KeyOf, ListOf;
    NamesOfKind(s.kind);
    var t := ToText(s, order);
    forall k | KeyOf(s.kind, k) ensures SavedAs(k) in t.options <==> k in s.options {
      if k in s.options {
        assert SavedAs(k) in t.options;
      }
    }
    forall l | ListOf(s.kind, l) ensures SavedList(l) in t.lists <==> l in s.lists {
      if l in s.lists {
        assert SavedList(l) in t.lists;
      }
    }
  }

  lemma FieldsRead(t: M.Section, anon: nat, n: string)
    ensures var r := M.ReadBack(t, anon);
            (&& (n in r.options <==> n in t.options) && (n in t.options ==> r.options[n] == Cut(t.options[n]))
             && (n in r.lists <==> n in t.lists) && (n in t.lists ==> r.lists[n] == M.CutAll(t.lists[n])))
  {
    hide Cut, M.CutAll, M.Written, M.NameRead, M.Unnamed;
    M.WrittenIsAll(t);
    assert n in t.options || n in t.lists ==> n in M.KeysOf(t);
  }

  lemma OptionComesBack(s: Section, order: seq<string>, anon: nat, k: Key)
    requires Fits(s)
    ensures var back := FromText(s.kind, M.ReadBack(ToText(s, order), anon)).options;
            (k in back <==> k in s.options) && (k in s.options ==> back[k] == Cut(s.options[k]))
  {
    hide SavedAs, SavedList, ReadAs, ReadList, KeyOf, ListOf, KeysOf, ListsOf, Cut, M.ReadBack, ToText, Fits;
    TextHolds(s, order);
    FieldsRead(ToText(s, order), anon, SavedAs(k));
    KeysAreOf(s.kind, k);
    NamesAgree(k, Member);
    FitsMeans(s, k, Member);
  }

  lemma ListComesBack(s: Section, order: seq<string>, anon: nat, l: ListOpt)
    requires Fits(s)
    ensures var back := FromText(s.kind, M.ReadBack(ToText(s, order), anon)).lists;
            (l in back <==> l in s.lists) && (l in s.lists ==> back[l] == M.CutAll(s.lists[l]))
  {
    hide SavedAs, SavedList, ReadAs, ReadList, KeyOf, ListOf, KeysOf, ListsOf, M.CutAll, M.ReadBack, ToText, Fits;
    TextHolds(s, order);
    FieldsRead(ToText(s, order), anon, SavedList(l));
    ListsAreOf(s.kind, l);
    NamesAgree(ProxyUDP, l);
    FitsMeans(s, ProxyUDP, l);
  }

  lemma FitsMeans(s: Section, k: Key, l: ListOpt)
    requires Fits(s)
    ensures (k in s.options ==> KeyOf(s.kind, k)) && (l in s.lists ==> ListOf(s.kind, l))
  {
  }

  /** What is read back of a printed section is the section, every value cut. */
  lemma SectionComesBack(s: Section, order: seq<string>, anon: nat)
    requires Fits(s)
    ensures var t := ToText(s, order);
            FromText(s.kind, M.ReadBack(t, anon)) == Cutoff(s, M.NameRead(t, anon))
  {
    hide SavedAs, SavedList, ReadAs, ReadList, KeysOf, ListsOf, Cut, M.CutAll, M.Written, M.NameRead, ToText, Fits;
    var back := FromText(s.kind, M.ReadBack(ToText(s, order), anon));
    forall k
      ensures k in back.options <==> k in s.options
      ensures k in s.options ==> back.options[k] == Cut(s.options[k])
    {
      OptionComesBack(s, order, anon, k);
    }
    forall l
      ensures l in back.lists <==> l in s.lists
      ensures l in s.lists ==> back.lists[l] == M.CutAll(s.lists[l])
    {
      ListComesBack(s, order, anon, l);
    }
    SameFields(back, Cutoff(s, M.NameRead(ToText(s, order), anon)));
  }

  lemma SameFields(a: Section, b: Section)
    requires a.kind == b.kind && a.id == b.id
    requires forall k :: k in a.options <==> k in b.options
    requires forall k :: k in a.options ==> a.options[k] == b.options[k]
    requires forall l :: l in a.lists <==> l in b.lists
    requires forall l :: l in a.lists ==> a.lists[l] == b.lists[l]
    ensures a == b
  {
    assert a.options == b.options && a.lists == b.lists;
  }

  lemma NamesAreBare(s: Section, order: seq<string>, n: string)
    requires Fits(s) && n in M.KeysOf(ToText(s, order))
    ensures Bare(n)
  {
    hide SavedAs, SavedList, KeyOf, ListOf, Bare;
    var t := ToText(s, order);
    if n in t.options {
      var k :| k in s.options && SavedAs(k) == n;
      NamesAreWords(One(k));
    } else {
      var l :| l in s.lists && SavedList(l) == n;
      NamesAreWords(Many(l));
    }
  }

  lemma ValuesAreLines(s: Section, order: seq<string>, n: string)
    requires Fits(s) && SectionLacks(s, '\n')
    ensures var t := ToText(s, order);
            (&& !(n in t.options && n in t.lists) && (n in t.options ==> OneLine(t.options[n]))
             && (n in t.lists ==> t.lists[n] != [] && AllLack(t.lists[n], '\n')))
  {
    hide SavedAs, SavedList, KeyOf, ListOf, Bare;
    NamesOfKind(s.kind);
    var t := ToText(s, order);
    if n in t.options {
      var k :| k in s.options && SavedAs(k) == n;
      assert t.options[n] == s.options[k];
    }
    if n in t.lists {
      var l :| l in s.lists && SavedList(l) == n;
      assert t.lists[n] == s.lists[l];
    }
  }

  lemma SectionIsPrintable(s: Section, order: seq<string>)
    requires Fits(s) && SectionLacks(s, '\n')
    ensures M.PrintableSection(ToText(s, order))
  {
    hide SavedAs, SavedList, KeyOf, ListOf, Bare, Fits, TypeName, ToText, M.PrintableSection, AllLack;
    HeadIsPrintable(s, order);
    var t := ToText(s, order);
    forall n | n in M.KeysOf(t) ensures Bare(n) {
      NamesAreBare(s, order, n);
    }
    forall n
      ensures !(n in t.options && n in t.lists) && (n in t.options ==> OneLine(t.options[n]))
      ensures n in t.lists ==> t.lists[n] != [] && AllLack(t.lists[n], '\n')
    {
      ValuesAreLines(s, order, n);
    }
    PrintableMeans(t);
  }

  lemma HeadIsPrintable(s: Section, order: seq<string>)
    requires Fits(s) && SectionLacks(s, '\n')
    ensures Bare(ToText(s, order).typ) && OneLine(ToText(s, order).name)
  {
    hide TypeName, Bare;
    TypesDiffer(s.kind, s.kind);
  }

  lemma PrintableMeans(t: M.Section)
    requires Bare(t.typ) && OneLine(t.name)
    requires forall n :: n in M.KeysOf(t) ==> Bare(n)
    requires forall n :: !(n in t.options && n in t.lists) && (n in t.options ==> OneLine(t.options[n]))
    requires forall n :: n in t.lists ==> t.lists[n] != [] && AllLack(t.lists[n], '\n')
    ensures M.PrintableSection(t)
  {
    hide Bare;
  }

  // ----- a character that occurs nowhere

  ghost predicate AllLack(vals: seq<string>, c: char) {
    forall i :: 0 <= i < |vals| ==> c !in vals[i]
  }

  ghost predicate SectionLacks(s: Section, c: char) {
    && c !in s.id
    && (forall k :: k in s.options ==> c !in s.options[k])
    && (forall l :: l in s.lists ==> AllLack(s.lists[l], c))
  }

  /** The two characters that the file format has trouble with. */
  predicate Special(c: char) {
    c == '\'' || c == '\n'
  }

  ghost predicate AllSectionsLack(sections: seq<Section>, c: char) {
    forall i :: 0 <= i < |sections| ==> SectionLacks(sections[i], c)
  }

  ghost predicate SettingsLack(s: Settings, c: char)
    requires Complete(s)
  {
    (forall o: TextOpt :: c !in s.texts[o]) && AllLack(s.bypassIP, c) && AllLack(s.bypassMAC, c)
  }

  ghost predicate ProfileLacks(p: Profile, c: char)
    requires WholeProfile(p)
  {
    c !in p.id && forall o: ProfileText :: c !in p.texts[o]
  }

  ghost predicate GroupLacks(g: Group, c: char) {
    && c !in g.id && c !in g.name && c !in g.strategy && AllLack(g.members, c)
    && c !in g.probeURL && c !in g.probeInterval
  }

  ghost predicate RuleLacks(r: Rule, c: char) {
    && c !in r.id && c !in r.name && c !in r.action && AllLack(r.domains, c) && AllLack(r.ips, c)
    && AllLack(r.sources, c) && c !in r.port && c !in r.sourcePort && AllLack(r.protocols, c) && c !in r.network
  }

  ghost predicate SubscriptionLacks(s: Subscription, c: char) {
    c !in s.id && c !in s.name && c !in s.url && c !in s.updated
  }

  /** The character occurs in no text of the configuration. */
  ghost predicate Lacks(d: Data, c: char)
    requires Whole(d)
  {
    && SettingsLack(d.settings, c)
    && (forall i :: 0 <= i < |d.profiles| ==> ProfileLacks(d.profiles[i], c))
    && (forall i :: 0 <= i < |d.groups| ==> GroupLacks(d.groups[i], c))
    && (forall i :: 0 <= i < |d.rules| ==> RuleLacks(d.rules[i], c))
    && (forall i :: 0 <= i < |d.subscriptions| ==> SubscriptionLacks(d.subscriptions[i], c))
  }

  lemma NumbersLack(n: int, c: char)
    requires Special(c)
    ensures c !in Itoa(n) && c !in FromBool(n == 0)
  {
    hide Decimal;
    M.DecimalIsOneLine(if n < 0 then -n else n);
  }

  // ----- what is saved lacks what the configuration lacks

  lemma SettingsAreSaved(s: Settings, c: char)
    requires Complete(s) && Special(c)
    ensures Fits(SaveSettings(s)) && SaveSettings(s).id == MAIN
              && (SettingsLack(s, c) ==> SectionLacks(SaveSettings(s), c))
  {
    hide Itoa, FromBool, SavedTexts, SavedNumbers, SavedFlags, KeyOf;
    var m := SaveSettings(s);
    forall k | k in m.options ensures KeyOf(Main, k) && (SettingsLack(s, c) ==> c !in m.options[k]) {
      SavedSettingLacks(s, k, c);
    }
    MainLists();
  }

  lemma MainLists()
    ensures ListOf(Main, BypassIP) && ListOf(Main, BypassMAC)
  {
  }

  lemma SavedSettingLacks(s: Settings, k: Key, c: char)
    requires Complete(s) && Special(c) && k in SaveSettings(s).options
    ensures KeyOf(Main, k) && (SettingsLack(s, c) ==> c !in SaveSettings(s).options[k])
  {
    hide Itoa, FromBool, SavedTexts, SavedNumbers, SavedFlags;
    SavedKeys(s);
    SavedMeans(s);
    var m := SaveSettings(s);
    assert Get(m, k) == m.options[k];
    match k
    case Text(o) => assert Get(m, Text(o)) == s.texts[o];
    case Number(o) =>
      assert Get(m, Number(o)) == Itoa(s.numbers[o]);
      NumbersLack(s.numbers[o], c);
    case Flag(o) =>
      assert Get(m, Flag(o)) == FromBool(s.flags[o]);
      NumbersLack(if s.flags[o] then 0 else 1, c);
  }

  lemma ProfileIsSaved(p: Profile, c: char)
    requires WholeProfile(p) && Special(c)
    ensures Fits(SaveProfile(p)) && (ProfileLacks(p, c) ==> SectionLacks(SaveProfile(p), c))
  {
    hide Itoa, SavedProfileTexts, SavedProfileFlags, KeyOf;
    var m := SaveProfile(p);
    forall k | k in m.options ensures KeyOf(Profiles, k) && (ProfileLacks(p, c) ==> c !in m.options[k]) {
      SavedProfileLacks(p, k, c);
    }
  }

  lemma SavedProfileLacks(p: Profile, k: Key, c: char)
    requires WholeProfile(p) && Special(c) && k in SaveProfile(p).options
    ensures KeyOf(Profiles, k) && (ProfileLacks(p, c) ==> c !in SaveProfile(p).options[k])
  {
    hide Itoa, SavedProfileTexts, SavedProfileFlags;
    NumbersLack(p.port, c);
    NumbersLack(p.alterID, c);
    SavedProfileMeans(p, PName, Mux);
    match k
    case OfProfile(o) => SavedProfileGet(p, o, Mux);
    case ProfileFlag(f) => SavedProfileGet(p, PName, f);
    case _ =>
  }

  lemma NormalGroupLacks(g: Group, c: char)
    requires GroupLacks(g, c) && Special(c)
    ensures GroupLacks(NormalGroup(g), c)
  {
    hide AllLack;
    var r, p, i := "leastPing", "https://cp.cloudflare.com/generate_204", "60s";
    assert c !in r && c !in p && c !in i;
  }

  lemma GroupIsSaved(g: Group, c: char)
    requires Special(c)
    ensures Fits(SaveGroup(g)) && (GroupLacks(g, c) ==> SectionLacks(SaveGroup(g), c))
  {
    hide AllLack, NormalGroup, KeyOf, ListOf;
    GroupFields();
    if GroupLacks(g, c) {
      NormalGroupLacks(g, c);
    }
  }

  lemma GroupFields()
    ensures KeyOf(Groups, Name) && KeyOf(Groups, Strategy) && KeyOf(Groups, ProbeURL) && KeyOf(Groups, ProbeInterval)
    ensures ListOf(Groups, Member)
  {
  }

  lemma RuleOptionsAreSaved(r: Rule, k: Key, c: char)
    requires Special(c) && k in RuleOptions(r)
    ensures KeyOf(Rules, k) && (RuleLacks(r, c) ==> c !in RuleOptions(r)[k])
  {
    hide AllLack, FromBool;
    NumbersLack(if r.enabled then 0 else 1, c);
  }

  lemma RuleListsAreSaved(r: Rule, l: ListOpt, c: char)
    requires l in RuleLists(r)
    ensures RuleLists(r)[l] != [] && ListOf(Rules, l) && (RuleLacks(r, c) ==> AllLack(RuleLists(r)[l], c))
  {
    hide AllLack;
  }

  lemma RuleIsSaved(r: Rule, c: char)
    requires Special(c)
    ensures Fits(SaveRule(r)) && (RuleLacks(r, c) ==> SectionLacks(SaveRule(r), c))
  {
    hide AllLack, KeyOf, ListOf, RuleOptions, RuleLists;
    forall k | k in RuleOptions(r) ensures KeyOf(Rules, k) && (RuleLacks(r, c) ==> c !in RuleOptions(r)[k]) {
      RuleOptionsAreSaved(r, k, c);
    }
    forall l | l in RuleLists(r)
      ensures RuleLists(r)[l] != [] && ListOf(Rules, l) && (RuleLacks(r, c) ==> AllLack(RuleLists(r)[l], c))
    {
      RuleListsAreSaved(r, l, c);
    }
  }

  lemma SubscriptionIsSaved(s: Subscription, c: char)
    requires Special(c)
    ensures Fits(SaveSubscription(s)) && (SubscriptionLacks(s, c) ==> SectionLacks(SaveSubscription(s), c))
  {
    hide Itoa;
    NumbersLack(s.count, c);
  }

  ghost predicate AllFit(sections: seq<Section>) {
    forall i :: 0 <= i < |sections| ==> Fits(sections[i])
  }

  lemma ProfilesAreSaved(ps: seq<Profile>, c: char)
    requires Special(c) && forall i :: 0 <= i < |ps| ==> WholeProfile(ps[i])
    ensures AllFit(ProfileSections(ps))
    ensures (forall i :: 0 <= i < |ps| ==> ProfileLacks(ps[i], c)) ==> AllSectionsLack(ProfileSections(ps), c)
  {
    hide WholeProfile, ProfileLacks, SaveProfile, Fits, SectionLacks;
    forall i | 0 <= i < |ps|
      ensures Fits(SaveProfile(ps[i])) && (ProfileLacks(ps[i], c) ==> SectionLacks(SaveProfile(ps[i]), c))
    {
      ProfileIsSaved(ps[i], c);
    }
  }

  lemma GroupsAreSaved(gs: seq<Group>, c: char)
    requires Special(c)
    ensures AllFit(GroupSections(gs))
    ensures (forall i :: 0 <= i < |gs| ==> GroupLacks(gs[i], c)) ==> AllSectionsLack(GroupSections(gs), c)
  {
    hide GroupLacks, SaveGroup, Fits, SectionLacks;
    forall i | 0 <= i < |gs|
      ensures Fits(SaveGroup(gs[i])) && (GroupLacks(gs[i], c) ==> SectionLacks(SaveGroup(gs[i]), c))
    {
      GroupIsSaved(gs[i], c);
    }
  }

  lemma RulesAreSaved(rs: seq<Rule>, c: char)
    requires Special(c)
    ensures AllFit(RuleSections(rs))
    ensures (forall i :: 0 <= i < |rs| ==> RuleLacks(rs[i], c)) ==> AllSectionsLack(RuleSections(rs), c)
  {
    hide RuleLacks, SaveRule, Fits, SectionLacks;
    forall i | 0 <= i < |rs|
      ensures Fits(SaveRule(rs[i])) && (RuleLacks(rs[i], c) ==> SectionLacks(SaveRule(rs[i]), c))
    {
      RuleIsSaved(rs[i], c);
    }
  }

  lemma SubscriptionsAreSaved(ss: seq<Subscription>, c: char)
    requires Special(c)
    ensures AllFit(SubscriptionSections(ss))
    ensures (forall i :: 0 <= i < |ss| ==> SubscriptionLacks(ss[i], c)) ==> AllSectionsLack(SubscriptionSections(ss), c)
  {
    hide SubscriptionLacks, SaveSubscription, Fits, SectionLacks;
    forall i | 0 <= i < |ss|
      ensures Fits(SaveSubscription(ss[i]))
      ensures SubscriptionLacks(ss[i], c) ==> SectionLacks(SaveSubscription(ss[i]), c)
    {
      SubscriptionIsSaved(ss[i], c);
    }
  }

  lemma FitAndLackJoin(a: seq<Section>, b: seq<Section>, c: char)
    requires AllFit(a) && AllFit(b)
    ensures AllFit(a + b)
    ensures AllSectionsLack(a, c) && AllSectionsLack(b, c) ==> AllSectionsLack(a + b, c)
  {
    hide Fits, SectionLacks;
  }

  /** The saved sections can be printed option by option, and a character that the configuration
      lacks occurs in none of them. */
  lemma SavedFits(d: Data, c: char)
    requires Whole(d) && Special(c)
    ensures AllFit(Save(d)) && (Lacks(d, c) ==> AllSectionsLack(Save(d), c))
  {
    hide Fits, SectionLacks, AllFit, AllSectionsLack, SaveSettings, ProfileSections, GroupSections, RuleSections,
         SubscriptionSections, SettingsLack, ProfileLacks, GroupLacks, RuleLacks, SubscriptionLacks, Complete,
         WholeProfile;
    var m, ps, gs := [SaveSettings(d.settings)], ProfileSections(d.profiles), GroupSections(d.groups);
    var rs, ss := RuleSections(d.rules), SubscriptionSections(d.subscriptions);
    SettingsAreSaved(d.settings, c);
    OneFits(SaveSettings(d.settings), c);
    ProfilesAreSaved(d.profiles, c);
    GroupsAreSaved(d.groups, c);
    RulesAreSaved(d.rules, c);
    SubscriptionsAreSaved(d.subscriptions, c);
    FitAndLackJoin(m, ps, c);
    FitAndLackJoin(m + ps, gs, c);
    FitAndLackJoin(m + ps + gs, rs, c);
    FitAndLackJoin(m + ps + gs + rs, ss, c);
  }

  lemma OneFits(s: Section, c: char)
    requires Fits(s)
    ensures AllFit([s]) && (SectionLacks(s, c) ==> AllSectionsLack([s], c))
  {
    hide Fits, SectionLacks;
  }
}
