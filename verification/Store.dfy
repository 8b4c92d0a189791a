/**
 The typed configuration and its sections (internal/ucicfg/store.go, internal/model/model.go):
 numbers and flags as texts, defaults for what is missing, and what comes back after saving.
 All options of a kind are treated by one rule. What they are called in the file, and how the
 sections are printed and read, is in StoreNames, StoreText and StoreFile.
 */
module Store {
  import opened Strings
  import opened Optional

  // ----- the options

  datatype TextOpt =
    | Mode | Active | ActiveKind | Sniff | DNS | DNSMode | LogLevel | UpdateRepo | XrayBin | HevBin | RunDir
    | TunName | TunAddr | TunMask | FwMark | LANDevice | WANDevice

  datatype NumberOpt =
    | SocksPort | HTTPPort | TProxyPort | DNSPort | APIPort | ConnIdle | KeepAlive | StatsPort | TunMTU | RouteTable

  datatype FlagOpt = Enabled | ProxyRouter | BlockQUIC | SyncTime | AllowLAN | AutoConnect | UpdateCheck | IPv6

  datatype ListOpt = BypassIP | BypassMAC | Member | Domains | IPs | Sources | Protocols

  datatype ProfileText =
    | PName | Proto | Address | UUID | Password | Method | Encryption | Flow | Net | Security | SNI | ALPN | Fingerprint
    | PublicKey | ShortID | SpiderX | PinnedCert | Path | Host | ServiceName | HeaderType | Seed | QUICSec | QUICKey
    | FromSubscription | Remark

  datatype ProfileFlag = AllowInsecure | PinAuto | PinUnverifiable | Mux

  /** An option of a section. `ProxyUDP` is one that old files have. */
  datatype Key =
    | Text(t: TextOpt) | Number(n: NumberOpt) | Flag(f: FlagOpt) | ProxyUDP
    | OfProfile(p: ProfileText) | ProfilePort | AlterID | ProfileFlag(pf: ProfileFlag)
    | Name | Strategy | ProbeURL | ProbeInterval
    | RuleEnabled | RuleAction | RulePort | RuleSourcePort | RuleNetwork
    | URL | Updated | Count

  datatype Kind = Main | Profiles | Groups | Rules | Subscriptions

  datatype Section = Section(kind: Kind, id: string, options: map<Key, string>, lists: map<ListOpt, seq<string>>)

  function Get(s: Section, k: Key): string {
    if k in s.options then s.options[k] else ""
  }

  function List(s: Section, l: ListOpt): seq<string> {
    if l in s.lists then s.lists[l] else []
  }

  // ----- numbers and flags

  function ToInt(v: string, def: int): int {
    if v == "" then def
    else
      var n := Atoi(TrimSpace(v));
      if n.Some? then n.value else def
  }

  function LowerChar(c: char): char {
    if 'A' <= c <= 'Z' then (c as int + 32) as char else c
  }

  function Lower(s: string): string {
    seq(|s|, i requires 0 <= i < |s| => LowerChar(s[i]))
  }

  function ToBool(v: string, def: bool): bool {
    var w := Lower(TrimSpace(v));
    if w in {"1", "true", "yes", "on", "enabled"} then true
    else if w in {"0", "false", "no", "off", "disabled"} then false
    else def
  }

  function FromBool(b: bool): string {
    if b then "1" else "0"
  }

  function OrDefault(v: string, def: string): string {
    if v == "" then def else v
  }

  lemma NumberComesBack(n: int, def: int)
    ensures ToInt(Itoa(n), def) == n
  {
    WrittenNumberIsRead(n);
    NumbersAreTrim(n);
  }

  lemma {:induction false} DecimalEnds(n: nat)
    ensures Decimal(n) != "" && '0' <= Decimal(n)[0] <= '9' && '0' <= Decimal(n)[|Decimal(n)| - 1] <= '9'
  {
    DigitsOfDecimal(n);
  }

  lemma NumbersAreTrim(n: int)
    ensures TrimSpace(Itoa(n)) == Itoa(n) && Itoa(n) != ""
  {
    hide Decimal;
    DecimalEnds(if n < 0 then -n else n);
    TrimKeeps(Itoa(n));
  }

  lemma FlagComesBack(b: bool, def: bool)
    ensures ToBool(FromBool(b), def) == b
    ensures ToBool("", def) == def && ToBool("1", def)
  {
    hide TrimSpace;
    TrimKeeps("1");
    TrimKeeps("0");
    assert Lower("1") == "1" && Lower("0") == "0" && Lower("") == "";
    Blank();
  }

  lemma Blank()
    ensures TrimSpace("") == ""
  {
    assert TrimStart("") == "";
  }

  // ----- the settings

  datatype Settings = Settings(
    texts: map<TextOpt, string>,
    numbers: map<NumberOpt, int>,
    flags: map<FlagOpt, bool>,
    bypassIP: seq<string>,
    bypassMAC: seq<string>)

  ghost predicate Complete(s: Settings) {
    && (forall o: TextOpt :: o in s.texts)
    && (forall o: NumberOpt :: o in s.numbers)
    && (forall o: FlagOpt :: o in s.flags)
  }

  function DefaultText(o: TextOpt): string {
    match o
    case Mode => "mixed"
    case Sniff => "auto"
    case DNS => "1.1.1.1"
    case DNSMode => "dnsmasq"
    case LogLevel => "warning"
    case UpdateRepo => "ozgunokan/xDivine-Ray"
    case XrayBin => "xray"
    case HevBin => "hev-socks5-tunnel"
    case RunDir => "/var/run/xwrt"
    case TunName => "xwrt0"
    case TunAddr => "198.18.0.1"
    case TunMask => "255.255.0.0"
    case FwMark => "0x1e0"
    case _ => ""
  }

  function DefaultNumber(o: NumberOpt): int {
    match o
    case SocksPort => 10808
    case HTTPPort => 10809
    case TProxyPort => 12345
    case DNSPort => 15353
    case APIPort => 8787
    case StatsPort => 10085
    case ConnIdle => 14400
    case KeepAlive => 30
    case TunMTU => 8500
    case RouteTable => 180
  }

  predicate DefaultFlag(o: FlagOpt) {
    o in {BlockQUIC, SyncTime, AllowLAN, AutoConnect, UpdateCheck}
  }

  const KEEPALIVE_MIN: int := 10
  const KEEPALIVE_MAX: int := 600

  function NormalizeKeepAlive(v: int, def: int): int {
    if v < 0 then -1 else if v == 0 then def
    else if v < KEEPALIVE_MIN then KEEPALIVE_MIN else if v > KEEPALIVE_MAX then KEEPALIVE_MAX else v
  }

  function NormalText(o: TextOpt, v: string): string {
    match o
    case Mode => if v in {"redirect", "mixed", "tproxy", "tun"} then v else DefaultText(o)
    case ActiveKind => if v == "group" then v else "profile"
    case DNSMode => if v in {"dnsmasq", "redirect", "off"} then v else DefaultText(o)
    case Sniff => if v in {"auto", "on", "off"} then v else DefaultText(o)
    case Active => v
    case UpdateRepo => v
    case LANDevice => v
    case WANDevice => v
    case _ => OrDefault(v, DefaultText(o))
  }

  function NormalNumber(o: NumberOpt, v: int): int {
    if o == KeepAlive then NormalizeKeepAlive(v, DefaultNumber(o)) else if v == 0 then DefaultNumber(o) else v
  }

  function Normalized(s: Settings): Settings {
    s.(texts := map o | o in s.texts :: NormalText(o, s.texts[o]),
       numbers := map o | o in s.numbers :: NormalNumber(o, s.numbers[o]))
  }

  /** What a text option of a section is read as. */
  function TextRead(o: TextOpt, v: string): string {
    if o in {Active, LANDevice, WANDevice} then v else OrDefault(v, DefaultText(o))
  }

  /** UDP through the proxy was a flag of redirect mode once; that is a mode of its own now. */
  function Migrated(mode: string, proxyUDP: string): string {
    if mode == "redirect" && proxyUDP != "" && ToBool(proxyUDP, false) then "mixed" else mode
  }

  function Read(m: Section): Settings {
    Settings(
      (map o: TextOpt :: TextRead(o, Get(m, Text(o))))
        [Mode := Migrated(TextRead(Mode, Get(m, Text(Mode))), Get(m, ProxyUDP))],
      map o: NumberOpt :: ToInt(Get(m, Number(o)), DefaultNumber(o)),
      map o: FlagOpt :: ToBool(Get(m, Flag(o)), DefaultFlag(o)),
      List(m, BypassIP),
      List(m, BypassMAC))
  }

  function LoadSettings(m: Section): Settings {
    Normalized(Read(m))
  }

  predicate TextSaved(o: TextOpt, v: string) {
    o in {LANDevice, WANDevice} ==> v != ""
  }

  function SavedTexts(s: Settings): map<Key, string>
    requires Complete(s)
  {
    map o: TextOpt | TextSaved(o, s.texts[o]) :: Text(o) := s.texts[o]
  }

  function SavedNumbers(s: Settings): map<Key, string>
    requires Complete(s)
  {
    map o: NumberOpt :: Number(o) := Itoa(s.numbers[o])
  }

  function SavedFlags(s: Settings): map<Key, string>
    requires Complete(s)
  {
    map o: FlagOpt :: Flag(o) := FromBool(s.flags[o])
  }

  function SaveSettings(s: Settings): Section
    requires Complete(s)
  {
    Section(
      Main, "main", SavedTexts(s) + SavedNumbers(s) + SavedFlags(s),
      (if s.bypassIP != [] then map[BypassIP := s.bypassIP] else map[])
      + (if s.bypassMAC != [] then map[BypassMAC := s.bypassMAC] else map[]))
  }

  lemma SavedKeys(s: Settings)
    requires Complete(s)
    ensures forall k :: k in SavedTexts(s) ==> k.Text?
    ensures forall k :: k in SavedNumbers(s) ==> k.Number?
    ensures forall k :: k in SavedFlags(s) ==> k.Flag?
  {
    hide Itoa;
  }

  lemma SavedTextsMean(s: Settings, o: TextOpt)
    requires Complete(s)
    ensures var t := SavedTexts(s); (if Text(o) in t then t[Text(o)] else "") == s.texts[o]
  {
    if TextSaved(o, s.texts[o]) {
      assert Text(o) in SavedTexts(s);
    }
  }

  lemma SavedOthersMean(s: Settings, n: NumberOpt, f: FlagOpt)
    requires Complete(s)
    ensures Number(n) in SavedNumbers(s) && SavedNumbers(s)[Number(n)] == Itoa(s.numbers[n])
    ensures Flag(f) in SavedFlags(s) && SavedFlags(s)[Flag(f)] == FromBool(s.flags[f])
  {
    hide Itoa;
    assert Number(n) in SavedNumbers(s) && Flag(f) in SavedFlags(s);
  }

  lemma SavedMeans(s: Settings)
    requires Complete(s)
    ensures forall o: TextOpt :: Get(SaveSettings(s), Text(o)) == s.texts[o]
    ensures forall o: NumberOpt :: Get(SaveSettings(s), Number(o)) == Itoa(s.numbers[o])
    ensures forall o: FlagOpt :: Get(SaveSettings(s), Flag(o)) == FromBool(s.flags[o])
    ensures Get(SaveSettings(s), ProxyUDP) == ""
    ensures List(SaveSettings(s), BypassIP) == s.bypassIP && List(SaveSettings(s), BypassMAC) == s.bypassMAC
  {
    hide Itoa, FromBool, SavedTexts, SavedNumbers, SavedFlags;
    SavedKeys(s);
    forall o: TextOpt ensures Get(SaveSettings(s), Text(o)) == s.texts[o] {
      SavedTextsMean(s, o);
    }
    forall o: NumberOpt ensures Get(SaveSettings(s), Number(o)) == Itoa(s.numbers[o]) {
      SavedOthersMean(s, o, Enabled);
    }
    forall o: FlagOpt ensures Get(SaveSettings(s), Flag(o)) == FromBool(s.flags[o]) {
      SavedOthersMean(s, SocksPort, o);
    }
  }

  /** Settings that saving and loading leaves alone. */
  ghost predicate Canonical(s: Settings) {
    Complete(s) && Normalized(s) == s && s.texts[UpdateRepo] != ""
  }

  /** What is loaded after a save, option by option. */
  lemma ReadSaved(s: Settings)
    requires Complete(s)
    ensures var r := Read(SaveSettings(s));
            (&& r.texts == (map o: TextOpt :: TextRead(o, s.texts[o]))
             && r.numbers == (map o: NumberOpt :: s.numbers[o])
             && r.flags == (map o: FlagOpt :: s.flags[o])
             && r.bypassIP == s.bypassIP && r.bypassMAC == s.bypassMAC)
  {
    hide Itoa, ToInt, ToBool, TextRead, SaveSettings, Get, List;
    SavedMeans(s);
    forall o: NumberOpt ensures ToInt(Itoa(s.numbers[o]), DefaultNumber(o)) == s.numbers[o] {
      NumberComesBack(s.numbers[o], DefaultNumber(o));
    }
    forall o: FlagOpt ensures ToBool(FromBool(s.flags[o]), DefaultFlag(o)) == s.flags[o] {
      FlagComesBack(s.flags[o], DefaultFlag(o));
    }
  }

  lemma NormalTextMeans(o: TextOpt, v: string)
    ensures NormalText(o, NormalText(o, v)) == NormalText(o, v)
    ensures NormalText(o, v) == v && (o == UpdateRepo ==> v != "") ==> TextRead(o, v) == v
    ensures NormalText(o, TextRead(o, v)) == v ==> TextRead(o, v) == v
    ensures o == UpdateRepo ==> TextRead(o, v) != ""
  {
  }

  lemma NormalNumberMeans(o: NumberOpt, v: int)
    ensures NormalNumber(o, NormalNumber(o, v)) == NormalNumber(o, v)
  {
  }

  /** Settings come back as they were saved exactly when they are canonical. */
  lemma SettingsComeBack(s: Settings)
    requires Complete(s)
    ensures LoadSettings(SaveSettings(s)) == s <==> Canonical(s)
  {
    hide NormalText, NormalNumber, TextRead, SaveSettings, Read;
    ReadSaved(s);
    var r := Read(SaveSettings(s));
    var l := LoadSettings(SaveSettings(s));
    forall o: TextOpt
      ensures NormalText(o, s.texts[o]) == s.texts[o] && (o == UpdateRepo ==> s.texts[o] != "") ==>
                TextRead(o, s.texts[o]) == s.texts[o]
      ensures NormalText(o, TextRead(o, s.texts[o])) == s.texts[o] ==> TextRead(o, s.texts[o]) == s.texts[o]
      ensures o == UpdateRepo ==> TextRead(o, s.texts[o]) != ""
    {
      NormalTextMeans(o, s.texts[o]);
    }
    if Canonical(s) {
      forall o: TextOpt ensures NormalText(o, s.texts[o]) == s.texts[o] {
        assert Normalized(s).texts[o] == s.texts[o];
      }
      assert r.texts == s.texts && r.numbers == s.numbers && r.flags == s.flags;
      assert r == s;
    }
    if l == s {
      forall o: TextOpt ensures TextRead(o, s.texts[o]) == s.texts[o] {
        assert l.texts[o] == NormalText(o, TextRead(o, s.texts[o]));
      }
      assert r.texts == s.texts && r.numbers == s.numbers && r.flags == s.flags;
      assert r == s;
    }
  }

  lemma LoadedIsCanonical(m: Section)
    ensures Canonical(LoadSettings(m))
  {
    hide NormalText, NormalNumber, TextRead, ToBool, ToInt, Get, List;
    var r, l := Read(m), LoadSettings(m);
    forall o: TextOpt ensures NormalText(o, l.texts[o]) == l.texts[o] && (o == UpdateRepo ==> l.texts[o] != "") {
      NormalTextMeans(o, r.texts[o]);
      NormalTextMeans(o, Get(m, Text(o)));
      RepoIsKept(r.texts[o]);
    }
    forall o: NumberOpt ensures NormalNumber(o, l.numbers[o]) == l.numbers[o] {
      NormalNumberMeans(o, r.numbers[o]);
    }
    assert Normalized(l).texts == l.texts && Normalized(l).numbers == l.numbers;
  }

  /** Whatever a section says, what is loaded from it is canonical, so that it comes back unchanged
      from then on; an old flag for UDP is honoured and not written again. */
  lemma LoadedStays(m: Section)
    ensures Complete(LoadSettings(m))
    ensures LoadSettings(SaveSettings(LoadSettings(m))) == LoadSettings(m)
    ensures Get(SaveSettings(LoadSettings(m)), ProxyUDP) == ""
    ensures TextRead(Mode, Get(m, Text(Mode))) == "redirect"
            && Get(m, ProxyUDP) != "" && ToBool(Get(m, ProxyUDP), false) ==>
              LoadSettings(m).texts[Mode] == "mixed"
  {
    hide NormalText, NormalNumber, TextRead, ToBool, ToInt, SaveSettings, Get, List;
    LoadedIsCanonical(m);
    MixedIsValid();
    SavedMeans(LoadSettings(m));
    SettingsComeBack(LoadSettings(m));
  }

  /** Texts that must say something. Of the others, the active target and the two devices may be
      left empty, and four are one of a few words. */
  const FILLED: set<TextOpt> := {DNS, LogLevel, UpdateRepo, XrayBin, HevBin, RunDir, TunName, TunAddr, TunMask, FwMark}

  predicate TextStands(o: TextOpt, v: string) {
    match o
    case Mode => v in {"redirect", "mixed", "tproxy", "tun"}
    case DNSMode => v in {"dnsmasq", "redirect", "off"}
    case Sniff => v in {"auto", "on", "off"}
    case ActiveKind => v in {"profile", "group"}
    case _ => o in FILLED ==> v != ""
  }

  predicate NumberStands(o: NumberOpt, n: int) {
    if o == KeepAlive then n == -1 || 10 <= n <= 600 else n != 0
  }

  lemma NormalTextKeeps(o: TextOpt, v: string)
    ensures NormalText(o, v) == v && (o == UpdateRepo ==> v != "") <==> TextStands(o, v)
  {
    DefaultsAreValid();
  }

  lemma DefaultsAreValid()
    ensures DefaultText(Mode) in {"redirect", "mixed", "tproxy", "tun"} && DefaultText(Sniff) in {"auto", "on", "off"}
    ensures DefaultText(DNSMode) in {"dnsmasq", "redirect", "off"}
    ensures forall o :: o in FILLED ==> DefaultText(o) != ""
  {
  }

  lemma NormalNumberKeeps(o: NumberOpt, n: int)
    ensures NormalNumber(o, n) == n <==> NumberStands(o, n)
  {
  }

  lemma TextsStand(s: Settings)
    requires Complete(s)
    ensures Normalized(s).texts == s.texts && s.texts[UpdateRepo] != "" <==>
            forall o: TextOpt :: TextStands(o, s.texts[o])
  {
    hide NormalText, NormalNumber, TextStands;
    var n := Normalized(s);
    forall o: TextOpt
      ensures n.texts[o] == s.texts[o] && (o == UpdateRepo ==> s.texts[o] != "") <==> TextStands(o, s.texts[o])
    {
      NormalTextKeeps(o, s.texts[o]);
    }
  }

  lemma NumbersStand(s: Settings)
    requires Complete(s)
    ensures Normalized(s).numbers == s.numbers <==> forall o: NumberOpt :: NumberStands(o, s.numbers[o])
  {
    hide NormalText, NormalNumber, NumberStands;
    var n := Normalized(s);
    forall o: NumberOpt ensures n.numbers[o] == s.numbers[o] <==> NumberStands(o, s.numbers[o]) {
      NormalNumberKeeps(o, s.numbers[o]);
    }
  }

  /** Which settings come back as they were saved, option by option. */
  lemma CanonicalMeans(s: Settings)
    requires Complete(s)
    ensures Canonical(s) <==>
            && s.texts[Mode] in {"redirect", "mixed", "tproxy", "tun"}
            && s.texts[DNSMode] in {"dnsmasq", "redirect", "off"}
            && s.texts[Sniff] in {"auto", "on", "off"}
            && s.texts[ActiveKind] in {"profile", "group"}
            && (forall o :: o in FILLED ==> s.texts[o] != "")
            && (forall o: NumberOpt :: o != KeepAlive ==> s.numbers[o] != 0)
            && (s.numbers[KeepAlive] == -1 || 10 <= s.numbers[KeepAlive] <= 600)
  {
    hide Normalized, TextStands, NumberStands;
    TextsStand(s);
    NumbersStand(s);
    EachText(s);
    EachNumber(s);
    NormalizedKeeps(s);
  }

  lemma NormalizedKeeps(s: Settings)
    ensures var n := Normalized(s); n.flags == s.flags && n.bypassIP == s.bypassIP && n.bypassMAC == s.bypassMAC
  {
  }

  lemma EachText(s: Settings)
    requires Complete(s)
    ensures (forall o: TextOpt :: TextStands(o, s.texts[o])) <==>
            && s.texts[Mode] in {"redirect", "mixed", "tproxy", "tun"}
            && s.texts[DNSMode] in {"dnsmasq", "redirect", "off"}
            && s.texts[Sniff] in {"auto", "on", "off"}
            && s.texts[ActiveKind] in {"profile", "group"}
            && forall o :: o in FILLED ==> s.texts[o] != ""
  {
    if forall o: TextOpt :: TextStands(o, s.texts[o]) {
      assert TextStands(Mode, s.texts[Mode]) && TextStands(DNSMode, s.texts[DNSMode]);
      assert TextStands(Sniff, s.texts[Sniff]) && TextStands(ActiveKind, s.texts[ActiveKind]);
      forall o | o in FILLED ensures s.texts[o] != "" {
        assert TextStands(o, s.texts[o]);
      }
    }
  }

  lemma EachNumber(s: Settings)
    requires Complete(s)
    ensures (forall o: NumberOpt :: NumberStands(o, s.numbers[o])) <==>
            && (forall o: NumberOpt :: o != KeepAlive ==> s.numbers[o] != 0)
            && (s.numbers[KeepAlive] == -1 || 10 <= s.numbers[KeepAlive] <= 600)
  {
    if forall o: NumberOpt :: NumberStands(o, s.numbers[o]) {
      assert NumberStands(KeepAlive, s.numbers[KeepAlive]);
      forall o: NumberOpt | o != KeepAlive ensures s.numbers[o] != 0 {
        assert NumberStands(o, s.numbers[o]);
      }
    }
  }

  lemma RepoIsKept(v: string)
    ensures NormalText(UpdateRepo, v) == v
  {
  }

  lemma MixedIsValid()
    ensures NormalText(Mode, "mixed") == "mixed"
  {
  }

  // ----- the other sections

  datatype Profile = Profile(
    id: string, texts: map<ProfileText, string>, port: int, alterID: int, flags: map<ProfileFlag, bool>)

  datatype Group = Group(
    id: string, name: string, strategy: string, members: seq<string>, probeURL: string, probeInterval: string)

  datatype Rule = Rule(
    id: string, name: string, enabled: bool, action: string, domains: seq<string>, ips: seq<string>,
    sources: seq<string>, port: string, sourcePort: string, protocols: seq<string>, network: string)

  datatype Subscription = Subscription(id: string, name: string, url: string, updated: string, count: int)

  datatype Data = Data(
    settings: Settings, profiles: seq<Profile>, groups: seq<Group>, rules: seq<Rule>, subscriptions: seq<Subscription>)

  ghost predicate WholeProfile(p: Profile) {
    (forall o: ProfileText :: o in p.texts) && (forall f: ProfileFlag :: f in p.flags)
  }

  function ProfileDefault(o: ProfileText): string {
    match o
    case Proto => "vless"
    case Net => "tcp"
    case Security => "none"
    case _ => ""
  }

  function LoadProfile(s: Section): Profile {
    Profile(s.id, map o: ProfileText :: OrDefault(Get(s, OfProfile(o)), ProfileDefault(o)),
            ToInt(Get(s, ProfilePort), 0), ToInt(Get(s, AlterID), 0),
            map f: ProfileFlag :: ToBool(Get(s, Key.ProfileFlag(f)), false))
  }

  function SavedProfileTexts(p: Profile): map<Key, string>
    requires WholeProfile(p)
  {
    map o: ProfileText | p.texts[o] != "" :: OfProfile(o) := p.texts[o]
  }

  function SavedProfileFlags(p: Profile): map<Key, string>
    requires WholeProfile(p)
  {
    map f: ProfileFlag | p.flags[f] :: Key.ProfileFlag(f) := "1"
  }

  function SaveProfile(p: Profile): Section
    requires WholeProfile(p)
  {
    Section(Profiles, p.id,
            SavedProfileTexts(p) + map[ProfilePort := Itoa(p.port)]
            + (if p.alterID != 0 then map[AlterID := Itoa(p.alterID)] else map[]) + SavedProfileFlags(p),
            map[])
  }

  lemma SavedProfileMeans(p: Profile, o: ProfileText, f: ProfileFlag)
    requires WholeProfile(p)
    ensures forall k :: k in SavedProfileTexts(p) ==> k.OfProfile?
    ensures forall k :: k in SavedProfileFlags(p) ==> k.ProfileFlag?
    ensures var t := SavedProfileTexts(p); (if OfProfile(o) in t then t[OfProfile(o)] else "") == p.texts[o]
    ensures var t := SavedProfileFlags(p);
            (if Key.ProfileFlag(f) in t then t[Key.ProfileFlag(f)] else "") == if p.flags[f] then "1" else ""
  {
    assert p.texts[o] != "" ==> OfProfile(o) in SavedProfileTexts(p);
    assert p.flags[f] ==> Key.ProfileFlag(f) in SavedProfileFlags(p);
  }

  ghost predicate CanonicalProfile(p: Profile) {
    WholeProfile(p) && p.texts[Proto] != "" && p.texts[Net] != "" && p.texts[Security] != ""
  }

  lemma SavedProfileGet(p: Profile, o: ProfileText, f: ProfileFlag)
    requires WholeProfile(p)
    ensures var s := SaveProfile(p);
            (&& s.id == p.id && s.kind == Profiles && Get(s, OfProfile(o)) == p.texts[o]
             && Get(s, Key.ProfileFlag(f)) == (if p.flags[f] then "1" else "")
             && Get(s, ProfilePort) == Itoa(p.port)
             && Get(s, AlterID) == if p.alterID != 0 then Itoa(p.alterID) else "")
  {
    hide Itoa, SavedProfileTexts, SavedProfileFlags, Get, WholeProfile;
    SavedProfileFieldGet(p, o, f);
    SavedProfileNumberGet(p);
  }

  lemma SavedProfileFieldGet(p: Profile, o: ProfileText, f: ProfileFlag)
    requires WholeProfile(p)
    ensures Get(SaveProfile(p), OfProfile(o)) == p.texts[o]
    ensures Get(SaveProfile(p), Key.ProfileFlag(f)) == if p.flags[f] then "1" else ""
  {
    hide Itoa, SavedProfileTexts, SavedProfileFlags, WholeProfile;
    SavedProfileMeans(p, o, f);
  }

  lemma SavedProfileNumberGet(p: Profile)
    requires WholeProfile(p)
    ensures Get(SaveProfile(p), ProfilePort) == Itoa(p.port)
    ensures Get(SaveProfile(p), AlterID) == if p.alterID != 0 then Itoa(p.alterID) else ""
  {
    hide Itoa, SavedProfileTexts, SavedProfileFlags, WholeProfile;
    SavedProfileMeans(p, PName, Mux);
  }

  /** A server comes back as it was saved exactly when its protocol, transport and security are
      said. */
  lemma ProfileComesBack(p: Profile)
    requires WholeProfile(p)
    ensures LoadProfile(SaveProfile(p)) == p <==> CanonicalProfile(p)
  {
    hide Itoa, ToInt, ToBool, SaveProfile, Get;
    var l := LoadProfile(SaveProfile(p));
    SavedProfileGet(p, PName, Mux);
    NumberComesBack(p.port, 0);
    NumberComesBack(p.alterID, 0);
    Unset();
    forall o: ProfileText ensures l.texts[o] == OrDefault(p.texts[o], ProfileDefault(o)) {
      SavedProfileGet(p, o, Mux);
    }
    forall f: ProfileFlag ensures l.flags[f] == p.flags[f] {
      SavedProfileGet(p, PName, f);
      FlagComesBack(true, false);
    }
    assert l.flags == p.flags;
    if CanonicalProfile(p) {
      assert l.texts == p.texts;
    } else {
      assert p.texts[Proto] == "" || p.texts[Net] == "" || p.texts[Security] == "";
      assert ProfileDefault(Proto) != "" && ProfileDefault(Net) != "" && ProfileDefault(Security) != "";
      assert l.texts[Proto] != "" && l.texts[Net] != "" && l.texts[Security] != "";
    }
  }

  lemma Unset()
    ensures ToInt("", 0) == 0
    ensures ProfileDefault(Proto) != "" && ProfileDefault(Net) != "" && ProfileDefault(Security) != ""
  {
    assert ProfileDefault(Proto) == "vless" && ProfileDefault(Net) == "tcp" && ProfileDefault(Security) == "none";
  }

  predicate ValidStrategy(v: string) {
    v in {"leastPing", "leastLoad", "balance", "random", "roundRobin"}
  }

  function NormalGroup(g: Group): Group {
    g.(strategy := if ValidStrategy(g.strategy) then g.strategy else "leastPing",
       probeURL := OrDefault(g.probeURL, "https://cp.cloudflare.com/generate_204"),
       probeInterval := OrDefault(g.probeInterval, "60s"))
  }

  function LoadGroup(s: Section): Group {
    NormalGroup(Group(s.id, Get(s, Name), Get(s, Strategy), List(s, Member), Get(s, ProbeURL), Get(s, ProbeInterval)))
  }

  function OneList(l: ListOpt, vals: seq<string>): map<ListOpt, seq<string>> {
    if vals == [] then map[] else map[l := vals]
  }

  function OneText(k: Key, v: string): map<Key, string> {
    if v == "" then map[] else map[k := v]
  }

  function SaveGroup(group: Group): Section {
    var g := NormalGroup(group);
    Section(Groups, g.id,
            map[Name := g.name, Strategy := g.strategy, ProbeURL := g.probeURL, ProbeInterval := g.probeInterval],
            OneList(Member, g.members))
  }

  lemma NormalGroupStays(g: Group)
    ensures NormalGroup(NormalGroup(g)) == NormalGroup(g)
  {
  }

  /** What the gaps of a group are filled in with. */
  lemma NormalGroupMeans(g: Group)
    ensures var n := NormalGroup(g);
            && n.id == g.id && n.name == g.name && n.members == g.members
            && n.strategy ==
               (if g.strategy in {"leastPing", "leastLoad", "balance", "random", "roundRobin"} then g.strategy
                else "leastPing")
            && n.probeURL == (if g.probeURL == "" then "https://cp.cloudflare.com/generate_204" else g.probeURL)
            && n.probeInterval == if g.probeInterval == "" then "60s" else g.probeInterval
  {
  }

  /** A group comes back with its gaps filled in, which changes nothing a second time. */
  lemma GroupComesBack(g: Group)
    ensures LoadGroup(SaveGroup(g)) == NormalGroup(g) && NormalGroup(NormalGroup(g)) == NormalGroup(g)
  {
    hide NormalGroup;
    NormalGroupStays(g);
    var n, s := NormalGroup(g), SaveGroup(g);
    assert Get(s, Name) == n.name && Get(s, Strategy) == n.strategy;
    assert Get(s, ProbeURL) == n.probeURL && Get(s, ProbeInterval) == n.probeInterval;
    assert List(s, Member) == n.members;
  }

  function LoadRule(s: Section): Rule {
    Rule(s.id, Get(s, Name), ToBool(Get(s, RuleEnabled), true), OrDefault(Get(s, RuleAction), "direct"),
         List(s, Domains), List(s, IPs), List(s, Sources), Get(s, RulePort), Get(s, RuleSourcePort), List(s, Protocols),
         Get(s, RuleNetwork))
  }

  function RuleOptions(r: Rule): map<Key, string> {
    map[Name := r.name, RuleEnabled := FromBool(r.enabled), RuleAction := r.action]
    + OneText(RulePort, r.port) + OneText(RuleSourcePort, r.sourcePort) + OneText(RuleNetwork, r.network)
  }

  function RuleLists(r: Rule): map<ListOpt, seq<string>> {
    OneList(Domains, r.domains) + OneList(IPs, r.ips) + OneList(Sources, r.sources) + OneList(Protocols, r.protocols)
  }

  function SaveRule(r: Rule): Section {
    Section(Rules, r.id, RuleOptions(r), RuleLists(r))
  }

  lemma RuleOptionsMean(r: Rule, lists: map<ListOpt, seq<string>>)
    ensures var s := Section(Rules, r.id, RuleOptions(r), lists);
            (&& Get(s, Name) == r.name && Get(s, RuleEnabled) == FromBool(r.enabled) && Get(s, RuleAction) == r.action
             && Get(s, RulePort) == r.port && Get(s, RuleSourcePort) == r.sourcePort
             && Get(s, RuleNetwork) == r.network)
  {
    hide FromBool;
  }

  lemma RuleListsMean(r: Rule, options: map<Key, string>)
    ensures var s := Section(Rules, r.id, options, RuleLists(r));
            (&& List(s, Domains) == r.domains && List(s, IPs) == r.ips
             && List(s, Sources) == r.sources && List(s, Protocols) == r.protocols)
  {
  }

  lemma RuleComesBack(r: Rule)
    ensures LoadRule(SaveRule(r)) == r <==> r.action != ""
  {
    hide ToBool, FromBool, RuleOptions, RuleLists, Get, List;
    RuleOptionsMean(r, RuleLists(r));
    RuleListsMean(r, RuleOptions(r));
    FlagComesBack(r.enabled, true);
  }

  function LoadSubscription(s: Section): Subscription {
    Subscription(s.id, Get(s, Name), Get(s, URL), Get(s, Updated), ToInt(Get(s, Count), 0))
  }

  function SaveSubscription(s: Subscription): Section {
    Section(Subscriptions, s.id,
            map[Name := s.name, URL := s.url] + OneText(Updated, s.updated) + map[Count := Itoa(s.count)], map[])
  }

  lemma SubscriptionComesBack(s: Subscription)
    ensures LoadSubscription(SaveSubscription(s)) == s
  {
    hide ToInt, Itoa;
    NumberComesBack(s.count, 0);
  }

  // ----- the whole configuration

  function OfKind(sections: seq<Section>, kind: Kind): seq<Section> {
    if sections == [] then []
    else
      var init := OfKind(sections[..|sections| - 1], kind);
      if sections[|sections| - 1].kind == kind then init + [sections[|sections| - 1]] else init
  }

  predicate AllOf(sections: seq<Section>, kind: Kind) {
    forall i :: 0 <= i < |sections| ==> sections[i].kind == kind
  }

  lemma {:induction false} OfKindJoins(a: seq<Section>, b: seq<Section>, kind: Kind)
    ensures OfKind(a + b, kind) == OfKind(a, kind) + OfKind(b, kind)
  {
    if b == [] {
      assert a + b == a;
    } else {
      assert (a + b)[..|a + b| - 1] == a + b[..|b| - 1];
      OfKindJoins(a, b[..|b| - 1], kind);
    }
  }

  lemma {:induction false} OfOneKind(sections: seq<Section>, own: Kind, kind: Kind)
    requires AllOf(sections, own)
    ensures OfKind(sections, kind) == if own == kind then sections else []
  {
    if sections != [] {
      OfOneKind(sections[..|sections| - 1], own, kind);
    }
  }

  function ProfileSections(ps: seq<Profile>): seq<Section>
    requires forall i :: 0 <= i < |ps| ==> WholeProfile(ps[i])
  {
    seq(|ps|, i requires 0 <= i < |ps| => SaveProfile(ps[i]))
  }

  function GroupSections(gs: seq<Group>): seq<Section> {
    seq(|gs|, i requires 0 <= i < |gs| => SaveGroup(gs[i]))
  }

  function RuleSections(rs: seq<Rule>): seq<Section> {
    seq(|rs|, i requires 0 <= i < |rs| => SaveRule(rs[i]))
  }

  function SubscriptionSections(ss: seq<Subscription>): seq<Section> {
    seq(|ss|, i requires 0 <= i < |ss| => SaveSubscription(ss[i]))
  }

  ghost predicate Whole(d: Data) {
    Complete(d.settings) && forall i :: 0 <= i < |d.profiles| ==> WholeProfile(d.profiles[i])
  }

  function Save(d: Data): seq<Section>
    requires Whole(d)
  {
    [SaveSettings(d.settings)] + ProfileSections(d.profiles) + GroupSections(d.groups) + RuleSections(d.rules)
    + SubscriptionSections(d.subscriptions)
  }

  /** The sections of each kind in file order; without a main section the settings are the
      defaults. */
  function Load(sections: seq<Section>): Data {
    var main := OfKind(sections, Main);
    var ps, gs := OfKind(sections, Profiles), OfKind(sections, Groups);
    var rs, ss := OfKind(sections, Rules), OfKind(sections, Subscriptions);
    Data(LoadSettings(if main == [] then Section(Main, "main", map[], map[]) else main[0]),
         seq(|ps|, i requires 0 <= i < |ps| => LoadProfile(ps[i])),
         seq(|gs|, i requires 0 <= i < |gs| => LoadGroup(gs[i])),
         seq(|rs|, i requires 0 <= i < |rs| => LoadRule(rs[i])),
         seq(|ss|, i requires 0 <= i < |ss| => LoadSubscription(ss[i])))
  }

  lemma SavedKinds(d: Data)
    requires Whole(d)
    ensures AllOf([SaveSettings(d.settings)], Main) && AllOf(ProfileSections(d.profiles), Profiles)
    ensures AllOf(GroupSections(d.groups), Groups) && AllOf(RuleSections(d.rules), Rules)
    ensures AllOf(SubscriptionSections(d.subscriptions), Subscriptions)
  {
    hide SavedTexts, SavedNumbers, SavedFlags, SavedProfileTexts, SavedProfileFlags, Itoa, FromBool, RuleOptions,
         RuleLists, OneText, OneList, NormalGroup;
  }

  lemma SectionsOf(d: Data, kind: Kind)
    requires Whole(d)
    ensures OfKind(Save(d), kind) ==
            match kind
            case Main => [SaveSettings(d.settings)]
            case Profiles => ProfileSections(d.profiles)
            case Groups => GroupSections(d.groups)
            case Rules => RuleSections(d.rules)
            case Subscriptions => SubscriptionSections(d.subscriptions)
  {
    hide SaveSettings, ProfileSections, GroupSections, RuleSections, SubscriptionSections, OfKind, AllOf;
    SavedKinds(d);
    var m, ps, gs := [SaveSettings(d.settings)], ProfileSections(d.profiles), GroupSections(d.groups);
    var rs, ss := RuleSections(d.rules), SubscriptionSections(d.subscriptions);
    OfOneKind(m, Main, kind);
    OfOneKind(ps, Profiles, kind);
    OfOneKind(gs, Groups, kind);
    OfOneKind(rs, Rules, kind);
    OfOneKind(ss, Subscriptions, kind);
    OfKindJoins(m + ps + gs + rs, ss, kind);
    OfKindJoins(m + ps + gs, rs, kind);
    OfKindJoins(m + ps, gs, kind);
    OfKindJoins(m, ps, kind);
  }

  ghost predicate CanonicalData(d: Data) {
    && Canonical(d.settings)
    && (forall i :: 0 <= i < |d.profiles| ==> CanonicalProfile(d.profiles[i]))
    && (forall i :: 0 <= i < |d.groups| ==> NormalGroup(d.groups[i]) == d.groups[i])
    && (forall i :: 0 <= i < |d.rules| ==> d.rules[i].action != "")
  }

  /** A configuration comes back from its sections as it was saved, every list in its order, if
      and only if nothing in it is left to a default. */
  lemma ConfigurationComesBack(d: Data)
    requires Whole(d)
    ensures Load(Save(d)) == d <==> CanonicalData(d)
  {
    hide OfKind, Save, LoadSettings, SaveSettings, LoadProfile, SaveProfile, LoadGroup, SaveGroup, LoadRule, SaveRule,
         LoadSubscription, SaveSubscription, Canonical, CanonicalProfile, NormalGroup;
    SectionsOf(d, Main);
    SectionsOf(d, Profiles);
    SectionsOf(d, Groups);
    SectionsOf(d, Rules);
    SectionsOf(d, Subscriptions);
    var l := Load(Save(d));
    SettingsComeBack(d.settings);
    forall i | 0 <= i < |d.profiles| ensures l.profiles[i] == d.profiles[i] <==> CanonicalProfile(d.profiles[i]) {
      ProfileComesBack(d.profiles[i]);
    }
    forall i | 0 <= i < |d.groups| ensures l.groups[i] == d.groups[i] <==> NormalGroup(d.groups[i]) == d.groups[i] {
      GroupComesBack(d.groups[i]);
    }
    forall i | 0 <= i < |d.rules| ensures l.rules[i] == d.rules[i] <==> d.rules[i].action != "" {
      RuleComesBack(d.rules[i]);
    }
    forall i | 0 <= i < |d.subscriptions| ensures l.subscriptions[i] == d.subscriptions[i] {
      SubscriptionComesBack(d.subscriptions[i]);
    }
    if CanonicalData(d) {
      assert l.profiles == d.profiles && l.groups == d.groups && l.rules == d.rules;
    }
    assert l.subscriptions == d.subscriptions;
  }

  lemma LoadedProfileIsCanonical(s: Section)
    ensures CanonicalProfile(LoadProfile(s))
  {
    hide ToInt, ToBool, Get;
  }

  /** Whatever a file says, what is loaded from it is written and loaded again without a change. */
  lemma LoadedConfigurationStays(sections: seq<Section>)
    ensures Whole(Load(sections)) && Load(Save(Load(sections))) == Load(sections)
  {
    hide OfKind, LoadSettings, LoadProfile, SaveSettings, SaveProfile, ToBool, ToInt, Get, List, ValidStrategy;
    var d := Load(sections);
    var main := OfKind(sections, Main);
    var m := if main == [] then Section(Main, "main", map[], map[]) else main[0];
    LoadedStays(m);
    SettingsComeBack(d.settings);
    forall i | 0 <= i < |d.profiles| ensures CanonicalProfile(d.profiles[i]) {
      LoadedProfileIsCanonical(OfKind(sections, Profiles)[i]);
    }
    forall i | 0 <= i < |d.groups| ensures NormalGroup(d.groups[i]) == d.groups[i] {
      GroupComesBack(d.groups[i]);
    }
    ConfigurationComesBack(d);
  }
}
