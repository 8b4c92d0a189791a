/**
 What the file says and what is loaded of it (internal/ucicfg/store.go, internal/model/model.go),
 option by option under the names of the file.
 */
module StoreValues {
  import opened Optional
  import opened Strings
  import opened Store
  import opened StoreNames
  import opened StoreFile
  import opened StoreText
  import M = UciModel

  // ----- what a section of the file says

  function Opt(t: M.Section, name: string): string {
    if name in t.options then t.options[name] else ""
  }

  function Items(t: M.Section, name: string): seq<string> {
    if name in t.lists then t.lists[name] else []
  }

  function Said(t: M.Section, name: string, def: string): string {
    if Opt(t, name) == "" then def else Opt(t, name)
  }

  function SaidWord(t: M.Section, name: string, words: set<string>, def: string): string {
    if Opt(t, name) in words then Opt(t, name) else def
  }

  /** A number with or without white space around it, or none. */
  function SaidNumber(t: M.Section, name: string, def: int): int {
    match Atoi(TrimSpace(Opt(t, name)))
    case Some(n) => n
    case None => def
  }

  predicate SaidFlag(t: M.Section, name: string, def: bool) {
    var w := Lower(TrimSpace(Opt(t, name)));
    if w == "1" || w == "true" || w == "yes" || w == "on" || w == "enabled" then true
    else if w == "0" || w == "false" || w == "no" || w == "off" || w == "disabled" then false
    else def
  }

  lemma ReadByName(kind: Kind, t: M.Section, k: Key)
    requires KeyOf(kind, k)
    ensures Get(FromText(kind, t), k) == Opt(t, ReadAs(k))
  {
    hide ReadAs, KeyOf;
    KeysAreOf(kind, k);
  }

  lemma ListByName(kind: Kind, t: M.Section, l: ListOpt)
    requires ListOf(kind, l)
    ensures List(FromText(kind, t), l) == Items(t, ReadList(l))
  {
    hide ReadList, ListOf;
    ListsAreOf(kind, l);
  }

  lemma NumberIsSaid(t: M.Section, name: string, def: int)
    ensures ToInt(Opt(t, name), def) == SaidNumber(t, name, def)
  {
    Blank();
  }

  lemma FlagIsSaid(t: M.Section, name: string, def: bool)
    ensures ToBool(Opt(t, name), def) == SaidFlag(t, name, def)
  {
    hide TrimSpace, Lower;
  }

  // ----- the settings

  function LoadedText(t: M.Section, o: TextOpt): string {
    var texts := LoadSettings(FromText(Main, t)).texts;
    if o in texts then texts[o] else ""
  }

  function LoadedNumber(t: M.Section, o: NumberOpt): int {
    var numbers := LoadSettings(FromText(Main, t)).numbers;
    if o in numbers then numbers[o] else 0
  }

  predicate LoadedFlag(t: M.Section, o: FlagOpt) {
    var flags := LoadSettings(FromText(Main, t)).flags;
    o in flags && flags[o]
  }

  /** Nothing is missing of what is loaded. */
  lemma AllIsLoaded(t: M.Section)
    ensures Complete(LoadSettings(FromText(Main, t)))
  {
    hide FromText;
    LoadedStays(FromText(Main, t));
  }

  lemma ModeLoads(t: M.Section)
    ensures LoadedText(t, Mode) ==
            if Opt(t, "mode") == "redirect" && SaidFlag(t, "proxy_udp", false) then "mixed"
            else SaidWord(t, "mode", {"redirect", "mixed", "tproxy", "tun"}, "mixed")
  {
    hide KeyOf, SaidFlag, ToBool, ToInt, FromText;
    MainKeys();
    ReadByName(Main, t, Text(Mode));
    ReadByName(Main, t, ProxyUDP);
    FlagIsSaid(t, "proxy_udp", false);
    UnsetFlag(t, "proxy_udp");
  }

  lemma WordLoads(t: M.Section, o: TextOpt)
    requires o in {DNSMode, Sniff, ActiveKind}
    ensures LoadedText(t, o) == NormalText(o, Said(t, ReadAs(Text(o)), DefaultText(o)))
  {
    hide KeyOf, ReadAs, ToBool, ToInt, FromText, Migrated, NormalText;
    MainKeys();
    ReadByName(Main, t, Text(o));
  }

  /** The four that are one of a few words. An old file's flag for UDP turns redirect into mixed. */
  lemma ChosenSettings(t: M.Section)
    ensures LoadedText(t, Mode) ==
            if Opt(t, "mode") == "redirect" && SaidFlag(t, "proxy_udp", false) then "mixed"
            else SaidWord(t, "mode", {"redirect", "mixed", "tproxy", "tun"}, "mixed")
    ensures LoadedText(t, DNSMode) == SaidWord(t, "dns_mode", {"dnsmasq", "redirect", "off"}, "dnsmasq")
    ensures LoadedText(t, Sniff) == SaidWord(t, "sniff", {"auto", "on", "off"}, "auto")
    ensures LoadedText(t, ActiveKind) == SaidWord(t, "active_kind", {"profile", "group"}, "profile")
  {
    hide LoadedText, Opt, SaidFlag;
    ModeLoads(t);
    WordLoads(t, DNSMode);
    WordLoads(t, Sniff);
    WordLoads(t, ActiveKind);
  }

  lemma UnsetFlag(t: M.Section, name: string)
    ensures Opt(t, name) == "" ==> !SaidFlag(t, name, false)
  {
    FlagComesBack(true, false);
    FlagIsSaid(t, name, false);
  }

  lemma MainKeys()
    ensures forall o :: KeyOf(Main, Text(o))
    ensures forall o :: KeyOf(Main, Number(o))
    ensures forall o :: KeyOf(Main, Flag(o))
    ensures KeyOf(Main, ProxyUDP) && ListOf(Main, BypassIP) && ListOf(Main, BypassMAC)
  {
  }

  lemma TextLoads(t: M.Section, o: TextOpt)
    requires o !in {Mode, DNSMode, Sniff, ActiveKind}
    ensures LoadedText(t, o) ==
            if o in {Active, LANDevice, WANDevice} then Opt(t, ReadAs(Text(o)))
            else Said(t, ReadAs(Text(o)), DefaultText(o))
  {
    hide KeyOf, ReadAs, FromText, ToBool, ToInt, Migrated;
    MainKeys();
    ReadByName(Main, t, Text(o));
  }

  /** Every other text is what the file says, or its default. */
  lemma PlainSettings(t: M.Section)
    ensures LoadedText(t, Active) == Opt(t, "active")
    ensures LoadedText(t, LANDevice) == Opt(t, "lan_device") && LoadedText(t, WANDevice) == Opt(t, "wan_device")
    ensures LoadedText(t, DNS) == Said(t, "dns", "1.1.1.1")
    ensures LoadedText(t, LogLevel) == Said(t, "log_level", "warning")
    ensures LoadedText(t, UpdateRepo) == Said(t, "update_repo", "ozgunokan/xDivine-Ray")
  {
    hide LoadedText, Opt, Said;
    TextLoads(t, Active);
    TextLoads(t, LANDevice);
    TextLoads(t, WANDevice);
    TextLoads(t, DNS);
    TextLoads(t, LogLevel);
    TextLoads(t, UpdateRepo);
  }

  lemma ProgramSettings(t: M.Section)
    ensures LoadedText(t, XrayBin) == Said(t, "xray_bin", "xray")
    ensures LoadedText(t, HevBin) == Said(t, "hev_bin", "hev-socks5-tunnel")
    ensures LoadedText(t, RunDir) == Said(t, "run_dir", "/var/run/xwrt")
    ensures LoadedText(t, FwMark) == Said(t, "fwmark", "0x1e0")
  {
    hide LoadedText, Opt, Said;
    TextLoads(t, XrayBin);
    TextLoads(t, HevBin);
    TextLoads(t, RunDir);
    TextLoads(t, FwMark);
  }

  lemma TunnelSettings(t: M.Section)
    ensures LoadedText(t, TunName) == Said(t, "tun_name", "xwrt0")
    ensures LoadedText(t, TunAddr) == Said(t, "tun_addr", "198.18.0.1")
    ensures LoadedText(t, TunMask) == Said(t, "tun_mask", "255.255.0.0")
  {
    hide LoadedText, Opt, Said;
    TextLoads(t, TunName);
    TextLoads(t, TunAddr);
    TextLoads(t, TunMask);
  }

  /** Zero stands for the default. */
  function SaidNonzero(t: M.Section, name: string, def: int): int {
    if SaidNumber(t, name, def) == 0 then def else SaidNumber(t, name, def)
  }

  lemma NumberLoads(t: M.Section, o: NumberOpt)
    ensures o != KeepAlive ==> LoadedNumber(t, o) == SaidNonzero(t, ReadAs(Number(o)), DefaultNumber(o))
    ensures o == KeepAlive ==>
              LoadedNumber(t, o) ==
              NormalizeKeepAlive(SaidNumber(t, ReadAs(Number(o)), DefaultNumber(o)), DefaultNumber(o))
  {
    hide KeyOf, ReadAs, FromText, ToBool, ToInt, SaidNumber, NormalizeKeepAlive;
    MainKeys();
    ReadByName(Main, t, Number(o));
    NumberIsSaid(t, ReadAs(Number(o)), DefaultNumber(o));
  }

  /** Every number is what the file says, or its default; seconds between keepalives are kept
      within ten and six hundred, and anything negative turns them off. */
  lemma NumberSettings(t: M.Section)
    ensures LoadedNumber(t, SocksPort) == SaidNonzero(t, "socks_port", 10808)
            && LoadedNumber(t, HTTPPort) == SaidNonzero(t, "http_port", 10809)
            && LoadedNumber(t, TProxyPort) == SaidNonzero(t, "tproxy_port", 12345)
            && LoadedNumber(t, DNSPort) == SaidNonzero(t, "dns_port", 15353)
            && LoadedNumber(t, APIPort) == SaidNonzero(t, "api_port", 8787)
            && LoadedNumber(t, StatsPort) == SaidNonzero(t, "stats_port", 10085)
            && LoadedNumber(t, ConnIdle) == SaidNonzero(t, "conn_idle", 14400)
            && LoadedNumber(t, TunMTU) == SaidNonzero(t, "tun_mtu", 8500)
            && LoadedNumber(t, RouteTable) == SaidNonzero(t, "route_table", 180)
    ensures var n := SaidNonzero(t, "keepalive", 30);
            LoadedNumber(t, KeepAlive) == if n < 0 then -1 else if n < 10 then 10 else if n > 600 then 600 else n
  {
    hide LoadedNumber, SaidNumber;
    NumberLoads(t, SocksPort);
    NumberLoads(t, HTTPPort);
    NumberLoads(t, TProxyPort);
    NumberLoads(t, DNSPort);
    NumberLoads(t, APIPort);
    NumberLoads(t, StatsPort);
    NumberLoads(t, ConnIdle);
    NumberLoads(t, TunMTU);
    NumberLoads(t, RouteTable);
    NumberLoads(t, KeepAlive);
  }

  lemma FlagLoads(t: M.Section, o: FlagOpt)
    ensures LoadedFlag(t, o) == SaidFlag(t, ReadAs(Flag(o)), DefaultFlag(o))
  {
    hide KeyOf, ReadAs, FromText, ToBool, ToInt, SaidFlag;
    MainKeys();
    ReadByName(Main, t, Flag(o));
    FlagIsSaid(t, ReadAs(Flag(o)), DefaultFlag(o));
  }

  /** Every switch is as the file says, or its default, and the two lists are those of the file. */
  lemma SwitchSettings(t: M.Section)
    ensures LoadedFlag(t, Enabled) == SaidFlag(t, "enabled", false)
            && LoadedFlag(t, ProxyRouter) == SaidFlag(t, "proxy_router", false)
            && LoadedFlag(t, BlockQUIC) == SaidFlag(t, "block_quic", true)
            && LoadedFlag(t, SyncTime) == SaidFlag(t, "sync_time", true)
            && LoadedFlag(t, AllowLAN) == SaidFlag(t, "allow_lan", true)
            && LoadedFlag(t, AutoConnect) == SaidFlag(t, "auto_connect", true)
            && LoadedFlag(t, UpdateCheck) == SaidFlag(t, "update_check", true)
            && LoadedFlag(t, IPv6) == SaidFlag(t, "ipv6", false)
            && LoadSettings(FromText(Main, t)).bypassIP == Items(t, "bypass_ip")
            && LoadSettings(FromText(Main, t)).bypassMAC == Items(t, "bypass_mac")
  {
    FlagLoads(t, Enabled);
    FlagLoads(t, ProxyRouter);
    FlagLoads(t, BlockQUIC);
    FlagLoads(t, SyncTime);
    FlagLoads(t, AllowLAN);
    FlagLoads(t, AutoConnect);
    FlagLoads(t, UpdateCheck);
    FlagLoads(t, IPv6);
    ListsLoad(t);
    hide LoadedFlag, SaidFlag, Items, LoadSettings, FromText;
  }

  lemma ListsLoad(t: M.Section)
    ensures LoadSettings(FromText(Main, t)).bypassIP == Items(t, "bypass_ip")
    ensures LoadSettings(FromText(Main, t)).bypassMAC == Items(t, "bypass_mac")
  {
    hide KeyOf, ListOf, FromText, ToBool, ToInt, Items;
    MainKeys();
    ListByName(Main, t, BypassIP);
    ListByName(Main, t, BypassMAC);
  }

  // ----- the other sections

  function LoadedProfile(t: M.Section): Profile {
    LoadProfile(FromText(Profiles, t))
  }

  function ProfileField(t: M.Section, o: ProfileText): string {
    var texts := LoadedProfile(t).texts;
    if o in texts then texts[o] else ""
  }

  predicate ProfileSwitch(t: M.Section, o: ProfileFlag) {
    var flags := LoadedProfile(t).flags;
    o in flags && flags[o]
  }

  lemma ProfileKeys()
    ensures forall o :: KeyOf(Profiles, OfProfile(o))
    ensures forall o :: KeyOf(Profiles, Key.ProfileFlag(o))
    ensures KeyOf(Profiles, ProfilePort) && KeyOf(Profiles, AlterID)
  {
  }

  lemma ProfileTextLoads(t: M.Section, o: ProfileText)
    ensures ProfileField(t, o) == Said(t, ReadAs(OfProfile(o)), ProfileDefault(o))
  {
    hide KeyOf, ReadAs, FromText, ToBool, ToInt;
    ProfileKeys();
    ReadByName(Profiles, t, OfProfile(o));
  }

  lemma ProfileFlagLoads(t: M.Section, o: ProfileFlag)
    ensures ProfileSwitch(t, o) == SaidFlag(t, ReadAs(Key.ProfileFlag(o)), false)
  {
    hide KeyOf, ReadAs, FromText, ToBool, ToInt, SaidFlag;
    ProfileKeys();
    ReadByName(Profiles, t, Key.ProfileFlag(o));
    FlagIsSaid(t, ReadAs(Key.ProfileFlag(o)), false);
  }

  /** A server's name, its protocol and where it is. */
  lemma ServerFields(t: M.Section)
    ensures LoadedProfile(t).id == t.name && ProfileField(t, PName) == Said(t, "name", "")
    ensures ProfileField(t, Proto) == Said(t, "proto", "vless") && ProfileField(t, Address) == Said(t, "address", "")
    ensures LoadedProfile(t).port == SaidNumber(t, "port", 0)
    ensures LoadedProfile(t).alterID == SaidNumber(t, "alter_id", 0)
    ensures ProfileField(t, FromSubscription) == Said(t, "sub", "") && ProfileField(t, Remark) == Said(t, "remark", "")
  {
    ServerNumbers(t);
    hide LoadedProfile, ProfileField, Said, SaidNumber;
    ProfileTextLoads(t, PName);
    ProfileTextLoads(t, Proto);
    ProfileTextLoads(t, Address);
    ProfileTextLoads(t, FromSubscription);
    ProfileTextLoads(t, Remark);
  }

  lemma ServerNumbers(t: M.Section)
    ensures LoadedProfile(t).id == t.name
    ensures LoadedProfile(t).port == SaidNumber(t, "port", 0)
    ensures LoadedProfile(t).alterID == SaidNumber(t, "alter_id", 0)
  {
    hide KeyOf, ToBool, ToInt, SaidNumber, KeysOf, ListsOf;
    ProfileKeys();
    ReadByName(Profiles, t, ProfilePort);
    ReadByName(Profiles, t, AlterID);
    NumberIsSaid(t, "port", 0);
    NumberIsSaid(t, "alter_id", 0);
  }

  /** What a server is told about who is calling. */
  lemma CredentialFields(t: M.Section)
    ensures ProfileField(t, UUID) == Said(t, "uuid", "") && ProfileField(t, Password) == Said(t, "password", "")
    ensures ProfileField(t, Method) == Said(t, "method", "") && ProfileField(t, Encryption) == Said(t, "encryption", "")
    ensures ProfileField(t, Flow) == Said(t, "flow", "")
  {
    hide ProfileField, Said;
    ProfileTextLoads(t, UUID);
    ProfileTextLoads(t, Password);
    ProfileTextLoads(t, Method);
    ProfileTextLoads(t, Encryption);
    ProfileTextLoads(t, Flow);
  }

  /** How a server proves itself. */
  lemma SecurityFields(t: M.Section)
    ensures ProfileField(t, Security) == Said(t, "security", "none") && ProfileField(t, SNI) == Said(t, "sni", "")
    ensures ProfileField(t, ALPN) == Said(t, "alpn", "") && ProfileField(t, Fingerprint) == Said(t, "fp", "")
    ensures ProfileField(t, PublicKey) == Said(t, "pbk", "") && ProfileField(t, ShortID) == Said(t, "sid", "")
    ensures ProfileField(t, SpiderX) == Said(t, "spx", "") && ProfileField(t, PinnedCert) == Said(t, "pinned_cert", "")
  {
    hide ProfileField, Said;
    ProfileTextLoads(t, Security);
    ProfileTextLoads(t, SNI);
    ProfileTextLoads(t, ALPN);
    ProfileTextLoads(t, Fingerprint);
    ProfileTextLoads(t, PublicKey);
    ProfileTextLoads(t, ShortID);
    ProfileTextLoads(t, SpiderX);
    ProfileTextLoads(t, PinnedCert);
  }

  /** What the connection to a server looks like on the line. */
  lemma TransportFields(t: M.Section)
    ensures ProfileField(t, Net) == Said(t, "net", "tcp") && ProfileField(t, Path) == Said(t, "path", "")
    ensures ProfileField(t, Host) == Said(t, "host", "") && ProfileField(t, ServiceName) == Said(t, "service_name", "")
  {
    hide ProfileField, Said;
    ProfileTextLoads(t, Net);
    ProfileTextLoads(t, Path);
    ProfileTextLoads(t, Host);
    ProfileTextLoads(t, ServiceName);
  }

  /** What older transports are told besides. */
  lemma DisguiseFields(t: M.Section)
    ensures ProfileField(t, HeaderType) == Said(t, "header_type", "") && ProfileField(t, Seed) == Said(t, "seed", "")
    ensures ProfileField(t, QUICSec) == Said(t, "quic_security", "")
    ensures ProfileField(t, QUICKey) == Said(t, "quic_key", "")
  {
    hide ProfileField, Said;
    ProfileTextLoads(t, HeaderType);
    ProfileTextLoads(t, Seed);
    ProfileTextLoads(t, QUICSec);
    ProfileTextLoads(t, QUICKey);
  }

  lemma SwitchFields(t: M.Section)
    ensures ProfileSwitch(t, AllowInsecure) == SaidFlag(t, "allow_insecure", false)
    ensures ProfileSwitch(t, PinAuto) == SaidFlag(t, "pin_auto", false)
    ensures ProfileSwitch(t, PinUnverifiable) == SaidFlag(t, "pin_unverifiable", false)
    ensures ProfileSwitch(t, Mux) == SaidFlag(t, "mux", false)
  {
    hide ProfileSwitch, SaidFlag;
    ProfileFlagLoads(t, AllowInsecure);
    ProfileFlagLoads(t, PinAuto);
    ProfileFlagLoads(t, PinUnverifiable);
    ProfileFlagLoads(t, Mux);
  }

  lemma GroupNames()
    ensures KeyOf(Groups, Name) && KeyOf(Groups, Strategy) && KeyOf(Groups, ProbeURL) && KeyOf(Groups, ProbeInterval)
    ensures ListOf(Groups, Member) && ReadList(Member) == "member"
    ensures ReadAs(Name) == "name" && ReadAs(Strategy) == "strategy"
    ensures ReadAs(ProbeURL) == "probe_url" && ReadAs(ProbeInterval) == "probe_interval"
  {
  }

  function LoadedGroup(t: M.Section): Group {
    LoadGroup(FromText(Groups, t))
  }

  /** A group, one that names no known strategy using the fastest server. */
  lemma GroupFields(t: M.Section)
    ensures LoadedGroup(t).id == t.name && LoadedGroup(t).name == Opt(t, "name")
    ensures LoadedGroup(t).members == Items(t, "member")
    ensures LoadedGroup(t).strategy ==
            SaidWord(t, "strategy", {"leastPing", "leastLoad", "balance", "random", "roundRobin"}, "leastPing")
    ensures LoadedGroup(t).probeURL == Said(t, "probe_url", "https://cp.cloudflare.com/generate_204")
    ensures LoadedGroup(t).probeInterval == Said(t, "probe_interval", "60s")
  {
    hide NormalGroup, Opt, Items, KeyOf, ListOf, ReadAs, ReadList, FromText, Get, List;
    GroupNames();
    FromTextKind(Groups, t);
    ReadByName(Groups, t, Name);
    ReadByName(Groups, t, Strategy);
    ReadByName(Groups, t, ProbeURL);
    ReadByName(Groups, t, ProbeInterval);
    ListByName(Groups, t, Member);
    NormalGroupMeans(
      Group(t.name, Opt(t, "name"), Opt(t, "strategy"), Items(t, "member"), Opt(t, "probe_url"),
            Opt(t, "probe_interval")));
  }

  lemma RuleNames()
    ensures KeyOf(Rules, Name) && KeyOf(Rules, RuleEnabled) && KeyOf(Rules, RuleAction) && KeyOf(Rules, RulePort)
    ensures KeyOf(Rules, RuleSourcePort) && KeyOf(Rules, RuleNetwork)
    ensures ReadAs(Name) == "name" && ReadAs(RuleEnabled) == "enabled" && ReadAs(RuleAction) == "action"
    ensures ReadAs(RulePort) == "port" && ReadAs(RuleSourcePort) == "source_port" && ReadAs(RuleNetwork) == "network"
  {
  }

  lemma RuleListNames()
    ensures ListOf(Rules, Domains) && ListOf(Rules, IPs) && ListOf(Rules, Sources) && ListOf(Rules, Protocols)
    ensures ReadList(Domains) == "domain" && ReadList(IPs) == "ip"
    ensures ReadList(Sources) == "source" && ReadList(Protocols) == "protocol"
  {
  }

  function LoadedRule(t: M.Section): Rule {
    LoadRule(FromText(Rules, t))
  }

  /** A rule, one that says nothing else being enabled and direct. */
  lemma RuleFields(t: M.Section)
    ensures LoadedRule(t).id == t.name && LoadedRule(t).name == Opt(t, "name")
    ensures LoadedRule(t).enabled == SaidFlag(t, "enabled", true)
    ensures LoadedRule(t).action == Said(t, "action", "direct")
    ensures LoadedRule(t).port == Opt(t, "port") && LoadedRule(t).sourcePort == Opt(t, "source_port")
    ensures LoadedRule(t).network == Opt(t, "network")
  {
    hide Opt, List, Get, ToBool, SaidFlag, KeyOf, ReadAs, FromText;
    RuleNames();
    FromTextKind(Rules, t);
    ReadByName(Rules, t, Name);
    ReadByName(Rules, t, RuleEnabled);
    ReadByName(Rules, t, RuleAction);
    ReadByName(Rules, t, RulePort);
    ReadByName(Rules, t, RuleSourcePort);
    ReadByName(Rules, t, RuleNetwork);
    FlagIsSaid(t, "enabled", true);
  }

  /** What a rule matches. */
  lemma RuleMatchers(t: M.Section)
    ensures LoadedRule(t).domains == Items(t, "domain") && LoadedRule(t).ips == Items(t, "ip")
    ensures LoadedRule(t).sources == Items(t, "source") && LoadedRule(t).protocols == Items(t, "protocol")
  {
    hide Items, List, Get, ToBool, ListOf, ReadList, FromText;
    RuleListNames();
    ListByName(Rules, t, Domains);
    ListByName(Rules, t, IPs);
    ListByName(Rules, t, Sources);
    ListByName(Rules, t, Protocols);
  }

  lemma SubscriptionNames()
    ensures KeyOf(Subscriptions, Name) && KeyOf(Subscriptions, URL) && KeyOf(Subscriptions, Updated)
    ensures KeyOf(Subscriptions, Count) && ReadAs(Name) == "name" && ReadAs(URL) == "url"
    ensures ReadAs(Updated) == "updated" && ReadAs(Count) == "count"
  {
  }

  function LoadedSubscription(t: M.Section): Subscription {
    LoadSubscription(FromText(Subscriptions, t))
  }

  /** A subscription, one that says no number having listed nothing. */
  lemma SubscriptionFields(t: M.Section)
    ensures LoadedSubscription(t).id == t.name && LoadedSubscription(t).name == Opt(t, "name")
    ensures LoadedSubscription(t).url == Opt(t, "url") && LoadedSubscription(t).updated == Opt(t, "updated")
    ensures LoadedSubscription(t).count == SaidNumber(t, "count", 0)
  {
    hide Opt, Get, ToInt, SaidNumber, KeyOf, ReadAs, FromText;
    SubscriptionNames();
    FromTextKind(Subscriptions, t);
    ReadByName(Subscriptions, t, Name);
    ReadByName(Subscriptions, t, URL);
    ReadByName(Subscriptions, t, Updated);
    ReadByName(Subscriptions, t, Count);
    NumberIsSaid(t, "count", 0);
  }

  // ----- where they are

  predicate Unnamed(sections: seq<M.Section>) {
    forall j :: 0 <= j < |sections| ==> sections[j].name != "main"
  }

  lemma {:induction false} FirstMain(sections: seq<M.Section>, i: nat)
    requires i < |sections| && sections[i].name == "main" && forall j :: 0 <= j < i ==> sections[j].name != "main"
    ensures MainNamed(sections) == [FromText(Main, sections[i])]
  {
    hide FromText;
    var init := sections[..|sections| - 1];
    if i < |init| {
      FirstMain(init, i);
    } else {
      NoMain(init);
    }
  }

  lemma {:induction false} NoMain(sections: seq<M.Section>)
    requires Unnamed(sections)
    ensures MainNamed(sections) == []
  {
    hide FromText;
    if sections != [] {
      NoMain(sections[..|sections| - 1]);
    }
  }

  const EMPTY_MAIN := M.Section("main", "xwrt", false, map[], map[], [])

  /** The settings are those of the first section called main, and all defaults when there is
      none. */
  lemma SettingsOfFile(text: string, i: nat)
    ensures var sections, d := M.Parsed(PACKAGE, text).sections, LoadText(text);
            && (Unnamed(sections) ==> d.settings == LoadSettings(FromText(Main, EMPTY_MAIN)))
            && (i < |sections| && sections[i].name == "main" && Unnamed(sections[..i]) ==>
                  d.settings == LoadSettings(FromText(Main, sections[i])))
  {
    hide M.Parsed, FromText, LoadSettings, OfKind, MainNamed;
    var p := M.Parsed(PACKAGE, text);
    KindsOfPackage(p, Main);
    NothingSaid();
    if Unnamed(p.sections) {
      NoMain(p.sections);
    }
    if i < |p.sections| && p.sections[i].name == "main" && Unnamed(p.sections[..i]) {
      assert forall j :: 0 <= j < i ==> p.sections[..i][j] == p.sections[j];
      FirstMain(p.sections, i);
    }
  }

  lemma NothingSaid()
    ensures FromText(Main, EMPTY_MAIN) == Section(Main, "main", map[], map[])
  {
    hide ReadAs, ReadList, KeysOf, ListsOf;
  }

  lemma {:induction false} EverySectionIsTyped(sections: seq<M.Section>, kind: Kind, i: nat)
    requires i < |sections| && sections[i].typ == TypeName(kind)
    ensures FromText(kind, sections[i]) in Typed(sections, kind)
  {
    hide FromText, TypeName;
    if i < |sections| - 1 {
      EverySectionIsTyped(sections[..|sections| - 1], kind, i);
    }
  }

  /** Every section of one of the four types is loaded as an entry of that kind. */
  lemma EverySectionIsLoaded(text: string, i: nat)
    ensures var sections, d := M.Parsed(PACKAGE, text).sections, LoadText(text);
            i < |sections| ==>
              && (sections[i].typ == "profile" ==> LoadedProfile(sections[i]) in d.profiles)
              && (sections[i].typ == "group" ==> LoadedGroup(sections[i]) in d.groups)
              && (sections[i].typ == "rule" ==> LoadedRule(sections[i]) in d.rules)
              && (sections[i].typ == "subscription" ==>
                    LoadedSubscription(sections[i]) in d.subscriptions)
  {
    hide M.Parsed, FromText, LoadSettings, OfKind, Typed, LoadProfile, LoadGroup, LoadRule, LoadSubscription,
         FromPackage;
    var p := M.Parsed(PACKAGE, text);
    var s := FromPackage(p);
    KindsOfPackage(p, Profiles);
    KindsOfPackage(p, Groups);
    KindsOfPackage(p, Rules);
    KindsOfPackage(p, Subscriptions);
    if i < |p.sections| {
      var t := p.sections[i];
      if t.typ == "profile" {
        EverySectionIsTyped(p.sections, Profiles, i);
        var k :| 0 <= k < |OfKind(s, Profiles)| && OfKind(s, Profiles)[k] == FromText(Profiles, t);
        assert LoadText(text).profiles[k] == LoadProfile(FromText(Profiles, t));
      }
      if t.typ == "group" {
        EverySectionIsTyped(p.sections, Groups, i);
        var k :| 0 <= k < |OfKind(s, Groups)| && OfKind(s, Groups)[k] == FromText(Groups, t);
        assert LoadText(text).groups[k] == LoadedGroup(t);
      }
      if t.typ == "rule" {
        EverySectionIsTyped(p.sections, Rules, i);
        var k :| 0 <= k < |OfKind(s, Rules)| && OfKind(s, Rules)[k] == FromText(Rules, t);
        assert LoadText(text).rules[k] == LoadRule(FromText(Rules, t));
      }
      if t.typ == "subscription" {
        EverySectionIsTyped(p.sections, Subscriptions, i);
        var k :| 0 <= k < |OfKind(s, Subscriptions)| && OfKind(s, Subscriptions)[k] == FromText(Subscriptions, t);
        assert LoadText(text).subscriptions[k] == LoadSubscription(FromText(Subscriptions, t));
      }
    }
  }
}
