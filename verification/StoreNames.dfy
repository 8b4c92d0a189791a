/**
 The names of the options (internal/ucicfg/store.go): as the configuration is written, and as
 it is read. Both agree, and within one kind of section no two options share a name.
 */
module StoreNames {
  import opened Strings
  import opened UciText
  import opened Store

  /** What a section holds under a name: an option or a list. */
  datatype Field = One(k: Key) | Many(l: ListOpt)

  // ----- as written

  function SavedText(o: TextOpt): string {
    match o
    case Mode => "mode"
    case Active => "active"
    case ActiveKind => "active_kind"
    case Sniff => "sniff"
    case DNS => "dns"
    case DNSMode => "dns_mode"
    case LogLevel => "log_level"
    case UpdateRepo => "update_repo"
    case XrayBin => "xray_bin"
    case HevBin => "hev_bin"
    case RunDir => "run_dir"
    case TunName => "tun_name"
    case TunAddr => "tun_addr"
    case TunMask => "tun_mask"
    case FwMark => "fwmark"
    case LANDevice => "lan_device"
    case WANDevice => "wan_device"
  }

  function SavedNumber(o: NumberOpt): string {
    match o
    case SocksPort => "socks_port"
    case HTTPPort => "http_port"
    case TProxyPort => "tproxy_port"
    case DNSPort => "dns_port"
    case APIPort => "api_port"
    case ConnIdle => "conn_idle"
    case KeepAlive => "keepalive"
    case StatsPort => "stats_port"
    case TunMTU => "tun_mtu"
    case RouteTable => "route_table"
  }

  function SavedFlag(o: FlagOpt): string {
    match o
    case Enabled => "enabled"
    case ProxyRouter => "proxy_router"
    case BlockQUIC => "block_quic"
    case SyncTime => "sync_time"
    case AllowLAN => "allow_lan"
    case AutoConnect => "auto_connect"
    case UpdateCheck => "update_check"
    case IPv6 => "ipv6"
  }

  function SavedProfileText(o: ProfileText): string {
    match o
    case PName => "name"
    case Proto => "proto"
    case Address => "address"
    case UUID => "uuid"
    case Password => "password"
    case Method => "method"
    case Encryption => "encryption"
    case Flow => "flow"
    case Net => "net"
    case Security => "security"
    case SNI => "sni"
    case ALPN => "alpn"
    case Fingerprint => "fp"
    case PublicKey => "pbk"
    case ShortID => "sid"
    case SpiderX => "spx"
    case PinnedCert => "pinned_cert"
    case Path => "path"
    case Host => "host"
    case ServiceName => "service_name"
    case HeaderType => "header_type"
    case Seed => "seed"
    case QUICSec => "quic_security"
    case QUICKey => "quic_key"
    case FromSubscription => "sub"
    case Remark => "remark"
  }

  function SavedProfileFlag(o: ProfileFlag): string {
    match o
    case AllowInsecure => "allow_insecure"
    case PinAuto => "pin_auto"
    case PinUnverifiable => "pin_unverifiable"
    case Mux => "mux"
  }

  function SavedAs(k: Key): string {
    match k
    case Text(t) => SavedText(t)
    case Number(n) => SavedNumber(n)
    case Flag(f) => SavedFlag(f)
    case OfProfile(p) => SavedProfileText(p)
    case ProfileFlag(f) => SavedProfileFlag(f)
    case ProfilePort => "port"
    case AlterID => "alter_id"
    case Name => "name"
    case Strategy => "strategy"
    case ProbeURL => "probe_url"
    case ProbeInterval => "probe_interval"
    case RuleEnabled => "enabled"
    case RuleAction => "action"
    case RulePort => "port"
    case RuleSourcePort => "source_port"
    case RuleNetwork => "network"
    case URL => "url"
    case Updated => "updated"
    case Count => "count"
    case ProxyUDP => "proxy_udp"
  }

  function SavedList(o: ListOpt): string {
    match o
    case BypassIP => "bypass_ip"
    case BypassMAC => "bypass_mac"
    case Member => "member"
    case Domains => "domain"
    case IPs => "ip"
    case Sources => "source"
    case Protocols => "protocol"
  }

  // ----- as read

  function ReadText(o: TextOpt): string {
    match o
    case Mode => "mode"
    case Active => "active"
    case ActiveKind => "active_kind"
    case Sniff => "sniff"
    case DNS => "dns"
    case DNSMode => "dns_mode"
    case LogLevel => "log_level"
    case UpdateRepo => "update_repo"
    case XrayBin => "xray_bin"
    case HevBin => "hev_bin"
    case RunDir => "run_dir"
    case TunName => "tun_name"
    case TunAddr => "tun_addr"
    case TunMask => "tun_mask"
    case FwMark => "fwmark"
    case LANDevice => "lan_device"
    case WANDevice => "wan_device"
  }

  function ReadNumber(o: NumberOpt): string {
    match o
    case SocksPort => "socks_port"
    case HTTPPort => "http_port"
    case TProxyPort => "tproxy_port"
    case DNSPort => "dns_port"
    case APIPort => "api_port"
    case ConnIdle => "conn_idle"
    case KeepAlive => "keepalive"
    case StatsPort => "stats_port"
    case TunMTU => "tun_mtu"
    case RouteTable => "route_table"
  }

  function ReadFlag(o: FlagOpt): string {
    match o
    case Enabled => "enabled"
    case ProxyRouter => "proxy_router"
    case BlockQUIC => "block_quic"
    case SyncTime => "sync_time"
    case AllowLAN => "allow_lan"
    case AutoConnect => "auto_connect"
    case UpdateCheck => "update_check"
    case IPv6 => "ipv6"
  }

  function ReadProfileText(o: ProfileText): string {
    match o
    case PName => "name"
    case Proto => "proto"
    case Address => "address"
    case UUID => "uuid"
    case Password => "password"
    case Method => "method"
    case Encryption => "encryption"
    case Flow => "flow"
    case Net => "net"
    case Security => "security"
    case SNI => "sni"
    case ALPN => "alpn"
    case Fingerprint => "fp"
    case PublicKey => "pbk"
    case ShortID => "sid"
    case SpiderX => "spx"
    case PinnedCert => "pinned_cert"
    case Path => "path"
    case Host => "host"
    case ServiceName => "service_name"
    case HeaderType => "header_type"
    case Seed => "seed"
    case QUICSec => "quic_security"
    case QUICKey => "quic_key"
    case FromSubscription => "sub"
    case Remark => "remark"
  }

  function ReadProfileFlag(o: ProfileFlag): string {
    match o
    case AllowInsecure => "allow_insecure"
    case PinAuto => "pin_auto"
    case PinUnverifiable => "pin_unverifiable"
    case Mux => "mux"
  }

  function ReadAs(k: Key): string {
    match k
    case Text(t) => ReadText(t)
    case Number(n) => ReadNumber(n)
    case Flag(f) => ReadFlag(f)
    case OfProfile(p) => ReadProfileText(p)
    case ProfileFlag(f) => ReadProfileFlag(f)
    case ProfilePort => "port"
    case AlterID => "alter_id"
    case Name => "name"
    case Strategy => "strategy"
    case ProbeURL => "probe_url"
    case ProbeInterval => "probe_interval"
    case RuleEnabled => "enabled"
    case RuleAction => "action"
    case RulePort => "port"
    case RuleSourcePort => "source_port"
    case RuleNetwork => "network"
    case URL => "url"
    case Updated => "updated"
    case Count => "count"
    case ProxyUDP => "proxy_udp"
  }

  function ReadList(o: ListOpt): string {
    match o
    case BypassIP => "bypass_ip"
    case BypassMAC => "bypass_mac"
    case Member => "member"
    case Domains => "domain"
    case IPs => "ip"
    case Sources => "source"
    case Protocols => "protocol"
  }

  /** Whatever is written under a name is read under it. */
  lemma NamesAgree(k: Key, l: ListOpt)
    ensures SavedAs(k) == ReadAs(k) && SavedList(l) == ReadList(l)
  {
    match k
    case _ =>
  }

  function FieldName(f: Field): string {
    match f
    case One(k) => SavedAs(k)
    case Many(l) => SavedList(l)
  }

  // ----- which fields a section has

  predicate KeyOf(kind: Kind, k: Key) {
    match kind
    case Main => k.Text? || k.Number? || k.Flag? || k.ProxyUDP?
    case Profiles => k.OfProfile? || k.ProfilePort? || k.AlterID? || k.ProfileFlag?
    case Groups => k.Name? || k.Strategy? || k.ProbeURL? || k.ProbeInterval?
    case Rules =>
      k.Name? || k.RuleEnabled? || k.RuleAction? || k.RulePort? || k.RuleSourcePort? || k.RuleNetwork?
    case Subscriptions => k.Name? || k.URL? || k.Updated? || k.Count?
  }

  predicate ListOf(kind: Kind, l: ListOpt) {
    match kind
    case Main => l == BypassIP || l == BypassMAC
    case Groups => l == Member
    case Rules => l == Domains || l == IPs || l == Sources || l == Protocols
    case _ => false
  }

  predicate FieldOf(kind: Kind, f: Field) {
    match f
    case One(k) => KeyOf(kind, k)
    case Many(l) => ListOf(kind, l)
  }

  // ----- telling names apart

  /** The first two letters of a word, its last one and its length. */
  datatype Mark = Mark(first: char, second: char, last: char, length: nat)

  function MarkOf(s: string): Mark
    requires |s| >= 2
  {
    Mark(s[0], s[1], s[|s| - 1], |s|)
  }

  function MainMarked(m: Mark): Field {
    if m == Mark('m', 'o', 'e', 4) then One(Text(Mode))
    else if m == Mark('a', 'c', 'e', 6) then One(Text(Active))
    else if m == Mark('a', 'c', 'd', 11) then One(Text(ActiveKind))
    else if m == Mark('s', 'n', 'f', 5) then One(Text(Sniff))
    else if m == Mark('d', 'n', 's', 3) then One(Text(DNS))
    else if m == Mark('d', 'n', 'e', 8) then One(Text(DNSMode))
    else if m == Mark('l', 'o', 'l', 9) then One(Text(LogLevel))
    else if m == Mark('u', 'p', 'o', 11) then One(Text(UpdateRepo))
    else if m == Mark('x', 'r', 'n', 8) then One(Text(XrayBin))
    else if m == Mark('h', 'e', 'n', 7) then One(Text(HevBin))
    else if m == Mark('r', 'u', 'r', 7) then One(Text(RunDir))
    else if m == Mark('t', 'u', 'e', 8) then One(Text(TunName))
    else if m == Mark('t', 'u', 'r', 8) then One(Text(TunAddr))
    else if m == Mark('t', 'u', 'k', 8) then One(Text(TunMask))
    else if m == Mark('f', 'w', 'k', 6) then One(Text(FwMark))
    else if m == Mark('l', 'a', 'e', 10) then One(Text(LANDevice))
    else if m == Mark('w', 'a', 'e', 10) then One(Text(WANDevice))
    else if m == Mark('s', 'o', 't', 10) then One(Number(SocksPort))
    else if m == Mark('h', 't', 't', 9) then One(Number(HTTPPort))
    else if m == Mark('t', 'p', 't', 11) then One(Number(TProxyPort))
    else if m == Mark('d', 'n', 't', 8) then One(Number(DNSPort))
    else if m == Mark('a', 'p', 't', 8) then One(Number(APIPort))
    else if m == Mark('c', 'o', 'e', 9) then One(Number(ConnIdle))
    else if m == Mark('k', 'e', 'e', 9) then One(Number(KeepAlive))
    else if m == Mark('s', 't', 't', 10) then One(Number(StatsPort))
    else if m == Mark('t', 'u', 'u', 7) then One(Number(TunMTU))
    else if m == Mark('r', 'o', 'e', 11) then One(Number(RouteTable))
    else if m == Mark('e', 'n', 'd', 7) then One(Flag(Enabled))
    else if m == Mark('p', 'r', 'r', 12) then One(Flag(ProxyRouter))
    else if m == Mark('b', 'l', 'c', 10) then One(Flag(BlockQUIC))
    else if m == Mark('s', 'y', 'e', 9) then One(Flag(SyncTime))
    else if m == Mark('a', 'l', 'n', 9) then One(Flag(AllowLAN))
    else if m == Mark('a', 'u', 't', 12) then One(Flag(AutoConnect))
    else if m == Mark('u', 'p', 'k', 12) then One(Flag(UpdateCheck))
    else if m == Mark('i', 'p', '6', 4) then One(Flag(IPv6))
    else if m == Mark('p', 'r', 'p', 9) then One(ProxyUDP)
    else if m == Mark('b', 'y', 'p', 9) then Many(BypassIP)
    else Many(BypassMAC)
  }

  function ProfileMarked(m: Mark): Field {
    if m == Mark('n', 'a', 'e', 4) then One(OfProfile(PName))
    else if m == Mark('p', 'r', 'o', 5) then One(OfProfile(Proto))
    else if m == Mark('a', 'd', 's', 7) then One(OfProfile(Address))
    else if m == Mark('u', 'u', 'd', 4) then One(OfProfile(UUID))
    else if m == Mark('p', 'a', 'd', 8) then One(OfProfile(Password))
    else if m == Mark('m', 'e', 'd', 6) then One(OfProfile(Method))
    else if m == Mark('e', 'n', 'n', 10) then One(OfProfile(Encryption))
    else if m == Mark('f', 'l', 'w', 4) then One(OfProfile(Flow))
    else if m == Mark('n', 'e', 't', 3) then One(OfProfile(Net))
    else if m == Mark('s', 'e', 'y', 8) then One(OfProfile(Security))
    else if m == Mark('s', 'n', 'i', 3) then One(OfProfile(SNI))
    else if m == Mark('a', 'l', 'n', 4) then One(OfProfile(ALPN))
    else if m == Mark('f', 'p', 'p', 2) then One(OfProfile(Fingerprint))
    else if m == Mark('p', 'b', 'k', 3) then One(OfProfile(PublicKey))
    else if m == Mark('s', 'i', 'd', 3) then One(OfProfile(ShortID))
    else if m == Mark('s', 'p', 'x', 3) then One(OfProfile(SpiderX))
    else if m == Mark('p', 'i', 't', 11) then One(OfProfile(PinnedCert))
    else if m == Mark('p', 'a', 'h', 4) then One(OfProfile(Path))
    else if m == Mark('h', 'o', 't', 4) then One(OfProfile(Host))
    else if m == Mark('s', 'e', 'e', 12) then One(OfProfile(ServiceName))
    else if m == Mark('h', 'e', 'e', 11) then One(OfProfile(HeaderType))
    else if m == Mark('s', 'e', 'd', 4) then One(OfProfile(Seed))
    else if m == Mark('q', 'u', 'y', 13) then One(OfProfile(QUICSec))
    else if m == Mark('q', 'u', 'y', 8) then One(OfProfile(QUICKey))
    else if m == Mark('s', 'u', 'b', 3) then One(OfProfile(FromSubscription))
    else if m == Mark('r', 'e', 'k', 6) then One(OfProfile(Remark))
    else if m == Mark('a', 'l', 'e', 14) then One(Key.ProfileFlag(AllowInsecure))
    else if m == Mark('p', 'i', 'o', 8) then One(Key.ProfileFlag(PinAuto))
    else if m == Mark('p', 'i', 'e', 16) then One(Key.ProfileFlag(PinUnverifiable))
    else if m == Mark('m', 'u', 'x', 3) then One(Key.ProfileFlag(Mux))
    else if m == Mark('p', 'o', 't', 4) then One(ProfilePort)
    else One(AlterID)
  }

  function GroupMarked(m: Mark): Field {
    if m == Mark('n', 'a', 'e', 4) then One(Name)
    else if m == Mark('s', 't', 'y', 8) then One(Strategy)
    else if m == Mark('p', 'r', 'l', 9) then One(ProbeURL)
    else if m == Mark('p', 'r', 'l', 14) then One(ProbeInterval)
    else Many(Member)
  }

  function RuleMarked(m: Mark): Field {
    if m == Mark('n', 'a', 'e', 4) then One(Name)
    else if m == Mark('e', 'n', 'd', 7) then One(RuleEnabled)
    else if m == Mark('a', 'c', 'n', 6) then One(RuleAction)
    else if m == Mark('p', 'o', 't', 4) then One(RulePort)
    else if m == Mark('s', 'o', 't', 11) then One(RuleSourcePort)
    else if m == Mark('n', 'e', 'k', 7) then One(RuleNetwork)
    else if m == Mark('d', 'o', 'n', 6) then Many(Domains)
    else if m == Mark('i', 'p', 'p', 2) then Many(IPs)
    else if m == Mark('s', 'o', 'e', 6) then Many(Sources)
    else Many(Protocols)
  }

  function SubscriptionMarked(m: Mark): Field {
    if m == Mark('n', 'a', 'e', 4) then One(Name)
    else if m == Mark('u', 'r', 'l', 3) then One(URL)
    else if m == Mark('u', 'p', 'd', 7) then One(Updated)
    else One(Count)
  }

  function Marked(kind: Kind, m: Mark): Field {
    match kind
    case Main => MainMarked(m)
    case Profiles => ProfileMarked(m)
    case Groups => GroupMarked(m)
    case Rules => RuleMarked(m)
    case Subscriptions => SubscriptionMarked(m)
  }

  lemma TextsAreMarked(o: TextOpt)
    ensures |SavedText(o)| >= 2 && MainMarked(MarkOf(SavedText(o))) == One(Text(o))
  {
    match o
    case Mode => assert MarkOf("mode") == Mark('m', 'o', 'e', 4);
    case Active => assert MarkOf("active") == Mark('a', 'c', 'e', 6);
    case ActiveKind => assert MarkOf("active_kind") == Mark('a', 'c', 'd', 11);
    case Sniff => assert MarkOf("sniff") == Mark('s', 'n', 'f', 5);
    case DNS => assert MarkOf("dns") == Mark('d', 'n', 's', 3);
    case DNSMode => assert MarkOf("dns_mode") == Mark('d', 'n', 'e', 8);
    case LogLevel => assert MarkOf("log_level") == Mark('l', 'o', 'l', 9);
    case UpdateRepo => assert MarkOf("update_repo") == Mark('u', 'p', 'o', 11);
    case XrayBin => assert MarkOf("xray_bin") == Mark('x', 'r', 'n', 8);
    case HevBin => assert MarkOf("hev_bin") == Mark('h', 'e', 'n', 7);
    case RunDir => assert MarkOf("run_dir") == Mark('r', 'u', 'r', 7);
    case TunName => assert MarkOf("tun_name") == Mark('t', 'u', 'e', 8);
    case TunAddr => assert MarkOf("tun_addr") == Mark('t', 'u', 'r', 8);
    case TunMask => assert MarkOf("tun_mask") == Mark('t', 'u', 'k', 8);
    case FwMark => assert MarkOf("fwmark") == Mark('f', 'w', 'k', 6);
    case LANDevice => assert MarkOf("lan_device") == Mark('l', 'a', 'e', 10);
    case WANDevice => assert MarkOf("wan_device") == Mark('w', 'a', 'e', 10);
  }

  lemma NumbersAreMarked(o: NumberOpt)
    ensures |SavedNumber(o)| >= 2 && MainMarked(MarkOf(SavedNumber(o))) == One(Number(o))
  {
    match o
    case SocksPort => assert MarkOf("socks_port") == Mark('s', 'o', 't', 10);
    case HTTPPort => assert MarkOf("http_port") == Mark('h', 't', 't', 9);
    case TProxyPort => assert MarkOf("tproxy_port") == Mark('t', 'p', 't', 11);
    case DNSPort => assert MarkOf("dns_port") == Mark('d', 'n', 't', 8);
    case APIPort => assert MarkOf("api_port") == Mark('a', 'p', 't', 8);
    case ConnIdle => assert MarkOf("conn_idle") == Mark('c', 'o', 'e', 9);
    case KeepAlive => assert MarkOf("keepalive") == Mark('k', 'e', 'e', 9);
    case StatsPort => assert MarkOf("stats_port") == Mark('s', 't', 't', 10);
    case TunMTU => assert MarkOf("tun_mtu") == Mark('t', 'u', 'u', 7);
    case RouteTable => assert MarkOf("route_table") == Mark('r', 'o', 'e', 11);
  }

  lemma FlagsAreMarked(o: FlagOpt)
    ensures |SavedFlag(o)| >= 2 && MainMarked(MarkOf(SavedFlag(o))) == One(Flag(o))
  {
    match o
    case Enabled => assert MarkOf("enabled") == Mark('e', 'n', 'd', 7);
    case ProxyRouter => assert MarkOf("proxy_router") == Mark('p', 'r', 'r', 12);
    case BlockQUIC => assert MarkOf("block_quic") == Mark('b', 'l', 'c', 10);
    case SyncTime => assert MarkOf("sync_time") == Mark('s', 'y', 'e', 9);
    case AllowLAN => assert MarkOf("allow_lan") == Mark('a', 'l', 'n', 9);
    case AutoConnect => assert MarkOf("auto_connect") == Mark('a', 'u', 't', 12);
    case UpdateCheck => assert MarkOf("update_check") == Mark('u', 'p', 'k', 12);
    case IPv6 => assert MarkOf("ipv6") == Mark('i', 'p', '6', 4);
  }

  lemma LastProfileTextsAreMarked(o: ProfileText)
    requires o in {HeaderType, Seed, QUICSec, QUICKey, FromSubscription, Remark}
    ensures |SavedProfileText(o)| >= 2 && ProfileMarked(MarkOf(SavedProfileText(o))) == One(OfProfile(o))
  {
    match o
    case HeaderType => assert MarkOf("header_type") == Mark('h', 'e', 'e', 11);
    case Seed => assert MarkOf("seed") == Mark('s', 'e', 'd', 4);
    case QUICSec => assert MarkOf("quic_security") == Mark('q', 'u', 'y', 13);
    case QUICKey => assert MarkOf("quic_key") == Mark('q', 'u', 'y', 8);
    case FromSubscription => assert MarkOf("sub") == Mark('s', 'u', 'b', 3);
    case Remark => assert MarkOf("remark") == Mark('r', 'e', 'k', 6);
  }

  lemma LaterProfileTextsAreMarked(o: ProfileText)
    requires o in {PublicKey, ShortID, SpiderX, PinnedCert, Path, Host, ServiceName}
    ensures |SavedProfileText(o)| >= 2 && ProfileMarked(MarkOf(SavedProfileText(o))) == One(OfProfile(o))
  {
    match o
    case PublicKey => assert MarkOf("pbk") == Mark('p', 'b', 'k', 3);
    case ShortID => assert MarkOf("sid") == Mark('s', 'i', 'd', 3);
    case SpiderX => assert MarkOf("spx") == Mark('s', 'p', 'x', 3);
    case PinnedCert => assert MarkOf("pinned_cert") == Mark('p', 'i', 't', 11);
    case Path => assert MarkOf("path") == Mark('p', 'a', 'h', 4);
    case Host => assert MarkOf("host") == Mark('h', 'o', 't', 4);
    case ServiceName => assert MarkOf("service_name") == Mark('s', 'e', 'e', 12);
  }

  lemma ProfileTextsAreMarked(o: ProfileText)
    ensures |SavedProfileText(o)| >= 2 && ProfileMarked(MarkOf(SavedProfileText(o))) == One(OfProfile(o))
  {
    match o
    case PName => assert MarkOf("name") == Mark('n', 'a', 'e', 4);
    case Proto => assert MarkOf("proto") == Mark('p', 'r', 'o', 5);
    case Address => assert MarkOf("address") == Mark('a', 'd', 's', 7);
    case UUID => assert MarkOf("uuid") == Mark('u', 'u', 'd', 4);
    case Password => assert MarkOf("password") == Mark('p', 'a', 'd', 8);
    case Method => assert MarkOf("method") == Mark('m', 'e', 'd', 6);
    case Encryption => assert MarkOf("encryption") == Mark('e', 'n', 'n', 10);
    case Flow => assert MarkOf("flow") == Mark('f', 'l', 'w', 4);
    case Net => assert MarkOf("net") == Mark('n', 'e', 't', 3);
    case Security => assert MarkOf("security") == Mark('s', 'e', 'y', 8);
    case SNI => assert MarkOf("sni") == Mark('s', 'n', 'i', 3);
    case ALPN => assert MarkOf("alpn") == Mark('a', 'l', 'n', 4);
    case Fingerprint => assert MarkOf("fp") == Mark('f', 'p', 'p', 2);
    case _ =>
      if o in {HeaderType, Seed, QUICSec, QUICKey, FromSubscription, Remark} {
        LastProfileTextsAreMarked(o);
      } else {
        LaterProfileTextsAreMarked(o);
      }
  }

  lemma ProfileFlagsAreMarked(o: ProfileFlag)
    ensures |SavedProfileFlag(o)| >= 2 && ProfileMarked(MarkOf(SavedProfileFlag(o))) == One(Key.ProfileFlag(o))
  {
    match o
    case AllowInsecure => assert MarkOf("allow_insecure") == Mark('a', 'l', 'e', 14);
    case PinAuto => assert MarkOf("pin_auto") == Mark('p', 'i', 'o', 8);
    case PinUnverifiable => assert MarkOf("pin_unverifiable") == Mark('p', 'i', 'e', 16);
    case Mux => assert MarkOf("mux") == Mark('m', 'u', 'x', 3);
  }

  lemma OthersAreMarked(kind: Kind, k: Key)
    requires KeyOf(kind, k) && !k.Text? && !k.Number? && !k.Flag? && !k.OfProfile? && !k.ProfileFlag?
    ensures |SavedAs(k)| >= 2 && Marked(kind, MarkOf(SavedAs(k))) == One(k)
  {
    hide SavedText, SavedNumber, SavedFlag, SavedProfileText, SavedProfileFlag;
    match k
    case _ =>
  }

  lemma ListsAreMarked(kind: Kind, l: ListOpt)
    requires ListOf(kind, l)
    ensures |SavedList(l)| >= 2 && Marked(kind, MarkOf(SavedList(l))) == Many(l)
  {
    match l
    case _ =>
  }

  /** A field of a section can be told by the mark of its name. */
  lemma NamesAreMarked(kind: Kind, f: Field)
    requires FieldOf(kind, f)
    ensures |FieldName(f)| >= 2 && Marked(kind, MarkOf(FieldName(f))) == f
  {
    hide SavedText, SavedNumber, SavedFlag, SavedProfileText, SavedProfileFlag, SavedList, MarkOf, MainMarked,
         ProfileMarked, GroupMarked, RuleMarked, SubscriptionMarked;
    match f
    case One(k) =>
      match k {
        case Text(o) => TextsAreMarked(o);
        case Number(o) => NumbersAreMarked(o);
        case Flag(o) => FlagsAreMarked(o);
        case OfProfile(o) => ProfileTextsAreMarked(o);
        case ProfileFlag(o) => ProfileFlagsAreMarked(o);
        case _ => OthersAreMarked(kind, k);
      }
    case Many(l) => ListsAreMarked(kind, l);
  }

  // ----- names are words

  /** Letters, digits and underscores only, and whatever lies between them. */
  predicate Unspaced(s: string) {
    s != "" && forall c :: c in s ==> '0' <= c <= 'z'
  }

  lemma UnspacedIsBare(s: string)
    requires Unspaced(s)
    ensures Bare(s) && '\n' !in s
  {
    forall i | 0 <= i < |s| ensures !IsSpace(s[i]) && s[i] != '\n' && !IsQuote(s[i]) {
      assert s[i] in s;
    }
  }


  lemma TextsAreWords(o: TextOpt)
    ensures Unspaced(SavedText(o))
  {
    match o
    case _ =>
  }

  lemma NumbersAreWords(o: NumberOpt)
    ensures Unspaced(SavedNumber(o))
  {
    match o
    case _ =>
  }

  lemma FlagsAreWords(o: FlagOpt)
    ensures Unspaced(SavedFlag(o))
  {
    match o
    case _ =>
  }

  lemma ProfileTextsAreWords(o: ProfileText)
    ensures Unspaced(SavedProfileText(o))
  {
    match o
    case _ =>
  }

  lemma ProfileFlagsAreWords(o: ProfileFlag)
    ensures Unspaced(SavedProfileFlag(o))
  {
    match o
    case _ =>
  }

  lemma ListsAreWords(o: ListOpt)
    ensures Unspaced(SavedList(o))
  {
    match o
    case _ =>
  }

  lemma OthersAreWords(k: Key)
    requires !k.Text? && !k.Number? && !k.Flag? && !k.OfProfile? && !k.ProfileFlag?
    ensures Unspaced(SavedAs(k))
  {
    match k
    case _ =>
  }

  lemma NamesAreWords(f: Field)
    ensures Bare(FieldName(f)) && '\n' !in FieldName(f)
  {
    hide SavedText, SavedNumber, SavedFlag, SavedProfileText, SavedProfileFlag, SavedList, Unspaced, Bare;
    match f {
    case One(k) =>
      match k {
        case Text(o) => TextsAreWords(o);
        case Number(o) => NumbersAreWords(o);
        case Flag(o) => FlagsAreWords(o);
        case OfProfile(o) => ProfileTextsAreWords(o);
        case ProfileFlag(o) => ProfileFlagsAreWords(o);
        case _ => OthersAreWords(k);
      }
    case Many(l) => ListsAreWords(l);
    }
    UnspacedIsBare(FieldName(f));
  }

  /** No two fields of a section share a name. */
  lemma NamesDiffer(kind: Kind, f: Field, g: Field)
    requires FieldOf(kind, f) && FieldOf(kind, g) && FieldName(f) == FieldName(g)
    ensures f == g
  {
    hide FieldName, Marked, FieldOf;
    NamesAreMarked(kind, f);
    NamesAreMarked(kind, g);
  }
}
