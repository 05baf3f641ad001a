/** A reverse tunnel's file: how a TunnelSpec is rendered, how a file is loaded
    into a TunnelSpec, and what one makes of the other. */
module ReverseConfig {
  import opened Toml
  import opened ConfigKeys

  datatype CommonKey =
    | BindAddrKey | RemoteAddrKey | TransportKey | PresetKey | TokenKey | KeepalivePeriodKey
    | NodelayKey | LogLevelKey | LogFormatKey | AcceptUdpKey | SnifferKey | WebPortKey | WebBindKey

  datatype TuningKey =
    | MssKey | SoRcvbufKey | SoSndbufKey | MuxConKey | MuxSessionKey | MuxVersionKey
    | MuxFramesizeKey | MuxRecievebufferKey | MuxStreambufferKey | PckInterfaceKey
    | PckGatewayMacKey | PckFlagsKey

  datatype KcpKey =
    | KcpMtuKey | KcpIntervalKey | KcpResendKey | KcpNodelayKey | KcpNocongestionKey
    | KcpSndwndKey | KcpRcvwndKey | KcpAcknodelayKey | KcpDatashardsKey | KcpParityshardsKey

  datatype ServerKey =
    | ChannelSizeKey | HeartbeatKey | TlsCertKey | TlsKeyKey | AcmeDomainKey | AcmeEmailKey
    | SimpleAuthKey | ProxyProtocolKey | ZeroCopyKey | MaxConnectionsKey | BandwidthMbpsKey
    | PortsKey | FallbackTransportsKey | FallbackDwellKey

  datatype ClientKey =
    | FallbackAddrsKey | ConnectionPoolKey | AggressivePoolKey | LoadBalanceKey
    | HealthFailoverKey | RetryIntervalKey | DialTimeoutKey | EdgeIpKey | ProxyKey | LocalAddrKey
    | InterfaceKey | SoMarkKey

  /** Every key of the two tables, in five families. */
  datatype Name =
    | Common(CommonKey)
    | Tuning(TuningKey)
    | KcpKnob(KcpKey)
    | ServerSide(ServerKey)
    | ClientSide(ClientKey)

  function CommonSpelling(k: CommonKey): string {
    match k
    case BindAddrKey => "bind_addr"
    case RemoteAddrKey => "remote_addr"
    case TransportKey => "transport"
    case PresetKey => "preset"
    case TokenKey => "token"
    case KeepalivePeriodKey => "keepalive_period"
    case NodelayKey => "nodelay"
    case LogLevelKey => "log_level"
    case LogFormatKey => "log_format"
    case AcceptUdpKey => "accept_udp"
    case SnifferKey => "sniffer"
    case WebPortKey => "web_port"
    case WebBindKey => "web_bind"
  }

  function TuningSpelling(k: TuningKey): string {
    match k
    case MssKey => "mss"
    case SoRcvbufKey => "so_rcvbuf"
    case SoSndbufKey => "so_sndbuf"
    case MuxConKey => "mux_con"
    case MuxSessionKey => "mux_session"
    case MuxVersionKey => "mux_version"
    case MuxFramesizeKey => "mux_framesize"
    case MuxRecievebufferKey => "mux_recievebuffer"
    case MuxStreambufferKey => "mux_streambuffer"
    case PckInterfaceKey => "pck_interface"
    case PckGatewayMacKey => "pck_gateway_mac"
    case PckFlagsKey => "pck_flags"
  }

  function KcpKnobSpelling(k: KcpKey): string {
    match k
    case KcpMtuKey => "kcp_mtu"
    case KcpIntervalKey => "kcp_interval"
    case KcpResendKey => "kcp_resend"
    case KcpNodelayKey => "kcp_nodelay"
    case KcpNocongestionKey => "kcp_nocongestion"
    case KcpSndwndKey => "kcp_sndwnd"
    case KcpRcvwndKey => "kcp_rcvwnd"
    case KcpAcknodelayKey => "kcp_acknodelay"
    case KcpDatashardsKey => "kcp_datashards"
    case KcpParityshardsKey => "kcp_parityshards"
  }

  function ServerSideSpelling(k: ServerKey): string {
    match k
    case ChannelSizeKey => "channel_size"
    case HeartbeatKey => "heartbeat"
    case TlsCertKey => "tls_cert"
    case TlsKeyKey => "tls_key"
    case AcmeDomainKey => "acme_domain"
    case AcmeEmailKey => "acme_email"
    case SimpleAuthKey => "simple_auth"
    case ProxyProtocolKey => "proxy_protocol"
    case ZeroCopyKey => "zero_copy"
    case MaxConnectionsKey => "max_connections"
    case BandwidthMbpsKey => "bandwidth_mbps"
    case PortsKey => "ports"
    case FallbackTransportsKey => "fallback_transports"
    case FallbackDwellKey => "fallback_dwell"
  }

  function ClientSideSpelling(k: ClientKey): string {
    match k
    case FallbackAddrsKey => "fallback_addrs"
    case ConnectionPoolKey => "connection_pool"
    case AggressivePoolKey => "aggressive_pool"
    case LoadBalanceKey => "load_balance"
    case HealthFailoverKey => "health_failover"
    case RetryIntervalKey => "retry_interval"
    case DialTimeoutKey => "dial_timeout"
    case EdgeIpKey => "edge_ip"
    case ProxyKey => "proxy"
    case LocalAddrKey => "local_addr"
    case InterfaceKey => "interface"
    case SoMarkKey => "so_mark"
  }

  function Spelling(n: Name): string {
    match n
    case Common(k) => CommonSpelling(k)
    case Tuning(k) => TuningSpelling(k)
    case KcpKnob(k) => KcpKnobSpelling(k)
    case ServerSide(k) => ServerSideSpelling(k)
    case ClientSide(k) => ClientSideSpelling(k)
  }

  lemma CommonBare(k: CommonKey)
    ensures IsBareKey(CommonSpelling(k))
  {
  }

  lemma TuningBareEarly(k: TuningKey)
    requires k in {MssKey, SoRcvbufKey, SoSndbufKey, MuxConKey, MuxSessionKey, MuxVersionKey}
    ensures IsBareKey(TuningSpelling(k))
  {
  }

  lemma TuningBareLate(k: TuningKey)
    requires k !in {MssKey, SoRcvbufKey, SoSndbufKey, MuxConKey, MuxSessionKey, MuxVersionKey}
    ensures IsBareKey(TuningSpelling(k))
  {
  }

  lemma TuningBare(k: TuningKey)
    ensures IsBareKey(TuningSpelling(k))
  {
    hide IsBareKey;
    if k in {MssKey, SoRcvbufKey, SoSndbufKey, MuxConKey, MuxSessionKey, MuxVersionKey} {
      TuningBareEarly(k);
    } else {
      TuningBareLate(k);
    }
  }

  lemma KcpKnobBare(k: KcpKey)
    ensures IsBareKey(KcpKnobSpelling(k))
  {
  }

  lemma ServerSideBareEarly(k: ServerKey)
    requires k in {ChannelSizeKey, HeartbeatKey, TlsCertKey, TlsKeyKey, AcmeDomainKey, AcmeEmailKey, SimpleAuthKey}
    ensures IsBareKey(ServerSideSpelling(k))
  {
  }

  lemma ServerSideBareLate(k: ServerKey)
    requires k !in {ChannelSizeKey, HeartbeatKey, TlsCertKey, TlsKeyKey, AcmeDomainKey, AcmeEmailKey, SimpleAuthKey}
    ensures IsBareKey(ServerSideSpelling(k))
  {
  }

  lemma ServerSideBare(k: ServerKey)
    ensures IsBareKey(ServerSideSpelling(k))
  {
    hide IsBareKey;
    if k in {ChannelSizeKey, HeartbeatKey, TlsCertKey, TlsKeyKey, AcmeDomainKey, AcmeEmailKey, SimpleAuthKey} {
      ServerSideBareEarly(k);
    } else {
      ServerSideBareLate(k);
    }
  }

  lemma ClientSideBareEarly(k: ClientKey)
    requires k in {FallbackAddrsKey, ConnectionPoolKey, AggressivePoolKey, LoadBalanceKey, HealthFailoverKey,
                   RetryIntervalKey}
    ensures IsBareKey(ClientSideSpelling(k))
  {
  }

  lemma ClientSideBareLate(k: ClientKey)
    requires k !in {FallbackAddrsKey, ConnectionPoolKey, AggressivePoolKey, LoadBalanceKey, HealthFailoverKey,
                    RetryIntervalKey}
    ensures IsBareKey(ClientSideSpelling(k))
  {
  }

  lemma ClientSideBare(k: ClientKey)
    ensures IsBareKey(ClientSideSpelling(k))
  {
    hide IsBareKey;
    if k in {FallbackAddrsKey, ConnectionPoolKey, AggressivePoolKey, LoadBalanceKey, HealthFailoverKey,
             RetryIntervalKey} {
      ClientSideBareEarly(k);
    } else {
      ClientSideBareLate(k);
    }
  }

  lemma CommonApart(a: CommonKey, b: Name)
    requires b != Common(a)
    ensures Spelling(b) != CommonSpelling(a)
  {
  }

  lemma TuningApart(a: TuningKey, b: Name)
    requires b != Tuning(a)
    ensures Spelling(b) != TuningSpelling(a)
  {
  }

  lemma KcpKnobApart(a: KcpKey, b: Name)
    requires b != KcpKnob(a)
    ensures Spelling(b) != KcpKnobSpelling(a)
  {
  }

  lemma ServerSideApart(a: ServerKey, b: Name)
    requires b != ServerSide(a)
    ensures Spelling(b) != ServerSideSpelling(a)
  {
  }

  lemma ClientSideApart(a: ClientKey, b: Name)
    requires b != ClientSide(a)
    ensures Spelling(b) != ClientSideSpelling(a)
  {
  }

  lemma NamesSpellDifferently(a: Name, b: Name)
    requires a != b
    ensures Spelling(a) != Spelling(b)
  {
    match a
    case Common(k) => CommonApart(k, b);
    case Tuning(k) => TuningApart(k, b);
    case KcpKnob(k) => KcpKnobApart(k, b);
    case ServerSide(k) => ServerSideApart(k, b);
    case ClientSide(k) => ClientSideApart(k, b);
  }

  lemma NamesSpell()
    ensures Spells(Spelling)
  {
    forall a: Name, b: Name | a != b ensures Spelling(a) != Spelling(b) { NamesSpellDifferently(a, b); }
    forall n: Name ensures IsBareKey(Spelling(n)) {
      match n
      case Common(k) => CommonBare(k);
      case Tuning(k) => TuningBare(k);
      case KcpKnob(k) => KcpKnobBare(k);
      case ServerSide(k) => ServerSideBare(k);
      case ClientSide(k) => ClientSideBare(k);
    }
  }

  function KindOf(n: Name): Kind {
    match n
    case Common(BindAddrKey) | Common(TransportKey) | Common(PresetKey) | Common(TokenKey) |
    Common(LogLevelKey) | Common(LogFormatKey) | Tuning(PckInterfaceKey) |
    Tuning(PckGatewayMacKey) | ServerSide(TlsCertKey) | ServerSide(TlsKeyKey) |
    ServerSide(AcmeDomainKey) | ServerSide(AcmeEmailKey) | Common(WebBindKey) |
    Common(RemoteAddrKey) | ClientSide(EdgeIpKey) | ClientSide(ProxyKey) |
    ClientSide(LocalAddrKey) | ClientSide(InterfaceKey) => KText
    case Common(NodelayKey) | KcpKnob(KcpAcknodelayKey) | Common(AcceptUdpKey) |
    ServerSide(SimpleAuthKey) | ServerSide(ProxyProtocolKey) | ServerSide(ZeroCopyKey) |
    Common(SnifferKey) | ClientSide(AggressivePoolKey) | ClientSide(LoadBalanceKey) |
    ClientSide(HealthFailoverKey) => KFlag
    case Tuning(PckFlagsKey) | ServerSide(PortsKey) | ServerSide(FallbackTransportsKey) |
    ClientSide(FallbackAddrsKey) => KList
    case _ => KNumber
  }

  /** Where a key comes in a [server] table; 0 when it does not. */
  function ServerRank(n: Name): nat {
    match n
    case Common(BindAddrKey) => 1
    case Common(TransportKey) => 2
    case Common(PresetKey) => 3
    case Common(TokenKey) => 4
    case ServerSide(ChannelSizeKey) => 5
    case Common(KeepalivePeriodKey) => 6
    case Common(NodelayKey) => 7
    case ServerSide(HeartbeatKey) => 8
    case Common(LogLevelKey) => 9
    case Common(LogFormatKey) => 10
    case Tuning(MssKey) => 11
    case Tuning(SoRcvbufKey) => 12
    case Tuning(SoSndbufKey) => 13
    case KcpKnob(KcpMtuKey) => 14
    case KcpKnob(KcpIntervalKey) => 15
    case KcpKnob(KcpResendKey) => 16
    case KcpKnob(KcpNodelayKey) => 17
    case KcpKnob(KcpNocongestionKey) => 18
    case KcpKnob(KcpSndwndKey) => 19
    case KcpKnob(KcpRcvwndKey) => 20
    case KcpKnob(KcpAcknodelayKey) => 21
    case KcpKnob(KcpDatashardsKey) => 22
    case KcpKnob(KcpParityshardsKey) => 23
    case Tuning(PckInterfaceKey) => 24
    case Tuning(PckGatewayMacKey) => 25
    case Tuning(PckFlagsKey) => 26
    case Common(AcceptUdpKey) => 27
    case ServerSide(TlsCertKey) => 28
    case ServerSide(TlsKeyKey) => 29
    case ServerSide(AcmeDomainKey) => 30
    case ServerSide(AcmeEmailKey) => 31
    case ServerSide(SimpleAuthKey) => 32
    case Tuning(MuxConKey) => 33
    case Tuning(MuxVersionKey) => 34
    case Tuning(MuxFramesizeKey) => 35
    case Tuning(MuxRecievebufferKey) => 36
    case Tuning(MuxStreambufferKey) => 37
    case ServerSide(ProxyProtocolKey) => 38
    case ServerSide(ZeroCopyKey) => 39
    case ServerSide(MaxConnectionsKey) => 40
    case ServerSide(BandwidthMbpsKey) => 41
    case Common(SnifferKey) => 42
    case Common(WebPortKey) => 43
    case Common(WebBindKey) => 44
    case ServerSide(PortsKey) => 45
    case ServerSide(FallbackTransportsKey) => 46
    case ServerSide(FallbackDwellKey) => 47
    case _ => 0
  }

  /** Where a key comes in a [client] table; 0 when it does not. */
  function ClientRank(n: Name): nat {
    match n
    case Common(RemoteAddrKey) => 1
    case ClientSide(FallbackAddrsKey) => 2
    case Common(TransportKey) => 3
    case ServerSide(FallbackTransportsKey) => 4
    case ServerSide(FallbackDwellKey) => 5
    case Common(PresetKey) => 6
    case Common(TokenKey) => 7
    case ClientSide(ConnectionPoolKey) => 8
    case ClientSide(AggressivePoolKey) => 9
    case Common(KeepalivePeriodKey) => 10
    case Common(NodelayKey) => 11
    case ClientSide(LoadBalanceKey) => 12
    case ClientSide(HealthFailoverKey) => 13
    case ClientSide(RetryIntervalKey) => 14
    case ClientSide(DialTimeoutKey) => 15
    case Common(LogLevelKey) => 16
    case Common(LogFormatKey) => 17
    case Tuning(MssKey) => 18
    case Tuning(SoRcvbufKey) => 19
    case Tuning(SoSndbufKey) => 20
    case KcpKnob(KcpMtuKey) => 21
    case KcpKnob(KcpIntervalKey) => 22
    case KcpKnob(KcpResendKey) => 23
    case KcpKnob(KcpNodelayKey) => 24
    case KcpKnob(KcpNocongestionKey) => 25
    case KcpKnob(KcpSndwndKey) => 26
    case KcpKnob(KcpRcvwndKey) => 27
    case KcpKnob(KcpAcknodelayKey) => 28
    case KcpKnob(KcpDatashardsKey) => 29
    case KcpKnob(KcpParityshardsKey) => 30
    case Tuning(PckInterfaceKey) => 31
    case Tuning(PckGatewayMacKey) => 32
    case Tuning(PckFlagsKey) => 33
    case ClientSide(EdgeIpKey) => 34
    case ServerSide(SimpleAuthKey) => 35
    case ClientSide(ProxyKey) => 36
    case ClientSide(LocalAddrKey) => 37
    case ClientSide(InterfaceKey) => 38
    case ClientSide(SoMarkKey) => 39
    case ServerSide(ZeroCopyKey) => 40
    case Tuning(MuxSessionKey) => 41
    case Tuning(MuxVersionKey) => 42
    case Tuning(MuxFramesizeKey) => 43
    case Tuning(MuxRecievebufferKey) => 44
    case Tuning(MuxStreambufferKey) => 45
    case Common(SnifferKey) => 46
    case Common(WebPortKey) => 47
    case Common(WebBindKey) => 48
    case _ => 0
  }

  // The spec.

  datatype Mux = Mux(con: Int64, version: Int64, frameSize: Int64, recvBuffer: Int64, streamBuffer: Int64)

  datatype Kcp = Kcp(
    mtu: Int64, interval: Int64, resend: Int64, noDelay: Int64, noCongestion: Int64,
    sndWnd: Int64, rcvWnd: Int64, ackNoDelay: bool, dataShards: Int64, parityShards: Int64)

  datatype Pck = Pck(iface: string, gatewayMAC: string, flags: seq<string>)

  datatype TunnelSpec = TunnelSpec(
    name: string, role: string, transport: string, preset: string,
    bindAddr: string, remoteAddr: string, token: string, ports: seq<string>,
    loadBalance: bool, healthFailover: bool, fallbackAddrs: seq<string>,
    fallbackTransports: seq<string>, fallbackDwell: Int64,
    nodelay: bool, heartbeat: Int64, keepAlive: Int64, channelSize: Int64,
    connectionPool: Int64, aggressivePool: bool, acceptUDP: bool,
    logLevel: string, logFormat: string,
    mux: Mux, kcp: Kcp, pck: Pck,
    mss: Int64, soRcvBuf: Int64, soSndBuf: Int64,
    proxyProtocol: bool, maxConnections: Int64, bandwidthMbps: Int64,
    sniffer: bool, webPort: Int64, webBind: string,
    tlsCert: string, tlsKey: string, acmeDomain: string, acmeEmail: string,
    edgeIP: string, simpleAuth: bool, proxy: string, localAddr: string, iface: string,
    soMark: Int64, zeroCopy: bool)

  const NO_MUX := Mux(0, 0, 0, 0, 0)
  const NO_KCP := Kcp(0, 0, 0, 0, 0, 0, 0, false, 0, 0)
  const NO_PCK := Pck("", "", [])

  predicate IsKCP(t: string) { t in {"kcp", "xdi", "pck"} }

  predicate IsMux(t: string) { t in {"tcpmux", "wsmux", "wssmux"} || IsKCP(t) }

  predicate IsWS(t: string) { t in {"ws", "wss", "wsmux", "wssmux"} }

  predicate NeedsTLS(t: string) { t in {"wss", "wssmux"} }

  predicate SupportsProxyProtocol(t: string) {
    t in {"tcp", "tcpmux", "kcp", "wsmux", "wssmux", "stealth", "quic", "pck"}
  }

  function MonitorBind(configured: string): string { if configured == "" then "127.0.0.1" else configured }

  predicate UsesEdge(s: TunnelSpec) { IsWS(s.transport) && Given(s.edgeIP) }

  predicate RawToken(s: TunnelSpec) { NeedsTLS(s.transport) && s.simpleAuth }

  // What is printed, group by group in the order of the file.

  function TuningFields(s: TunnelSpec): seq<Field<Name>> {
    [When(s.mss > 0, Tuning(MssKey), Int(s.mss)),
     When(s.soRcvBuf > 0, Tuning(SoRcvbufKey), Int(s.soRcvBuf)),
     When(s.soSndBuf > 0, Tuning(SoSndbufKey), Int(s.soSndBuf))]
  }

  function KcpFields(s: TunnelSpec): seq<Field<Name>> {
    var on := IsKCP(s.transport);
    [When(on, KcpKnob(KcpMtuKey), Int(s.kcp.mtu)),
     When(on, KcpKnob(KcpIntervalKey), Int(s.kcp.interval)),
     When(on, KcpKnob(KcpResendKey), Int(s.kcp.resend)),
     When(on, KcpKnob(KcpNodelayKey), Int(s.kcp.noDelay)),
     When(on, KcpKnob(KcpNocongestionKey), Int(s.kcp.noCongestion)),
     When(on, KcpKnob(KcpSndwndKey), Int(s.kcp.sndWnd)),
     When(on, KcpKnob(KcpRcvwndKey), Int(s.kcp.rcvWnd)),
     When(on, KcpKnob(KcpAcknodelayKey), Bool(s.kcp.ackNoDelay)),
     When(on, KcpKnob(KcpDatashardsKey), Int(s.kcp.dataShards)),
     When(on, KcpKnob(KcpParityshardsKey), Int(s.kcp.parityShards))]
  }

  function PckFields(s: TunnelSpec): seq<Field<Name>> {
    var on := s.transport == "pck";
    [When(on && Given(s.pck.iface), Tuning(PckInterfaceKey), Str(s.pck.iface)),
     When(on && Given(s.pck.gatewayMAC), Tuning(PckGatewayMacKey), Str(s.pck.gatewayMAC)),
     FlatWhen(on && Listed(s.pck.flags), Tuning(PckFlagsKey), List(s.pck.flags))]
  }

  function MuxFields(s: TunnelSpec, sessions: Name): seq<Field<Name>> {
    var on := IsMux(s.transport);
    [When(on, sessions, Int(s.mux.con)),
     When(on, Tuning(MuxVersionKey), Int(s.mux.version)),
     When(on, Tuning(MuxFramesizeKey), Int(s.mux.frameSize)),
     When(on, Tuning(MuxRecievebufferKey), Int(s.mux.recvBuffer)),
     When(on, Tuning(MuxStreambufferKey), Int(s.mux.streamBuffer))]
  }

  function WebFields(s: TunnelSpec): seq<Field<Name>> {
    [Always(Common(SnifferKey), Bool(s.sniffer)),
     When(s.webPort > 0, Common(WebPortKey), Int(s.webPort)),
     When(s.webPort > 0, Common(WebBindKey), Str(MonitorBind(s.webBind)))]
  }

  function FallbackFields(s: TunnelSpec): seq<Field<Name>> {
    [When(Listed(s.fallbackTransports), ServerSide(FallbackTransportsKey), List(s.fallbackTransports)),
     When(Listed(s.fallbackTransports) && s.fallbackDwell > 0, ServerSide(FallbackDwellKey), Int(s.fallbackDwell))]
  }

  function ServerHeadFields(s: TunnelSpec): seq<Field<Name>> {
    [Always(Common(BindAddrKey), Str(s.bindAddr)),
     Always(Common(TransportKey), Str(s.transport)),
     When(Given(s.preset), Common(PresetKey), Str(s.preset)),
     Always(Common(TokenKey), Str(s.token)),
     Always(ServerSide(ChannelSizeKey), Int(s.channelSize)),
     Always(Common(KeepalivePeriodKey), Int(s.keepAlive)),
     Always(Common(NodelayKey), Bool(s.nodelay)),
     Always(ServerSide(HeartbeatKey), Int(s.heartbeat)),
     Always(Common(LogLevelKey), Str(s.logLevel)),
     When(Given(s.logFormat), Common(LogFormatKey), Str(s.logFormat))]
  }

  function TlsFields(s: TunnelSpec): seq<Field<Name>> {
    var on := NeedsTLS(s.transport);
    [Always(Common(AcceptUdpKey), Bool(s.acceptUDP)),
     When(on, ServerSide(TlsCertKey), Str(s.tlsCert)),
     When(on, ServerSide(TlsKeyKey), Str(s.tlsKey)),
     When(on && Given(s.acmeDomain), ServerSide(AcmeDomainKey), Str(s.acmeDomain)),
     When(on && Given(s.acmeDomain) && Given(s.acmeEmail), ServerSide(AcmeEmailKey), Str(s.acmeEmail)),
     When(RawToken(s), ServerSide(SimpleAuthKey), Bool(true))]
  }

  function LimitFields(s: TunnelSpec): seq<Field<Name>> {
    [When(SupportsProxyProtocol(s.transport), ServerSide(ProxyProtocolKey), Bool(s.proxyProtocol)),
     When(s.zeroCopy, ServerSide(ZeroCopyKey), Bool(true)),
     When(s.maxConnections > 0, ServerSide(MaxConnectionsKey), Int(s.maxConnections)),
     When(s.bandwidthMbps > 0, ServerSide(BandwidthMbpsKey), Int(s.bandwidthMbps))]
  }

  function ServerFields(s: TunnelSpec): seq<Field<Name>> {
    ServerHeadFields(s) + TuningFields(s) + KcpFields(s) + PckFields(s) + TlsFields(s)
      + MuxFields(s, Tuning(MuxConKey)) + LimitFields(s) + WebFields(s)
      + [Always(ServerSide(PortsKey), List(s.ports))] + FallbackFields(s)
  }

  function ClientAddrFields(s: TunnelSpec): seq<Field<Name>> {
    [Always(Common(RemoteAddrKey), Str(s.remoteAddr)),
     When(Listed(s.fallbackAddrs), ClientSide(FallbackAddrsKey), List(s.fallbackAddrs)),
     Always(Common(TransportKey), Str(s.transport))]
  }

  function ClientHeadFields(s: TunnelSpec): seq<Field<Name>> {
    [When(Given(s.preset), Common(PresetKey), Str(s.preset)),
     Always(Common(TokenKey), Str(s.token)),
     Always(ClientSide(ConnectionPoolKey), Int(s.connectionPool)),
     Always(ClientSide(AggressivePoolKey), Bool(s.aggressivePool)),
     Always(Common(KeepalivePeriodKey), Int(s.keepAlive)),
     Always(Common(NodelayKey), Bool(s.nodelay))]
  }

  function ClientDialFields(s: TunnelSpec): seq<Field<Name>> {
    [When(s.loadBalance, ClientSide(LoadBalanceKey), Bool(true)),
     When(s.healthFailover, ClientSide(HealthFailoverKey), Bool(true)),
     Always(ClientSide(RetryIntervalKey), Int(3)),
     Always(ClientSide(DialTimeoutKey), Int(10)),
     Always(Common(LogLevelKey), Str(s.logLevel)),
     When(Given(s.logFormat), Common(LogFormatKey), Str(s.logFormat))]
  }

  function ClientTailFields(s: TunnelSpec): seq<Field<Name>> {
    [When(UsesEdge(s), ClientSide(EdgeIpKey), Str(s.edgeIP)),
     When(RawToken(s), ServerSide(SimpleAuthKey), Bool(true)),
     When(Given(s.proxy), ClientSide(ProxyKey), Str(s.proxy)),
     When(Given(s.localAddr), ClientSide(LocalAddrKey), Str(s.localAddr)),
     When(Given(s.iface), ClientSide(InterfaceKey), Str(s.iface)),
     When(s.soMark != 0, ClientSide(SoMarkKey), Int(s.soMark)),
     When(s.zeroCopy, ServerSide(ZeroCopyKey), Bool(true))]
  }

  function ClientFields(s: TunnelSpec): seq<Field<Name>> {
    ClientAddrFields(s) + FallbackFields(s) + ClientHeadFields(s) + ClientDialFields(s) + TuningFields(s)
      + KcpFields(s) + PckFields(s) + ClientTailFields(s) + MuxFields(s, Tuning(MuxSessionKey)) + WebFields(s)
  }

  function Banner(): string {
    " Generated by backpack " + ("\U{2014} do not edit while " + "the service is running.")
  }

  function NameNote(name: string): string { " name = \"" + name + "\"" }

  function TopLines(name: string): seq<Line> { [Remark(Banner()), Remark(NameNote(name)), Blank] }

  predicate IsServer(s: TunnelSpec) { s.role == "server" }

  function TableName(s: TunnelSpec): string { if IsServer(s) then "server" else "client" }

  function SpecFields(s: TunnelSpec): seq<Field<Name>> {
    if IsServer(s) then ServerFields(s) else ClientFields(s)
  }

  function RenderedText(s: TunnelSpec, printable: Printable): string {
    LinesText(TopLines(s.name) + [Table(TableName(s))], printable) + FieldsText(SpecFields(s), Spelling, 0, printable)
  }

  // The printer itself.

  class Printer {
    const out: Builder<Name>

    constructor (s: TunnelSpec, printable: Printable)
      ensures fresh(out) && out.Valid() && out.fields == [] && out.spell == Spelling && out.column == 0
      ensures out.printable == printable
      ensures out.start == LinesText(TopLines(s.name) + [Table(TableName(s))], printable)
    {
      out := new Builder(Spelling, 0, printable, LinesText(TopLines(s.name) + [Table(TableName(s))], printable));
    }

    method WriteTuning(s: TunnelSpec)
      requires out.Valid()
      modifies out
      ensures out.Valid() && out.fields == old(out.fields) + TuningFields(s)
    {
      hide FieldsText, Builder.Valid, When, Spelling, Given, Listed, UsesEdge, RawToken, IsKCP, IsMux, IsWS,
        NeedsTLS, SupportsProxyProtocol;
      out.If(s.mss > 0, Tuning(MssKey), Int(s.mss));
      out.If(s.soRcvBuf > 0, Tuning(SoRcvbufKey), Int(s.soRcvBuf));
      out.If(s.soSndBuf > 0, Tuning(SoSndbufKey), Int(s.soSndBuf));
    }

    method WriteKCP(s: TunnelSpec)
      requires out.Valid()
      modifies out
      ensures out.Valid() && out.fields == old(out.fields) + KcpFields(s)
    {
      hide FieldsText, Builder.Valid, When, Spelling, Given, Listed, UsesEdge, RawToken, IsKCP, IsMux, IsWS,
        NeedsTLS, SupportsProxyProtocol;
      var on := IsKCP(s.transport);
      out.If(on, KcpKnob(KcpMtuKey), Int(s.kcp.mtu));
      out.If(on, KcpKnob(KcpIntervalKey), Int(s.kcp.interval));
      out.If(on, KcpKnob(KcpResendKey), Int(s.kcp.resend));
      out.If(on, KcpKnob(KcpNodelayKey), Int(s.kcp.noDelay));
      out.If(on, KcpKnob(KcpNocongestionKey), Int(s.kcp.noCongestion));
      out.If(on, KcpKnob(KcpSndwndKey), Int(s.kcp.sndWnd));
      out.If(on, KcpKnob(KcpRcvwndKey), Int(s.kcp.rcvWnd));
      out.If(on, KcpKnob(KcpAcknodelayKey), Bool(s.kcp.ackNoDelay));
      out.If(on, KcpKnob(KcpDatashardsKey), Int(s.kcp.dataShards));
      out.If(on, KcpKnob(KcpParityshardsKey), Int(s.kcp.parityShards));
    }

    method WritePck(s: TunnelSpec)
      requires out.Valid()
      modifies out
      ensures out.Valid() && out.fields == old(out.fields) + PckFields(s)
    {
      hide FieldsText, Builder.Valid, When, Spelling, Given, Listed, UsesEdge, RawToken, IsKCP, IsMux, IsWS,
        NeedsTLS, SupportsProxyProtocol;
      var on := s.transport == "pck";
      out.If(on && Given(s.pck.iface), Tuning(PckInterfaceKey), Str(s.pck.iface));
      out.If(on && Given(s.pck.gatewayMAC), Tuning(PckGatewayMacKey), Str(s.pck.gatewayMAC));
      out.Write(FlatWhen(on && Listed(s.pck.flags), Tuning(PckFlagsKey), List(s.pck.flags)));
    }

    method WriteMux(s: TunnelSpec, sessions: Name)
      requires out.Valid()
      modifies out
      ensures out.Valid() && out.fields == old(out.fields) + MuxFields(s, sessions)
    {
      hide FieldsText, Builder.Valid, When, Spelling, Given, Listed, UsesEdge, RawToken, IsKCP, IsMux, IsWS,
        NeedsTLS, SupportsProxyProtocol;
      var on := IsMux(s.transport);
      out.If(on, sessions, Int(s.mux.con));
      out.If(on, Tuning(MuxVersionKey), Int(s.mux.version));
      out.If(on, Tuning(MuxFramesizeKey), Int(s.mux.frameSize));
      out.If(on, Tuning(MuxRecievebufferKey), Int(s.mux.recvBuffer));
      out.If(on, Tuning(MuxStreambufferKey), Int(s.mux.streamBuffer));
    }

    method WriteWeb(s: TunnelSpec)
      requires out.Valid()
      modifies out
      ensures out.Valid() && out.fields == old(out.fields) + WebFields(s)
    {
      hide FieldsText, Builder.Valid, When, Spelling, Given, Listed, UsesEdge, RawToken, IsKCP, IsMux, IsWS,
        NeedsTLS, SupportsProxyProtocol;
      out.P(Common(SnifferKey), Bool(s.sniffer));
      out.If(s.webPort > 0, Common(WebPortKey), Int(s.webPort));
      out.If(s.webPort > 0, Common(WebBindKey), Str(MonitorBind(s.webBind)));
    }

    method WriteFallbackChain(s: TunnelSpec)
      requires out.Valid()
      modifies out
      ensures out.Valid() && out.fields == old(out.fields) + FallbackFields(s)
    {
      hide FieldsText, Builder.Valid, When, Spelling, Given, Listed, UsesEdge, RawToken, IsKCP, IsMux, IsWS,
        NeedsTLS, SupportsProxyProtocol;
      out.If(Listed(s.fallbackTransports), ServerSide(FallbackTransportsKey), List(s.fallbackTransports));
      out.If(Listed(s.fallbackTransports) && s.fallbackDwell > 0, ServerSide(FallbackDwellKey), Int(s.fallbackDwell));
    }

    method WriteServerHead(s: TunnelSpec)
      requires out.Valid()
      modifies out
      ensures out.Valid() && out.fields == old(out.fields) + ServerHeadFields(s)
    {
      hide FieldsText, Builder.Valid, When, Spelling, Given, Listed, UsesEdge, RawToken, IsKCP, IsMux, IsWS,
        NeedsTLS, SupportsProxyProtocol;
      out.P(Common(BindAddrKey), Str(s.bindAddr));
      out.P(Common(TransportKey), Str(s.transport));
      out.If(Given(s.preset), Common(PresetKey), Str(s.preset));
      out.P(Common(TokenKey), Str(s.token));
      out.P(ServerSide(ChannelSizeKey), Int(s.channelSize));
      out.P(Common(KeepalivePeriodKey), Int(s.keepAlive));
      out.P(Common(NodelayKey), Bool(s.nodelay));
      out.P(ServerSide(HeartbeatKey), Int(s.heartbeat));
      out.P(Common(LogLevelKey), Str(s.logLevel));
      out.If(Given(s.logFormat), Common(LogFormatKey), Str(s.logFormat));
    }

    method WriteTls(s: TunnelSpec)
      requires out.Valid()
      modifies out
      ensures out.Valid() && out.fields == old(out.fields) + TlsFields(s)
    {
      hide FieldsText, Builder.Valid, When, Spelling, Given, Listed, UsesEdge, RawToken, IsKCP, IsMux, IsWS,
        NeedsTLS, SupportsProxyProtocol;
      var on := NeedsTLS(s.transport);
      out.P(Common(AcceptUdpKey), Bool(s.acceptUDP));
      out.If(on, ServerSide(TlsCertKey), Str(s.tlsCert));
      out.If(on, ServerSide(TlsKeyKey), Str(s.tlsKey));
      out.If(on && Given(s.acmeDomain), ServerSide(AcmeDomainKey), Str(s.acmeDomain));
      out.If(on && Given(s.acmeDomain) && Given(s.acmeEmail), ServerSide(AcmeEmailKey), Str(s.acmeEmail));
      out.If(RawToken(s), ServerSide(SimpleAuthKey), Bool(true));
    }

    method WriteLimits(s: TunnelSpec)
      requires out.Valid()
      modifies out
      ensures out.Valid() && out.fields == old(out.fields) + LimitFields(s)
    {
      hide FieldsText, Builder.Valid, When, Spelling, Given, Listed, UsesEdge, RawToken, IsKCP, IsMux, IsWS,
        NeedsTLS, SupportsProxyProtocol;
      out.If(SupportsProxyProtocol(s.transport), ServerSide(ProxyProtocolKey), Bool(s.proxyProtocol));
      out.If(s.zeroCopy, ServerSide(ZeroCopyKey), Bool(true));
      out.If(s.maxConnections > 0, ServerSide(MaxConnectionsKey), Int(s.maxConnections));
      out.If(s.bandwidthMbps > 0, ServerSide(BandwidthMbpsKey), Int(s.bandwidthMbps));
    }

    method WriteClientHead(s: TunnelSpec)
      requires out.Valid()
      modifies out
      ensures out.Valid() && out.fields == old(out.fields) + ClientHeadFields(s)
    {
      hide FieldsText, Builder.Valid, When, Spelling, Given, Listed, UsesEdge, RawToken, IsKCP, IsMux, IsWS,
        NeedsTLS, SupportsProxyProtocol;
      out.If(Given(s.preset), Common(PresetKey), Str(s.preset));
      out.P(Common(TokenKey), Str(s.token));
      out.P(ClientSide(ConnectionPoolKey), Int(s.connectionPool));
      out.P(ClientSide(AggressivePoolKey), Bool(s.aggressivePool));
      out.P(Common(KeepalivePeriodKey), Int(s.keepAlive));
      out.P(Common(NodelayKey), Bool(s.nodelay));
    }

    method WriteClientDial(s: TunnelSpec)
      requires out.Valid()
      modifies out
      ensures out.Valid() && out.fields == old(out.fields) + ClientDialFields(s)
    {
      hide FieldsText, Builder.Valid, When, Spelling;
      out.If(s.loadBalance, ClientSide(LoadBalanceKey), Bool(true));
      out.If(s.healthFailover, ClientSide(HealthFailoverKey), Bool(true));
      out.P(ClientSide(RetryIntervalKey), Int(3));
      out.P(ClientSide(DialTimeoutKey), Int(10));
      out.P(Common(LogLevelKey), Str(s.logLevel));
      out.If(Given(s.logFormat), Common(LogFormatKey), Str(s.logFormat));
    }

    method WriteClientTail(s: TunnelSpec)
      requires out.Valid()
      modifies out
      ensures out.Valid() && out.fields == old(out.fields) + ClientTailFields(s)
    {
      hide FieldsText, Builder.Valid, When, Spelling, Given, Listed, UsesEdge, RawToken, IsKCP, IsMux, IsWS,
        NeedsTLS, SupportsProxyProtocol;
      out.If(UsesEdge(s), ClientSide(EdgeIpKey), Str(s.edgeIP));
      out.If(RawToken(s), ServerSide(SimpleAuthKey), Bool(true));
      out.If(Given(s.proxy), ClientSide(ProxyKey), Str(s.proxy));
      out.If(Given(s.localAddr), ClientSide(LocalAddrKey), Str(s.localAddr));
      out.If(Given(s.iface), ClientSide(InterfaceKey), Str(s.iface));
      out.If(s.soMark != 0, ClientSide(SoMarkKey), Int(s.soMark));
      out.If(s.zeroCopy, ServerSide(ZeroCopyKey), Bool(true));
    }
  }

  method RenderServer(p: Printer, s: TunnelSpec)
    requires p.out.Valid() && p.out.fields == []
    modifies p.out
    ensures p.out.Valid() && p.out.fields == ServerFields(s)
  {
    hide FieldsText, Builder.Valid, When, Spelling, ServerHeadFields, TuningFields, KcpFields, PckFields,
      TlsFields, MuxFields,
      LimitFields, WebFields, FallbackFields;
    p.WriteServerHead(s);
    p.WriteTuning(s);
    p.WriteKCP(s);
    p.WritePck(s);
    p.WriteTls(s);
    p.WriteMux(s, Tuning(MuxConKey));
    p.WriteLimits(s);
    p.WriteWeb(s);
    p.out.P(ServerSide(PortsKey), List(s.ports));
    p.WriteFallbackChain(s);
  }

  method RenderClient(p: Printer, s: TunnelSpec)
    requires p.out.Valid() && p.out.fields == []
    modifies p.out
    ensures p.out.Valid() && p.out.fields == ClientFields(s)
  {
    hide FieldsText, Builder.Valid, When, Spelling, ClientHeadFields, ClientDialFields, TuningFields, KcpFields,
      PckFields, ClientTailFields, MuxFields,
      WebFields, FallbackFields;
    p.out.P(Common(RemoteAddrKey), Str(s.remoteAddr));
    p.out.If(Listed(s.fallbackAddrs), ClientSide(FallbackAddrsKey), List(s.fallbackAddrs));
    p.out.P(Common(TransportKey), Str(s.transport));
    p.WriteFallbackChain(s);
    p.WriteClientHead(s);
    p.WriteClientDial(s);
    p.WriteTuning(s);
    p.WriteKCP(s);
    p.WritePck(s);
    p.WriteClientTail(s);
    p.WriteMux(s, Tuning(MuxSessionKey));
    p.WriteWeb(s);
  }

  /** TunnelSpec.Render: one builder, appended to from top to bottom. */
  method Render(s: TunnelSpec, printable: Printable) returns (text: string)
    ensures text == RenderedText(s, printable)
  {
    hide FieldsText, Spelling, ServerFields, ClientFields;
    var p := new Printer(s, printable);
    if s.role == "server" { RenderServer(p, s); } else { RenderClient(p, s); }
    return p.out.text;
  }
}
