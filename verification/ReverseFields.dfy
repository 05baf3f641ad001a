/** Every field of a reverse tunnel's spec, the keys of the file it governs, and the
    proof that it governs no other. */
module ReverseFields {
  import opened Toml
  import opened TomlDocument
  import opened ConfigKeys
  import opened ReverseConfig
  import opened ReverseRoundTrip

  datatype EndsField =
    | NameField | TransportField | PresetField | BindAddrField | RemoteAddrField | TokenField | PortsField

  datatype ChainField =
    | LoadBalanceField | HealthFailoverField | FallbackAddrsField | FallbackTransportsField
    | FallbackDwellField

  datatype PaceField =
    | NodelayField | HeartbeatField | KeepAliveField | ChannelSizeField | ConnectionPoolField
    | AggressivePoolField | AcceptUDPField | MSSField | SoRcvBufField | SoSndBufField

  datatype InMuxField =
    | MuxConField | MuxVersionField | MuxFrameSizeField | MuxRecvBufferField | MuxStreamBufferField

  datatype InKcpField =
    | KcpMtuField | KcpIntervalField | KcpResendField | KcpNoDelayField | KcpNoCongestionField
    | KcpSndWndField | KcpRcvWndField | KcpAckNoDelayField | KcpDataShardsField | KcpParityShardsField

  datatype InPckField =
    | PckInterfaceField | PckGatewayMACField | PckFlagsField

  datatype WatchField =
    | LogLevelField | LogFormatField | ProxyProtocolField | MaxConnectionsField | BandwidthMbpsField
    | SnifferField | WebPortField | WebBindField

  datatype DoorField =
    | TLSCertField | TLSKeyField | ACMEDomainField | ACMEEmailField | EdgeIPField | SimpleAuthField
    | ProxyField | LocalAddrField | InterfaceField | SOMarkField | ZeroCopyField

  /** The fields of a spec, but for its role. */
  datatype SpecField =
    | Ends(EndsField) | Chain(ChainField) | Pace(PaceField) | InMux(InMuxField)
    | InKcp(InKcpField) | InPck(InPckField) | Watch(WatchField) | Door(DoorField)

  predicate SameEnds(s: TunnelSpec, t: TunnelSpec, f: EndsField) {
    match f
    case NameField => s.name == t.name
    case TransportField => s.transport == t.transport
    case PresetField => s.preset == t.preset
    case BindAddrField => s.bindAddr == t.bindAddr
    case RemoteAddrField => s.remoteAddr == t.remoteAddr
    case TokenField => s.token == t.token
    case PortsField => s.ports == t.ports
  }

  predicate SameChain(s: TunnelSpec, t: TunnelSpec, f: ChainField) {
    match f
    case LoadBalanceField => s.loadBalance == t.loadBalance
    case HealthFailoverField => s.healthFailover == t.healthFailover
    case FallbackAddrsField => s.fallbackAddrs == t.fallbackAddrs
    case FallbackTransportsField => s.fallbackTransports == t.fallbackTransports
    case FallbackDwellField => s.fallbackDwell == t.fallbackDwell
  }

  predicate SamePace(s: TunnelSpec, t: TunnelSpec, f: PaceField) {
    match f
    case NodelayField => s.nodelay == t.nodelay
    case HeartbeatField => s.heartbeat == t.heartbeat
    case KeepAliveField => s.keepAlive == t.keepAlive
    case ChannelSizeField => s.channelSize == t.channelSize
    case ConnectionPoolField => s.connectionPool == t.connectionPool
    case AggressivePoolField => s.aggressivePool == t.aggressivePool
    case AcceptUDPField => s.acceptUDP == t.acceptUDP
    case MSSField => s.mss == t.mss
    case SoRcvBufField => s.soRcvBuf == t.soRcvBuf
    case SoSndBufField => s.soSndBuf == t.soSndBuf
  }

  predicate SameInMux(s: TunnelSpec, t: TunnelSpec, f: InMuxField) {
    match f
    case MuxConField => s.mux.con == t.mux.con
    case MuxVersionField => s.mux.version == t.mux.version
    case MuxFrameSizeField => s.mux.frameSize == t.mux.frameSize
    case MuxRecvBufferField => s.mux.recvBuffer == t.mux.recvBuffer
    case MuxStreamBufferField => s.mux.streamBuffer == t.mux.streamBuffer
  }

  predicate SameInKcp(s: TunnelSpec, t: TunnelSpec, f: InKcpField) {
    match f
    case KcpMtuField => s.kcp.mtu == t.kcp.mtu
    case KcpIntervalField => s.kcp.interval == t.kcp.interval
    case KcpResendField => s.kcp.resend == t.kcp.resend
    case KcpNoDelayField => s.kcp.noDelay == t.kcp.noDelay
    case KcpNoCongestionField => s.kcp.noCongestion == t.kcp.noCongestion
    case KcpSndWndField => s.kcp.sndWnd == t.kcp.sndWnd
    case KcpRcvWndField => s.kcp.rcvWnd == t.kcp.rcvWnd
    case KcpAckNoDelayField => s.kcp.ackNoDelay == t.kcp.ackNoDelay
    case KcpDataShardsField => s.kcp.dataShards == t.kcp.dataShards
    case KcpParityShardsField => s.kcp.parityShards == t.kcp.parityShards
  }

  predicate SameInPck(s: TunnelSpec, t: TunnelSpec, f: InPckField) {
    match f
    case PckInterfaceField => s.pck.iface == t.pck.iface
    case PckGatewayMACField => s.pck.gatewayMAC == t.pck.gatewayMAC
    case PckFlagsField => s.pck.flags == t.pck.flags
  }

  predicate SameWatch(s: TunnelSpec, t: TunnelSpec, f: WatchField) {
    match f
    case LogLevelField => s.logLevel == t.logLevel
    case LogFormatField => s.logFormat == t.logFormat
    case ProxyProtocolField => s.proxyProtocol == t.proxyProtocol
    case MaxConnectionsField => s.maxConnections == t.maxConnections
    case BandwidthMbpsField => s.bandwidthMbps == t.bandwidthMbps
    case SnifferField => s.sniffer == t.sniffer
    case WebPortField => s.webPort == t.webPort
    case WebBindField => s.webBind == t.webBind
  }

  predicate SameDoor(s: TunnelSpec, t: TunnelSpec, f: DoorField) {
    match f
    case TLSCertField => s.tlsCert == t.tlsCert
    case TLSKeyField => s.tlsKey == t.tlsKey
    case ACMEDomainField => s.acmeDomain == t.acmeDomain
    case ACMEEmailField => s.acmeEmail == t.acmeEmail
    case EdgeIPField => s.edgeIP == t.edgeIP
    case SimpleAuthField => s.simpleAuth == t.simpleAuth
    case ProxyField => s.proxy == t.proxy
    case LocalAddrField => s.localAddr == t.localAddr
    case InterfaceField => s.iface == t.iface
    case SOMarkField => s.soMark == t.soMark
    case ZeroCopyField => s.zeroCopy == t.zeroCopy
  }

  /** The two specs hold the same there. */
  predicate Same(s: TunnelSpec, t: TunnelSpec, f: SpecField) {
    match f
    case Ends(f) => SameEnds(s, t, f)
    case Chain(f) => SameChain(s, t, f)
    case Pace(f) => SamePace(s, t, f)
    case InMux(f) => SameInMux(s, t, f)
    case InKcp(f) => SameInKcp(s, t, f)
    case InPck(f) => SameInPck(s, t, f)
    case Watch(f) => SameWatch(s, t, f)
    case Door(f) => SameDoor(s, t, f)
  }

  predicate TransportGoverns(k: Name) {
    match k
    case Common(TransportKey) | ServerSide(ProxyProtocolKey) | ClientSide(EdgeIpKey) | KcpKnob(_) => true
    case ServerSide(TlsCertKey) | ServerSide(TlsKeyKey) | ServerSide(AcmeDomainKey) | ServerSide(AcmeEmailKey) |
    ServerSide(SimpleAuthKey) => true
    case Tuning(MssKey) | Tuning(SoRcvbufKey) | Tuning(SoSndbufKey) => false
    case Tuning(_) => true
    case _ => false
  }

  predicate EndsGoverns(f: EndsField, k: Name) {
    match f
    case NameField => false
    case TransportField => TransportGoverns(k)
    case PresetField => k == Common(PresetKey)
    case BindAddrField => k == Common(BindAddrKey)
    case RemoteAddrField => k == Common(RemoteAddrKey)
    case TokenField => k == Common(TokenKey)
    case PortsField => k == ServerSide(PortsKey)
  }

  predicate ChainGoverns(f: ChainField, k: Name) {
    match f
    case LoadBalanceField => k == ClientSide(LoadBalanceKey)
    case HealthFailoverField => k == ClientSide(HealthFailoverKey)
    case FallbackAddrsField => k == ClientSide(FallbackAddrsKey)
    case FallbackTransportsField => k == ServerSide(FallbackTransportsKey) || k == ServerSide(FallbackDwellKey)
    case FallbackDwellField => k == ServerSide(FallbackDwellKey)
  }

  predicate PaceGoverns(f: PaceField, k: Name) {
    match f
    case NodelayField => k == Common(NodelayKey)
    case HeartbeatField => k == ServerSide(HeartbeatKey)
    case KeepAliveField => k == Common(KeepalivePeriodKey)
    case ChannelSizeField => k == ServerSide(ChannelSizeKey)
    case ConnectionPoolField => k == ClientSide(ConnectionPoolKey)
    case AggressivePoolField => k == ClientSide(AggressivePoolKey)
    case AcceptUDPField => k == Common(AcceptUdpKey)
    case MSSField => k == Tuning(MssKey)
    case SoRcvBufField => k == Tuning(SoRcvbufKey)
    case SoSndBufField => k == Tuning(SoSndbufKey)
  }

  predicate InMuxGoverns(f: InMuxField, k: Name) {
    match f
    case MuxConField => k == Tuning(MuxConKey) || k == Tuning(MuxSessionKey)
    case MuxVersionField => k == Tuning(MuxVersionKey)
    case MuxFrameSizeField => k == Tuning(MuxFramesizeKey)
    case MuxRecvBufferField => k == Tuning(MuxRecievebufferKey)
    case MuxStreamBufferField => k == Tuning(MuxStreambufferKey)
  }

  predicate InKcpGoverns(f: InKcpField, k: Name) {
    match f
    case KcpMtuField => k == KcpKnob(KcpMtuKey)
    case KcpIntervalField => k == KcpKnob(KcpIntervalKey)
    case KcpResendField => k == KcpKnob(KcpResendKey)
    case KcpNoDelayField => k == KcpKnob(KcpNodelayKey)
    case KcpNoCongestionField => k == KcpKnob(KcpNocongestionKey)
    case KcpSndWndField => k == KcpKnob(KcpSndwndKey)
    case KcpRcvWndField => k == KcpKnob(KcpRcvwndKey)
    case KcpAckNoDelayField => k == KcpKnob(KcpAcknodelayKey)
    case KcpDataShardsField => k == KcpKnob(KcpDatashardsKey)
    case KcpParityShardsField => k == KcpKnob(KcpParityshardsKey)
  }

  predicate InPckGoverns(f: InPckField, k: Name) {
    match f
    case PckInterfaceField => k == Tuning(PckInterfaceKey)
    case PckGatewayMACField => k == Tuning(PckGatewayMacKey)
    case PckFlagsField => k == Tuning(PckFlagsKey)
  }

  predicate WatchGoverns(f: WatchField, k: Name) {
    match f
    case LogLevelField => k == Common(LogLevelKey)
    case LogFormatField => k == Common(LogFormatKey)
    case ProxyProtocolField => k == ServerSide(ProxyProtocolKey)
    case MaxConnectionsField => k == ServerSide(MaxConnectionsKey)
    case BandwidthMbpsField => k == ServerSide(BandwidthMbpsKey)
    case SnifferField => k == Common(SnifferKey)
    case WebPortField => k == Common(WebPortKey) || k == Common(WebBindKey)
    case WebBindField => k == Common(WebBindKey)
  }

  predicate DoorGoverns(f: DoorField, k: Name) {
    match f
    case TLSCertField => k == ServerSide(TlsCertKey)
    case TLSKeyField => k == ServerSide(TlsKeyKey)
    case ACMEDomainField => k == ServerSide(AcmeDomainKey) || k == ServerSide(AcmeEmailKey)
    case ACMEEmailField => k == ServerSide(AcmeEmailKey)
    case EdgeIPField => k == ClientSide(EdgeIpKey)
    case SimpleAuthField => k == ServerSide(SimpleAuthKey)
    case ProxyField => k == ClientSide(ProxyKey)
    case LocalAddrField => k == ClientSide(LocalAddrKey)
    case InterfaceField => k == ClientSide(InterfaceKey)
    case SOMarkField => k == ClientSide(SoMarkKey)
    case ZeroCopyField => k == ServerSide(ZeroCopyKey)
  }

  /** Whether a field can decide a key's presence or value: mostly its own. The
      transport decides which knobs are in the file at all, a chain its dwell, a domain
      its email, and a port the address beside it. */
  predicate Governs(f: SpecField, k: Name) {
    match f
    case Ends(f) => EndsGoverns(f, k)
    case Chain(f) => ChainGoverns(f, k)
    case Pace(f) => PaceGoverns(f, k)
    case InMux(f) => InMuxGoverns(f, k)
    case InKcp(f) => InKcpGoverns(f, k)
    case InPck(f) => InPckGoverns(f, k)
    case Watch(f) => WatchGoverns(f, k)
    case Door(f) => DoorGoverns(f, k)
  }

  lemma AllEnds(s: TunnelSpec, t: TunnelSpec)
    requires forall f: EndsField :: SameEnds(s, t, f)
    ensures s.name == t.name && s.transport == t.transport && s.preset == t.preset
    ensures s.bindAddr == t.bindAddr && s.remoteAddr == t.remoteAddr && s.token == t.token
    ensures s.ports == t.ports
  {
    assert SameEnds(s, t, NameField);
    assert SameEnds(s, t, TransportField);
    assert SameEnds(s, t, PresetField);
    assert SameEnds(s, t, BindAddrField);
    assert SameEnds(s, t, RemoteAddrField);
    assert SameEnds(s, t, TokenField);
    assert SameEnds(s, t, PortsField);
  }

  lemma AllChain(s: TunnelSpec, t: TunnelSpec)
    requires forall f: ChainField :: SameChain(s, t, f)
    ensures s.loadBalance == t.loadBalance && s.healthFailover == t.healthFailover
    ensures s.fallbackAddrs == t.fallbackAddrs
    ensures s.fallbackTransports == t.fallbackTransports && s.fallbackDwell == t.fallbackDwell
  {
    assert SameChain(s, t, LoadBalanceField);
    assert SameChain(s, t, HealthFailoverField);
    assert SameChain(s, t, FallbackAddrsField);
    assert SameChain(s, t, FallbackTransportsField);
    assert SameChain(s, t, FallbackDwellField);
  }

  lemma AllPace(s: TunnelSpec, t: TunnelSpec)
    requires forall f: PaceField :: SamePace(s, t, f)
    ensures s.nodelay == t.nodelay && s.heartbeat == t.heartbeat && s.keepAlive == t.keepAlive
    ensures s.channelSize == t.channelSize && s.connectionPool == t.connectionPool
    ensures s.aggressivePool == t.aggressivePool
    ensures s.acceptUDP == t.acceptUDP && s.mss == t.mss && s.soRcvBuf == t.soRcvBuf
    ensures s.soSndBuf == t.soSndBuf
  {
    assert SamePace(s, t, NodelayField);
    assert SamePace(s, t, HeartbeatField);
    assert SamePace(s, t, KeepAliveField);
    assert SamePace(s, t, ChannelSizeField);
    assert SamePace(s, t, ConnectionPoolField);
    assert SamePace(s, t, AggressivePoolField);
    assert SamePace(s, t, AcceptUDPField);
    assert SamePace(s, t, MSSField);
    assert SamePace(s, t, SoRcvBufField);
    assert SamePace(s, t, SoSndBufField);
  }

  lemma AllInMux(s: TunnelSpec, t: TunnelSpec)
    requires forall f: InMuxField :: SameInMux(s, t, f)
    ensures s.mux == t.mux
  {
    assert SameInMux(s, t, MuxConField);
    assert SameInMux(s, t, MuxVersionField);
    assert SameInMux(s, t, MuxFrameSizeField);
    assert SameInMux(s, t, MuxRecvBufferField);
    assert SameInMux(s, t, MuxStreamBufferField);
  }

  lemma AllInKcp(s: TunnelSpec, t: TunnelSpec)
    requires forall f: InKcpField :: SameInKcp(s, t, f)
    ensures s.kcp == t.kcp
  {
    assert SameInKcp(s, t, KcpMtuField);
    assert SameInKcp(s, t, KcpIntervalField);
    assert SameInKcp(s, t, KcpResendField);
    assert SameInKcp(s, t, KcpNoDelayField);
    assert SameInKcp(s, t, KcpNoCongestionField);
    assert SameInKcp(s, t, KcpSndWndField);
    assert SameInKcp(s, t, KcpRcvWndField);
    assert SameInKcp(s, t, KcpAckNoDelayField);
    assert SameInKcp(s, t, KcpDataShardsField);
    assert SameInKcp(s, t, KcpParityShardsField);
  }

  lemma AllInPck(s: TunnelSpec, t: TunnelSpec)
    requires forall f: InPckField :: SameInPck(s, t, f)
    ensures s.pck == t.pck
  {
    assert SameInPck(s, t, PckInterfaceField);
    assert SameInPck(s, t, PckGatewayMACField);
    assert SameInPck(s, t, PckFlagsField);
  }

  lemma AllWatch(s: TunnelSpec, t: TunnelSpec)
    requires forall f: WatchField :: SameWatch(s, t, f)
    ensures s.logLevel == t.logLevel && s.logFormat == t.logFormat && s.proxyProtocol == t.proxyProtocol
    ensures s.maxConnections == t.maxConnections && s.bandwidthMbps == t.bandwidthMbps && s.sniffer == t.sniffer
    ensures s.webPort == t.webPort && s.webBind == t.webBind
  {
    assert SameWatch(s, t, LogLevelField);
    assert SameWatch(s, t, LogFormatField);
    assert SameWatch(s, t, ProxyProtocolField);
    assert SameWatch(s, t, MaxConnectionsField);
    assert SameWatch(s, t, BandwidthMbpsField);
    assert SameWatch(s, t, SnifferField);
    assert SameWatch(s, t, WebPortField);
    assert SameWatch(s, t, WebBindField);
  }

  lemma AllDoor(s: TunnelSpec, t: TunnelSpec)
    requires forall f: DoorField :: SameDoor(s, t, f)
    ensures s.tlsCert == t.tlsCert && s.tlsKey == t.tlsKey && s.acmeDomain == t.acmeDomain
    ensures s.acmeEmail == t.acmeEmail && s.edgeIP == t.edgeIP && s.simpleAuth == t.simpleAuth
    ensures s.proxy == t.proxy && s.localAddr == t.localAddr && s.iface == t.iface
    ensures s.soMark == t.soMark && s.zeroCopy == t.zeroCopy
  {
    assert SameDoor(s, t, TLSCertField);
    assert SameDoor(s, t, TLSKeyField);
    assert SameDoor(s, t, ACMEDomainField);
    assert SameDoor(s, t, ACMEEmailField);
    assert SameDoor(s, t, EdgeIPField);
    assert SameDoor(s, t, SimpleAuthField);
    assert SameDoor(s, t, ProxyField);
    assert SameDoor(s, t, LocalAddrField);
    assert SameDoor(s, t, InterfaceField);
    assert SameDoor(s, t, SOMarkField);
    assert SameDoor(s, t, ZeroCopyField);
  }

  /** No field is missing from the list. */
  lemma TheFieldsAreAll(s: TunnelSpec, t: TunnelSpec)
    requires s.role == t.role && forall f: SpecField :: Same(s, t, f)
    ensures s == t
  {
    forall f: EndsField ensures SameEnds(s, t, f) { assert Same(s, t, Ends(f)); }
    AllEnds(s, t);
    forall f: ChainField ensures SameChain(s, t, f) { assert Same(s, t, Chain(f)); }
    AllChain(s, t);
    forall f: PaceField ensures SamePace(s, t, f) { assert Same(s, t, Pace(f)); }
    AllPace(s, t);
    forall f: InMuxField ensures SameInMux(s, t, f) { assert Same(s, t, InMux(f)); }
    AllInMux(s, t);
    forall f: InKcpField ensures SameInKcp(s, t, f) { assert Same(s, t, InKcp(f)); }
    AllInKcp(s, t);
    forall f: InPckField ensures SameInPck(s, t, f) { assert Same(s, t, InPck(f)); }
    AllInPck(s, t);
    forall f: WatchField ensures SameWatch(s, t, f) { assert Same(s, t, Watch(f)); }
    AllWatch(s, t);
    forall f: DoorField ensures SameDoor(s, t, f) { assert Same(s, t, Door(f)); }
    AllDoor(s, t);
  }

  /** Wherever two specs differ, the keys that field governs are among `keys`. */
  ghost predicate ChangedWithin(s: TunnelSpec, t: TunnelSpec, keys: Name -> bool) {
    && s.role == t.role
    && forall f: SpecField, k: Name {:trigger Governs(f, k)} ::
        Governs(f, k) ==> Same(s, t, f) || keys(k)
  }

  lemma KeyWithin(s: TunnelSpec, t: TunnelSpec, keys: Name -> bool, f: SpecField, k: Name)
    requires ChangedWithin(s, t, keys) && Governs(f, k)
    ensures Same(s, t, f) || keys(k)
  {
    hide Same, Governs;
  }

  // Group by group.

  lemma TuningChanges(s: TunnelSpec, t: TunnelSpec, keys: Name -> bool)
    requires ChangedWithin(s, t, keys)
    ensures SameBut(TuningFields(s), TuningFields(t), keys)
  {
    hide ChangedWithin, IsKCP, IsMux, IsWS, NeedsTLS, SupportsProxyProtocol, Given, Listed, Spelling, MonitorBind;
    KeyWithin(s, t, keys, Pace(MSSField), Tuning(MssKey));
    KeyWithin(s, t, keys, Pace(SoRcvBufField), Tuning(SoRcvbufKey));
    KeyWithin(s, t, keys, Pace(SoSndBufField), Tuning(SoSndbufKey));
  }

  lemma KcpDecided(s: TunnelSpec, t: TunnelSpec, keys: Name -> bool)
    requires ChangedWithin(s, t, keys)
    ensures (s.transport == t.transport && s.kcp.mtu == t.kcp.mtu) || keys(KcpKnob(KcpMtuKey))
    ensures (s.transport == t.transport && s.kcp.interval == t.kcp.interval) || keys(KcpKnob(KcpIntervalKey))
    ensures (s.transport == t.transport && s.kcp.resend == t.kcp.resend) || keys(KcpKnob(KcpResendKey))
    ensures (s.transport == t.transport && s.kcp.noDelay == t.kcp.noDelay) || keys(KcpKnob(KcpNodelayKey))
    ensures (s.transport == t.transport && s.kcp.noCongestion == t.kcp.noCongestion) ||
            keys(KcpKnob(KcpNocongestionKey))
    ensures (s.transport == t.transport && s.kcp.sndWnd == t.kcp.sndWnd) || keys(KcpKnob(KcpSndwndKey))
    ensures (s.transport == t.transport && s.kcp.rcvWnd == t.kcp.rcvWnd) || keys(KcpKnob(KcpRcvwndKey))
    ensures (s.transport == t.transport && s.kcp.ackNoDelay == t.kcp.ackNoDelay) ||
            keys(KcpKnob(KcpAcknodelayKey))
    ensures (s.transport == t.transport && s.kcp.dataShards == t.kcp.dataShards) ||
            keys(KcpKnob(KcpDatashardsKey))
    ensures (s.transport == t.transport && s.kcp.parityShards == t.kcp.parityShards) ||
            keys(KcpKnob(KcpParityshardsKey))
  {
    hide ChangedWithin;
    KeyWithin(s, t, keys, Ends(TransportField), KcpKnob(KcpMtuKey));
    KeyWithin(s, t, keys, InKcp(KcpMtuField), KcpKnob(KcpMtuKey));
    KeyWithin(s, t, keys, Ends(TransportField), KcpKnob(KcpIntervalKey));
    KeyWithin(s, t, keys, InKcp(KcpIntervalField), KcpKnob(KcpIntervalKey));
    KeyWithin(s, t, keys, Ends(TransportField), KcpKnob(KcpResendKey));
    KeyWithin(s, t, keys, InKcp(KcpResendField), KcpKnob(KcpResendKey));
    KeyWithin(s, t, keys, Ends(TransportField), KcpKnob(KcpNodelayKey));
    KeyWithin(s, t, keys, InKcp(KcpNoDelayField), KcpKnob(KcpNodelayKey));
    KeyWithin(s, t, keys, Ends(TransportField), KcpKnob(KcpNocongestionKey));
    KeyWithin(s, t, keys, InKcp(KcpNoCongestionField), KcpKnob(KcpNocongestionKey));
    KeyWithin(s, t, keys, Ends(TransportField), KcpKnob(KcpSndwndKey));
    KeyWithin(s, t, keys, InKcp(KcpSndWndField), KcpKnob(KcpSndwndKey));
    KeyWithin(s, t, keys, Ends(TransportField), KcpKnob(KcpRcvwndKey));
    KeyWithin(s, t, keys, InKcp(KcpRcvWndField), KcpKnob(KcpRcvwndKey));
    KeyWithin(s, t, keys, Ends(TransportField), KcpKnob(KcpAcknodelayKey));
    KeyWithin(s, t, keys, InKcp(KcpAckNoDelayField), KcpKnob(KcpAcknodelayKey));
    KeyWithin(s, t, keys, Ends(TransportField), KcpKnob(KcpDatashardsKey));
    KeyWithin(s, t, keys, InKcp(KcpDataShardsField), KcpKnob(KcpDatashardsKey));
    KeyWithin(s, t, keys, Ends(TransportField), KcpKnob(KcpParityshardsKey));
    KeyWithin(s, t, keys, InKcp(KcpParityShardsField), KcpKnob(KcpParityshardsKey));
  }

  lemma KcpChanges(s: TunnelSpec, t: TunnelSpec, keys: Name -> bool)
    requires ChangedWithin(s, t, keys)
    ensures SameBut(KcpFields(s), KcpFields(t), keys)
  {
    hide ChangedWithin, IsKCP, IsMux, IsWS, NeedsTLS, SupportsProxyProtocol, Given, Listed, Spelling, MonitorBind;
    KcpDecided(s, t, keys);
  }

  lemma PckChanges(s: TunnelSpec, t: TunnelSpec, keys: Name -> bool)
    requires ChangedWithin(s, t, keys)
    ensures SameBut(PckFields(s), PckFields(t), keys)
  {
    hide ChangedWithin, IsKCP, IsMux, IsWS, NeedsTLS, SupportsProxyProtocol, Given, Listed, Spelling, MonitorBind;
    KeyWithin(s, t, keys, Ends(TransportField), Tuning(PckInterfaceKey));
    KeyWithin(s, t, keys, InPck(PckInterfaceField), Tuning(PckInterfaceKey));
    KeyWithin(s, t, keys, Ends(TransportField), Tuning(PckGatewayMacKey));
    KeyWithin(s, t, keys, InPck(PckGatewayMACField), Tuning(PckGatewayMacKey));
    KeyWithin(s, t, keys, Ends(TransportField), Tuning(PckFlagsKey));
    KeyWithin(s, t, keys, InPck(PckFlagsField), Tuning(PckFlagsKey));
  }

  lemma WebChanges(s: TunnelSpec, t: TunnelSpec, keys: Name -> bool)
    requires ChangedWithin(s, t, keys)
    ensures SameBut(WebFields(s), WebFields(t), keys)
  {
    hide ChangedWithin, IsKCP, IsMux, IsWS, NeedsTLS, SupportsProxyProtocol, Given, Listed, Spelling, MonitorBind;
    KeyWithin(s, t, keys, Watch(SnifferField), Common(SnifferKey));
    KeyWithin(s, t, keys, Watch(WebPortField), Common(WebPortKey));
    KeyWithin(s, t, keys, Watch(WebPortField), Common(WebBindKey));
    KeyWithin(s, t, keys, Watch(WebBindField), Common(WebBindKey));
  }

  lemma FallbackChanges(s: TunnelSpec, t: TunnelSpec, keys: Name -> bool)
    requires ChangedWithin(s, t, keys)
    ensures SameBut(FallbackFields(s), FallbackFields(t), keys)
  {
    hide ChangedWithin, IsKCP, IsMux, IsWS, NeedsTLS, SupportsProxyProtocol, Given, Listed, Spelling, MonitorBind;
    KeyWithin(s, t, keys, Chain(FallbackTransportsField), ServerSide(FallbackTransportsKey));
    KeyWithin(s, t, keys, Chain(FallbackTransportsField), ServerSide(FallbackDwellKey));
    KeyWithin(s, t, keys, Chain(FallbackDwellField), ServerSide(FallbackDwellKey));
  }

  lemma ServerHeadDecided(s: TunnelSpec, t: TunnelSpec, keys: Name -> bool)
    requires ChangedWithin(s, t, keys)
    ensures s.bindAddr == t.bindAddr || keys(Common(BindAddrKey))
    ensures s.transport == t.transport || keys(Common(TransportKey))
    ensures s.preset == t.preset || keys(Common(PresetKey))
    ensures s.token == t.token || keys(Common(TokenKey))
    ensures s.channelSize == t.channelSize || keys(ServerSide(ChannelSizeKey))
    ensures s.keepAlive == t.keepAlive || keys(Common(KeepalivePeriodKey))
    ensures s.nodelay == t.nodelay || keys(Common(NodelayKey))
    ensures s.heartbeat == t.heartbeat || keys(ServerSide(HeartbeatKey))
    ensures s.logLevel == t.logLevel || keys(Common(LogLevelKey))
    ensures s.logFormat == t.logFormat || keys(Common(LogFormatKey))
  {
    hide ChangedWithin;
    KeyWithin(s, t, keys, Ends(BindAddrField), Common(BindAddrKey));
    KeyWithin(s, t, keys, Ends(TransportField), Common(TransportKey));
    KeyWithin(s, t, keys, Ends(PresetField), Common(PresetKey));
    KeyWithin(s, t, keys, Ends(TokenField), Common(TokenKey));
    KeyWithin(s, t, keys, Pace(ChannelSizeField), ServerSide(ChannelSizeKey));
    KeyWithin(s, t, keys, Pace(KeepAliveField), Common(KeepalivePeriodKey));
    KeyWithin(s, t, keys, Pace(NodelayField), Common(NodelayKey));
    KeyWithin(s, t, keys, Pace(HeartbeatField), ServerSide(HeartbeatKey));
    KeyWithin(s, t, keys, Watch(LogLevelField), Common(LogLevelKey));
    KeyWithin(s, t, keys, Watch(LogFormatField), Common(LogFormatKey));
  }

  lemma ServerHeadChanges(s: TunnelSpec, t: TunnelSpec, keys: Name -> bool)
    requires ChangedWithin(s, t, keys)
    ensures SameBut(ServerHeadFields(s), ServerHeadFields(t), keys)
  {
    hide ChangedWithin, IsKCP, IsMux, IsWS, NeedsTLS, SupportsProxyProtocol, Given, Listed, Spelling, MonitorBind;
    ServerHeadDecided(s, t, keys);
  }

  lemma TlsDecided(s: TunnelSpec, t: TunnelSpec, keys: Name -> bool)
    requires ChangedWithin(s, t, keys)
    ensures s.acceptUDP == t.acceptUDP || keys(Common(AcceptUdpKey))
    ensures (s.transport == t.transport && s.tlsCert == t.tlsCert) || keys(ServerSide(TlsCertKey))
    ensures (s.transport == t.transport && s.tlsKey == t.tlsKey) || keys(ServerSide(TlsKeyKey))
    ensures (s.transport == t.transport && s.acmeDomain == t.acmeDomain) || keys(ServerSide(AcmeDomainKey))
    ensures (s.transport == t.transport && s.acmeDomain == t.acmeDomain && s.acmeEmail == t.acmeEmail) ||
            keys(ServerSide(AcmeEmailKey))
    ensures (s.transport == t.transport && s.simpleAuth == t.simpleAuth) || keys(ServerSide(SimpleAuthKey))
  {
    hide ChangedWithin;
    KeyWithin(s, t, keys, Pace(AcceptUDPField), Common(AcceptUdpKey));
    KeyWithin(s, t, keys, Ends(TransportField), ServerSide(TlsCertKey));
    KeyWithin(s, t, keys, Door(TLSCertField), ServerSide(TlsCertKey));
    KeyWithin(s, t, keys, Ends(TransportField), ServerSide(TlsKeyKey));
    KeyWithin(s, t, keys, Door(TLSKeyField), ServerSide(TlsKeyKey));
    KeyWithin(s, t, keys, Ends(TransportField), ServerSide(AcmeDomainKey));
    KeyWithin(s, t, keys, Door(ACMEDomainField), ServerSide(AcmeDomainKey));
    KeyWithin(s, t, keys, Ends(TransportField), ServerSide(AcmeEmailKey));
    KeyWithin(s, t, keys, Door(ACMEDomainField), ServerSide(AcmeEmailKey));
    KeyWithin(s, t, keys, Door(ACMEEmailField), ServerSide(AcmeEmailKey));
    KeyWithin(s, t, keys, Ends(TransportField), ServerSide(SimpleAuthKey));
    KeyWithin(s, t, keys, Door(SimpleAuthField), ServerSide(SimpleAuthKey));
  }

  lemma TlsChanges(s: TunnelSpec, t: TunnelSpec, keys: Name -> bool)
    requires ChangedWithin(s, t, keys)
    ensures SameBut(TlsFields(s), TlsFields(t), keys)
  {
    hide ChangedWithin, IsKCP, IsMux, IsWS, NeedsTLS, SupportsProxyProtocol, Given, Listed, Spelling, MonitorBind;
    TlsDecided(s, t, keys);
  }

  lemma LimitChanges(s: TunnelSpec, t: TunnelSpec, keys: Name -> bool)
    requires ChangedWithin(s, t, keys)
    ensures SameBut(LimitFields(s), LimitFields(t), keys)
  {
    hide ChangedWithin, IsKCP, IsMux, IsWS, NeedsTLS, SupportsProxyProtocol, Given, Listed, Spelling, MonitorBind;
    KeyWithin(s, t, keys, Ends(TransportField), ServerSide(ProxyProtocolKey));
    KeyWithin(s, t, keys, Watch(ProxyProtocolField), ServerSide(ProxyProtocolKey));
    KeyWithin(s, t, keys, Door(ZeroCopyField), ServerSide(ZeroCopyKey));
    KeyWithin(s, t, keys, Watch(MaxConnectionsField), ServerSide(MaxConnectionsKey));
    KeyWithin(s, t, keys, Watch(BandwidthMbpsField), ServerSide(BandwidthMbpsKey));
  }

  lemma ClientAddrChanges(s: TunnelSpec, t: TunnelSpec, keys: Name -> bool)
    requires ChangedWithin(s, t, keys)
    ensures SameBut(ClientAddrFields(s), ClientAddrFields(t), keys)
  {
    hide ChangedWithin, IsKCP, IsMux, IsWS, NeedsTLS, SupportsProxyProtocol, Given, Listed, Spelling, MonitorBind;
    KeyWithin(s, t, keys, Ends(RemoteAddrField), Common(RemoteAddrKey));
    KeyWithin(s, t, keys, Chain(FallbackAddrsField), ClientSide(FallbackAddrsKey));
    KeyWithin(s, t, keys, Ends(TransportField), Common(TransportKey));
  }

  lemma ClientHeadChanges(s: TunnelSpec, t: TunnelSpec, keys: Name -> bool)
    requires ChangedWithin(s, t, keys)
    ensures SameBut(ClientHeadFields(s), ClientHeadFields(t), keys)
  {
    hide ChangedWithin, IsKCP, IsMux, IsWS, NeedsTLS, SupportsProxyProtocol, Given, Listed, Spelling, MonitorBind;
    KeyWithin(s, t, keys, Ends(PresetField), Common(PresetKey));
    KeyWithin(s, t, keys, Ends(TokenField), Common(TokenKey));
    KeyWithin(s, t, keys, Pace(ConnectionPoolField), ClientSide(ConnectionPoolKey));
    KeyWithin(s, t, keys, Pace(AggressivePoolField), ClientSide(AggressivePoolKey));
    KeyWithin(s, t, keys, Pace(KeepAliveField), Common(KeepalivePeriodKey));
    KeyWithin(s, t, keys, Pace(NodelayField), Common(NodelayKey));
  }

  lemma ClientDialChanges(s: TunnelSpec, t: TunnelSpec, keys: Name -> bool)
    requires ChangedWithin(s, t, keys)
    ensures SameBut(ClientDialFields(s), ClientDialFields(t), keys)
  {
    hide ChangedWithin, IsKCP, IsMux, IsWS, NeedsTLS, SupportsProxyProtocol, Given, Listed, Spelling, MonitorBind;
    KeyWithin(s, t, keys, Chain(LoadBalanceField), ClientSide(LoadBalanceKey));
    KeyWithin(s, t, keys, Chain(HealthFailoverField), ClientSide(HealthFailoverKey));
    KeyWithin(s, t, keys, Watch(LogLevelField), Common(LogLevelKey));
    KeyWithin(s, t, keys, Watch(LogFormatField), Common(LogFormatKey));
  }

  lemma ClientTailDecided(s: TunnelSpec, t: TunnelSpec, keys: Name -> bool)
    requires ChangedWithin(s, t, keys)
    ensures (s.edgeIP == t.edgeIP && s.transport == t.transport) || keys(ClientSide(EdgeIpKey))
    ensures (s.transport == t.transport && s.simpleAuth == t.simpleAuth) || keys(ServerSide(SimpleAuthKey))
    ensures s.proxy == t.proxy || keys(ClientSide(ProxyKey))
    ensures s.localAddr == t.localAddr || keys(ClientSide(LocalAddrKey))
    ensures s.iface == t.iface || keys(ClientSide(InterfaceKey))
    ensures s.soMark == t.soMark || keys(ClientSide(SoMarkKey))
    ensures s.zeroCopy == t.zeroCopy || keys(ServerSide(ZeroCopyKey))
  {
    hide ChangedWithin;
    KeyWithin(s, t, keys, Door(EdgeIPField), ClientSide(EdgeIpKey));
    KeyWithin(s, t, keys, Ends(TransportField), ClientSide(EdgeIpKey));
    KeyWithin(s, t, keys, Ends(TransportField), ServerSide(SimpleAuthKey));
    KeyWithin(s, t, keys, Door(SimpleAuthField), ServerSide(SimpleAuthKey));
    KeyWithin(s, t, keys, Door(ProxyField), ClientSide(ProxyKey));
    KeyWithin(s, t, keys, Door(LocalAddrField), ClientSide(LocalAddrKey));
    KeyWithin(s, t, keys, Door(InterfaceField), ClientSide(InterfaceKey));
    KeyWithin(s, t, keys, Door(SOMarkField), ClientSide(SoMarkKey));
    KeyWithin(s, t, keys, Door(ZeroCopyField), ServerSide(ZeroCopyKey));
  }

  lemma ClientTailChanges(s: TunnelSpec, t: TunnelSpec, keys: Name -> bool)
    requires ChangedWithin(s, t, keys)
    ensures SameBut(ClientTailFields(s), ClientTailFields(t), keys)
  {
    hide ChangedWithin, IsKCP, IsMux, IsWS, NeedsTLS, SupportsProxyProtocol, Given, Listed, Spelling, MonitorBind;
    ClientTailDecided(s, t, keys);
  }

  lemma MuxChanges(s: TunnelSpec, t: TunnelSpec, keys: Name -> bool, sessions: Name)
    requires ChangedWithin(s, t, keys) && (sessions == Tuning(MuxConKey) || sessions == Tuning(MuxSessionKey))
    ensures SameBut(MuxFields(s, sessions), MuxFields(t, sessions), keys)
  {
    hide ChangedWithin, IsKCP, IsMux, IsWS, NeedsTLS, SupportsProxyProtocol, Given, Listed, Spelling, MonitorBind;
    KeyWithin(s, t, keys, Ends(TransportField), sessions);
    KeyWithin(s, t, keys, Ends(TransportField), Tuning(MuxVersionKey));
    KeyWithin(s, t, keys, Ends(TransportField), Tuning(MuxFramesizeKey));
    KeyWithin(s, t, keys, Ends(TransportField), Tuning(MuxRecievebufferKey));
    KeyWithin(s, t, keys, Ends(TransportField), Tuning(MuxStreambufferKey));
    KeyWithin(s, t, keys, InMux(MuxConField), sessions);
    KeyWithin(s, t, keys, InMux(MuxVersionField), Tuning(MuxVersionKey));
    KeyWithin(s, t, keys, InMux(MuxFrameSizeField), Tuning(MuxFramesizeKey));
    KeyWithin(s, t, keys, InMux(MuxRecvBufferField), Tuning(MuxRecievebufferKey));
    KeyWithin(s, t, keys, InMux(MuxStreamBufferField), Tuning(MuxStreambufferKey));
  }

  lemma PortsChange(s: TunnelSpec, t: TunnelSpec, keys: Name -> bool)
    requires ChangedWithin(s, t, keys)
    ensures SameBut([Always(ServerSide(PortsKey), List(s.ports))],
                    [Always(ServerSide(PortsKey), List(t.ports))], keys)
  {
    hide Spelling, ChangedWithin;
    KeyWithin(s, t, keys, Ends(PortsField), ServerSide(PortsKey));
  }

  lemma ServerChanges(s: TunnelSpec, t: TunnelSpec, keys: Name -> bool)
    requires ChangedWithin(s, t, keys)
    ensures SameBut(ServerFields(s), ServerFields(t), keys)
  {
    hide SameBut, ChangedWithin, ServerHeadFields, TuningFields, KcpFields, PckFields, TlsFields, MuxFields,
      LimitFields, WebFields, FallbackFields;
    var a, b := ServerHeadFields(s), ServerHeadFields(t);
    ServerHeadChanges(s, t, keys);
    TuningChanges(s, t, keys);
    SameButJoin(a, b, TuningFields(s), TuningFields(t), keys);
    a, b := a + TuningFields(s), b + TuningFields(t);
    KcpChanges(s, t, keys);
    SameButJoin(a, b, KcpFields(s), KcpFields(t), keys);
    a, b := a + KcpFields(s), b + KcpFields(t);
    PckChanges(s, t, keys);
    SameButJoin(a, b, PckFields(s), PckFields(t), keys);
    a, b := a + PckFields(s), b + PckFields(t);
    TlsChanges(s, t, keys);
    SameButJoin(a, b, TlsFields(s), TlsFields(t), keys);
    a, b := a + TlsFields(s), b + TlsFields(t);
    MuxChanges(s, t, keys, Tuning(MuxConKey));
    SameButJoin(a, b, MuxFields(s, Tuning(MuxConKey)), MuxFields(t, Tuning(MuxConKey)), keys);
    a, b := a + MuxFields(s, Tuning(MuxConKey)), b + MuxFields(t, Tuning(MuxConKey));
    LimitChanges(s, t, keys);
    SameButJoin(a, b, LimitFields(s), LimitFields(t), keys);
    a, b := a + LimitFields(s), b + LimitFields(t);
    WebChanges(s, t, keys);
    SameButJoin(a, b, WebFields(s), WebFields(t), keys);
    a, b := a + WebFields(s), b + WebFields(t);
    PortsChange(s, t, keys);
    SameButJoin(a, b, [Always(ServerSide(PortsKey), List(s.ports))],
                [Always(ServerSide(PortsKey), List(t.ports))], keys);
    a, b := a + [Always(ServerSide(PortsKey), List(s.ports))], b + [Always(ServerSide(PortsKey), List(t.ports))];
    FallbackChanges(s, t, keys);
    SameButJoin(a, b, FallbackFields(s), FallbackFields(t), keys);
  }

  lemma ClientChanges(s: TunnelSpec, t: TunnelSpec, keys: Name -> bool)
    requires ChangedWithin(s, t, keys)
    ensures SameBut(ClientFields(s), ClientFields(t), keys)
  {
    hide SameBut, ChangedWithin, ClientAddrFields, FallbackFields, ClientHeadFields, ClientDialFields,
      TuningFields, KcpFields, PckFields, ClientTailFields, MuxFields, WebFields;
    var a, b := ClientAddrFields(s), ClientAddrFields(t);
    ClientAddrChanges(s, t, keys);
    FallbackChanges(s, t, keys);
    SameButJoin(a, b, FallbackFields(s), FallbackFields(t), keys);
    a, b := a + FallbackFields(s), b + FallbackFields(t);
    ClientHeadChanges(s, t, keys);
    SameButJoin(a, b, ClientHeadFields(s), ClientHeadFields(t), keys);
    a, b := a + ClientHeadFields(s), b + ClientHeadFields(t);
    ClientDialChanges(s, t, keys);
    SameButJoin(a, b, ClientDialFields(s), ClientDialFields(t), keys);
    a, b := a + ClientDialFields(s), b + ClientDialFields(t);
    TuningChanges(s, t, keys);
    SameButJoin(a, b, TuningFields(s), TuningFields(t), keys);
    a, b := a + TuningFields(s), b + TuningFields(t);
    KcpChanges(s, t, keys);
    SameButJoin(a, b, KcpFields(s), KcpFields(t), keys);
    a, b := a + KcpFields(s), b + KcpFields(t);
    PckChanges(s, t, keys);
    SameButJoin(a, b, PckFields(s), PckFields(t), keys);
    a, b := a + PckFields(s), b + PckFields(t);
    ClientTailChanges(s, t, keys);
    SameButJoin(a, b, ClientTailFields(s), ClientTailFields(t), keys);
    a, b := a + ClientTailFields(s), b + ClientTailFields(t);
    MuxChanges(s, t, keys, Tuning(MuxSessionKey));
    SameButJoin(a, b, MuxFields(s, Tuning(MuxSessionKey)), MuxFields(t, Tuning(MuxSessionKey)), keys);
    a, b := a + MuxFields(s, Tuning(MuxSessionKey)), b + MuxFields(t, Tuning(MuxSessionKey));
    WebChanges(s, t, keys);
    SameButJoin(a, b, WebFields(s), WebFields(t), keys);
  }

  /** Two specs of one role print tables that differ at most at the keys their differing
      fields govern, so the files read alike at every other key. */
  lemma TablesDifferWithin(s: TunnelSpec, t: TunnelSpec, keys: Name -> bool)
    requires ChangedWithin(s, t, keys)
    ensures SameBut(SpecFields(s), SpecFields(t), keys) && TableName(s) == TableName(t)
    ensures forall other: Name | !keys(other) ::
              Read(FileTable(t), Spelling, other) == Read(FileTable(s), Spelling, other)
  {
    hide ServerFields, ClientFields, SameBut, ChangedWithin, Spelling, Written, PartsOf, Same, Governs;
    assert s.role == t.role by { SameRole(s, t, keys); }
    if IsServer(s) { ServerChanges(s, t, keys); } else { ClientChanges(s, t, keys); }
    NamesSpell();
    forall other: Name | !keys(other)
      ensures Read(FileTable(t), Spelling, other) == Read(FileTable(s), Spelling, other)
    {
      OnlyTheseChange(SpecFields(s), SpecFields(t), keys, Spelling, other);
    }
  }

  lemma SameRole(s: TunnelSpec, t: TunnelSpec, keys: Name -> bool)
    requires ChangedWithin(s, t, keys)
    ensures s.role == t.role
  {
  }

  /** Two specs of one role, alike in every field but perhaps this one. */
  ghost predicate DiffersOnly(s: TunnelSpec, t: TunnelSpec, f: SpecField) {
    s.role == t.role && forall g: SpecField {:trigger Same(s, t, g)} :: g == f || Same(s, t, g)
  }

  function KeysOf(f: SpecField): Name -> bool { k => Governs(f, k) }

  /** Changing one field, whichever it is, alters only the keys it governs. */
  lemma AFieldGovernsOnlyItsKeys(s: TunnelSpec, t: TunnelSpec, f: SpecField)
    requires DiffersOnly(s, t, f)
    ensures SameBut(SpecFields(s), SpecFields(t), KeysOf(f))
    ensures forall other: Name | !Governs(f, other) ::
              Read(FileTable(t), Spelling, other) == Read(FileTable(s), Spelling, other)
  {
    hide SpecFields, SameBut, FileTable, Same, Governs, Spelling;
    forall g: SpecField, k: Name | Governs(g, k) ensures Same(s, t, g) || KeysOf(f)(k) {
      assert g == f || Same(s, t, g);
    }
    TablesDifferWithin(s, t, KeysOf(f));
  }
}
