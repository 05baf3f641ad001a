/** The other half of which field governs which key: each does decide it. For every
    field and every key it governs, two specs that differ in that field alone and whose
    files read differently at that key. */
module ReverseDecides {
  import opened TomlDocument
  import opened ConfigKeys
  import opened ReverseConfig
  import opened ReverseLoad
  import opened ReverseRoundTrip
  import opened ReverseFields

  /** Changing the field alone can change what the file reads as at the key. */
  ghost predicate Decides(f: SpecField, k: Name) {
    exists s: TunnelSpec, t: TunnelSpec {:trigger DiffersOnly(s, t, f)} ::
      DiffersOnly(s, t, f) && Read(FileTable(s), Spelling, k) != Read(FileTable(t), Spelling, k)
  }

  // A spec with everything set, and the same with one field set otherwise.

  function Full(role: string, transport: string): TunnelSpec {
    TunnelSpec(
      "a", role, transport, "a", "a", "a", "a", ["a"], true, true, ["a"], ["a"], 1, true, 1, 1, 1, 1, true,
      true, "a", "a", Mux(1, 1, 1, 1, 1), Kcp(1, 1, 1, 1, 1, 1, 1, true, 1, 1), Pck("a", "a", ["a"]), 1, 1,
      1, true, 1, 1, true, 1, "a", "a", "a", "a", "a", "a", true, "a", "a", "a", 1, true)
  }

  function Other(s: TunnelSpec, f: SpecField): TunnelSpec {
    TunnelSpec(
      name := if f == Ends(NameField) then "b" else s.name,
      role := s.role,
      transport := if f == Ends(TransportField) then "udp" else s.transport,
      preset := if f == Ends(PresetField) then "b" else s.preset,
      bindAddr := if f == Ends(BindAddrField) then "b" else s.bindAddr,
      remoteAddr := if f == Ends(RemoteAddrField) then "b" else s.remoteAddr,
      token := if f == Ends(TokenField) then "b" else s.token,
      ports := if f == Ends(PortsField) then ["b"] else s.ports,
      loadBalance := if f == Chain(LoadBalanceField) then false else s.loadBalance,
      healthFailover := if f == Chain(HealthFailoverField) then false else s.healthFailover,
      fallbackAddrs := if f == Chain(FallbackAddrsField) then ["b"] else s.fallbackAddrs,
      fallbackTransports := if f == Chain(FallbackTransportsField) then [] else s.fallbackTransports,
      fallbackDwell := if f == Chain(FallbackDwellField) then 2 else s.fallbackDwell,
      nodelay := if f == Pace(NodelayField) then false else s.nodelay,
      heartbeat := if f == Pace(HeartbeatField) then 2 else s.heartbeat,
      keepAlive := if f == Pace(KeepAliveField) then 2 else s.keepAlive,
      channelSize := if f == Pace(ChannelSizeField) then 2 else s.channelSize,
      connectionPool := if f == Pace(ConnectionPoolField) then 2 else s.connectionPool,
      aggressivePool := if f == Pace(AggressivePoolField) then false else s.aggressivePool,
      acceptUDP := if f == Pace(AcceptUDPField) then false else s.acceptUDP,
      logLevel := if f == Watch(LogLevelField) then "b" else s.logLevel,
      logFormat := if f == Watch(LogFormatField) then "b" else s.logFormat,
      mux := Mux(
        con := if f == InMux(MuxConField) then 2 else s.mux.con,
        version := if f == InMux(MuxVersionField) then 2 else s.mux.version,
        frameSize := if f == InMux(MuxFrameSizeField) then 2 else s.mux.frameSize,
        recvBuffer := if f == InMux(MuxRecvBufferField) then 2 else s.mux.recvBuffer,
        streamBuffer := if f == InMux(MuxStreamBufferField) then 2 else s.mux.streamBuffer),
      kcp := Kcp(
        mtu := if f == InKcp(KcpMtuField) then 2 else s.kcp.mtu,
        interval := if f == InKcp(KcpIntervalField) then 2 else s.kcp.interval,
        resend := if f == InKcp(KcpResendField) then 2 else s.kcp.resend,
        noDelay := if f == InKcp(KcpNoDelayField) then 2 else s.kcp.noDelay,
        noCongestion := if f == InKcp(KcpNoCongestionField) then 2 else s.kcp.noCongestion,
        sndWnd := if f == InKcp(KcpSndWndField) then 2 else s.kcp.sndWnd,
        rcvWnd := if f == InKcp(KcpRcvWndField) then 2 else s.kcp.rcvWnd,
        ackNoDelay := if f == InKcp(KcpAckNoDelayField) then false else s.kcp.ackNoDelay,
        dataShards := if f == InKcp(KcpDataShardsField) then 2 else s.kcp.dataShards,
        parityShards := if f == InKcp(KcpParityShardsField) then 2 else s.kcp.parityShards),
      pck := Pck(
        iface := if f == InPck(PckInterfaceField) then "b" else s.pck.iface,
        gatewayMAC := if f == InPck(PckGatewayMACField) then "b" else s.pck.gatewayMAC,
        flags := if f == InPck(PckFlagsField) then ["b"] else s.pck.flags),
      mss := if f == Pace(MSSField) then 2 else s.mss,
      soRcvBuf := if f == Pace(SoRcvBufField) then 2 else s.soRcvBuf,
      soSndBuf := if f == Pace(SoSndBufField) then 2 else s.soSndBuf,
      proxyProtocol := if f == Watch(ProxyProtocolField) then false else s.proxyProtocol,
      maxConnections := if f == Watch(MaxConnectionsField) then 2 else s.maxConnections,
      bandwidthMbps := if f == Watch(BandwidthMbpsField) then 2 else s.bandwidthMbps,
      sniffer := if f == Watch(SnifferField) then false else s.sniffer,
      webPort := if f == Watch(WebPortField) then 0 else s.webPort,
      webBind := if f == Watch(WebBindField) then "b" else s.webBind,
      tlsCert := if f == Door(TLSCertField) then "b" else s.tlsCert,
      tlsKey := if f == Door(TLSKeyField) then "b" else s.tlsKey,
      acmeDomain := if f == Door(ACMEDomainField) then "" else s.acmeDomain,
      acmeEmail := if f == Door(ACMEEmailField) then "b" else s.acmeEmail,
      edgeIP := if f == Door(EdgeIPField) then "b" else s.edgeIP,
      simpleAuth := if f == Door(SimpleAuthField) then false else s.simpleAuth,
      proxy := if f == Door(ProxyField) then "b" else s.proxy,
      localAddr := if f == Door(LocalAddrField) then "b" else s.localAddr,
      iface := if f == Door(InterfaceField) then "b" else s.iface,
      soMark := if f == Door(SOMarkField) then 2 else s.soMark,
      zeroCopy := if f == Door(ZeroCopyField) then false else s.zeroCopy)
  }

  lemma OtherEndsKept(s: TunnelSpec, f: SpecField, g: EndsField)
    requires f != Ends(g)
    ensures SameEnds(s, Other(s, f), g)
  {
  }

  lemma OtherChainKept(s: TunnelSpec, f: SpecField, g: ChainField)
    requires f != Chain(g)
    ensures SameChain(s, Other(s, f), g)
  {
  }

  lemma OtherPaceKept(s: TunnelSpec, f: SpecField, g: PaceField)
    requires f != Pace(g)
    ensures SamePace(s, Other(s, f), g)
  {
  }

  lemma OtherInMuxKept(s: TunnelSpec, f: SpecField, g: InMuxField)
    requires f != InMux(g)
    ensures SameInMux(s, Other(s, f), g)
  {
  }

  lemma OtherInKcpKept(s: TunnelSpec, f: SpecField, g: InKcpField)
    requires f != InKcp(g)
    ensures SameInKcp(s, Other(s, f), g)
  {
  }

  lemma OtherInPckKept(s: TunnelSpec, f: SpecField, g: InPckField)
    requires f != InPck(g)
    ensures SameInPck(s, Other(s, f), g)
  {
  }

  lemma OtherWatchKept(s: TunnelSpec, f: SpecField, g: WatchField)
    requires f != Watch(g)
    ensures SameWatch(s, Other(s, f), g)
  {
  }

  lemma OtherDoorKept(s: TunnelSpec, f: SpecField, g: DoorField)
    requires f != Door(g)
    ensures SameDoor(s, Other(s, f), g)
  {
  }

  lemma OtherOnly(s: TunnelSpec, f: SpecField)
    ensures DiffersOnly(s, Other(s, f), f)
  {
    forall g: SpecField ensures g == f || Same(s, Other(s, f), g) {
      if g != f { OtherKeeps(s, f, g); }
    }
    hide Same;
  }

  lemma OtherKeeps(s: TunnelSpec, f: SpecField, g: SpecField)
    requires g != f
    ensures Same(s, Other(s, f), g)
  {
    hide Other;
    match g
    case Ends(g) => OtherEndsKept(s, f, g);
    case Chain(g) => OtherChainKept(s, f, g);
    case Pace(g) => OtherPaceKept(s, f, g);
    case InMux(g) => OtherInMuxKept(s, f, g);
    case InKcp(g) => OtherInKcpKept(s, f, g);
    case InPck(g) => OtherInPckKept(s, f, g);
    case Watch(g) => OtherWatchKept(s, f, g);
    case Door(g) => OtherDoorKept(s, f, g);
  }

  lemma Shown(s: TunnelSpec, f: SpecField, k: Name)
    requires Read(FileTable(s), Spelling, k) != Read(FileTable(Other(s, f)), Spelling, k)
    ensures Decides(f, k)
  {
    OtherOnly(s, f);
    hide DiffersOnly, FileTable, Other;
  }

  lemma TableSays(s: TunnelSpec)
    ensures Says(FileTable(s), SpecFields(s), Spelling)
  {
    hide SpecFields, Spelling, Written, PartsOf, Says, InOrder, Typed, Sound;
    SpecFieldsProper(s);
    NamesSpell();
    FieldsSay(SpecFields(s), Spelling, KindOf, RankOf(s), 48);
  }

  lemma TransportFacts()
    ensures IsMux("wssmux") && IsWS("wssmux") && NeedsTLS("wssmux") && SupportsProxyProtocol("wssmux")
    ensures IsKCP("pck") && IsMux("pck")
    ensures !IsMux("udp") && !IsWS("udp") && !NeedsTLS("udp") && !SupportsProxyProtocol("udp") && !IsKCP("udp")
  {
  }

  lemma ServerHeadShows(f: SpecField, k: Name)
    requires (f == Ends(BindAddrField) && k == Common(BindAddrKey)) ||
             (f == Ends(TransportField) && k == Common(TransportKey)) ||
             (f == Ends(PresetField) && k == Common(PresetKey)) ||
             (f == Ends(TokenField) && k == Common(TokenKey)) ||
             (f == Pace(ChannelSizeField) && k == ServerSide(ChannelSizeKey)) ||
             (f == Pace(KeepAliveField) && k == Common(KeepalivePeriodKey)) ||
             (f == Pace(NodelayField) && k == Common(NodelayKey)) ||
             (f == Pace(HeartbeatField) && k == ServerSide(HeartbeatKey)) ||
             (f == Watch(LogLevelField) && k == Common(LogLevelKey)) ||
             (f == Watch(LogFormatField) && k == Common(LogFormatKey))
    ensures Decides(f, k)
  {
    hide Spelling, FileTable, Says, ServerFields, ClientFields, IsKCP, IsMux, IsWS, NeedsTLS, SupportsProxyProtocol;
    var s := Full("server", "wssmux");
    var t := Other(s, f);
    TransportFacts();
    TableSays(s);
    TableSays(t);
    ServerSays(FileTable(s), s);
    ServerSays(FileTable(t), t);
    ServerHeadReads(FileTable(s), s);
    ServerHeadReads(FileTable(t), t);
    Shown(s, f, k);
  }

  lemma TuningShows(f: SpecField, k: Name)
    requires (f == Pace(MSSField) && k == Tuning(MssKey)) ||
             (f == Pace(SoRcvBufField) && k == Tuning(SoRcvbufKey)) ||
             (f == Pace(SoSndBufField) && k == Tuning(SoSndbufKey))
    ensures Decides(f, k)
  {
    hide Spelling, FileTable, Says, ServerFields, ClientFields, IsKCP, IsMux, IsWS, NeedsTLS, SupportsProxyProtocol;
    var s := Full("server", "wssmux");
    var t := Other(s, f);
    TransportFacts();
    TableSays(s);
    TableSays(t);
    ServerSays(FileTable(s), s);
    ServerSays(FileTable(t), t);
    TuningReads(FileTable(s), s);
    TuningReads(FileTable(t), t);
    Shown(s, f, k);
  }

  lemma KcpShows(f: SpecField, k: Name)
    requires (f == InKcp(KcpMtuField) && k == KcpKnob(KcpMtuKey)) ||
             (f == InKcp(KcpIntervalField) && k == KcpKnob(KcpIntervalKey)) ||
             (f == InKcp(KcpResendField) && k == KcpKnob(KcpResendKey)) ||
             (f == InKcp(KcpNoDelayField) && k == KcpKnob(KcpNodelayKey)) ||
             (f == InKcp(KcpNoCongestionField) && k == KcpKnob(KcpNocongestionKey)) ||
             (f == InKcp(KcpSndWndField) && k == KcpKnob(KcpSndwndKey)) ||
             (f == InKcp(KcpRcvWndField) && k == KcpKnob(KcpRcvwndKey)) ||
             (f == InKcp(KcpAckNoDelayField) && k == KcpKnob(KcpAcknodelayKey)) ||
             (f == InKcp(KcpDataShardsField) && k == KcpKnob(KcpDatashardsKey)) ||
             (f == InKcp(KcpParityShardsField) && k == KcpKnob(KcpParityshardsKey))
    ensures Decides(f, k)
  {
    hide Spelling, FileTable, Says, ServerFields, ClientFields, IsKCP, IsMux, IsWS, NeedsTLS, SupportsProxyProtocol;
    var s := Full("server", "pck");
    var t := Other(s, f);
    TransportFacts();
    TableSays(s);
    TableSays(t);
    ServerSays(FileTable(s), s);
    ServerSays(FileTable(t), t);
    KcpReads(FileTable(s), s);
    KcpReads(FileTable(t), t);
    Shown(s, f, k);
  }

  lemma KcpGoneShows(f: SpecField, k: Name)
    requires (f == Ends(TransportField) && (
              k == KcpKnob(KcpMtuKey) || k == KcpKnob(KcpIntervalKey) ||
              k == KcpKnob(KcpResendKey) || k == KcpKnob(KcpNodelayKey) ||
              k == KcpKnob(KcpNocongestionKey) || k == KcpKnob(KcpSndwndKey) ||
              k == KcpKnob(KcpRcvwndKey) || k == KcpKnob(KcpAcknodelayKey) ||
              k == KcpKnob(KcpDatashardsKey) || k == KcpKnob(KcpParityshardsKey)))
    ensures Decides(f, k)
  {
    hide Spelling, FileTable, Says, ServerFields, ClientFields, IsKCP, IsMux, IsWS, NeedsTLS, SupportsProxyProtocol;
    var s := Full("server", "pck");
    var t := Other(s, f);
    TransportFacts();
    TableSays(s);
    TableSays(t);
    ServerSays(FileTable(s), s);
    ServerSays(FileTable(t), t);
    KcpReads(FileTable(s), s);
    KcpReads(FileTable(t), t);
    Shown(s, f, k);
  }

  lemma PckShows(f: SpecField, k: Name)
    requires (f == Ends(TransportField) && (k == Tuning(PckInterfaceKey) || k == Tuning(PckGatewayMacKey) ||
              k == Tuning(PckFlagsKey))) ||
             (f == InPck(PckInterfaceField) && k == Tuning(PckInterfaceKey)) ||
             (f == InPck(PckGatewayMACField) && k == Tuning(PckGatewayMacKey)) ||
             (f == InPck(PckFlagsField) && k == Tuning(PckFlagsKey))
    ensures Decides(f, k)
  {
    hide Spelling, FileTable, Says, ServerFields, ClientFields, IsKCP, IsMux, IsWS, NeedsTLS, SupportsProxyProtocol;
    var s := Full("server", "pck");
    var t := Other(s, f);
    TransportFacts();
    TableSays(s);
    TableSays(t);
    ServerSays(FileTable(s), s);
    ServerSays(FileTable(t), t);
    PckReads(FileTable(s), s);
    PckReads(FileTable(t), t);
    Shown(s, f, k);
  }

  lemma TlsShows(f: SpecField, k: Name)
    requires (f == Ends(TransportField) && (k == ServerSide(TlsCertKey) || k == ServerSide(TlsKeyKey) ||
              k == ServerSide(AcmeDomainKey) || k == ServerSide(AcmeEmailKey) || k == ServerSide(SimpleAuthKey))) ||
             (f == Pace(AcceptUDPField) && k == Common(AcceptUdpKey)) ||
             (f == Door(TLSCertField) && k == ServerSide(TlsCertKey)) ||
             (f == Door(TLSKeyField) && k == ServerSide(TlsKeyKey)) ||
             (f == Door(ACMEDomainField) && (k == ServerSide(AcmeDomainKey) || k == ServerSide(AcmeEmailKey))) ||
             (f == Door(ACMEEmailField) && k == ServerSide(AcmeEmailKey)) ||
             (f == Door(SimpleAuthField) && k == ServerSide(SimpleAuthKey))
    ensures Decides(f, k)
  {
    hide Spelling, FileTable, Says, ServerFields, ClientFields, IsKCP, IsMux, IsWS, NeedsTLS, SupportsProxyProtocol;
    var s := Full("server", "wssmux");
    var t := Other(s, f);
    TransportFacts();
    TableSays(s);
    TableSays(t);
    ServerSays(FileTable(s), s);
    ServerSays(FileTable(t), t);
    TlsReads(FileTable(s), s);
    TlsReads(FileTable(t), t);
    Shown(s, f, k);
  }

  lemma MuxShows(f: SpecField, k: Name)
    requires (f == Ends(TransportField) && (k == Tuning(MuxConKey) || k == Tuning(MuxVersionKey) ||
              k == Tuning(MuxFramesizeKey) || k == Tuning(MuxRecievebufferKey) || k == Tuning(MuxStreambufferKey))) ||
             (f == InMux(MuxConField) && k == Tuning(MuxConKey)) ||
             (f == InMux(MuxVersionField) && k == Tuning(MuxVersionKey)) ||
             (f == InMux(MuxFrameSizeField) && k == Tuning(MuxFramesizeKey)) ||
             (f == InMux(MuxRecvBufferField) && k == Tuning(MuxRecievebufferKey)) ||
             (f == InMux(MuxStreamBufferField) && k == Tuning(MuxStreambufferKey))
    ensures Decides(f, k)
  {
    hide Spelling, FileTable, Says, ServerFields, ClientFields, IsKCP, IsMux, IsWS, NeedsTLS, SupportsProxyProtocol;
    var s := Full("server", "wssmux");
    var t := Other(s, f);
    TransportFacts();
    TableSays(s);
    TableSays(t);
    ServerSays(FileTable(s), s);
    ServerSays(FileTable(t), t);
    MuxReads(FileTable(s), s, Tuning(MuxConKey));
    MuxReads(FileTable(t), t, Tuning(MuxConKey));
    Shown(s, f, k);
  }

  lemma LimitShows(f: SpecField, k: Name)
    requires (f == Ends(TransportField) && k == ServerSide(ProxyProtocolKey)) ||
             (f == Watch(ProxyProtocolField) && k == ServerSide(ProxyProtocolKey)) ||
             (f == Door(ZeroCopyField) && k == ServerSide(ZeroCopyKey)) ||
             (f == Watch(MaxConnectionsField) && k == ServerSide(MaxConnectionsKey)) ||
             (f == Watch(BandwidthMbpsField) && k == ServerSide(BandwidthMbpsKey))
    ensures Decides(f, k)
  {
    hide Spelling, FileTable, Says, ServerFields, ClientFields, IsKCP, IsMux, IsWS, NeedsTLS, SupportsProxyProtocol;
    var s := Full("server", "wssmux");
    var t := Other(s, f);
    TransportFacts();
    TableSays(s);
    TableSays(t);
    ServerSays(FileTable(s), s);
    ServerSays(FileTable(t), t);
    LimitReads(FileTable(s), s);
    LimitReads(FileTable(t), t);
    Shown(s, f, k);
  }

  lemma WebShows(f: SpecField, k: Name)
    requires (f == Watch(SnifferField) && k == Common(SnifferKey)) ||
             (f == Watch(WebPortField) && (k == Common(WebPortKey) || k == Common(WebBindKey))) ||
             (f == Watch(WebBindField) && k == Common(WebBindKey))
    ensures Decides(f, k)
  {
    hide Spelling, FileTable, Says, ServerFields, ClientFields, IsKCP, IsMux, IsWS, NeedsTLS, SupportsProxyProtocol;
    var s := Full("server", "wssmux");
    var t := Other(s, f);
    TransportFacts();
    TableSays(s);
    TableSays(t);
    ServerSays(FileTable(s), s);
    ServerSays(FileTable(t), t);
    WebReads(FileTable(s), s);
    WebReads(FileTable(t), t);
    Shown(s, f, k);
  }

  lemma PortsShows(f: SpecField, k: Name)
    requires (f == Ends(PortsField) && k == ServerSide(PortsKey))
    ensures Decides(f, k)
  {
    hide Spelling, FileTable, Says, ServerFields, ClientFields, IsKCP, IsMux, IsWS, NeedsTLS, SupportsProxyProtocol;
    var s := Full("server", "wssmux");
    var t := Other(s, f);
    TransportFacts();
    TableSays(s);
    TableSays(t);
    ServerSays(FileTable(s), s);
    ServerSays(FileTable(t), t);
    PortsRead(FileTable(s), s);
    PortsRead(FileTable(t), t);
    Shown(s, f, k);
  }

  lemma FallbackShows(f: SpecField, k: Name)
    requires (f == Chain(FallbackTransportsField) && (k == ServerSide(FallbackTransportsKey) ||
              k == ServerSide(FallbackDwellKey))) ||
             (f == Chain(FallbackDwellField) && k == ServerSide(FallbackDwellKey))
    ensures Decides(f, k)
  {
    hide Spelling, FileTable, Says, ServerFields, ClientFields, IsKCP, IsMux, IsWS, NeedsTLS, SupportsProxyProtocol;
    var s := Full("server", "wssmux");
    var t := Other(s, f);
    TransportFacts();
    TableSays(s);
    TableSays(t);
    ServerSays(FileTable(s), s);
    ServerSays(FileTable(t), t);
    FallbackReads(FileTable(s), s);
    FallbackReads(FileTable(t), t);
    Shown(s, f, k);
  }

  lemma ClientAddrShows(f: SpecField, k: Name)
    requires (f == Ends(RemoteAddrField) && k == Common(RemoteAddrKey)) ||
             (f == Chain(FallbackAddrsField) && k == ClientSide(FallbackAddrsKey))
    ensures Decides(f, k)
  {
    hide Spelling, FileTable, Says, ServerFields, ClientFields, IsKCP, IsMux, IsWS, NeedsTLS, SupportsProxyProtocol;
    var s := Full("client", "wssmux");
    var t := Other(s, f);
    TransportFacts();
    TableSays(s);
    TableSays(t);
    ClientSays(FileTable(s), s);
    ClientSays(FileTable(t), t);
    ClientAddrReads(FileTable(s), s);
    ClientAddrReads(FileTable(t), t);
    Shown(s, f, k);
  }

  lemma ClientHeadShows(f: SpecField, k: Name)
    requires (f == Pace(ConnectionPoolField) && k == ClientSide(ConnectionPoolKey)) ||
             (f == Pace(AggressivePoolField) && k == ClientSide(AggressivePoolKey))
    ensures Decides(f, k)
  {
    hide Spelling, FileTable, Says, ServerFields, ClientFields, IsKCP, IsMux, IsWS, NeedsTLS, SupportsProxyProtocol;
    var s := Full("client", "wssmux");
    var t := Other(s, f);
    TransportFacts();
    TableSays(s);
    TableSays(t);
    ClientSays(FileTable(s), s);
    ClientSays(FileTable(t), t);
    ClientHeadReads(FileTable(s), s);
    ClientHeadReads(FileTable(t), t);
    Shown(s, f, k);
  }

  lemma ClientDialShows(f: SpecField, k: Name)
    requires (f == Chain(LoadBalanceField) && k == ClientSide(LoadBalanceKey)) ||
             (f == Chain(HealthFailoverField) && k == ClientSide(HealthFailoverKey))
    ensures Decides(f, k)
  {
    hide Spelling, FileTable, Says, ServerFields, ClientFields, IsKCP, IsMux, IsWS, NeedsTLS, SupportsProxyProtocol;
    var s := Full("client", "wssmux");
    var t := Other(s, f);
    TransportFacts();
    TableSays(s);
    TableSays(t);
    ClientSays(FileTable(s), s);
    ClientSays(FileTable(t), t);
    ClientDialReads(FileTable(s), s);
    ClientDialReads(FileTable(t), t);
    Shown(s, f, k);
  }

  lemma ClientTailShows(f: SpecField, k: Name)
    requires (f == Ends(TransportField) && k == ClientSide(EdgeIpKey)) ||
             (f == Door(EdgeIPField) && k == ClientSide(EdgeIpKey)) ||
             (f == Door(ProxyField) && k == ClientSide(ProxyKey)) ||
             (f == Door(LocalAddrField) && k == ClientSide(LocalAddrKey)) ||
             (f == Door(InterfaceField) && k == ClientSide(InterfaceKey)) ||
             (f == Door(SOMarkField) && k == ClientSide(SoMarkKey))
    ensures Decides(f, k)
  {
    hide Spelling, FileTable, Says, ServerFields, ClientFields, IsKCP, IsMux, IsWS, NeedsTLS, SupportsProxyProtocol;
    var s := Full("client", "wssmux");
    var t := Other(s, f);
    TransportFacts();
    TableSays(s);
    TableSays(t);
    ClientSays(FileTable(s), s);
    ClientSays(FileTable(t), t);
    ClientTailReads(FileTable(s), s);
    ClientTailReads(FileTable(t), t);
    Shown(s, f, k);
  }

  lemma SessionShows(f: SpecField, k: Name)
    requires (f == Ends(TransportField) && k == Tuning(MuxSessionKey)) ||
             (f == InMux(MuxConField) && k == Tuning(MuxSessionKey))
    ensures Decides(f, k)
  {
    hide Spelling, FileTable, Says, ServerFields, ClientFields, IsKCP, IsMux, IsWS, NeedsTLS, SupportsProxyProtocol;
    var s := Full("client", "wssmux");
    var t := Other(s, f);
    TransportFacts();
    TableSays(s);
    TableSays(t);
    ClientSays(FileTable(s), s);
    ClientSays(FileTable(t), t);
    MuxReads(FileTable(s), s, Tuning(MuxSessionKey));
    MuxReads(FileTable(t), t, Tuning(MuxSessionKey));
    Shown(s, f, k);
  }

  lemma GovernedIsDecided(f: SpecField, k: Name)
    requires Governs(f, k)
    ensures Decides(f, k)
  {
    hide Decides;
    match f
    case Ends(g) => EndsDecide(g, k);
    case Chain(g) => ChainDecide(g, k);
    case Pace(g) => PaceDecide(g, k);
    case InMux(g) => InMuxDecide(g, k);
    case InKcp(g) => InKcpDecide(g, k);
    case InPck(g) => InPckDecide(g, k);
    case Watch(g) => WatchDecide(g, k);
    case Door(g) => DoorDecide(g, k);
  }

  lemma EndsDecide(f: EndsField, k: Name)
    requires EndsGoverns(f, k)
    ensures Decides(Ends(f), k)
  {
    hide Decides;
    match f
    case NameField =>
    case TransportField => TransportDecides(k);
    case PresetField => ServerHeadShows(Ends(PresetField), k);
    case BindAddrField => ServerHeadShows(Ends(BindAddrField), k);
    case RemoteAddrField => ClientAddrShows(Ends(RemoteAddrField), k);
    case TokenField => ServerHeadShows(Ends(TokenField), k);
    case PortsField => PortsShows(Ends(PortsField), k);
  }

  lemma ChainDecide(f: ChainField, k: Name)
    requires ChainGoverns(f, k)
    ensures Decides(Chain(f), k)
  {
    hide Decides;
    match f
    case LoadBalanceField => ClientDialShows(Chain(LoadBalanceField), k);
    case HealthFailoverField => ClientDialShows(Chain(HealthFailoverField), k);
    case FallbackAddrsField => ClientAddrShows(Chain(FallbackAddrsField), k);
    case FallbackTransportsField => FallbackShows(Chain(FallbackTransportsField), k);
    case FallbackDwellField => FallbackShows(Chain(FallbackDwellField), k);
  }

  lemma PaceDecide(f: PaceField, k: Name)
    requires PaceGoverns(f, k)
    ensures Decides(Pace(f), k)
  {
    hide Decides;
    match f
    case NodelayField => ServerHeadShows(Pace(NodelayField), k);
    case HeartbeatField => ServerHeadShows(Pace(HeartbeatField), k);
    case KeepAliveField => ServerHeadShows(Pace(KeepAliveField), k);
    case ChannelSizeField => ServerHeadShows(Pace(ChannelSizeField), k);
    case ConnectionPoolField => ClientHeadShows(Pace(ConnectionPoolField), k);
    case AggressivePoolField => ClientHeadShows(Pace(AggressivePoolField), k);
    case AcceptUDPField => TlsShows(Pace(AcceptUDPField), k);
    case MSSField => TuningShows(Pace(MSSField), k);
    case SoRcvBufField => TuningShows(Pace(SoRcvBufField), k);
    case SoSndBufField => TuningShows(Pace(SoSndBufField), k);
  }

  lemma InMuxDecide(f: InMuxField, k: Name)
    requires InMuxGoverns(f, k)
    ensures Decides(InMux(f), k)
  {
    hide Decides;
    match f
    case MuxConField =>
      if k == Tuning(MuxConKey) { MuxShows(InMux(MuxConField), k); } else { SessionShows(InMux(MuxConField), k); }
    case MuxVersionField => MuxShows(InMux(MuxVersionField), k);
    case MuxFrameSizeField => MuxShows(InMux(MuxFrameSizeField), k);
    case MuxRecvBufferField => MuxShows(InMux(MuxRecvBufferField), k);
    case MuxStreamBufferField => MuxShows(InMux(MuxStreamBufferField), k);
  }

  lemma InKcpDecide(f: InKcpField, k: Name)
    requires InKcpGoverns(f, k)
    ensures Decides(InKcp(f), k)
  {
    hide Decides;
    match f
    case KcpMtuField => KcpShows(InKcp(KcpMtuField), k);
    case KcpIntervalField => KcpShows(InKcp(KcpIntervalField), k);
    case KcpResendField => KcpShows(InKcp(KcpResendField), k);
    case KcpNoDelayField => KcpShows(InKcp(KcpNoDelayField), k);
    case KcpNoCongestionField => KcpShows(InKcp(KcpNoCongestionField), k);
    case KcpSndWndField => KcpShows(InKcp(KcpSndWndField), k);
    case KcpRcvWndField => KcpShows(InKcp(KcpRcvWndField), k);
    case KcpAckNoDelayField => KcpShows(InKcp(KcpAckNoDelayField), k);
    case KcpDataShardsField => KcpShows(InKcp(KcpDataShardsField), k);
    case KcpParityShardsField => KcpShows(InKcp(KcpParityShardsField), k);
  }

  lemma InPckDecide(f: InPckField, k: Name)
    requires InPckGoverns(f, k)
    ensures Decides(InPck(f), k)
  {
    hide Decides;
    match f
    case PckInterfaceField => PckShows(InPck(PckInterfaceField), k);
    case PckGatewayMACField => PckShows(InPck(PckGatewayMACField), k);
    case PckFlagsField => PckShows(InPck(PckFlagsField), k);
  }

  lemma WatchDecide(f: WatchField, k: Name)
    requires WatchGoverns(f, k)
    ensures Decides(Watch(f), k)
  {
    hide Decides;
    match f
    case LogLevelField => ServerHeadShows(Watch(LogLevelField), k);
    case LogFormatField => ServerHeadShows(Watch(LogFormatField), k);
    case ProxyProtocolField => LimitShows(Watch(ProxyProtocolField), k);
    case MaxConnectionsField => LimitShows(Watch(MaxConnectionsField), k);
    case BandwidthMbpsField => LimitShows(Watch(BandwidthMbpsField), k);
    case SnifferField => WebShows(Watch(SnifferField), k);
    case WebPortField => WebShows(Watch(WebPortField), k);
    case WebBindField => WebShows(Watch(WebBindField), k);
  }

  lemma DoorDecide(f: DoorField, k: Name)
    requires DoorGoverns(f, k)
    ensures Decides(Door(f), k)
  {
    hide Decides;
    match f
    case TLSCertField => TlsShows(Door(TLSCertField), k);
    case TLSKeyField => TlsShows(Door(TLSKeyField), k);
    case ACMEDomainField => TlsShows(Door(ACMEDomainField), k);
    case ACMEEmailField => TlsShows(Door(ACMEEmailField), k);
    case EdgeIPField => ClientTailShows(Door(EdgeIPField), k);
    case SimpleAuthField => TlsShows(Door(SimpleAuthField), k);
    case ProxyField => ClientTailShows(Door(ProxyField), k);
    case LocalAddrField => ClientTailShows(Door(LocalAddrField), k);
    case InterfaceField => ClientTailShows(Door(InterfaceField), k);
    case SOMarkField => ClientTailShows(Door(SOMarkField), k);
    case ZeroCopyField => LimitShows(Door(ZeroCopyField), k);
  }

  lemma EveryKnob(c: KcpKey)
    ensures c.KcpMtuKey? || c.KcpIntervalKey? || c.KcpResendKey? || c.KcpNodelayKey? || c.KcpNocongestionKey? ||
            c.KcpSndwndKey? || c.KcpRcvwndKey? || c.KcpAcknodelayKey? || c.KcpDatashardsKey? || c.KcpParityshardsKey?
  {
  }

  lemma TransportDecides(k: Name)
    requires TransportGoverns(k)
    ensures Decides(Ends(TransportField), k)
  {
    hide Decides;
    match k
    case Common(_) => ServerHeadShows(Ends(TransportField), k);
    case KcpKnob(c) =>
      EveryKnob(c);
      KcpGoneShows(Ends(TransportField), k);
    case ServerSide(ProxyProtocolKey) => LimitShows(Ends(TransportField), k);
    case ServerSide(_) => TlsShows(Ends(TransportField), k);
    case ClientSide(_) => ClientTailShows(Ends(TransportField), k);
    case Tuning(MuxSessionKey) => SessionShows(Ends(TransportField), k);
    case Tuning(PckInterfaceKey) | Tuning(PckGatewayMacKey) | Tuning(PckFlagsKey) =>
      PckShows(Ends(TransportField), k);
    case Tuning(_) => MuxShows(Ends(TransportField), k);
  }

  /** A field governs a key exactly when changing it alone can change what the file
      reads as there. */
  lemma GovernsExactly(f: SpecField, k: Name)
    ensures Governs(f, k) <==> Decides(f, k)
  {
    hide Governs, Same, FileTable, Spelling;
    if Governs(f, k) {
      GovernedIsDecided(f, k);
    } else {
      forall s: TunnelSpec, t: TunnelSpec | DiffersOnly(s, t, f)
        ensures Read(FileTable(s), Spelling, k) == Read(FileTable(t), Spelling, k)
      {
        AFieldGovernsOnlyItsKeys(s, t, f);
      }
    }
  }
}
