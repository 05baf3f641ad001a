/** Loading a reverse tunnel's file, and what is left of a spec that was printed
    and loaded again. */
module ReverseLoad {
  import opened Wrappers
  import opened Toml
  import opened TomlDocument
  import opened ConfigKeys
  import opened ReverseConfig

  // The loader.

  function MuxAt(m: Settings, sessions: Name): Mux {
    Mux(Number(m, Spelling, sessions), Number(m, Spelling, Tuning(MuxVersionKey)),
        Number(m, Spelling, Tuning(MuxFramesizeKey)),
        Number(m, Spelling, Tuning(MuxRecievebufferKey)), Number(m, Spelling, Tuning(MuxStreambufferKey)))
  }

  function KcpAt(m: Settings): Kcp {
    Kcp(Number(m, Spelling, KcpKnob(KcpMtuKey)), Number(m, Spelling, KcpKnob(KcpIntervalKey)),
        Number(m, Spelling, KcpKnob(KcpResendKey)),
        Number(m, Spelling, KcpKnob(KcpNodelayKey)), Number(m, Spelling, KcpKnob(KcpNocongestionKey)),
        Number(m, Spelling, KcpKnob(KcpSndwndKey)), Number(m, Spelling, KcpKnob(KcpRcvwndKey)),
        Flag(m, Spelling, KcpKnob(KcpAcknodelayKey)), Number(m, Spelling, KcpKnob(KcpDatashardsKey)),
        Number(m, Spelling, KcpKnob(KcpParityshardsKey)))
  }

  function PckAt(m: Settings): Pck {
    Pck(Text(m, Spelling, Tuning(PckInterfaceKey)), Text(m, Spelling, Tuning(PckGatewayMacKey)),
        Items(m, Spelling, Tuning(PckFlagsKey)))
  }

  function ServerSpecOf(name: string, m: Settings): TunnelSpec {
    TunnelSpec(
      name := name, role := "server", transport := Text(m, Spelling, Common(TransportKey)),
      preset := Text(m, Spelling, Common(PresetKey)),
      bindAddr := Text(m, Spelling, Common(BindAddrKey)), remoteAddr := "",
      token := Text(m, Spelling, Common(TokenKey)),
      ports := Items(m, Spelling, ServerSide(PortsKey)),
      loadBalance := false, healthFailover := false, fallbackAddrs := [],
      fallbackTransports := Items(m, Spelling, ServerSide(FallbackTransportsKey)),
      fallbackDwell := Number(m, Spelling, ServerSide(FallbackDwellKey)),
      nodelay := Flag(m, Spelling, Common(NodelayKey)), heartbeat := Number(m, Spelling, ServerSide(HeartbeatKey)),
      keepAlive := Number(m, Spelling, Common(KeepalivePeriodKey)),
      channelSize := Number(m, Spelling, ServerSide(ChannelSizeKey)),
      connectionPool := 0, aggressivePool := false, acceptUDP := Flag(m, Spelling, Common(AcceptUdpKey)),
      logLevel := Text(m, Spelling, Common(LogLevelKey)), logFormat := Text(m, Spelling, Common(LogFormatKey)),
      mux := MuxAt(m, Tuning(MuxConKey)), kcp := KcpAt(m), pck := PckAt(m),
      mss := Number(m, Spelling, Tuning(MssKey)), soRcvBuf := Number(m, Spelling, Tuning(SoRcvbufKey)),
      soSndBuf := Number(m, Spelling, Tuning(SoSndbufKey)),
      proxyProtocol := Flag(m, Spelling, ServerSide(ProxyProtocolKey)),
      maxConnections := Number(m, Spelling, ServerSide(MaxConnectionsKey)),
      bandwidthMbps := Number(m, Spelling, ServerSide(BandwidthMbpsKey)),
      sniffer := Flag(m, Spelling, Common(SnifferKey)), webPort := Number(m, Spelling, Common(WebPortKey)),
      webBind := Text(m, Spelling, Common(WebBindKey)),
      tlsCert := Text(m, Spelling, ServerSide(TlsCertKey)), tlsKey := Text(m, Spelling, ServerSide(TlsKeyKey)),
      acmeDomain := Text(m, Spelling, ServerSide(AcmeDomainKey)),
      acmeEmail := Text(m, Spelling, ServerSide(AcmeEmailKey)),
      edgeIP := "", simpleAuth := Flag(m, Spelling, ServerSide(SimpleAuthKey)), proxy := "", localAddr := "",
      iface := "",
      soMark := 0, zeroCopy := Flag(m, Spelling, ServerSide(ZeroCopyKey)))
  }

  function ClientSpecOf(name: string, m: Settings): TunnelSpec {
    TunnelSpec(
      name := name, role := "client", transport := Text(m, Spelling, Common(TransportKey)),
      preset := Text(m, Spelling, Common(PresetKey)),
      bindAddr := "", remoteAddr := Text(m, Spelling, Common(RemoteAddrKey)),
      token := Text(m, Spelling, Common(TokenKey)),
      ports := [],
      loadBalance := Flag(m, Spelling, ClientSide(LoadBalanceKey)),
      healthFailover := Flag(m, Spelling, ClientSide(HealthFailoverKey)),
      fallbackAddrs := Items(m, Spelling, ClientSide(FallbackAddrsKey)),
      fallbackTransports := Items(m, Spelling, ServerSide(FallbackTransportsKey)),
      fallbackDwell := Number(m, Spelling, ServerSide(FallbackDwellKey)),
      nodelay := Flag(m, Spelling, Common(NodelayKey)), heartbeat := 0,
      keepAlive := Number(m, Spelling, Common(KeepalivePeriodKey)), channelSize := 0,
      connectionPool := Number(m, Spelling, ClientSide(ConnectionPoolKey)),
      aggressivePool := Flag(m, Spelling, ClientSide(AggressivePoolKey)), acceptUDP := false,
      logLevel := Text(m, Spelling, Common(LogLevelKey)), logFormat := Text(m, Spelling, Common(LogFormatKey)),
      mux := MuxAt(m, Tuning(MuxSessionKey)), kcp := KcpAt(m), pck := PckAt(m),
      mss := Number(m, Spelling, Tuning(MssKey)), soRcvBuf := Number(m, Spelling, Tuning(SoRcvbufKey)),
      soSndBuf := Number(m, Spelling, Tuning(SoSndbufKey)),
      proxyProtocol := false, maxConnections := 0, bandwidthMbps := 0,
      sniffer := Flag(m, Spelling, Common(SnifferKey)), webPort := Number(m, Spelling, Common(WebPortKey)),
      webBind := Text(m, Spelling, Common(WebBindKey)),
      tlsCert := "", tlsKey := "", acmeDomain := "", acmeEmail := "",
      edgeIP := Text(m, Spelling, ClientSide(EdgeIpKey)), simpleAuth := Flag(m, Spelling, ServerSide(SimpleAuthKey)),
      proxy := Text(m, Spelling, ClientSide(ProxyKey)), localAddr := Text(m, Spelling, ClientSide(LocalAddrKey)),
      iface := Text(m, Spelling, ClientSide(InterfaceKey)), soMark := Number(m, Spelling, ClientSide(SoMarkKey)),
      zeroCopy := Flag(m, Spelling, ServerSide(ZeroCopyKey)))
  }

  datatype LoadError = BadName | NoSuchTunnel | Unparsable | NotATunnel

  predicate ValidName(name: string) {
    1 <= |name| <= 40 && forall c <- name :: IsKeyChar(c) || c == '.'
  }

  function Section(file: map<string, Settings>, table: string): Settings {
    if table in file then file[table] else map[]
  }

  /** toml.DecodeFile into the whole configuration. */
  ghost function Decoded(toml: Edition, text: string): Option<map<string, Settings>> {
    match ReadFile(toml, text)
    case None => None
    case Some(file) =>
      if Decodes(Section(file, "server"), Spelling, KindOf, ServerRank) &&
         Decodes(Section(file, "client"), Spelling, KindOf, ClientRank) then Some(file) else None
  }

  function ServerFrom(name: string, file: map<string, Settings>): Result<TunnelSpec, LoadError> {
    var s := ServerSpecOf(name, Section(file, "server"));
    if s.bindAddr == "" then Err(NotATunnel) else Ok(s)
  }

  function ClientFrom(name: string, file: map<string, Settings>): Result<TunnelSpec, LoadError> {
    var s := ClientSpecOf(name, Section(file, "client"));
    if s.remoteAddr == "" then Err(NotATunnel) else Ok(s)
  }

  ghost function LoadServerSpec(toml: Edition, name: string, text: string): Result<TunnelSpec, LoadError> {
    match Decoded(toml, text) case None => Err(Unparsable) case Some(file) => ServerFrom(name, file)
  }

  ghost function LoadClientSpec(toml: Edition, name: string, text: string): Result<TunnelSpec, LoadError> {
    match Decoded(toml, text) case None => Err(Unparsable) case Some(file) => ClientFrom(name, file)
  }

  ghost function LoadSpec(toml: Edition, name: string, file: Option<string>): Result<TunnelSpec, LoadError> {
    if !ValidName(name) then Err(BadName)
    else if file.None? then Err(NoSuchTunnel)
    else
      var r := LoadServerSpec(toml, name, file.value);
      if r.Ok? then r else LoadClientSpec(toml, name, file.value)
  }

  // What survives.

  /** The part of a spec its file holds whichever end it is. */
  function NormShared(s: TunnelSpec): TunnelSpec {
    s.(role := TableName(s),
       mux := if IsMux(s.transport) then s.mux else NO_MUX,
       kcp := if IsKCP(s.transport) then s.kcp else NO_KCP,
       pck := if s.transport == "pck" then s.pck else NO_PCK,
       mss := Positive(s.mss), soRcvBuf := Positive(s.soRcvBuf), soSndBuf := Positive(s.soSndBuf),
       fallbackDwell := if Listed(s.fallbackTransports) then Positive(s.fallbackDwell) else 0,
       simpleAuth := RawToken(s),
       webPort := Positive(s.webPort), webBind := if s.webPort > 0 then MonitorBind(s.webBind) else "")
  }

  function NormServer(s: TunnelSpec): TunnelSpec {
    var tls := NeedsTLS(s.transport);
    NormShared(s).(
      remoteAddr := "", loadBalance := false, healthFailover := false, fallbackAddrs := [],
      connectionPool := 0, aggressivePool := false,
      edgeIP := "", proxy := "", localAddr := "", iface := "", soMark := 0,
      proxyProtocol := SupportsProxyProtocol(s.transport) && s.proxyProtocol,
      maxConnections := Positive(s.maxConnections), bandwidthMbps := Positive(s.bandwidthMbps),
      tlsCert := if tls then s.tlsCert else "", tlsKey := if tls then s.tlsKey else "",
      acmeDomain := if tls then s.acmeDomain else "",
      acmeEmail := if tls && Given(s.acmeDomain) then s.acmeEmail else "")
  }

  function NormClient(s: TunnelSpec): TunnelSpec {
    NormShared(s).(
      bindAddr := "", ports := [], heartbeat := 0, channelSize := 0, acceptUDP := false,
      proxyProtocol := false, maxConnections := 0, bandwidthMbps := 0,
      tlsCert := "", tlsKey := "", acmeDomain := "", acmeEmail := "",
      edgeIP := if IsWS(s.transport) then s.edgeIP else "")
  }

  /** A spec with everything its role and transport leave out of the file dropped,
      counts that are not positive taken as unset, and the monitor's address
      filled in. */
  function Norm(s: TunnelSpec): TunnelSpec { if IsServer(s) then NormServer(s) else NormClient(s) }

  // Group by group: what the loader reads where the printer wrote.

  lemma TuningReads(m: Settings, s: TunnelSpec)
    requires Says(m, TuningFields(s), Spelling)
    ensures Number(m, Spelling, Tuning(MssKey)) == Positive(s.mss)
    ensures Number(m, Spelling, Tuning(SoRcvbufKey)) == Positive(s.soRcvBuf)
    ensures Number(m, Spelling, Tuning(SoSndbufKey)) == Positive(s.soSndBuf)
  {
    hide Spelling, IsKCP, IsMux, IsWS, NeedsTLS, SupportsProxyProtocol;
    SaysOf(m, TuningFields(s), Spelling, 0);
    SaysOf(m, TuningFields(s), Spelling, 1);
    SaysOf(m, TuningFields(s), Spelling, 2);
  }

  lemma KcpReads(m: Settings, s: TunnelSpec)
    requires Says(m, KcpFields(s), Spelling)
    ensures KcpAt(m) == if IsKCP(s.transport) then s.kcp else NO_KCP
  {
    hide Spelling, IsKCP, IsMux, IsWS, NeedsTLS, SupportsProxyProtocol;
    SaysOf(m, KcpFields(s), Spelling, 0);
    SaysOf(m, KcpFields(s), Spelling, 1);
    SaysOf(m, KcpFields(s), Spelling, 2);
    SaysOf(m, KcpFields(s), Spelling, 3);
    SaysOf(m, KcpFields(s), Spelling, 4);
    SaysOf(m, KcpFields(s), Spelling, 5);
    SaysOf(m, KcpFields(s), Spelling, 6);
    SaysOf(m, KcpFields(s), Spelling, 7);
    SaysOf(m, KcpFields(s), Spelling, 8);
    SaysOf(m, KcpFields(s), Spelling, 9);
  }

  lemma PckReads(m: Settings, s: TunnelSpec)
    requires Says(m, PckFields(s), Spelling)
    ensures PckAt(m) == if s.transport == "pck" then s.pck else NO_PCK
  {
    hide Spelling, IsKCP, IsMux, IsWS, NeedsTLS, SupportsProxyProtocol;
    SaysOf(m, PckFields(s), Spelling, 0);
    SaysOf(m, PckFields(s), Spelling, 1);
    SaysOf(m, PckFields(s), Spelling, 2);
  }

  lemma MuxReads(m: Settings, s: TunnelSpec, sessions: Name)
    requires Says(m, MuxFields(s, sessions), Spelling)
    ensures MuxAt(m, sessions) == if IsMux(s.transport) then s.mux else NO_MUX
  {
    hide Spelling, IsKCP, IsMux, IsWS, NeedsTLS, SupportsProxyProtocol;
    SaysOf(m, MuxFields(s, sessions), Spelling, 0);
    SaysOf(m, MuxFields(s, sessions), Spelling, 1);
    SaysOf(m, MuxFields(s, sessions), Spelling, 2);
    SaysOf(m, MuxFields(s, sessions), Spelling, 3);
    SaysOf(m, MuxFields(s, sessions), Spelling, 4);
  }

  lemma WebReads(m: Settings, s: TunnelSpec)
    requires Says(m, WebFields(s), Spelling)
    ensures Flag(m, Spelling, Common(SnifferKey)) == s.sniffer
    ensures Number(m, Spelling, Common(WebPortKey)) == Positive(s.webPort)
    ensures Text(m, Spelling, Common(WebBindKey)) == if s.webPort > 0 then MonitorBind(s.webBind) else ""
  {
    hide Spelling, IsKCP, IsMux, IsWS, NeedsTLS, SupportsProxyProtocol;
    SaysOf(m, WebFields(s), Spelling, 0);
    SaysOf(m, WebFields(s), Spelling, 1);
    SaysOf(m, WebFields(s), Spelling, 2);
  }

  lemma FallbackReads(m: Settings, s: TunnelSpec)
    requires Says(m, FallbackFields(s), Spelling)
    ensures Items(m, Spelling, ServerSide(FallbackTransportsKey)) == s.fallbackTransports
    ensures Number(m, Spelling, ServerSide(FallbackDwellKey)) ==
            if Listed(s.fallbackTransports) then Positive(s.fallbackDwell) else 0
  {
    hide Spelling, IsKCP, IsMux, IsWS, NeedsTLS, SupportsProxyProtocol;
    SaysOf(m, FallbackFields(s), Spelling, 0);
    SaysOf(m, FallbackFields(s), Spelling, 1);
  }

  lemma ServerHeadReads(m: Settings, s: TunnelSpec)
    requires Says(m, ServerHeadFields(s), Spelling)
    ensures Text(m, Spelling, Common(BindAddrKey)) == s.bindAddr
    ensures Text(m, Spelling, Common(TransportKey)) == s.transport
    ensures Text(m, Spelling, Common(PresetKey)) == s.preset
    ensures Text(m, Spelling, Common(TokenKey)) == s.token
    ensures Number(m, Spelling, ServerSide(ChannelSizeKey)) == s.channelSize
    ensures Number(m, Spelling, Common(KeepalivePeriodKey)) == s.keepAlive
    ensures Flag(m, Spelling, Common(NodelayKey)) == s.nodelay
    ensures Number(m, Spelling, ServerSide(HeartbeatKey)) == s.heartbeat
    ensures Text(m, Spelling, Common(LogLevelKey)) == s.logLevel
    ensures Text(m, Spelling, Common(LogFormatKey)) == s.logFormat
  {
    hide Spelling, IsKCP, IsMux, IsWS, NeedsTLS, SupportsProxyProtocol;
    SaysOf(m, ServerHeadFields(s), Spelling, 0);
    SaysOf(m, ServerHeadFields(s), Spelling, 1);
    SaysOf(m, ServerHeadFields(s), Spelling, 2);
    SaysOf(m, ServerHeadFields(s), Spelling, 3);
    SaysOf(m, ServerHeadFields(s), Spelling, 4);
    SaysOf(m, ServerHeadFields(s), Spelling, 5);
    SaysOf(m, ServerHeadFields(s), Spelling, 6);
    SaysOf(m, ServerHeadFields(s), Spelling, 7);
    SaysOf(m, ServerHeadFields(s), Spelling, 8);
    SaysOf(m, ServerHeadFields(s), Spelling, 9);
  }

  lemma TlsReads(m: Settings, s: TunnelSpec)
    requires Says(m, TlsFields(s), Spelling)
    ensures Flag(m, Spelling, Common(AcceptUdpKey)) == s.acceptUDP
    ensures Text(m, Spelling, ServerSide(TlsCertKey)) == NormServer(s).tlsCert
    ensures Text(m, Spelling, ServerSide(TlsKeyKey)) == NormServer(s).tlsKey
    ensures Text(m, Spelling, ServerSide(AcmeDomainKey)) == NormServer(s).acmeDomain
    ensures Text(m, Spelling, ServerSide(AcmeEmailKey)) == NormServer(s).acmeEmail
    ensures Flag(m, Spelling, ServerSide(SimpleAuthKey)) == RawToken(s)
  {
    hide Spelling, IsKCP, IsMux, IsWS, NeedsTLS, SupportsProxyProtocol;
    SaysOf(m, TlsFields(s), Spelling, 0);
    SaysOf(m, TlsFields(s), Spelling, 1);
    SaysOf(m, TlsFields(s), Spelling, 2);
    SaysOf(m, TlsFields(s), Spelling, 3);
    SaysOf(m, TlsFields(s), Spelling, 4);
    SaysOf(m, TlsFields(s), Spelling, 5);
  }

  lemma LimitReads(m: Settings, s: TunnelSpec)
    requires Says(m, LimitFields(s), Spelling)
    ensures Flag(m, Spelling, ServerSide(ProxyProtocolKey)) == NormServer(s).proxyProtocol
    ensures Flag(m, Spelling, ServerSide(ZeroCopyKey)) == s.zeroCopy
    ensures Number(m, Spelling, ServerSide(MaxConnectionsKey)) == Positive(s.maxConnections)
    ensures Number(m, Spelling, ServerSide(BandwidthMbpsKey)) == Positive(s.bandwidthMbps)
  {
    hide Spelling, IsKCP, IsMux, IsWS, NeedsTLS, SupportsProxyProtocol;
    SaysOf(m, LimitFields(s), Spelling, 0);
    SaysOf(m, LimitFields(s), Spelling, 1);
    SaysOf(m, LimitFields(s), Spelling, 2);
    SaysOf(m, LimitFields(s), Spelling, 3);
  }

  lemma ClientAddrReads(m: Settings, s: TunnelSpec)
    requires Says(m, ClientAddrFields(s), Spelling)
    ensures Text(m, Spelling, Common(RemoteAddrKey)) == s.remoteAddr
    ensures Items(m, Spelling, ClientSide(FallbackAddrsKey)) == s.fallbackAddrs
    ensures Text(m, Spelling, Common(TransportKey)) == s.transport
  {
    hide Spelling, IsKCP, IsMux, IsWS, NeedsTLS, SupportsProxyProtocol;
    SaysOf(m, ClientAddrFields(s), Spelling, 0);
    SaysOf(m, ClientAddrFields(s), Spelling, 1);
    SaysOf(m, ClientAddrFields(s), Spelling, 2);
  }

  lemma ClientHeadReads(m: Settings, s: TunnelSpec)
    requires Says(m, ClientHeadFields(s), Spelling)
    ensures Text(m, Spelling, Common(PresetKey)) == s.preset
    ensures Text(m, Spelling, Common(TokenKey)) == s.token
    ensures Number(m, Spelling, ClientSide(ConnectionPoolKey)) == s.connectionPool
    ensures Flag(m, Spelling, ClientSide(AggressivePoolKey)) == s.aggressivePool
    ensures Number(m, Spelling, Common(KeepalivePeriodKey)) == s.keepAlive
    ensures Flag(m, Spelling, Common(NodelayKey)) == s.nodelay
  {
    hide Spelling, IsKCP, IsMux, IsWS, NeedsTLS, SupportsProxyProtocol;
    SaysOf(m, ClientHeadFields(s), Spelling, 0);
    SaysOf(m, ClientHeadFields(s), Spelling, 1);
    SaysOf(m, ClientHeadFields(s), Spelling, 2);
    SaysOf(m, ClientHeadFields(s), Spelling, 3);
    SaysOf(m, ClientHeadFields(s), Spelling, 4);
    SaysOf(m, ClientHeadFields(s), Spelling, 5);
  }

  lemma ClientDialReads(m: Settings, s: TunnelSpec)
    requires Says(m, ClientDialFields(s), Spelling)
    ensures Flag(m, Spelling, ClientSide(LoadBalanceKey)) == s.loadBalance
    ensures Flag(m, Spelling, ClientSide(HealthFailoverKey)) == s.healthFailover
    ensures Number(m, Spelling, ClientSide(RetryIntervalKey)) == 3
    ensures Number(m, Spelling, ClientSide(DialTimeoutKey)) == 10
    ensures Text(m, Spelling, Common(LogLevelKey)) == s.logLevel
    ensures Text(m, Spelling, Common(LogFormatKey)) == s.logFormat
  {
    hide Spelling, IsKCP, IsMux, IsWS, NeedsTLS, SupportsProxyProtocol;
    SaysOf(m, ClientDialFields(s), Spelling, 0);
    SaysOf(m, ClientDialFields(s), Spelling, 1);
    SaysOf(m, ClientDialFields(s), Spelling, 2);
    SaysOf(m, ClientDialFields(s), Spelling, 3);
    SaysOf(m, ClientDialFields(s), Spelling, 4);
    SaysOf(m, ClientDialFields(s), Spelling, 5);
  }

  lemma ClientTailReads(m: Settings, s: TunnelSpec)
    requires Says(m, ClientTailFields(s), Spelling)
    ensures Text(m, Spelling, ClientSide(EdgeIpKey)) == NormClient(s).edgeIP
    ensures Flag(m, Spelling, ServerSide(SimpleAuthKey)) == RawToken(s)
    ensures Text(m, Spelling, ClientSide(ProxyKey)) == s.proxy
    ensures Text(m, Spelling, ClientSide(LocalAddrKey)) == s.localAddr
    ensures Text(m, Spelling, ClientSide(InterfaceKey)) == s.iface
    ensures Number(m, Spelling, ClientSide(SoMarkKey)) == s.soMark
    ensures Flag(m, Spelling, ServerSide(ZeroCopyKey)) == s.zeroCopy
  {
    hide Spelling, IsKCP, IsMux, IsWS, NeedsTLS, SupportsProxyProtocol;
    SaysOf(m, ClientTailFields(s), Spelling, 0);
    SaysOf(m, ClientTailFields(s), Spelling, 1);
    SaysOf(m, ClientTailFields(s), Spelling, 2);
    SaysOf(m, ClientTailFields(s), Spelling, 3);
    SaysOf(m, ClientTailFields(s), Spelling, 4);
    SaysOf(m, ClientTailFields(s), Spelling, 5);
    SaysOf(m, ClientTailFields(s), Spelling, 6);
  }
  // The whole table.

  lemma ServerSays(m: Settings, s: TunnelSpec)
    requires Says(m, ServerFields(s), Spelling)
    ensures Says(m, ServerHeadFields(s), Spelling)
    ensures Says(m, TuningFields(s), Spelling)
    ensures Says(m, KcpFields(s), Spelling)
    ensures Says(m, PckFields(s), Spelling)
    ensures Says(m, TlsFields(s), Spelling)
    ensures Says(m, MuxFields(s, Tuning(MuxConKey)), Spelling)
    ensures Says(m, LimitFields(s), Spelling)
    ensures Says(m, WebFields(s), Spelling)
    ensures Says(m, [Always(ServerSide(PortsKey), List(s.ports))], Spelling)
    ensures Says(m, FallbackFields(s), Spelling)
  {
    hide Says, ServerHeadFields, TuningFields, KcpFields, PckFields, TlsFields, MuxFields,
      LimitFields, WebFields, FallbackFields;
    var f1 := ServerHeadFields(s) + TuningFields(s);
    var f2 := f1 + KcpFields(s);
    var f3 := f2 + PckFields(s);
    var f4 := f3 + TlsFields(s);
    var f5 := f4 + MuxFields(s, Tuning(MuxConKey));
    var f6 := f5 + LimitFields(s);
    var f7 := f6 + WebFields(s);
    var f8 := f7 + [Always(ServerSide(PortsKey), List(s.ports))];
    var f9 := f8 + FallbackFields(s);
    SaysSplits(m, f8, FallbackFields(s), Spelling);
    SaysSplits(m, f7, [Always(ServerSide(PortsKey), List(s.ports))], Spelling);
    SaysSplits(m, f6, WebFields(s), Spelling);
    SaysSplits(m, f5, LimitFields(s), Spelling);
    SaysSplits(m, f4, MuxFields(s, Tuning(MuxConKey)), Spelling);
    SaysSplits(m, f3, TlsFields(s), Spelling);
    SaysSplits(m, f2, PckFields(s), Spelling);
    SaysSplits(m, f1, KcpFields(s), Spelling);
    SaysSplits(m, ServerHeadFields(s), TuningFields(s), Spelling);
  }

  lemma ClientSays(m: Settings, s: TunnelSpec)
    requires Says(m, ClientFields(s), Spelling)
    ensures Says(m, ClientAddrFields(s), Spelling)
    ensures Says(m, FallbackFields(s), Spelling)
    ensures Says(m, ClientHeadFields(s), Spelling)
    ensures Says(m, ClientDialFields(s), Spelling)
    ensures Says(m, TuningFields(s), Spelling)
    ensures Says(m, KcpFields(s), Spelling)
    ensures Says(m, PckFields(s), Spelling)
    ensures Says(m, ClientTailFields(s), Spelling)
    ensures Says(m, MuxFields(s, Tuning(MuxSessionKey)), Spelling)
    ensures Says(m, WebFields(s), Spelling)
  {
    hide Says, ClientAddrFields, ClientHeadFields, ClientDialFields, TuningFields, KcpFields, PckFields,
      ClientTailFields, MuxFields, WebFields, FallbackFields;
    var f1 := ClientAddrFields(s) + FallbackFields(s);
    var f2 := f1 + ClientHeadFields(s);
    var f3 := f2 + ClientDialFields(s);
    var f4 := f3 + TuningFields(s);
    var f5 := f4 + KcpFields(s);
    var f6 := f5 + PckFields(s);
    var f7 := f6 + ClientTailFields(s);
    var f8 := f7 + MuxFields(s, Tuning(MuxSessionKey));
    var f9 := f8 + WebFields(s);
    SaysSplits(m, f8, WebFields(s), Spelling);
    SaysSplits(m, f7, MuxFields(s, Tuning(MuxSessionKey)), Spelling);
    SaysSplits(m, f6, ClientTailFields(s), Spelling);
    SaysSplits(m, f5, PckFields(s), Spelling);
    SaysSplits(m, f4, KcpFields(s), Spelling);
    SaysSplits(m, f3, TuningFields(s), Spelling);
    SaysSplits(m, f2, ClientDialFields(s), Spelling);
    SaysSplits(m, f1, ClientHeadFields(s), Spelling);
    SaysSplits(m, ClientAddrFields(s), FallbackFields(s), Spelling);
  }

  lemma ServerHeadProper(s: TunnelSpec)
    ensures Proper(ServerHeadFields(s), KindOf, ServerRank, 0, 10)
  {
    hide IsKCP, IsMux, IsWS, NeedsTLS, SupportsProxyProtocol, Given, Listed, Spelling;
  }

  lemma ServerTuningProper(s: TunnelSpec)
    ensures Proper(TuningFields(s), KindOf, ServerRank, 10, 13)
    ensures Proper(PckFields(s), KindOf, ServerRank, 23, 26)
  {
    hide IsKCP, IsMux, IsWS, NeedsTLS, SupportsProxyProtocol, Given, Listed, Spelling;
  }

  lemma ServerKcpProper(s: TunnelSpec)
    ensures Proper(KcpFields(s), KindOf, ServerRank, 13, 23)
  {
    hide IsKCP, IsMux, IsWS, NeedsTLS, SupportsProxyProtocol, Given, Listed, Spelling;
  }

  lemma ServerTlsProper(s: TunnelSpec)
    ensures Proper(TlsFields(s), KindOf, ServerRank, 26, 32)
  {
    hide IsKCP, IsMux, IsWS, NeedsTLS, SupportsProxyProtocol, Given, Listed, Spelling;
  }

  lemma ServerMuxProper(s: TunnelSpec)
    ensures Proper(MuxFields(s, Tuning(MuxConKey)), KindOf, ServerRank, 32, 37)
  {
    hide IsKCP, IsMux, IsWS, NeedsTLS, SupportsProxyProtocol, Given, Listed, Spelling;
  }

  lemma ServerLimitProper(s: TunnelSpec)
    ensures Proper(LimitFields(s), KindOf, ServerRank, 37, 41)
  {
    hide IsKCP, IsMux, IsWS, NeedsTLS, SupportsProxyProtocol, Given, Listed, Spelling;
  }

  lemma ServerEndProper(s: TunnelSpec)
    ensures Proper(WebFields(s), KindOf, ServerRank, 41, 44)
    ensures Proper([Always(ServerSide(PortsKey), List(s.ports))], KindOf, ServerRank, 44, 45)
    ensures Proper(FallbackFields(s), KindOf, ServerRank, 45, 47)
  {
    hide IsKCP, IsMux, IsWS, NeedsTLS, SupportsProxyProtocol, Given, Listed, Spelling;
  }

  lemma ClientAddrProper(s: TunnelSpec)
    ensures Proper(ClientAddrFields(s), KindOf, ClientRank, 0, 3)
    ensures Proper(FallbackFields(s), KindOf, ClientRank, 3, 5)
  {
    hide IsKCP, IsMux, IsWS, NeedsTLS, SupportsProxyProtocol, Given, Listed, Spelling;
  }

  lemma ClientHeadProper(s: TunnelSpec)
    ensures Proper(ClientHeadFields(s), KindOf, ClientRank, 5, 11)
  {
    hide IsKCP, IsMux, IsWS, NeedsTLS, SupportsProxyProtocol, Given, Listed, Spelling;
  }

  lemma ClientDialProper(s: TunnelSpec)
    ensures Proper(ClientDialFields(s), KindOf, ClientRank, 11, 17)
  {
    hide IsKCP, IsMux, IsWS, NeedsTLS, SupportsProxyProtocol, Given, Listed, Spelling;
  }

  lemma ClientTuningProper(s: TunnelSpec)
    ensures Proper(TuningFields(s), KindOf, ClientRank, 17, 20)
    ensures Proper(PckFields(s), KindOf, ClientRank, 30, 33)
  {
    hide IsKCP, IsMux, IsWS, NeedsTLS, SupportsProxyProtocol, Given, Listed, Spelling;
  }

  lemma ClientKcpProper(s: TunnelSpec)
    ensures Proper(KcpFields(s), KindOf, ClientRank, 20, 30)
  {
    hide IsKCP, IsMux, IsWS, NeedsTLS, SupportsProxyProtocol, Given, Listed, Spelling;
  }

  lemma ClientTailInOrder(s: TunnelSpec)
    ensures InOrder(ClientTailFields(s), ClientRank, 33, 40)
  {
    hide Spelling, UsesEdge, RawToken, Given;
  }

  lemma ClientTailProper(s: TunnelSpec)
    ensures Proper(ClientTailFields(s), KindOf, ClientRank, 33, 40)
  {
    hide Spelling, UsesEdge, RawToken, Given, ClientRank, InOrder;
    ClientTailInOrder(s);
  }

  lemma ClientMuxProper(s: TunnelSpec)
    ensures Proper(MuxFields(s, Tuning(MuxSessionKey)), KindOf, ClientRank, 40, 45)
  {
    hide IsKCP, IsMux, IsWS, NeedsTLS, SupportsProxyProtocol, Given, Listed, Spelling;
  }

  lemma ClientWebProper(s: TunnelSpec)
    ensures Proper(WebFields(s), KindOf, ClientRank, 45, 48)
  {
    hide IsKCP, IsMux, IsWS, NeedsTLS, SupportsProxyProtocol, Given, Listed, Spelling;
  }

  lemma ServerFieldsProper(s: TunnelSpec)
    ensures Proper(ServerFields(s), KindOf, ServerRank, 0, 47)
  {
    hide Proper, ServerHeadFields, TuningFields, KcpFields, PckFields, TlsFields, MuxFields,
      LimitFields, WebFields, FallbackFields;
    ServerHeadProper(s);
    ServerTuningProper(s);
    ServerKcpProper(s);
    ServerTlsProper(s);
    ServerMuxProper(s);
    ServerLimitProper(s);
    ServerEndProper(s);
    var f1 := ServerHeadFields(s) + TuningFields(s);
    ProperJoin(ServerHeadFields(s), TuningFields(s), KindOf, ServerRank, 0, 10, 13);
    var f2 := f1 + KcpFields(s);
    ProperJoin(f1, KcpFields(s), KindOf, ServerRank, 0, 13, 23);
    var f3 := f2 + PckFields(s);
    ProperJoin(f2, PckFields(s), KindOf, ServerRank, 0, 23, 26);
    var f4 := f3 + TlsFields(s);
    ProperJoin(f3, TlsFields(s), KindOf, ServerRank, 0, 26, 32);
    var f5 := f4 + MuxFields(s, Tuning(MuxConKey));
    ProperJoin(f4, MuxFields(s, Tuning(MuxConKey)), KindOf, ServerRank, 0, 32, 37);
    var f6 := f5 + LimitFields(s);
    ProperJoin(f5, LimitFields(s), KindOf, ServerRank, 0, 37, 41);
    var f7 := f6 + WebFields(s);
    ProperJoin(f6, WebFields(s), KindOf, ServerRank, 0, 41, 44);
    var f8 := f7 + [Always(ServerSide(PortsKey), List(s.ports))];
    ProperJoin(f7, [Always(ServerSide(PortsKey), List(s.ports))], KindOf, ServerRank, 0, 44, 45);
    var f9 := f8 + FallbackFields(s);
    ProperJoin(f8, FallbackFields(s), KindOf, ServerRank, 0, 45, 47);
  }

  lemma ClientFieldsProper(s: TunnelSpec)
    ensures Proper(ClientFields(s), KindOf, ClientRank, 0, 48)
  {
    hide Proper, ClientAddrFields, ClientHeadFields, ClientDialFields, TuningFields, KcpFields, PckFields,
      ClientTailFields, MuxFields, WebFields, FallbackFields;
    ClientAddrProper(s);
    ClientHeadProper(s);
    ClientDialProper(s);
    ClientTuningProper(s);
    ClientKcpProper(s);
    ClientTailProper(s);
    ClientMuxProper(s);
    ClientWebProper(s);
    var f1 := ClientAddrFields(s) + FallbackFields(s);
    ProperJoin(ClientAddrFields(s), FallbackFields(s), KindOf, ClientRank, 0, 3, 5);
    var f2 := f1 + ClientHeadFields(s);
    ProperJoin(f1, ClientHeadFields(s), KindOf, ClientRank, 0, 5, 11);
    var f3 := f2 + ClientDialFields(s);
    ProperJoin(f2, ClientDialFields(s), KindOf, ClientRank, 0, 11, 17);
    var f4 := f3 + TuningFields(s);
    ProperJoin(f3, TuningFields(s), KindOf, ClientRank, 0, 17, 20);
    var f5 := f4 + KcpFields(s);
    ProperJoin(f4, KcpFields(s), KindOf, ClientRank, 0, 20, 30);
    var f6 := f5 + PckFields(s);
    ProperJoin(f5, PckFields(s), KindOf, ClientRank, 0, 30, 33);
    var f7 := f6 + ClientTailFields(s);
    ProperJoin(f6, ClientTailFields(s), KindOf, ClientRank, 0, 33, 40);
    var f8 := f7 + MuxFields(s, Tuning(MuxSessionKey));
    ProperJoin(f7, MuxFields(s, Tuning(MuxSessionKey)), KindOf, ClientRank, 0, 40, 45);
    var f9 := f8 + WebFields(s);
    ProperJoin(f8, WebFields(s), KindOf, ClientRank, 0, 45, 48);
  }

  lemma ServerReads(m: Settings, s: TunnelSpec)
    requires IsServer(s) && Says(m, ServerFields(s), Spelling)
    ensures ServerSpecOf(s.name, m) == Norm(s)
  {
    hide Says, ServerFields, Spelling, Text, Number, Flag, Items, MuxAt, KcpAt, PckAt, IsKCP, IsMux, IsWS, NeedsTLS,
      SupportsProxyProtocol, Given, Listed, RawToken, MonitorBind;
    ServerSays(m, s);
    ServerHeadReads(m, s);
    TuningReads(m, s);
    KcpReads(m, s);
    PckReads(m, s);
    TlsReads(m, s);
    MuxReads(m, s, Tuning(MuxConKey));
    LimitReads(m, s);
    WebReads(m, s);
    PortsRead(m, s);
    FallbackReads(m, s);
  }

  lemma PortsRead(m: Settings, s: TunnelSpec)
    requires Says(m, [Always(ServerSide(PortsKey), List(s.ports))], Spelling)
    ensures Items(m, Spelling, ServerSide(PortsKey)) == s.ports
  {
    hide Spelling;
    SaysOf(m, [Always(ServerSide(PortsKey), List(s.ports))], Spelling, 0);
  }

  lemma ClientReads(m: Settings, s: TunnelSpec)
    requires !IsServer(s) && Says(m, ClientFields(s), Spelling)
    ensures ClientSpecOf(s.name, m) == Norm(s)
  {
    hide Says, ClientFields, Spelling, Text, Number, Flag, Items, MuxAt, KcpAt, PckAt, IsKCP, IsMux, IsWS, NeedsTLS,
      SupportsProxyProtocol, Given, Listed, RawToken, MonitorBind;
    ClientSays(m, s);
    ClientAddrReads(m, s);
    FallbackReads(m, s);
    ClientHeadReads(m, s);
    ClientDialReads(m, s);
    TuningReads(m, s);
    KcpReads(m, s);
    PckReads(m, s);
    ClientTailReads(m, s);
    MuxReads(m, s, Tuning(MuxSessionKey));
    WebReads(m, s);
  }
}
