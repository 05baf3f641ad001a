/** A rendered spec, loaded again: its normal form, which renders the same. */
module ReverseRoundTrip {
  import opened Wrappers
  import opened Toml
  import opened TomlDocument
  import opened ConfigKeys
  import opened ReverseConfig
  import opened ReverseLoad

  function RankOf(s: TunnelSpec): Name -> nat { if IsServer(s) then ServerRank else ClientRank }

  function Address(s: TunnelSpec): string { if IsServer(s) then s.bindAddr else s.remoteAddr }

  lemma SpecFieldsProper(s: TunnelSpec)
    ensures Proper(SpecFields(s), KindOf, RankOf(s), 0, 48)
  {
    hide ServerFields, ClientFields;
    if IsServer(s) { ServerFieldsProper(s); } else { ClientFieldsProper(s); }
  }

  lemma BannerIsNote()
    ensures IsNote(Banner())
  {
    var a, b, c := " Generated by backpack ", "\U{2014} do not edit while ", "the service is running.";
    NotesJoin(b, c) by { assert IsNote(b); assert IsNote(c); }
    NotesJoin(a, b + c) by { assert IsNote(a); }
  }

  lemma NotesJoin(a: string, b: string)
    requires IsNote(a) && IsNote(b)
    ensures IsNote(a + b)
  {
  }

  lemma NameNoteIsNote(name: string)
    requires ValidName(name)
    ensures IsNote(NameNote(name))
  {
    forall c | c in NameNote(name) ensures !IsControl(c) || c == '\t' {
      assert c in " name = \"" || c in name || c in "\"";
    }
  }

  lemma TopIsNotes(name: string)
    requires ValidName(name)
    ensures IsNotes(TopLines(name))
  {
    hide IsNote, ValidName, NameNote;
    BannerIsNote();
    NameNoteIsNote(name);
  }

  /** The table a printed file reads back as. */
  function FileTable(s: TunnelSpec): Settings { Written(PartsOf(SpecFields(s), Spelling)) }

  lemma FileReads(toml: Edition, s: TunnelSpec, printable: Printable)
    requires ValidName(s.name)
    ensures ReadFile(toml, RenderedText(s, printable)) ==
            if Spellable(toml, SpecFields(s)) then Some(map[TableName(s) := FileTable(s)]) else None
    ensures Says(FileTable(s), SpecFields(s), Spelling)
    ensures Decodes(FileTable(s), Spelling, KindOf, RankOf(s))
  {
    hide SpecFields, Spelling, IsBareKey, ReadFile, FieldsText, LinesText, Written, PartsOf, TopLines, IsNotes;
    TopIsNotes(s.name);
    SpecFieldsProper(s);
    NamesSpell();
    TableNameIsBare(s);
    FieldsReadBack(toml, TopLines(s.name), TableName(s), SpecFields(s), Spelling, RankOf(s), 48, 0, printable);
    FieldsSay(SpecFields(s), Spelling, KindOf, RankOf(s), 48);
  }

  lemma TableNameIsBare(s: TunnelSpec)
    ensures IsBareKey(TableName(s))
  {
  }

  lemma FileDecodes(toml: Edition, s: TunnelSpec, printable: Printable)
    requires ValidName(s.name)
    ensures Decoded(toml, RenderedText(s, printable)) ==
            if Spellable(toml, SpecFields(s)) then Some(map[TableName(s) := FileTable(s)]) else None
  {
    hide ReadFile, RenderedText, FileTable, SpecFields, Spelling;
    FileReads(toml, s, printable);
    var file := map[TableName(s) := FileTable(s)];
    assert Section(file, TableName(s)) == FileTable(s);
    assert Section(file, if IsServer(s) then "client" else "server") == map[];
  }

  /** What each loader makes of the file. */
  lemma TableLoads(s: TunnelSpec)
    requires Says(FileTable(s), SpecFields(s), Spelling)
    ensures IsServer(s) ==> ServerSpecOf(s.name, FileTable(s)) == Norm(s)
    ensures !IsServer(s) ==> ClientSpecOf(s.name, FileTable(s)) == Norm(s)
  {
    hide FileTable, Spelling, ServerFields, ClientFields;
    if IsServer(s) { ServerReads(FileTable(s), s); } else { ClientReads(FileTable(s), s); }
  }

  lemma ServerLoads(s: TunnelSpec)
    requires IsServer(s) && ServerSpecOf(s.name, FileTable(s)) == Norm(s)
    ensures ServerFrom(s.name, map["server" := FileTable(s)]) ==
            if s.bindAddr == "" then Err(NotATunnel) else Ok(Norm(s))
    ensures ClientFrom(s.name, map["server" := FileTable(s)]) == Err(NotATunnel)
  {
    hide FileTable, Spelling, ServerSpecOf, RawToken, MonitorBind;
    assert Section(map["server" := FileTable(s)], "server") == FileTable(s);
  }

  lemma ClientLoads(s: TunnelSpec)
    requires !IsServer(s) && ClientSpecOf(s.name, FileTable(s)) == Norm(s)
    ensures ServerFrom(s.name, map["client" := FileTable(s)]) == Err(NotATunnel)
    ensures ClientFrom(s.name, map["client" := FileTable(s)]) ==
            if s.remoteAddr == "" then Err(NotATunnel) else Ok(Norm(s))
  {
    hide FileTable, Spelling, ClientSpecOf, RawToken, MonitorBind;
    assert Section(map["client" := FileTable(s)], "client") == FileTable(s);
  }

  /** A rendered spec loads as its normal form, whatever its fields hold, unless
      one of its strings cannot be spelled in TOML, it has no address, or its name
      is none a tunnel may have. */
  lemma LoadUndoesRender(toml: Edition, s: TunnelSpec, printable: Printable)
    ensures LoadSpec(toml, s.name, Some(RenderedText(s, printable))) ==
            if !ValidName(s.name) then Err(BadName)
            else if !Spellable(toml, SpecFields(s)) then Err(Unparsable)
            else if Address(s) == "" then Err(NotATunnel)
            else Ok(Norm(s))
  {
    hide Decoded, RenderedText, FileTable, SpecFields, Spelling, Norm, ServerFrom, ClientFrom, Spellable, ValidName;
    if ValidName(s.name) {
      FileDecodes(toml, s, printable);
      FileReads(toml, s, printable);
      TableLoads(s);
      if IsServer(s) { ServerLoads(s); } else { ClientLoads(s); }
    }
  }

  // The normal form is one.

  /** What a spec of either end may say and a file can hold: settings of a transport only
      on that transport, a dwell only with a chain, an address only with a port, and no
      negative size. */
  predicate PlainShared(s: TunnelSpec) {
    && (IsMux(s.transport) || s.mux == NO_MUX) && (IsKCP(s.transport) || s.kcp == NO_KCP)
    && (s.transport == "pck" || s.pck == NO_PCK) && s.mss >= 0 && s.soRcvBuf >= 0 && s.soSndBuf >= 0
    && (if s.fallbackTransports == [] then s.fallbackDwell == 0 else s.fallbackDwell >= 0)
    && (s.simpleAuth ==> NeedsTLS(s.transport)) && s.webPort >= 0 && (s.webPort > 0 <==> s.webBind != "")
  }

  predicate PlainServer(s: TunnelSpec) {
    && s.remoteAddr == "" && !s.loadBalance && !s.healthFailover && s.fallbackAddrs == []
    && s.connectionPool == 0 && !s.aggressivePool && s.edgeIP == "" && s.proxy == "" && s.localAddr == ""
    && s.iface == "" && s.soMark == 0
    && (s.proxyProtocol ==> SupportsProxyProtocol(s.transport)) && s.maxConnections >= 0 && s.bandwidthMbps >= 0
    && (!NeedsTLS(s.transport) ==> s.tlsCert == "" && s.tlsKey == "" && s.acmeDomain == "")
    && (s.acmeDomain == "" ==> s.acmeEmail == "")
  }

  predicate PlainClient(s: TunnelSpec) {
    && s.role == "client" && s.bindAddr == "" && s.ports == [] && s.heartbeat == 0 && s.channelSize == 0 && !s.acceptUDP
    && !s.proxyProtocol && s.maxConnections == 0 && s.bandwidthMbps == 0
    && s.tlsCert == "" && s.tlsKey == "" && s.acmeDomain == "" && s.acmeEmail == ""
    && (s.edgeIP != "" ==> IsWS(s.transport))
  }

  /** Nothing is lost in the file exactly of a plain spec: the normal form of any other
      differs from it, and loading the file gives that. */
  lemma NothingIsLostExactly(s: TunnelSpec)
    ensures Norm(s) == s <==> PlainShared(s) && if s.role == "server" then PlainServer(s) else PlainClient(s)
  {
    hide Norm;
    if s.role == "server" { ServerLosesNothing(s); } else { ClientLosesNothing(s); }
  }

  lemma ServerLosesNothing(s: TunnelSpec)
    requires s.role == "server"
    ensures Norm(s) == s <==> PlainShared(s) && PlainServer(s)
  {
    hide IsKCP, IsMux, IsWS, NeedsTLS, SupportsProxyProtocol;
  }

  lemma ClientLosesNothing(s: TunnelSpec)
    requires s.role != "server"
    ensures Norm(s) == s <==> PlainShared(s) && PlainClient(s)
  {
    hide IsKCP, IsMux, IsWS, NeedsTLS, SupportsProxyProtocol;
  }

  /** Norm keeps these as the shared part has them. */
  ghost predicate SameShared(a: TunnelSpec, b: TunnelSpec) {
    && a.name == b.name && a.transport == b.transport && a.preset == b.preset && a.token == b.token
    && a.keepAlive == b.keepAlive && a.nodelay == b.nodelay && a.logLevel == b.logLevel && a.logFormat == b.logFormat
    && a.sniffer == b.sniffer && a.zeroCopy == b.zeroCopy && a.fallbackTransports == b.fallbackTransports
    && a.mss == b.mss
    && a.soRcvBuf == b.soRcvBuf && a.soSndBuf == b.soSndBuf && a.mux == b.mux && a.kcp == b.kcp
    && a.pck == b.pck && a.fallbackDwell == b.fallbackDwell && a.webPort == b.webPort && a.webBind == b.webBind
    && a.simpleAuth == b.simpleAuth && a.role == b.role
  }

  lemma NormSharesServer(s: TunnelSpec)
    requires IsServer(s)
    ensures SameShared(Norm(s), NormShared(s))
  {
    hide NormShared, RawToken, IsKCP, IsMux, IsWS, NeedsTLS, SupportsProxyProtocol, Positive, Given;
  }

  lemma NormSharesClient(s: TunnelSpec)
    requires !IsServer(s)
    ensures SameShared(Norm(s), NormShared(s))
  {
    hide NormShared, RawToken, IsKCP, IsMux, IsWS, NeedsTLS, SupportsProxyProtocol, Positive, Given;
  }

  lemma GroupsIgnoreNorm(s: TunnelSpec)
    ensures TuningFields(Norm(s)) == TuningFields(s) && KcpFields(Norm(s)) == KcpFields(s)
    ensures PckFields(Norm(s)) == PckFields(s) && WebFields(Norm(s)) == WebFields(s)
    ensures FallbackFields(Norm(s)) == FallbackFields(s)
    ensures MuxFields(Norm(s), Tuning(MuxConKey)) == MuxFields(s, Tuning(MuxConKey))
    ensures MuxFields(Norm(s), Tuning(MuxSessionKey)) == MuxFields(s, Tuning(MuxSessionKey))
  {
    hide Norm, IsKCP, IsMux, IsWS, NeedsTLS, SupportsProxyProtocol, Spelling;
    if IsServer(s) { NormSharesServer(s); } else { NormSharesClient(s); }
  }

  lemma ServerGroupsIgnoreNorm(s: TunnelSpec)
    requires IsServer(s)
    ensures ServerHeadFields(Norm(s)) == ServerHeadFields(s) && TlsFields(Norm(s)) == TlsFields(s)
    ensures LimitFields(Norm(s)) == LimitFields(s) && Norm(s).ports == s.ports
  {
    hide IsKCP, IsMux, IsWS, NeedsTLS, SupportsProxyProtocol, Spelling;
  }

  lemma ClientGroupsIgnoreNorm(s: TunnelSpec)
    requires !IsServer(s)
    ensures ClientAddrFields(Norm(s)) == ClientAddrFields(s) && ClientHeadFields(Norm(s)) == ClientHeadFields(s)
    ensures ClientDialFields(Norm(s)) == ClientDialFields(s) && ClientTailFields(Norm(s)) == ClientTailFields(s)
  {
    hide IsKCP, IsMux, IsWS, NeedsTLS, SupportsProxyProtocol, Spelling;
  }

  /** What Norm drops is exactly what the printer does not print. */
  lemma NormPrintsTheSame(s: TunnelSpec)
    ensures SpecFields(Norm(s)) == SpecFields(s)
    ensures forall printable :: RenderedText(Norm(s), printable) == RenderedText(s, printable)
  {
    hide Norm, Spelling, ServerHeadFields, TuningFields, KcpFields, PckFields, TlsFields, MuxFields, LimitFields,
      ClientAddrFields, ClientHeadFields, ClientDialFields, ClientTailFields, WebFields, FallbackFields, FieldsText,
      LinesText;
    GroupsIgnoreNorm(s);
    if IsServer(s) { NormSharesServer(s); } else { NormSharesClient(s); }
    if IsServer(s) { ServerGroupsIgnoreNorm(s); } else { ClientGroupsIgnoreNorm(s); }
  }

  /** A spec that was loaded from a printed file is printed and loaded unchanged. */
  lemma NormIdempotent(s: TunnelSpec)
    ensures Norm(Norm(s)) == Norm(s)
  {
    hide Norm, Says, Written, Spelling, SpecFields, ServerSpecOf, ClientSpecOf, RenderedText;
    NormPrintsTheSame(s);
    if IsServer(s) { NormSharesServer(s); } else { NormSharesClient(s); }
    FieldsSay(SpecFields(s), Spelling, KindOf, RankOf(s), 48) by { NamesSpell(); SpecFieldsProper(s); }
    TableLoads(s);
    TableLoads(Norm(s));
  }
}
