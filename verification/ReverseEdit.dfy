/** The edits that load a reverse tunnel's spec, change a field and render it. */
module ReverseEdit {
  import opened Wrappers
  import opened Toml
  import opened TomlDocument
  import opened ConfigKeys
  import opened ReverseConfig
  import opened ReverseFields
  import opened ReverseLoad
  import opened ReverseRoundTrip

  const MIN_MSS := 524
  const MAX_MSS := 1460

  datatype Edit =
    | SetMSS(mss: Int64)
    | SetLimits(maxConnections: Int64, bandwidthMbps: Int64)
    | SetProxyProtocol(header: bool)
    | SetAcceptUDP(udp: bool)
    | SetLoadBalance(spread: bool)

  datatype Refusal = WrongEnd | WrongTransport | OutOfRange | NothingToBalance | Unchanged

  predicate IsDatagram(t: string) {
    "l3/" <= t || (!("direct/" <= t) && t in {"udp", "kcp", "xdi", "quic", "pck"})
  }

  /** The checks each edit makes, in the order it makes them. */
  function Refused(s: TunnelSpec, e: Edit): Option<Refusal> {
    match e
    case SetMSS(mss) =>
      if IsDatagram(s.transport) then Some(WrongTransport)
      else if mss != 0 && (mss < MIN_MSS || mss > MAX_MSS) then Some(OutOfRange)
      else if s.mss == mss then Some(Unchanged) else None
    case SetLimits(conns, mbps) =>
      if s.role != "server" then Some(WrongEnd)
      else if conns < 0 || mbps < 0 then Some(OutOfRange) else None
    case SetProxyProtocol(on) =>
      if s.role != "server" then Some(WrongEnd)
      else if !SupportsProxyProtocol(s.transport) then Some(WrongTransport)
      else if s.proxyProtocol == on then Some(Unchanged) else None
    case SetAcceptUDP(on) =>
      if s.role != "server" then Some(WrongEnd)
      else if s.acceptUDP == on then Some(Unchanged) else None
    case SetLoadBalance(on) =>
      if s.role != "client" then Some(WrongEnd)
      else if on && s.fallbackAddrs == [] then Some(NothingToBalance)
      else if s.loadBalance == on then Some(Unchanged) else None
  }

  function Edited(s: TunnelSpec, e: Edit): TunnelSpec {
    match e
    case SetMSS(mss) => s.(mss := mss)
    case SetLimits(conns, mbps) => s.(maxConnections := conns, bandwidthMbps := mbps)
    case SetProxyProtocol(on) => s.(proxyProtocol := on)
    case SetAcceptUDP(on) => s.(acceptUDP := on)
    case SetLoadBalance(on) => s.(loadBalance := on, healthFailover := if on then false else s.healthFailover)
  }

  /** The fields an edit sets. */
  predicate Sets(e: Edit, f: SpecField) {
    match e
    case SetMSS(_) => f == Pace(MSSField)
    case SetLimits(_, _) => f == Watch(MaxConnectionsField) || f == Watch(BandwidthMbpsField)
    case SetProxyProtocol(_) => f == Watch(ProxyProtocolField)
    case SetAcceptUDP(_) => f == Pace(AcceptUDPField)
    case SetLoadBalance(_) => f == Chain(LoadBalanceField) || f == Chain(HealthFailoverField)
  }

  /** The keys those fields govern. */
  ghost predicate Touches(e: Edit, k: Name) {
    exists f: SpecField :: Sets(e, f) && Governs(f, k)
  }

  ghost function Touched(e: Edit): Name -> bool { k => Touches(e, k) }

  lemma TouchedArePlain(e: Edit, k: Name)
    requires Touches(e, k)
    ensures KindOf(k).KNumber? || KindOf(k).KFlag?
  {
    hide KindOf;
    var f :| Sets(e, f) && Governs(f, k);
    FieldIsPlain(e, f, k);
  }

  lemma FieldIsPlain(e: Edit, f: SpecField, k: Name)
    requires Sets(e, f) && Governs(f, k)
    ensures KindOf(k).KNumber? || KindOf(k).KFlag?
  {
  }

  lemma OnlyTheClamp(s: TunnelSpec, mss: Int64, f: SpecField)
    requires f != Pace(MSSField)
    ensures Same(s, s.(mss := mss), f)
  {
  }

  lemma OnlyTheCaps(s: TunnelSpec, conns: Int64, mbps: Int64, f: SpecField)
    requires f != Watch(MaxConnectionsField) && f != Watch(BandwidthMbpsField)
    ensures Same(s, s.(maxConnections := conns, bandwidthMbps := mbps), f)
  {
  }

  lemma OnlyTheHeader(s: TunnelSpec, header: bool, f: SpecField)
    requires f != Watch(ProxyProtocolField)
    ensures Same(s, s.(proxyProtocol := header), f)
  {
  }

  lemma OnlyUdp(s: TunnelSpec, udp: bool, f: SpecField)
    requires f != Pace(AcceptUDPField)
    ensures Same(s, s.(acceptUDP := udp), f)
  {
  }

  lemma OnlyTheBalance(s: TunnelSpec, spread: bool, failover: bool, f: SpecField)
    requires f != Chain(LoadBalanceField) && f != Chain(HealthFailoverField)
    ensures Same(s, s.(loadBalance := spread, healthFailover := failover), f)
  {
  }

  lemma EditSetsOnly(s: TunnelSpec, e: Edit, f: SpecField)
    requires !Sets(e, f)
    ensures Same(s, Edited(s, e), f)
  {
    hide Same;
    match e
    case SetMSS(mss) => OnlyTheClamp(s, mss, f);
    case SetLimits(conns, mbps) => OnlyTheCaps(s, conns, mbps, f);
    case SetProxyProtocol(on) => OnlyTheHeader(s, on, f);
    case SetAcceptUDP(on) => OnlyUdp(s, on, f);
    case SetLoadBalance(on) => OnlyTheBalance(s, on, if on then false else s.healthFailover, f);
  }

  lemma EditKeepsAddresses(s: TunnelSpec, e: Edit)
    ensures var t := Edited(s, e);
            && t.name == s.name && t.role == s.role && t.bindAddr == s.bindAddr && t.remoteAddr == s.remoteAddr
  {
    match e
    case SetMSS(_) =>
    case SetLimits(_, _) =>
    case SetProxyProtocol(_) =>
    case SetAcceptUDP(_) =>
    case SetLoadBalance(_) =>
  }

  /** Each edit is a change of the fields it sets. */
  lemma EditedTables(s: TunnelSpec, e: Edit)
    ensures SameBut(SpecFields(s), SpecFields(Edited(s, e)), Touched(e))
    ensures IsServer(Edited(s, e)) == IsServer(s)
    ensures forall other: Name | !Touches(e, other) ::
              Read(FileTable(Edited(s, e)), Spelling, other) == Read(FileTable(s), Spelling, other)
  {
    hide SpecFields, SameBut, FileTable, Same, Governs, Sets, Edited, Spelling;
    EditKeepsAddresses(s, e);
    forall f: SpecField, k: Name | Governs(f, k) ensures Same(s, Edited(s, e), f) || Touched(e)(k) {
      if !Sets(e, f) { EditSetsOnly(s, e, f); }
    }
    TablesDifferWithin(s, Edited(s, e), Touched(e));
  }

  /** An edit changes the keys its fields govern and no others. */
  lemma EditChangesOnlyItsKeys(s: TunnelSpec, e: Edit, other: Name)
    requires !Touches(e, other)
    ensures Read(FileTable(Edited(s, e)), Spelling, other) == Read(FileTable(s), Spelling, other)
  {
    hide FileTable, SpecFields, SameBut, Edited, Touches;
    EditedTables(s, e);
  }

  lemma ServerEditCommutes(s: TunnelSpec, e: Edit)
    requires Refused(s, e).None? && IsServer(s) && (e.SetProxyProtocol? || e.SetAcceptUDP?)
    ensures Norm(Edited(s, e)) == Edited(Norm(s), e)
  {
    hide IsKCP, IsMux, IsWS, NeedsTLS, IsDatagram, MonitorBind, SupportsProxyProtocol, Given, Listed;
  }

  lemma ServerLimitsCommute(s: TunnelSpec, conns: Int64, mbps: Int64)
    requires IsServer(s) && conns >= 0 && mbps >= 0
    ensures Norm(s.(maxConnections := conns, bandwidthMbps := mbps)) ==
            Norm(s).(maxConnections := conns, bandwidthMbps := mbps)
  {
    hide IsKCP, IsMux, IsWS, NeedsTLS, MonitorBind, SupportsProxyProtocol, Given, Listed;
  }

  lemma ServerSegmentCommutes(s: TunnelSpec, mss: Int64)
    requires IsServer(s) && mss >= 0
    ensures Norm(s.(mss := mss)) == Norm(s).(mss := mss)
  {
    hide IsKCP, IsMux, IsWS, NeedsTLS, MonitorBind, SupportsProxyProtocol, Given, Listed;
  }

  lemma ClientEditCommutes(s: TunnelSpec, e: Edit)
    requires Refused(s, e).None? && !IsServer(s)
    ensures Norm(Edited(s, e)) == Edited(Norm(s), e)
  {
    hide IsKCP, IsMux, IsWS, NeedsTLS, IsDatagram, MonitorBind, SupportsProxyProtocol, Given, Listed;
  }

  /** Editing and then normalising, or normalising and then editing, is the same. */
  lemma EditCommutesWithNorm(s: TunnelSpec, e: Edit)
    requires Refused(s, e).None?
    ensures Norm(Edited(s, e)) == Edited(Norm(s), e)
  {
    hide Norm, SupportsProxyProtocol, IsDatagram;
    if !IsServer(s) { ClientEditCommutes(s, e); }
    else if e.SetMSS? { ServerSegmentCommutes(s, e.mss); }
    else if e.SetLimits? { ServerLimitsCommute(s, e.maxConnections, e.bandwidthMbps); }
    else { ServerEditCommutes(s, e); }
  }

  /** An accepted edit of any loadable spec, saved: the file loads as what the file
      without the edit would load as, with the edited fields and no others new. */
  lemma EditKeepsTheRest(toml: Edition, s: TunnelSpec, e: Edit, printable: Printable)
    requires Refused(s, e).None?
    ensures LoadSpec(toml, s.name, Some(RenderedText(Edited(s, e), printable))) ==
            match LoadSpec(toml, s.name, Some(RenderedText(s, printable)))
            case Ok(l) => Ok(Edited(l, e))
            case Err(why) => Err(why)
  {
    hide Norm, LoadSpec, RenderedText, Spellable, SpecFields, ValidName, Refused, Edited, Address;
    EditKeepsIdentity(s, e);
    LoadUndoesRender(toml, s, printable);
    LoadUndoesRender(toml, Edited(s, e), printable);
    EditCommutesWithNorm(s, e);
    EditStaysSpellable(toml, s, e);
  }

  /** An edit is let through exactly when all of this holds. */
  lemma EditsPassExactly(s: TunnelSpec, e: Edit)
    ensures Refused(s, e).None? <==>
      match e
      case SetMSS(mss) => !IsDatagram(s.transport) && (mss == 0 || 524 <= mss <= 1460) && mss != s.mss
      case SetLimits(conns, mbps) => s.role == "server" && conns >= 0 && mbps >= 0
      case SetProxyProtocol(on) => s.role == "server" && SupportsProxyProtocol(s.transport) && on != s.proxyProtocol
      case SetAcceptUDP(on) => s.role == "server" && on != s.acceptUDP
      case SetLoadBalance(on) =>
        s.role == "client" && on != s.loadBalance && (on ==> s.fallbackAddrs != [])
  {
    hide IsDatagram, SupportsProxyProtocol;
  }

  /** What the file of an accepted edit says, when it loads: each answer under its own
      setting, and spreading the load switches failing over by health off. */
  lemma TheAnswerIsInTheFile(toml: Edition, s: TunnelSpec, e: Edit, printable: Printable)
    requires Refused(s, e).None? && LoadSpec(toml, s.name, Some(RenderedText(Edited(s, e), printable))).Ok?
    ensures var l := LoadSpec(toml, s.name, Some(RenderedText(Edited(s, e), printable))).value;
      match e
      case SetMSS(mss) => l.mss == mss
      case SetLimits(conns, mbps) => l.maxConnections == conns && l.bandwidthMbps == mbps
      case SetProxyProtocol(on) => l.proxyProtocol == on
      case SetAcceptUDP(on) => l.acceptUDP == on
      case SetLoadBalance(on) => l.loadBalance == on && l.healthFailover == (!on && s.healthFailover)
  {
    hide Norm, LoadSpec, RenderedText, Spellable, SpecFields, ValidName, Refused, Edited, Address;
    EditKeepsTheRest(toml, s, e, printable);
    LoadUndoesRender(toml, s, printable);
    AnswerStands(s, e);
  }

  lemma AnswerStands(s: TunnelSpec, e: Edit)
    requires Refused(s, e).None?
    ensures var l := Edited(Norm(s), e);
      match e
      case SetMSS(mss) => l.mss == mss
      case SetLimits(conns, mbps) => l.maxConnections == conns && l.bandwidthMbps == mbps
      case SetProxyProtocol(on) => l.proxyProtocol == on
      case SetAcceptUDP(on) => l.acceptUDP == on
      case SetLoadBalance(on) => l.loadBalance == on && l.healthFailover == (!on && s.healthFailover)
  {
    hide IsKCP, IsMux, IsWS, NeedsTLS, IsDatagram, MonitorBind, SupportsProxyProtocol, Given, Listed;
  }

  lemma EditKeepsIdentity(s: TunnelSpec, e: Edit)
    ensures Edited(s, e).name == s.name && Address(Edited(s, e)) == Address(s)
  {
    hide Edited;
    EditKeepsAddresses(s, e);
  }

  lemma EditStaysSpellable(toml: Edition, s: TunnelSpec, e: Edit)
    ensures Spellable(toml, SpecFields(Edited(s, e))) <==> Spellable(toml, SpecFields(s))
  {
    hide Spellable, SpecFields, Spelling, SameBut, Touches, KindOf, Written, PartsOf, InOrder, Sound, Typed, Edited,
      FileTable;
    EditedTables(s, e);
    SpecFieldsProper(s);
    SpecFieldsProper(Edited(s, e));
    assert RankOf(Edited(s, e)) == RankOf(s);
    forall k: Name | Touched(e)(k) ensures KindOf(k).KNumber? || KindOf(k).KFlag? { TouchedArePlain(e, k); }
    SpellableEitherWay(toml, SpecFields(s), SpecFields(Edited(s, e)), Touched(e), KindOf);
  }
}
