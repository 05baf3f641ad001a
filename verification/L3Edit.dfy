/** The panel's edit of a direct tunnel: read the [l3] settings, fold the form in,
    build a spec, render it. What the next reader of the file finds. */
module L3Edit {
  import opened Wrappers
  import opened Toml
  import opened ConfigKeys
  import opened GoText
  import opened L3Config
  import opened L3RoundTrip

  datatype Preset = Preset(name: string, txQueueLen: Int64, sockBuf: Int64, qdisc: string)

  /** What the form sent. A field it did not send is None. The port list and the
      carrier's drawer are parsed elsewhere: inside, None is a form that was refused. */
  datatype DirectEdit = DirectEdit(
    ports: Option<Option<seq<string>>>, acceptUDP: Option<bool>, preset: Option<Preset>,
    mtu: Option<Int64>, autoMTU: Option<bool>, maxConnections: Option<Int64>, bandwidthMbps: Option<Int64>,
    drawer: Option<Option<Spoof>>, stealth: Option<bool>, paths: Option<Int64>, fec: Option<bool>)

  datatype Refusal = BadPorts | BadMTU | NotSpoof | BadDrawer | NotUDP | BadPaths | Unparsable

  const MAX_PATHS := 8

  /** Which profile names mean the tcp one. */
  type Profiles = string -> bool

  // The default error-correction plan.
  const FEC_DATA := 10
  const FEC_PARITY := 3

  function Stealthed(f: Spoof, tcp: Profiles): Spoof {
    f.(padding := true, paddingMax := 64, ttlJitter := true, randomDSCP := true, shufflePort := true,
       portMin := 49152, portMax := 65535,
       fakeTLS := f.fakeTLS || tcp(OrDefault(f.uplink, f.profile)) || tcp(OrDefault(f.downlink, f.profile)))
  }

  function Plain(f: Spoof): Spoof {
    f.(padding := false, paddingMax := 0, ttlJitter := false, randomDSCP := false, shufflePort := false,
       portMin := 0, portMax := 0, fakeTLS := false)
  }

  function Or<T>(sent: Option<T>, had: T): T { if sent.Some? then sent.value else had }

  /** The first thing wrong with a form, in the order it is checked. */
  function Refused(carrier: string, e: DirectEdit): Option<Refusal> {
    if e.ports.Some? && e.ports.value.None? then Some(BadPorts)
    else if e.mtu.Some? && e.mtu.value != 0 && (e.mtu.value < 576 || e.mtu.value > 9000) then Some(BadMTU)
    else if (e.drawer.Some? || e.stealth.Some?) && !FoldsTo(Trim(carrier), "spoof") then Some(NotSpoof)
    else if e.drawer.Some? && e.drawer.value.None? then Some(BadDrawer)
    else if e.paths.Some? && e.paths.value > 1 && !FoldsTo(Trim(OrDefault(carrier, "udp")), "udp") then Some(NotUDP)
    else if e.paths.Some? && (e.paths.value < 0 || e.paths.value > MAX_PATHS) then Some(BadPaths)
    else None
  }

  function OverlaidSpoof(f: Spoof, e: DirectEdit, tcp: Profiles): Spoof {
    var drawn := if e.drawer.Some? && e.drawer.value.Some? then e.drawer.value.value else f;
    match e.stealth case None => drawn case Some(on) => if on then Stealthed(drawn, tcp) else Plain(drawn)
  }

  function PortsAfter(l: L3Config, e: DirectEdit): seq<string> {
    if e.ports.Some? && e.ports.value.Some? then e.ports.value.value else l.ports
  }

  /** The settings with the form's answers laid over them, all at once. */
  function Overlay(l: L3Config, e: DirectEdit, tcp: Profiles): L3Config {
    l.(ports := PortsAfter(l, e),
       acceptUDP := Or(e.acceptUDP, l.acceptUDP),
       mtu := Or(e.mtu, l.mtu),
       autoMTU := if e.autoMTU.Some? then e.autoMTU else l.autoMTU,
       maxConnections := Or(e.maxConnections, l.maxConnections),
       bandwidthMbps := Or(e.bandwidthMbps, l.bandwidthMbps),
       spoof := OverlaidSpoof(l.spoof, e, tcp),
       paths := Or(e.paths, l.paths),
       fecData := match e.fec case None => l.fecData case Some(on) => if on then FEC_DATA else 0,
       fecParity := match e.fec case None => l.fecParity case Some(on) => if on then FEC_PARITY else 0)
  }

  /** The carrier's half of applyDirectEdit. */
  method ApplyCarrierEdit(config: L3Config, e: DirectEdit, tcp: Profiles) returns (r: Result<L3Config, Refusal>)
    requires e.ports.Some? ==> e.ports.value.Some?
    requires e.mtu.Some? ==> e.mtu.value == 0 || 576 <= e.mtu.value <= 9000
    ensures r.Ok? == Refused(config.carrier, e).None? && (r.Err? ==> Refused(config.carrier, e) == Some(r.error))
    ensures r.Ok? ==> r.value == config.(
      spoof := OverlaidSpoof(config.spoof, e, tcp), paths := Or(e.paths, config.paths),
      fecData := match e.fec case None => config.fecData case Some(on) => if on then FEC_DATA else 0,
      fecParity := match e.fec case None => config.fecParity case Some(on) => if on then FEC_PARITY else 0)
  {
    hide FoldsTo, Trim, Stealthed, Plain;
    var l := config;
    if (e.drawer.Some? || e.stealth.Some?) && !FoldsTo(Trim(l.carrier), "spoof") { return Err(NotSpoof); }
    if e.drawer.Some? {
      if e.drawer.value.None? { return Err(BadDrawer); }
      l := l.(spoof := e.drawer.value.value);
    }
    if e.stealth.Some? { l := l.(spoof := if e.stealth.value then Stealthed(l.spoof, tcp) else Plain(l.spoof)); }
    if e.paths.Some? {
      if e.paths.value > 1 && !FoldsTo(Trim(OrDefault(l.carrier, "udp")), "udp") { return Err(NotUDP); }
      if e.paths.value < 0 || e.paths.value > MAX_PATHS { return Err(BadPaths); }
      l := l.(paths := e.paths.value);
    }
    if e.fec.Some? {
      l := l.(fecData := if e.fec.value then FEC_DATA else 0, fecParity := if e.fec.value then FEC_PARITY else 0);
    }
    return Ok(l);
  }

  /** The answers nothing is checked about. */
  method ApplyPlainEdit(config: L3Config, e: DirectEdit) returns (l: L3Config)
    ensures l == config.(acceptUDP := Or(e.acceptUDP, config.acceptUDP),
      autoMTU := if e.autoMTU.Some? then e.autoMTU else config.autoMTU,
      maxConnections := Or(e.maxConnections, config.maxConnections),
      bandwidthMbps := Or(e.bandwidthMbps, config.bandwidthMbps))
  {
    l := config;
    if e.acceptUDP.Some? { l := l.(acceptUDP := e.acceptUDP.value); }
    if e.autoMTU.Some? { l := l.(autoMTU := Some(e.autoMTU.value)); }
    if e.maxConnections.Some? { l := l.(maxConnections := e.maxConnections.value); }
    if e.bandwidthMbps.Some? { l := l.(bandwidthMbps := e.bandwidthMbps.value); }
  }

  /** applyDirectEdit: field after field, stopping at the first refusal. */
  method ApplyDirectEdit(config: L3Config, e: DirectEdit, tcp: Profiles) returns (r: Result<L3Config, Refusal>)
    ensures r == match Refused(config.carrier, e) case Some(why) => Err(why) case None => Ok(Overlay(config, e, tcp))
  {
    hide FoldsTo, Trim, OverlaidSpoof;
    var l := config;
    if e.ports.Some? {
      if e.ports.value.None? { return Err(BadPorts); }
      l := l.(ports := e.ports.value.value);
    }
    if e.mtu.Some? {
      if e.mtu.value != 0 && (e.mtu.value < 576 || e.mtu.value > 9000) { return Err(BadMTU); }
      l := l.(mtu := e.mtu.value);
    }
    assert l == config.(ports := PortsAfter(config, e), mtu := Or(e.mtu, config.mtu));
    l := ApplyPlainEdit(l, e);
    r := ApplyCarrierEdit(l, e, tcp);
  }

  // From settings back to a spec: two copies of one table.

  function SideOf(l: L3Config): Side { if FoldsTo(Trim(l.mode), "listen") then Kharej else Iran }

  /** directSpecFrom, the panel's. Nothing is carried for sniDomain. */
  function DirectSpecFrom(name: string, l: L3Config): L3Spec {
    L3Spec(
      name := name, side := SideOf(l), addr := l.addr, token := l.token, carrier := OrDefault(l.carrier, "udp"),
      sniDomain := "", encap := OrDefault(l.encap, "gre"), greKey := l.greKey,
      iface := OrDefault(l.iface, "bp0"), localIP := l.localIP, peerIP := l.peerIP, mtu := l.mtu, autoMTU := l.autoMTU,
      preset := l.preset, txQueueLen := l.txQueueLen, qdisc := l.qdisc, sockBuf := l.sockBuf,
      fecData := l.fecData, fecParity := l.fecParity, paths := l.paths, mssClamp := l.mssClamp,
      spoof := l.spoof, pck := l.pck,
      ports := l.ports, acceptUDP := l.acceptUDP, maxConnections := l.maxConnections, bandwidthMbps := l.bandwidthMbps)
  }

  /** saveL3's, the terminal editor's. */
  function SavedSpec(name: string, l: L3Config): L3Spec {
    L3Spec(
      name := name, side := SideOf(l), addr := l.addr, token := l.token, carrier := OrDefault(l.carrier, "udp"),
      sniDomain := "", encap := "gre", greKey := l.greKey,
      iface := OrDefault(l.iface, "bp0"), localIP := l.localIP, peerIP := l.peerIP, mtu := l.mtu, autoMTU := l.autoMTU,
      preset := l.preset, txQueueLen := l.txQueueLen, qdisc := l.qdisc, sockBuf := l.sockBuf,
      fecData := l.fecData, fecParity := l.fecParity, paths := l.paths, mssClamp := l.mssClamp,
      spoof := l.spoof, pck := l.pck,
      ports := l.ports, acceptUDP := l.acceptUDP, maxConnections := l.maxConnections, bandwidthMbps := l.bandwidthMbps)
  }

  /** Both editors write the same file, whatever the settings' encap says. */
  lemma BothEditorsWriteTheSame(name: string, l: L3Config, w: Wording, printable: Printable)
    ensures RenderedText(SavedSpec(name, l), w, printable) == RenderedText(DirectSpecFrom(name, l), w, printable)
    ensures SavedSpec(name, l) == DirectSpecFrom(name, l).(encap := "gre")
  {
    hide FieldsText, LinesText, Spelling, FoldsTo, Trim, TopLines;
    PrintedWithoutEncap(DirectSpecFrom(name, l), w);
  }

  lemma PrintedWithoutEncap(s: L3Spec, w: Wording)
    ensures SpecFields(s.(encap := "gre"), w) == SpecFields(s, w)
  {
    hide Spelling, CommentLines, Trimmed, ForgeFields, ShapeFields, PackFields;
  }

  function Tuned(s: L3Spec, p: Option<Preset>): L3Spec {
    match p
    case None => s
    case Some(p) => s.(preset := p.name, txQueueLen := p.txQueueLen, sockBuf := p.sockBuf, qdisc := p.qdisc)
  }

  function TunedConfig(l: L3Config, p: Option<Preset>): L3Config {
    match p
    case None => l
    case Some(p) => l.(preset := p.name, txQueueLen := p.txQueueLen, sockBuf := p.sockBuf, qdisc := p.qdisc)
  }

  /** The text the form's answers come to. */
  function EditedText(name: string, l: L3Config, e: DirectEdit, tcp: Profiles, w: Wording,
                      printable: Printable): string {
    RenderedText(Tuned(DirectSpecFrom(name, Overlay(l, e, tcp)), e.preset), w, printable)
  }

  // The normal form, on the settings alone.

  predicate Forwards(l: L3Config) { Listed(l.ports) }

  predicate Caps(l: L3Config) { Listed(l.ports) && (l.maxConnections > 0 || l.bandwidthMbps > 0) }

  /** The settings as a file can hold them: defaults spelled out, what stands for
      unset taken as unset, halves of a pair and knobs of an absent feature dropped. */
  function Normal(l: L3Config): L3Config {
    L3Config(
      mode := ModeOf(SideOf(l)), addr := l.addr, token := l.token, carrier := OrDefault(l.carrier, "udp"),
      sniDomain := if l.carrier == "sni" then l.sniDomain else "", encap := "gre", greKey := l.greKey,
      iface := OrDefault(l.iface, "bp0"), localIP := l.localIP, peerIP := l.peerIP, mtu := l.mtu,
      autoMTU := if l.autoMTU == Some(false) then Some(false) else None,
      preset := l.preset, txQueueLen := if Given(l.preset) then l.txQueueLen else 0,
      qdisc := if Given(l.preset) then l.qdisc else "", sockBuf := Positive(l.sockBuf),
      fecData := if l.fecData > 0 && l.fecParity > 0 then l.fecData else 0,
      fecParity := if l.fecData > 0 && l.fecParity > 0 then l.fecParity else 0,
      paths := if l.paths > 1 then l.paths else 0, mssClamp := l.mssClamp,
      spoof := HeldSpoof(l.spoof), pck := HeldPck(l.pck),
      ports := Trimmed(l.ports), acceptUDP := Forwards(l) && l.acceptUDP,
      maxConnections := if Caps(l) then l.maxConnections else 0,
      bandwidthMbps := if Caps(l) then l.bandwidthMbps else 0)
  }

  lemma SpecHoldsNormal(name: string, l: L3Config)
    ensures Held(DirectSpecFrom(name, l)) == Normal(l).(sniDomain := "")
    ensures Held(DirectSpecFrom(name, l).(sniDomain := l.sniDomain)) == Normal(l)
  {
    hide FoldsTo, Trim, Trimmed, HeldSpoof, HeldPck;
  }

  lemma TunedSpec(name: string, l: L3Config, p: Option<Preset>)
    ensures Tuned(DirectSpecFrom(name, l), p) == DirectSpecFrom(name, TunedConfig(l, p))
  {
    hide FoldsTo, Trim;
  }

  /** EditDirectSettings up to the write: the text it puts on disk, decoded once before,
      or why it writes none. */
  ghost function EditDirectSettings(toml: Edition, name: string, l: L3Config, e: DirectEdit, tcp: Profiles,
                                    w: Wording, printable: Printable): Result<string, Refusal> {
    match Refused(l.carrier, e)
    case Some(why) => Err(why)
    case None =>
      var text := EditedText(name, l, e, tcp, w, printable);
      if LoadL3(toml, text).None? then Err(Unparsable) else Ok(text)
  }

  /** Every accepted edit writes a file that reads back as the settings it was made from
      with the form's answers over them, in normal form, less the SNI domain. Beyond
      what the form's checks refuse, an edit is refused exactly when a string in the
      outcome cannot be spelled. */
  lemma EditReadsBack(toml: Edition, name: string, l: L3Config, e: DirectEdit, tcp: Profiles, w: Wording,
                      printable: Printable)
    ensures var r := EditDirectSettings(toml, name, l, e, tcp, w, printable);
      var spelled := Spellable(toml, SpecFields(DirectSpecFrom(name, TunedConfig(Overlay(l, e, tcp), e.preset)), w));
      && (r.Ok? <==> Refused(l.carrier, e).None? && spelled)
      && (r == Err(Unparsable) <==> Refused(l.carrier, e).None? && !spelled)
      && (r.Ok? ==>
            LoadL3(toml, r.value) == Some(Normal(TunedConfig(Overlay(l, e, tcp), e.preset)).(sniDomain := "")))
  {
    hide Normal, Held, DirectSpecFrom, Overlay, TunedConfig, Tuned, Refused, SpecFields, RenderedText, LoadL3,
      Spellable;
    var after := TunedConfig(Overlay(l, e, tcp), e.preset);
    TunedSpec(name, Overlay(l, e, tcp), e.preset);
    LoadUndoesRender(toml, DirectSpecFrom(name, after), w, printable);
    SpecHoldsNormal(name, after);
    FormsParse(l.carrier, e);
  }

  lemma FormsParse(carrier: string, e: DirectEdit)
    ensures Refused(carrier, e) != Some(Unparsable)
  {
    hide FoldsTo, Trim;
  }

  /** Every setting the form names is in the file of an accepted edit as it was answered: an
      automatic MTU only when switched off, and answers about forwarding only beside
      ports. */
  lemma NamedSettingsTake(toml: Edition, name: string, l: L3Config, e: DirectEdit, tcp: Profiles, w: Wording,
                          printable: Printable)
    requires EditDirectSettings(toml, name, l, e, tcp, w, printable).Ok?
    ensures var file := LoadL3(toml, EditDirectSettings(toml, name, l, e, tcp, w, printable).value);
      file.Some? && TakesNumbers(file.value, l, e) && TakesForwarding(file.value, l, e)
      && TakesPreset(file.value, e) && TakesForging(file.value.spoof, l.spoof, e, tcp)
  {
    hide EditDirectSettings, Refused, LoadL3, Overlay, TunedConfig, Normal, TakesNumbers, TakesForwarding, TakesPreset,
      TakesForging, Held, SpecFields, DirectSpecFrom, Spellable;
    EditReadsBack(toml, name, l, e, tcp, w, printable);
    NumbersTaken(l, e, tcp);
    ForwardingTaken(l, e, tcp);
    PresetTaken(l, e, tcp);
    ForgingTaken(l, e, tcp);
  }

  predicate TakesNumbers(r: L3Config, l: L3Config, e: DirectEdit) {
    && (e.mtu.Some? ==> r.mtu == e.mtu.value)
    && (e.autoMTU.Some? ==> r.autoMTU == if e.autoMTU.value then None else Some(false))
    && (e.paths.Some? ==> r.paths == if e.paths.value > 1 then e.paths.value else 0)
    && (e.fec == Some(true) ==> r.fecData == 10 && r.fecParity == 3)
    && (e.fec == Some(false) ==> r.fecData == 0 && r.fecParity == 0)
  }

  predicate TakesForwarding(r: L3Config, l: L3Config, e: DirectEdit) {
    var conns := if e.maxConnections.Some? then e.maxConnections.value else l.maxConnections;
    var mbps := if e.bandwidthMbps.Some? then e.bandwidthMbps.value else l.bandwidthMbps;
    && (e.ports.Some? ==> e.ports.value.Some? && r.ports == Trimmed(e.ports.value.value))
    && (e.acceptUDP.Some? ==> r.acceptUDP == (r.ports != [] && e.acceptUDP.value))
    && (e.maxConnections.Some? ==>
          r.maxConnections == if r.ports != [] && (conns > 0 || mbps > 0) then e.maxConnections.value else 0)
    && (e.bandwidthMbps.Some? ==>
          r.bandwidthMbps == if r.ports != [] && (conns > 0 || mbps > 0) then e.bandwidthMbps.value else 0)
  }

  predicate TakesPreset(r: L3Config, e: DirectEdit) {
    e.preset.Some? ==>
      var p := e.preset.value;
      && r.preset == p.name && r.txQueueLen == (if p.name != "" then p.txQueueLen else 0)
      && r.qdisc == (if p.name != "" then p.qdisc else "") && r.sockBuf == (if p.sockBuf > 0 then p.sockBuf else 0)
  }

  /** The drawer is taken whole, and stealth over it: its wire settings on, with the TLS
      header where a direction is tcp's, or off. */
  predicate TakesForging(r: Spoof, had: Spoof, e: DirectEdit, tcp: Profiles) {
    (e.drawer.Some? ==> e.drawer.value.Some?) &&
    var f := if e.drawer.Some? then e.drawer.value.value else had;
    (e.drawer.Some? || e.stealth.Some? ==>
       && r.profile == f.profile && r.uplink == f.uplink && r.downlink == f.downlink
       && r.srcIP == f.srcIP && r.srcPool == Trimmed(f.srcPool) && r.peerIP == f.peerIP && r.peerSrcIP == f.peerSrcIP
       && r.iface == f.iface && r.xdpIface == f.xdpIface && r.icmpReply == f.icmpReply
       && r.sockBuf == (if f.sockBuf > 0 then f.sockBuf else 0) && r.mtu == (if f.mtu > 0 then f.mtu else 0)
       && match e.stealth
          case None =>
            && r.ttlJitter == f.ttlJitter && r.randomDSCP == f.randomDSCP && r.shufflePort == f.shufflePort
            && r.portMin == (if f.portMin > 0 then f.portMin else 0)
            && r.portMax == (if f.portMax > 0 then f.portMax else 0)
            && r.padding == f.padding && r.paddingMax == (if f.paddingMax > 0 then f.paddingMax else 0)
            && r.fakeTLS == f.fakeTLS
          case Some(on) =>
            && r.ttlJitter == on && r.randomDSCP == on && r.shufflePort == on && r.padding == on
            && r.portMin == (if on then 49152 else 0) && r.portMax == (if on then 65535 else 0)
            && r.paddingMax == (if on then 64 else 0)
            && (r.fakeTLS <==> on && (f.fakeTLS || tcp(if f.uplink != "" then f.uplink else f.profile)
                                      || tcp(if f.downlink != "" then f.downlink else f.profile))))
  }

  lemma NumbersTaken(l: L3Config, e: DirectEdit, tcp: Profiles)
    ensures TakesNumbers(Normal(TunedConfig(Overlay(l, e, tcp), e.preset)).(sniDomain := ""), l, e)
  {
    hide FoldsTo, Trim, Trimmed, HeldSpoof, HeldPck, OverlaidSpoof;
  }

  lemma ForwardingTaken(l: L3Config, e: DirectEdit, tcp: Profiles)
    requires Refused(l.carrier, e).None?
    ensures TakesForwarding(Normal(TunedConfig(Overlay(l, e, tcp), e.preset)).(sniDomain := ""), l, e)
  {
    hide FoldsTo, Trim, HeldSpoof, HeldPck, OverlaidSpoof;
  }

  lemma PresetTaken(l: L3Config, e: DirectEdit, tcp: Profiles)
    ensures TakesPreset(Normal(TunedConfig(Overlay(l, e, tcp), e.preset)).(sniDomain := ""), e)
  {
    hide FoldsTo, Trim, Trimmed, HeldSpoof, HeldPck, OverlaidSpoof;
  }

  lemma ForgingTaken(l: L3Config, e: DirectEdit, tcp: Profiles)
    requires Refused(l.carrier, e).None?
    ensures TakesForging(Normal(TunedConfig(Overlay(l, e, tcp), e.preset)).spoof, l.spoof, e, tcp)
  {
    DrawersParse(l.carrier, e);
    ForgingHeld(l.spoof, e, tcp);
    assert Normal(TunedConfig(Overlay(l, e, tcp), e.preset)).spoof == HeldSpoof(OverlaidSpoof(l.spoof, e, tcp)) by {
      hide HeldSpoof, OverlaidSpoof, FoldsTo, Trim, Trimmed, HeldPck;
    }
    hide TakesForging, Normal, TunedConfig, Overlay;
  }

  lemma DrawersParse(carrier: string, e: DirectEdit)
    requires Refused(carrier, e).None?
    ensures e.drawer.Some? ==> e.drawer.value.Some?
  {
    hide FoldsTo, Trim;
  }

  lemma ForgingHeld(had: Spoof, e: DirectEdit, tcp: Profiles)
    requires e.drawer.Some? ==> e.drawer.value.Some?
    ensures TakesForging(HeldSpoof(OverlaidSpoof(had, e, tcp)), had, e, tcp)
  {
    hide Trimmed;
    match e.stealth
    case None =>
    case Some(on) => if on { } else { }
  }

  /** A form passes exactly when all of this holds of what it names. */
  lemma FormsPassExactly(carrier: string, e: DirectEdit)
    ensures Refused(carrier, e).None? <==>
      && (e.ports.Some? ==> e.ports.value.Some?)
      && (e.mtu.Some? ==> e.mtu.value == 0 || 576 <= e.mtu.value <= 9000)
      && (e.drawer.Some? || e.stealth.Some? ==> FoldsTo(Trim(carrier), "spoof"))
      && (e.drawer.Some? ==> e.drawer.value.Some?)
      && (e.paths.Some? ==> 0 <= e.paths.value <= 8)
      && (e.paths.Some? && e.paths.value > 1 ==> FoldsTo(Trim(if carrier == "" then "udp" else carrier), "udp"))
  {
    hide FoldsTo, Trim;
  }

  /** Settings an edit saves as they stand, when it names nothing: exactly those that
      spell out their defaults and hold nothing a file cannot. */
  lemma NormalIsItselfExactly(l: L3Config)
    ensures Normal(l) == l <==>
      && l.mode in {"listen", "dial"} && l.carrier != "" && l.iface != "" && l.encap == "gre"
      && (l.sniDomain == "" || l.carrier == "sni") && (l.autoMTU.Some? ==> !l.autoMTU.value)
      && (l.preset == "" ==> l.txQueueLen == 0 && l.qdisc == "") && l.sockBuf >= 0
      && ((l.fecData > 0 && l.fecParity > 0) || (l.fecData == 0 && l.fecParity == 0))
      && (l.paths == 0 || l.paths > 1) && HeldSpoof(l.spoof) == l.spoof && HeldPck(l.pck) == l.pck
      && l.ports == Trimmed(l.ports) && (l.acceptUDP ==> l.ports != [])
      && (l.ports == [] || (l.maxConnections <= 0 && l.bandwidthMbps <= 0) ==>
            l.maxConnections == 0 && l.bandwidthMbps == 0)
  {
    hide Trim, Trimmed, HeldSpoof, HeldPck, FoldsTo;
    ModesFold();
    var n := Normal(l);
    assert n.mode == l.mode <==> l.mode in {"listen", "dial"};
    assert n.greKey == l.greKey && n.mssClamp == l.mssClamp && n.mtu == l.mtu;
  }

  /** What an edit does not name it does not change, beyond the normal form. */
  lemma UnnamedSettingsStay(l: L3Config, e: DirectEdit, tcp: Profiles)
    ensures var r, n := Normal(TunedConfig(Overlay(l, e, tcp), e.preset)), Normal(l);
      && r.mode == n.mode && r.addr == n.addr && r.token == n.token && r.carrier == n.carrier
      && r.sniDomain == n.sniDomain
      && r.encap == n.encap && r.greKey == n.greKey && r.iface == n.iface && r.localIP == n.localIP
      && r.peerIP == n.peerIP && r.mssClamp == n.mssClamp && r.pck == n.pck
      && (e.mtu.None? ==> r.mtu == n.mtu) && (e.autoMTU.None? ==> r.autoMTU == n.autoMTU)
      && (e.preset.None? ==>
            r.preset == n.preset && r.txQueueLen == n.txQueueLen && r.qdisc == n.qdisc && r.sockBuf == n.sockBuf)
      && (e.fec.None? ==> r.fecData == n.fecData && r.fecParity == n.fecParity)
      && (e.paths.None? ==> r.paths == n.paths)
      && (e.drawer.None? && e.stealth.None? ==> r.spoof == n.spoof)
      && (e.ports.None? ==> r.ports == n.ports && (e.acceptUDP.None? ==> r.acceptUDP == n.acceptUDP)
                            && (e.maxConnections.None? && e.bandwidthMbps.None? ==>
                                  r.maxConnections == n.maxConnections && r.bandwidthMbps == n.bandwidthMbps))
  {
    hide FoldsTo, Trim, Trimmed, HeldSpoof, HeldPck;
  }

  /** The one setting every edit loses, and exactly when: the file of a tunnel on
      the sni carrier that names a domain. The printer could hold it. */
  lemma EditLosesTheSniDomain(name: string, l: L3Config, w: Wording, printable: Printable)
    ensures Held(DirectSpecFrom(name, l)) == Normal(l) <==> l.carrier != "sni" || l.sniDomain == ""
    ensures Held(DirectSpecFrom(name, l).(sniDomain := l.sniDomain)) == Normal(l)
    ensures Held(SavedSpec(name, l)) == Held(DirectSpecFrom(name, l))
  {
    hide FoldsTo, Trim, Trimmed, HeldSpoof, HeldPck, DirectSpecFrom, SavedSpec;
    SpecHoldsNormal(name, l);
    BothEditorsWriteTheSame(name, l, w, printable);
    assert Normal(l).(sniDomain := "") == Normal(l) <==> Normal(l).sniDomain == "";
  }

  /** A tunnel that forwards no ports forgets an answer about forwarding: it is
      in the file only beside a port list. */
  lemma ForwardingAnswersNeedPorts(l: L3Config, e: DirectEdit, tcp: Profiles)
    requires l.ports == [] && e.ports.None?
    ensures !Normal(Overlay(l, e, tcp)).acceptUDP
    ensures Normal(Overlay(l, e, tcp)).maxConnections == 0 && Normal(Overlay(l, e, tcp)).bandwidthMbps == 0
  {
  }

  lemma NormalSpoofTwice(f: Spoof)
    ensures HeldSpoof(HeldSpoof(f)) == HeldSpoof(f)
  {
    TrimmedTwice(f.srcPool);
    hide Trimmed;
  }

  /** The normal form is one: an edited file edits to itself. */
  lemma NormalIdempotent(l: L3Config)
    ensures Normal(Normal(l)) == Normal(l)
  {
    TrimmedTwice(l.ports);
    TrimmedTwice(l.pck.flags);
    NormalSpoofTwice(l.spoof);
    assert |Trimmed(l.ports)| == |l.ports|;
    ModesFold();
    hide HeldSpoof, Trimmed, Trim, FoldsTo;
  }

  lemma ModesFold()
    ensures FoldsTo(Trim("listen"), "listen") && !FoldsTo(Trim("dial"), "listen")
  {
  }
}
