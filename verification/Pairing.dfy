/** A direct tunnel's settings handed to its other end: from one end's file to a
    setup link, to the mirrored form, to the other end's spec and file. */
module Pairing {
  import opened Wrappers
  import opened Decimal
  import opened Toml
  import opened GoText
  import opened ConfigKeys
  import L = L3Config
  import R = L3RoundTrip
  import E = L3Edit
  import F = ForgedSources
  import ReverseLoad

  // Addresses, as Go's net package takes them apart and puts them together.

  /** net.SplitHostPort: host and port, or None for an error. */
  function SplitHostPort(s: string): Option<(string, string)> {
    var i := LastIndex(s, ':');
    if i < 0 then None
    else if s[0] == '[' then
      var end := FirstIndex(s, ']');
      if end < 0 || end + 1 != i then None
      else if '[' in s[1..] || ']' in s[end + 1..] then None
      else Some((s[1..end], s[i + 1..]))
    else if ':' in s[..i] || '[' in s || ']' in s then None
    else Some((s[..i], s[i + 1..]))
  }

  function JoinHostPort(host: string, port: string): string {
    if ':' in host then "[" + host + "]:" + port else host + ":" + port
  }

  function AddrPort(addr: string): string {
    match SplitHostPort(addr) case Some((_, port)) => port case None => ""
  }

  function AddrHost(addr: string, other: string): string {
    match SplitHostPort(addr) case Some((host, _)) => (if host != "" then host else other) case None => other
  }

  predicate NoBrackets(s: string) { '[' !in s && ']' !in s }

  /** A port is what strconv.Atoi makes a number from 1 to 65535 of. */
  predicate ValidPort(s: string) {
    var digits := if s != [] && s[0] in {'+', '-'} then s[1..] else s;
    digits != [] && AllDigits(digits) && (s[0] != '-') && 1 <= NaturalValue(digits) <= 65535
  }

  lemma PortsArePlain(port: string)
    requires ValidPort(port)
    ensures ':' !in port && NoBrackets(port)
  {
    if port[0] == '+' { assert port == [port[0]] + port[1..]; }
  }

  lemma LastColon(s: string, i: nat)
    requires i < |s| && s[i] == ':' && ':' !in s[i + 1..]
    ensures LastIndex(s, ':') == i
  {
  }

  /** A host written in brackets of its own, without needing them. */
  predicate Bracketed(host: string) {
    |host| >= 2 && ':' !in host && host[0] == '[' && host[|host| - 1] == ']' && NoBrackets(host[1..|host| - 1])
  }

  /** The pieces of a joined address with a bracketed host. */
  lemma BracketedPieces(host: string, port: string)
    ensures var s, i := "[" + host + "]:" + port, |host| + 2;
            && |s| == i + 1 + |port| && s[0] == '[' && s[i] == ':' && s[i - 1] == ']'
            && s[i + 1..] == port && s[1..i - 1] == host && s[..i - 1] == "[" + host
            && s[1..] == host + ("]:" + port) && s[i..] == ":" + port
  {
  }

  lemma ColonHostPlain(host: string, port: string)
    requires ':' in host && ':' !in port && NoBrackets(port) && NoBrackets(host)
    ensures SplitHostPort("[" + host + "]:" + port) == Some((host, port))
  {
    var s, i := "[" + host + "]:" + port, |host| + 2;
    BracketedPieces(host, port);
    LastColon(s, i);
    FirstIndexIs(s, ']', i - 1);
    hide LastIndex, FirstIndex;
  }

  lemma ColonHostBracketed(host: string, port: string)
    requires ':' in host && ':' !in port && NoBrackets(port) && !NoBrackets(host)
    ensures SplitHostPort("[" + host + "]:" + port) == None
  {
    var s, i := "[" + host + "]:" + port, |host| + 2;
    BracketedPieces(host, port);
    LastColon(s, i);
    hide LastIndex;
    if ']' in host {
      assert ']' in s[..i - 1];
      assert FirstIndex(s, ']') != i - 1;
    } else {
      assert '[' in s[1..];
    }
  }

  lemma ColonHostJoins(host: string, port: string)
    requires ':' in host && ':' !in port && NoBrackets(port)
    ensures SplitHostPort("[" + host + "]:" + port) == if NoBrackets(host) then Some((host, port)) else None
  {
    hide SplitHostPort;
    if NoBrackets(host) { ColonHostPlain(host, port); } else { ColonHostBracketed(host, port); }
  }

  predicate ClosesAtEnd(host: string) {
    |host| >= 2 && host[|host| - 1] == ']' && ']' !in host[..|host| - 1]
  }

  lemma ClosedHostSplits(host: string, port: string)
    requires host != [] && host[0] == '[' && ClosesAtEnd(host) && ':' !in host && ':' !in port && NoBrackets(port)
    ensures SplitHostPort(host + ":" + port) == if Bracketed(host) then Some((host[1..|host| - 1], port)) else None
  {
    var s, i, inside := host + ":" + port, |host|, host[1..|host| - 1];
    assert host == "[" + inside + "]";
    assert s == "[" + inside + "]:" + port;
    BracketedPieces(inside, port);
    LastColon(s, i);
    FirstIndexIs(s, ']', i - 1);
    hide LastIndex, FirstIndex;
  }

  lemma UnclosedHostSplits(host: string, port: string)
    requires host != [] && host[0] == '[' && !ClosesAtEnd(host) && ':' !in host && ':' !in port && NoBrackets(port)
    ensures SplitHostPort(host + ":" + port) == None && !Bracketed(host)
  {
    var s, i := host + ":" + port, |host|;
    assert forall k :: 0 < k < i - 1 ==> host[1..i - 1][k - 1] == host[k];
    assert s[i] == ':' && s[i + 1..] == port;
    LastColon(s, i);
    hide LastIndex, FirstIndex;
    assert forall k :: 0 <= k < i ==> s[k] == host[k];
  }

  lemma PlainHostJoins(host: string, port: string)
    requires (host == [] || host[0] != '[') && ':' !in host && ':' !in port && NoBrackets(port)
    ensures SplitHostPort(host + ":" + port) == if NoBrackets(host) then Some((host, port)) else None
  {
    var s := host + ":" + port;
    assert s[|host|] == ':' && s[..|host|] == host && s[|host| + 1..] == port;
    LastColon(s, |host|);
    assert forall c :: c in s <==> c in host || c == ':' || c in port;
  }

  /** What was joined comes apart again, but for hosts with stray brackets. */
  lemma JoinSplits(host: string, port: string)
    requires ':' !in port && NoBrackets(port)
    ensures SplitHostPort(JoinHostPort(host, port)) ==
            if NoBrackets(host) then Some((host, port))
            else if Bracketed(host) then Some((host[1..|host| - 1], port))
            else None
  {
    if ':' in host { ColonHostJoins(host, port); }
    else if host != [] && host[0] == '[' {
      hide SplitHostPort;
      if ClosesAtEnd(host) { ClosedHostSplits(host, port); } else { UnclosedHostSplits(host, port); }
    }
    else { PlainHostJoins(host, port); }
  }

  // The engine's own reading of a setting.

  function EngineCarrier(carrier: string, beyond: char -> char): string {
    OrDefault(Lower(Trim(carrier), beyond), "udp")
  }

  function Sockets(paths: int): int { if paths > 1 then paths else 1 }

  function Correction(data: int, parity: int): Option<(int, int)> {
    if data > 0 && parity > 0 then Some((data, parity)) else None
  }

  // The link, the mirrored form and the setup form: the fields a direct tunnel uses.

  datatype ShareLink = ShareLink(
    from: L.Side, name: string, token: string, carrier: string, sni: string, port: string, host: string,
    preset: string, ports: string, acceptUDP: bool, localIP: string, peerIP: string,
    fecData: Int64, fecParity: Int64, paths: Int64, mtu: Int64,
    profile: string, uplink: string, downlink: string, srcIPs: string, stealth: bool, icmpReply: bool)

  datatype PeerForm = PeerForm(
    side: L.Side, name: string, carrier: string, sniDomain: string, serverAddr: string, tunnelPort: string,
    token: string, ports: string, acceptUDP: bool, preset: string, localIP: string, peerIP: string,
    paths: Int64, fec: bool, mtu: Int64, tune: Option<F.Tune>, stealth: bool, spoofPeerIP: string)

  datatype NewDirectTunnel = NewDirectTunnel(
    side: L.Side, carrier: string, name: string, token: string, peerAddr: string, tunnelPort: string,
    ports: string, acceptUDP: bool, localIP: string, peerIP: string, preset: string, sniDomain: string,
    greKey: L.UInt32, paths: Int64, fec: bool, tune: Option<F.Tune>, stealth: bool, spoofPeerIP: string)

  datatype PairError =
    | NoToken | BadCarrier | BadPort | BadName | NoAddress | NoPorts | BadPorts
    | BadForge(why: F.ForgeError) | Unparsable

  /** What the receiving machine and the parts not shown decide. */
  datatype Site = Site(
    beyond: char -> char, net: F.Addresses,
    joinPorts: seq<string> -> string, parsePorts: string -> seq<string>, portsValid: seq<string> -> bool,
    preset: string -> E.Preset, uniqueName: string -> string,
    freeSubnet: L.Side -> (string, string), freeIface: string)

  function Opposite(side: L.Side): L.Side { if side.Iran? then L.Kharej else L.Iran }

  /** ShareLinkFor, of a direct tunnel. */
  function LinkOf(l: L.L3Config, name: string, host: string, site: Site): Result<ShareLink, PairError> {
    if l.token == "" then Err(NoToken)
    else Ok(ShareLink(
      from := E.SideOf(l), name := name, token := l.token, carrier := OrDefault(l.carrier, "udp"), sni := l.sniDomain,
      port := AddrPort(l.addr), host := Trim(host), preset := l.preset, ports := site.joinPorts(l.ports),
      acceptUDP := l.acceptUDP, localIP := l.localIP, peerIP := l.peerIP,
      fecData := l.fecData, fecParity := l.fecParity, paths := l.paths, mtu := l.mtu,
      profile := l.spoof.profile, uplink := l.spoof.uplink, downlink := l.spoof.downlink,
      srcIPs := F.Listed(l.spoof), stealth := F.StealthOn(l.spoof), icmpReply := l.spoof.icmpReply))
  }

  function SideName(side: L.Side): string { if side.Iran? then "iran" else "kharej" }

  function TrimSuffix(s: string, suffix: string): string {
    if |suffix| <= |s| && s[|s| - |suffix|..] == suffix then s[..|s| - |suffix|] else s
  }

  function PeerName(link: ShareLink): string {
    if link.name == "" then ""
    else TrimSuffix(TrimSuffix(link.name, "-iran"), "-kharej") + "-" + SideName(Opposite(link.from))
  }

  function HostOf(addr: string): string {
    var i := FirstIndex(addr, '/');
    if i >= 0 then addr[..i] else addr
  }

  /** The mirrored drawer: a link that says anything of the carrier fills it, and the
      one source the producer forges is the one to expect. */
  function TuneFrom(link: ShareLink): Option<F.Tune> {
    if link.carrier == "spoof" || link.profile != "" || link.uplink != "" || link.downlink != "" || link.srcIPs != ""
    then Some(F.Tune(link.profile, link.uplink, link.downlink, SourceToExpect(link.srcIPs), link.icmpReply))
    else None
  }

  function SourceToExpect(srcIPs: string): string {
    match F.Single(srcIPs) case Some(ip) => ip case None => ""
  }

  function MirrorForPeer(link: ShareLink): PeerForm {
    var side := Opposite(link.from);
    PeerForm(
      side := side, name := PeerName(link), carrier := link.carrier, sniDomain := link.sni,
      serverAddr := if side.Iran? then link.host else "", tunnelPort := link.port, token := link.token,
      ports := if side.Iran? then link.ports else "", acceptUDP := side.Iran? && link.acceptUDP,
      preset := link.preset, localIP := link.peerIP, peerIP := HostOf(link.localIP),
      paths := link.paths, fec := link.fecData > 0 && link.fecParity > 0, mtu := link.mtu,
      tune := TuneFrom(link), stealth := link.stealth, spoofPeerIP := if TuneFrom(link).Some? then link.host else "")
  }

  /** The setup form takes no GRE key and no MTU, and only a flag for error correction. */
  function ToNewDirectTunnel(f: PeerForm): NewDirectTunnel {
    NewDirectTunnel(
      side := f.side, carrier := f.carrier, name := f.name, token := f.token, peerAddr := f.serverAddr,
      tunnelPort := f.tunnelPort, ports := f.ports, acceptUDP := f.acceptUDP, localIP := f.localIP, peerIP := f.peerIP,
      preset := f.preset, sniDomain := f.sniDomain, greKey := 0, paths := f.paths, fec := f.fec,
      tune := f.tune, stealth := f.stealth, spoofPeerIP := f.spoofPeerIP)
  }

  predicate OfferedCarrier(c: string) { c in {"pck", "udp", "quic", "sni", "spoof", "xdi"} }

  const DEFAULT_MTU := 1400

  function CarrierAsked(n: NewDirectTunnel, site: Site): string {
    OrDefault(Lower(Trim(n.carrier), site.beyond), "pck")
  }

  function NameAsked(n: NewDirectTunnel): string {
    OrDefault(Trim(n.name), "l3-" + SideName(n.side) + "-" + Trim(n.tunnelPort))
  }

  function AddrAsked(n: NewDirectTunnel): string {
    JoinHostPort(if n.side.Iran? then Trim(n.peerAddr) else "0.0.0.0", Trim(n.tunnelPort))
  }

  function AddressesAsked(n: NewDirectTunnel, site: Site): (string, string) {
    if Trim(n.localIP) == "" || Trim(n.peerIP) == "" then site.freeSubnet(n.side) else (Trim(n.localIP), Trim(n.peerIP))
  }

  function PortsAsked(n: NewDirectTunnel, site: Site): seq<string> {
    if n.side.Iran? then site.parsePorts(n.ports) else []
  }

  /** What the form refuses, in the order it asks. */
  function FormError(n: NewDirectTunnel, site: Site): Option<PairError> {
    if !OfferedCarrier(CarrierAsked(n, site)) then Some(BadCarrier)
    else if !ValidPort(Trim(n.tunnelPort)) then Some(BadPort)
    else if !ReverseLoad.ValidName(NameAsked(n)) then Some(BadName)
    else if Trim(n.token) == "" then Some(NoToken)
    else if n.side.Iran? && Trim(n.peerAddr) == "" then Some(NoAddress)
    else if n.side.Iran? && PortsAsked(n, site) == [] then Some(NoPorts)
    else if n.side.Iran? && !site.portsValid(PortsAsked(n, site)) then Some(BadPorts)
    else None
  }

  /** Only the spoof carrier looks at the drawer. */
  function ForgeAsked(n: NewDirectTunnel, site: Site): Result<L.Spoof, F.ForgeError> {
    if CarrierAsked(n, site) == "spoof"
    then F.SpoofAsked(n.tune, n.spoofPeerIP, n.stealth, n.side, site.beyond, site.net)
    else Ok(L.NO_SPOOF)
  }

  /** NewDirectTunnel.spec. */
  function SpecOf(n: NewDirectTunnel, site: Site): Result<L.L3Spec, PairError> {
    if FormError(n, site).Some? then Err(FormError(n, site).value)
    else if ForgeAsked(n, site).Err? then Err(BadForge(ForgeAsked(n, site).error))
    else
      var preset := site.preset(Lower(Trim(n.preset), site.beyond));
      Ok(L.L3Spec(
        name := site.uniqueName(NameAsked(n)), side := n.side, addr := AddrAsked(n), token := Trim(n.token),
        carrier := CarrierAsked(n, site), sniDomain := Lower(Trim(n.sniDomain), site.beyond),
        encap := "gre", greKey := n.greKey, iface := site.freeIface,
        localIP := AddressesAsked(n, site).0, peerIP := AddressesAsked(n, site).1, mtu := DEFAULT_MTU, autoMTU := None,
        preset := preset.name, txQueueLen := preset.txQueueLen, qdisc := preset.qdisc, sockBuf := preset.sockBuf,
        fecData := if n.fec then E.FEC_DATA else 0, fecParity := if n.fec then E.FEC_PARITY else 0,
        paths := if n.paths > 1 then n.paths else 0, mssClamp := 0,
        spoof := ForgeAsked(n, site).value, pck := L.Pck("", "", []),
        ports := PortsAsked(n, site), acceptUDP := n.side.Iran? && n.acceptUDP,
        maxConnections := 0, bandwidthMbps := 0))
  }

  /** The whole chain, from one end's settings to the other end's. */
  function PeerSpec(l: L.L3Config, name: string, host: string, site: Site): Result<L.L3Spec, PairError> {
    match LinkOf(l, name, host, site)
    case Err(why) => Err(why)
    case Ok(link) => SpecOf(ToNewDirectTunnel(MirrorForPeer(link)), site)
  }

  lemma OfferedIsPlain(c: string, beyond: char -> char)
    requires OfferedCarrier(c)
    ensures EngineCarrier(c, beyond) == c && c != ""
  {
    assert Tight(c);
    TrimIsTight(c);
    assert Lower(c, beyond) == c;
  }

  /** A host an address can be taken apart into again. */
  predicate Reachable(host: string) { NoBrackets(host) || Bracketed(host) }

  lemma JoinedPort(host: string, port: string)
    requires ValidPort(port)
    ensures AddrPort(JoinHostPort(host, port)) == if Reachable(host) then port else ""
  {
    PortsArePlain(port);
    JoinSplits(host, port);
    hide SplitHostPort, JoinHostPort, ValidPort, NoBrackets, Bracketed;
  }

  lemma PortSurvives(n: NewDirectTunnel)
    requires ValidPort(Trim(n.tunnelPort))
    ensures AddrPort(AddrAsked(n)) ==
            if n.side.Kharej? || Reachable(Trim(n.peerAddr)) then Trim(n.tunnelPort) else ""
  {
    hide Trim, ValidPort, AddrPort, JoinHostPort;
    assert Reachable("0.0.0.0");
    JoinedPort(if n.side.Iran? then Trim(n.peerAddr) else "0.0.0.0", Trim(n.tunnelPort));
  }

  /** What the receiving end's file says, in terms of the producing end's. */
  lemma FarEnd(l: L.L3Config, name: string, host: string, site: Site)
    requires PeerSpec(l, name, host, site).Ok?
    ensures var far, carrier := PeerSpec(l, name, host, site).value, OrDefault(l.carrier, "udp");
      && far.side == Opposite(E.SideOf(l)) && far.token == Trim(l.token)
      && far.carrier == OrDefault(Lower(Trim(carrier), site.beyond), "pck") && OfferedCarrier(far.carrier)
      && far.greKey == 0 && far.paths == (if l.paths > 1 then l.paths else 0)
      && (far.fecData, far.fecParity) ==
           (if l.fecData > 0 && l.fecParity > 0 then (E.FEC_DATA, E.FEC_PARITY) else (0, 0))
  {
    hide Lower, Trim, ValidPort, ReverseLoad.ValidName, E.SideOf, AddrPort, PeerName, HostOf, JoinHostPort, ForgeAsked;
  }

  lemma FarAddress(l: L.L3Config, name: string, host: string, site: Site)
    requires PeerSpec(l, name, host, site).Ok?
    ensures var far, port := PeerSpec(l, name, host, site).value, Trim(AddrPort(l.addr));
      && ValidPort(port) && Trim(Trim(host)) == Trim(host)
      && far.addr == JoinHostPort(if E.SideOf(l).Kharej? then Trim(host) else "0.0.0.0", port)
      && AddrPort(far.addr) == (if E.SideOf(l).Iran? || Reachable(Trim(host)) then port else "")
      && (Trim(l.peerIP) != "" && Trim(HostOf(l.localIP)) != "" ==>
            far.localIP == Trim(l.peerIP) && far.peerIP == Trim(HostOf(l.localIP)))
  {
    TrimIsTight(host);
    var n := ToNewDirectTunnel(MirrorForPeer(LinkOf(l, name, host, site).value));
    hide Lower, Trim, ValidPort, ReverseLoad.ValidName, E.SideOf, PeerName, HostOf, JoinHostPort, SplitHostPort,
      Reachable;
    PortSurvives(n);
  }

  lemma TrimsToTight(s: string)
    ensures Trim(s) == s <==> Tight(s)
  {
    TrimIsTight(s);
  }

  lemma CarriersAgree(carrier: string, asked: string, beyond: char -> char)
    requires asked == OrDefault(Lower(Trim(OrDefault(carrier, "udp")), beyond), "pck") && OfferedCarrier(asked)
    ensures EngineCarrier(asked, beyond) == EngineCarrier(carrier, beyond) <==> carrier == "" || Trim(carrier) != ""
  {
    OfferedIsPlain(asked, beyond);
    OfferedIsPlain("udp", beyond);
    hide Trim;
    assert Lower(Trim(carrier), beyond) == "" <==> Trim(carrier) == "";
    if carrier == "" { EmptyTrims(); }
  }

  lemma EmptyTrims()
    ensures Trim("") == ""
  {
  }

  lemma HeldSides(s: L.L3Spec)
    ensures E.SideOf(R.Held(s)) == s.side
  {
    E.ModesFold();
    hide Trim, FoldsTo;
  }

  /** directBody: the receiving end's file, decoded once before it is written. */
  ghost function PeerFile(toml: Edition, l: L.L3Config, name: string, host: string, site: Site, w: L.Wording,
                          printable: Printable): Result<string, PairError> {
    match PeerSpec(l, name, host, site)
    case Err(why) => Err(why)
    case Ok(s) =>
      var text := L.RenderedText(s, w, printable);
      if R.LoadL3(toml, text).None? then Err(Unparsable) else Ok(text)
  }

  /** A setup ends with a file that holds `far`, or, exactly when a setting cannot be
      spelled, with none. */
  ghost predicate Leaves(file: Result<string, PairError>, far: L.L3Config, toml: Edition, s: L.L3Spec, w: L.Wording) {
    if Spellable(toml, L.SpecFields(s, w)) then file.Ok? && R.LoadL3(toml, file.value) == Some(far)
    else file == Err(Unparsable)
  }

  lemma SetupLeaves(toml: Edition, l: L.L3Config, name: string, host: string, site: Site, w: L.Wording,
                    printable: Printable)
    requires PeerSpec(l, name, host, site).Ok?
    ensures var s := PeerSpec(l, name, host, site).value;
      Leaves(PeerFile(toml, l, name, host, site, w, printable), R.Held(s), toml, s, w)
  {
    hide R.LoadL3, L.RenderedText, Spellable, L.SpecFields, R.Held, PeerSpec;
    R.LoadUndoesRender(toml, PeerSpec(l, name, host, site).value, w, printable);
  }

  /** The setup goes through exactly when all of this holds of what is asked for, and of
      the forged-source drawer on the carrier that has one. */
  lemma SetupsPassExactly(n: NewDirectTunnel, site: Site)
    ensures SpecOf(n, site).Ok? <==>
      && CarrierAsked(n, site) in {"pck", "udp", "quic", "sni", "spoof", "xdi"}
      && ValidPort(Trim(n.tunnelPort)) && Trim(n.token) != ""
      && ReverseLoad.ValidName(if Trim(n.name) != "" then Trim(n.name)
                               else "l3-" + (if n.side.Iran? then "iran" else "kharej") + "-" + Trim(n.tunnelPort))
      && (n.side.Iran? ==>
            Trim(n.peerAddr) != "" && site.parsePorts(n.ports) != [] && site.portsValid(site.parsePorts(n.ports)))
      && (CarrierAsked(n, site) == "spoof" ==>
            F.SpoofAsked(n.tune, n.spoofPeerIP, n.stealth, n.side, site.beyond, site.net).Ok?)
  {
    hide Trim, Lower, ValidPort, ReverseLoad.ValidName, F.SpoofAsked;
  }

  /** The two ends of a pair are named for one base, and naming goes back and forth. */
  lemma PeersShareABase(base: string, link: ShareLink)
    requires base != "" && TrimSuffix(base, "-iran") == base && TrimSuffix(base, "-kharej") == base
    requires link.name == base + "-" + SideName(link.from) || link.name == base
    ensures PeerName(link) == base + (if link.from.Iran? then "-kharej" else "-iran")
  {
    var own := base + "-" + SideName(link.from);
    if link.name == own {
      if link.from.Iran? {
        assert own == base + "-iran" && own[|base|..] == "-iran" && own[..|base|] == base;
      } else {
        assert own == base + "-kharej" && own[|base|..] == "-kharej" && own[..|base|] == base;
        assert own[|own| - 1] == 'j' && own[|own| - 5..][4] == 'j';
      }
    }
  }

  /** What else the receiving file holds: the ports and the UDP answer where it is the
      dialling end, which forwards them, and none where it is not; the preset by its name
      with its queue settings; an interface and, where the link brought no pair of
      addresses, a subnet of its own machine; and no caps and no clamp. */
  lemma PairForwards(l: L.L3Config, name: string, host: string, site: Site)
    requires PeerSpec(l, name, host, site).Ok?
    ensures var far := R.Held(PeerSpec(l, name, host, site).value);
      && far.ports == (if E.SideOf(l).Kharej? then Trimmed(site.parsePorts(site.joinPorts(l.ports))) else [])
      && far.acceptUDP == (E.SideOf(l).Kharej? && l.acceptUDP)
      && (E.SideOf(l).Kharej? ==> far.ports != [])
      && (var p := site.preset(Lower(Trim(l.preset), site.beyond));
          && far.preset == p.name && far.sockBuf == (if p.sockBuf > 0 then p.sockBuf else 0)
          && far.txQueueLen == (if p.name != "" then p.txQueueLen else 0)
          && far.qdisc == (if p.name != "" then p.qdisc else ""))
      && far.iface == site.freeIface
      && (Trim(l.peerIP) == "" || Trim(HostOf(l.localIP)) == "" ==>
            (far.localIP, far.peerIP) == site.freeSubnet(Opposite(E.SideOf(l))))
      && far.maxConnections == 0 && far.bandwidthMbps == 0 && far.mssClamp == 0
  {
    hide Lower, Trim, ValidPort, ReverseLoad.ValidName, E.SideOf, AddrPort, PeerName, HostOf, JoinHostPort, ForgeAsked,
      R.HeldSpoof, R.HeldPck, TuneFrom, F.Listed;
  }

  function EngineMTU(mtu: int): int { if mtu == 0 then DEFAULT_MTU else mtu }

  const DEFAULT_DOMAIN := "mci.ir"

  /** The two ends of a tunnel set up through a link: `far` is what the receiving end's
      file holds, if a file is written. The carriers part only when one end names a
      carrier of nothing but spaces, the tokens only over spaces at the ends of one;
      error correction agrees exactly when it is off or the standard plan, the GRE key
      when it is 0, the MTU when it is the default, and on the sni carrier the domain
      when it is lower case without spaces around it. */
  lemma PairAgrees(toml: Edition, l: L.L3Config, name: string, host: string, site: Site, w: L.Wording,
                   printable: Printable)
    requires PeerSpec(l, name, host, site).Ok?
    ensures var s := PeerSpec(l, name, host, site).value;
      var far := R.Held(s);
      && Leaves(PeerFile(toml, l, name, host, site, w, printable), far, toml, s, w)
      && E.SideOf(far) == Opposite(E.SideOf(l)) && far.encap == "gre"
      && (EngineCarrier(far.carrier, site.beyond) == EngineCarrier(l.carrier, site.beyond) <==>
            l.carrier == "" || Trim(l.carrier) != "")
      && (far.token == l.token <==> Tight(l.token))
      && Sockets(far.paths) == Sockets(l.paths)
      && (Correction(far.fecData, far.fecParity) == Correction(l.fecData, l.fecParity) <==>
            Correction(l.fecData, l.fecParity) in {None, Some((E.FEC_DATA, E.FEC_PARITY))})
      && (far.greKey == l.greKey <==> l.greKey == 0)
      && (EngineMTU(far.mtu) == EngineMTU(l.mtu) <==> l.mtu == 0 || l.mtu == DEFAULT_MTU)
      && (far.carrier == "sni" ==>
            (OrDefault(far.sniDomain, DEFAULT_DOMAIN) == OrDefault(l.sniDomain, DEFAULT_DOMAIN) <==>
             Lower(Trim(l.sniDomain), site.beyond) == l.sniDomain))
  {
    var s := PeerSpec(l, name, host, site).value;
    SetupLeaves(toml, l, name, host, site, w, printable);
    FarEnd(l, name, host, site);
    FarDefaults(l, name, host, site);
    HeldSides(s);
    TrimsToTight(l.token);
    CarriersAgree(l.carrier, s.carrier, site.beyond);
    DomainsAgree(l.sniDomain, site.beyond);
    hide PeerSpec, Leaves, Trim, Tight, E.SideOf, EngineCarrier, OfferedCarrier, Lower, R.HeldSpoof, R.HeldPck, Trimmed;
  }

  lemma FarDefaults(l: L.L3Config, name: string, host: string, site: Site)
    requires PeerSpec(l, name, host, site).Ok?
    ensures var s := PeerSpec(l, name, host, site).value;
      s.mtu == DEFAULT_MTU && s.sniDomain == Lower(Trim(l.sniDomain), site.beyond)
  {
    hide Lower, Trim, ValidPort, ReverseLoad.ValidName, E.SideOf, AddrPort, PeerName, HostOf, JoinHostPort, ForgeAsked;
  }

  /** A domain in spaces alone is no domain to one end and itself to the other. */
  lemma DomainsAgree(domain: string, beyond: char -> char)
    ensures var asked := Lower(Trim(domain), beyond);
      OrDefault(asked, DEFAULT_DOMAIN) == OrDefault(domain, DEFAULT_DOMAIN) <==> asked == domain
  {
    EmptyTrims();
    TrimIsTight(domain);
    if domain != "" && Lower(Trim(domain), beyond) == "" {
      assert Trim(domain) == "";
      assert domain != DEFAULT_DOMAIN by { assert Tight(DEFAULT_DOMAIN); }
    }
    hide Trim;
  }

  /** What a link from these settings fills the drawer with. */
  function DrawerFrom(l: L.L3Config): Option<F.Tune> {
    var f := l.spoof;
    if l.carrier == "spoof" || f.profile != "" || f.uplink != "" || f.downlink != "" || F.Listed(f) != ""
    then Some(F.Tune(f.profile, f.uplink, f.downlink, SourceToExpect(F.Listed(f)), f.icmpReply))
    else None
  }

  lemma ForgedSpec(l: L.L3Config, name: string, host: string, site: Site)
    requires PeerSpec(l, name, host, site).Ok? && PeerSpec(l, name, host, site).value.carrier == "spoof"
    ensures var peer := if DrawerFrom(l).Some? then Trim(host) else "";
      F.SpoofAsked(DrawerFrom(l), peer, F.StealthOn(l.spoof), Opposite(E.SideOf(l)), site.beyond, site.net) ==
      Ok(PeerSpec(l, name, host, site).value.spoof)
  {
    hide Lower, Trim, ValidPort, ReverseLoad.ValidName, E.SideOf, AddrPort, PeerName, HostOf, JoinHostPort,
      F.SpoofAsked, F.Listed, SourceToExpect, F.StealthOn;
  }

  lemma HeldAsAsked(f: L.Spoof)
    requires f.srcPool == [] && f.sockBuf == 0 && f.mtu == 0 && f.portMin >= 0 && f.portMax >= 0 && f.paddingMax >= 0
    ensures R.HeldSpoof(f) == f
  {
  }

  lemma SourceIsTight(srcIPs: string)
    ensures Trim(SourceToExpect(srcIPs)) == SourceToExpect(srcIPs)
  {
    EmptyTrims();
    F.PiecesAreTight(srcIPs);
    hide Trim, F.Pieces;
  }

  /** On the carrier that forges sources: the receiving end expects the one address the
      producing end forges, or none in particular. The packet profiles agree whenever
      the producing end's engine runs at all; the ping split does unless the link had
      nothing to say of the carrier; and of the stealth settings only a flag arrives. */
  lemma PairForges(l: L.L3Config, name: string, host: string, site: Site)
    requires PeerSpec(l, name, host, site).Ok? && PeerSpec(l, name, host, site).value.carrier == "spoof"
    ensures var far, filled := R.Held(PeerSpec(l, name, host, site).value).spoof, DrawerFrom(l).Some?;
      && (l.carrier == "spoof" ==> filled)
      && (F.AllKnown(l.spoof) ==> F.Directions(far) == F.Directions(l.spoof))
      && far.peerSrcIP == (if filled then SourceToExpect(F.Listed(l.spoof)) else "")
      && far.icmpReply == (filled && l.spoof.icmpReply)
      && far.peerIP == (if filled then Trim(host) else "")
      && (E.SideOf(l).Iran? ==> filled && site.net.isIP(far.peerIP))
      && (far.peerIP == "" || site.net.isIP(far.peerIP)) && (far.peerSrcIP == "" || site.net.isIPv4(far.peerSrcIP))
      && far.padding == F.StealthOn(l.spoof)
      && (far.fakeTLS <==> F.StealthOn(l.spoof) && (F.Directions(far).0 == "tcp" || F.Directions(far).1 == "tcp"))
  {
    var peer, stealth := if DrawerFrom(l).Some? then Trim(host) else "", F.StealthOn(l.spoof);
    var s := PeerSpec(l, name, host, site).value;
    ForgedSpec(l, name, host, site);
    ForgedDrawer(DrawerFrom(l), l.spoof, host, Opposite(E.SideOf(l)), site);
    HeldAsAsked(s.spoof);
    hide PeerSpec, Trim, E.SideOf, F.SpoofAsked, F.Listed, SourceToExpect, F.StealthOn, R.HeldSpoof, F.Directions,
      F.AllKnown;
  }

  lemma ForgedDrawer(tune: Option<F.Tune>, f: L.Spoof, host: string, side: L.Side, site: Site)
    requires tune == (if tune.Some?
                      then Some(F.Tune(f.profile, f.uplink, f.downlink, SourceToExpect(F.Listed(f)), f.icmpReply))
                      else None)
    requires tune.None? ==> f.profile == "" && f.uplink == "" && f.downlink == ""
    requires F.SpoofAsked(tune, if tune.Some? then Trim(host) else "", F.StealthOn(f), side, site.beyond, site.net).Ok?
    ensures var far := F.SpoofAsked(tune, if tune.Some? then Trim(host) else "", F.StealthOn(f), side, site.beyond,
                                    site.net).value;
      && far.srcPool == [] && far.sockBuf == 0 && far.mtu == 0
      && far.portMin >= 0 && far.portMax >= 0 && far.paddingMax >= 0
      && (F.AllKnown(f) ==> F.Directions(far) == F.Directions(f))
      && far.peerSrcIP == (if tune.Some? then SourceToExpect(F.Listed(f)) else "")
      && far.icmpReply == (tune.Some? && f.icmpReply)
      && far.peerIP == (if tune.Some? then Trim(host) else "")
      && (side.Kharej? ==> tune.Some? && site.net.isIP(far.peerIP))
      && (far.peerIP == "" || site.net.isIP(far.peerIP)) && (far.peerSrcIP == "" || site.net.isIPv4(far.peerSrcIP))
      && far.padding == F.StealthOn(f)
      && (far.fakeTLS <==> F.StealthOn(f) && (F.Directions(far).0 == "tcp" || F.Directions(far).1 == "tcp"))
  {
    var peer, stealth := if tune.Some? then Trim(host) else "", F.StealthOn(f);
    TrimIsTight(host);
    EmptyTrims();
    SourceIsTight(F.Listed(f));
    F.SpoofAskedHolds(tune, peer, stealth, side, site.beyond, site.net);
    if F.AllKnown(f) && tune.Some? {
      F.DirectionsArrive(f, tune.value, peer, stealth, side, site.beyond, site.net);
    }
    hide Trim, F.SpoofAsked, F.Listed, SourceToExpect, F.StealthOn;
  }

  /** The tunnel addresses cross over by host part, and the port is the same one,
      unless the address to dial has stray brackets in it. */
  lemma PairMeets(toml: Edition, l: L.L3Config, name: string, host: string, site: Site, w: L.Wording,
                  printable: Printable)
    requires PeerSpec(l, name, host, site).Ok?
    ensures var s := PeerSpec(l, name, host, site).value;
      var far := R.Held(s);
      && Leaves(PeerFile(toml, l, name, host, site, w, printable), far, toml, s, w)
      && AddrPort(far.addr) == (if E.SideOf(l).Iran? || Reachable(Trim(host)) then Trim(AddrPort(l.addr)) else "")
      && (E.SideOf(l).Kharej? && NoBrackets(Trim(host)) && host != "" ==> AddrHost(far.addr, "") == Trim(host))
      && (Trim(l.peerIP) != "" && Trim(HostOf(l.localIP)) != "" ==>
            far.localIP == Trim(l.peerIP) && far.peerIP == Trim(HostOf(l.localIP)))
  {
    FarAddress(l, name, host, site);
    PortsArePlain(Trim(AddrPort(l.addr)));
    JoinSplits(Trim(host), Trim(AddrPort(l.addr)));
    SetupLeaves(toml, l, name, host, site, w, printable);
    hide PeerSpec, Leaves, Trim, FoldsTo, R.HeldSpoof, R.HeldPck, Trimmed, SplitHostPort, JoinHostPort,
      ValidPort, HostOf;
  }

  // Two ends that do not agree.

  /** An Iran end with a GRE key, an error-correction plan and an MTU of its own. */
  const OWN_PLAN := L.L3Config(
    "dial", "h:443", "t", "udp", "", "gre", 7, "bp0", "", "", 1300, None, "", 0, "", 0, 4, 2, 0, 0,
    L.NO_SPOOF, L.Pck("", "", []), [], false, 0, 0)

  lemma PlainTextsPass(beyond: char -> char)
    ensures Trim("443") == "443" && Trim("t") == "t" && Trim("a-kharej") == "a-kharej" && Trim("udp") == "udp"
    ensures Trim("dial") == "dial" && Lower("udp", beyond) == "udp"
  {
    TrimIsTight("443");
    TrimIsTight("t");
    TrimIsTight("a-kharej");
    TrimIsTight("udp");
    TrimIsTight("dial");
  }

  lemma OwnPlanIsIran()
    ensures E.SideOf(OWN_PLAN).Iran?
  {
    PlainTextsPass((c: char) => c);
    hide Trim;
  }

  lemma OwnPlanPort()
    ensures AddrPort("h:443") == "443"
  {
    JoinSplits("h", "443");
    assert JoinHostPort("h", "443") == "h:443";
    hide SplitHostPort;
  }

  lemma PlainPort()
    ensures ValidPort("443")
  {
    assert "443"[..2] == "44" && "44"[..1] == "4" && "4"[..0] == "";
  }

  lemma PlainPeerName(link: ShareLink)
    requires link.name == "a" && link.from.Iran?
    ensures PeerName(link) == "a-kharej" && ReverseLoad.ValidName("a-kharej")
  {
    assert TrimSuffix("a", "-iran") == "a" && TrimSuffix("a", "-kharej") == "a";
  }

  lemma PlainFormPasses(n: NewDirectTunnel, site: Site)
    requires n.side.Kharej? && n.carrier == "udp" && n.tunnelPort == "443" && n.token == "t" && n.name == "a-kharej"
    requires ReverseLoad.ValidName("a-kharej")
    ensures FormError(n, site) == None && ForgeAsked(n, site) == Ok(L.NO_SPOOF)
  {
    PlainTextsPass(site.beyond);
    PlainPort();
    hide Trim, Lower, ValidPort, ReverseLoad.ValidName, F.SpoofAsked;
  }

  lemma OwnPlanSpec(site: Site)
    ensures PeerSpec(OWN_PLAN, "a", "", site).Ok?
  {
    OwnPlanIsIran();
    OwnPlanPort();
    var link := LinkOf(OWN_PLAN, "a", "", site).value;
    PlainPeerName(link);
    hide Trim, AddrPort, PeerName, E.SideOf, FormError, ForgeAsked, F.Listed, TuneFrom, ReverseLoad.ValidName;
    PlainFormPasses(ToNewDirectTunnel(MirrorForPeer(link)), site);
    hide AddrAsked, NameAsked, CarrierAsked, AddressesAsked, PortsAsked, Lower;
  }

  /** Its link sets the other end up without complaint, whatever that machine is like,
      and the two agree on none of the three. */
  lemma APairThatDisagrees(site: Site)
    ensures PeerSpec(OWN_PLAN, "a", "", site).Ok?
    ensures var far := R.Held(PeerSpec(OWN_PLAN, "a", "", site).value);
      && far.greKey != OWN_PLAN.greKey
      && Correction(far.fecData, far.fecParity) != Correction(OWN_PLAN.fecData, OWN_PLAN.fecParity)
      && EngineMTU(far.mtu) != EngineMTU(OWN_PLAN.mtu)
  {
    OwnPlanSpec(site);
    FarEnd(OWN_PLAN, "a", "", site);
    FarDefaults(OWN_PLAN, "a", "", site);
    hide PeerSpec, R.HeldSpoof, R.HeldPck, Trimmed, Trim, E.SideOf, Lower, OfferedCarrier;
  }
}
