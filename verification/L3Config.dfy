/** A direct tunnel's [l3] file: the settings, how they are rendered, and how a
    file is loaded back into them. */
module L3Config {
  import opened Wrappers
  import opened Toml
  import opened ConfigKeys
  import opened GoText

  datatype LinkKey =
    | ModeKey | AddrKey | TokenKey | CarrierKey | SniDomainKey | EncapKey | GreKeyKey

  datatype NetKey =
    | IfaceKey | LocalIpKey | PeerIpKey | MtuKey | AutoMtuKey

  datatype QueueKey =
    | PresetKey | TxqueuelenKey | QdiscKey | SockbufKey | FecDataKey | FecParityKey | PathsKey
    | MssClampKey

  datatype ForgeKey =
    | SpoofProfileKey | SpoofUplinkKey | SpoofDownlinkKey | SpoofSrcIpKey | SpoofSrcPoolKey
    | SpoofPeerIpKey | SpoofInterfaceKey | SpoofXdpInterfaceKey | SpoofSockbufKey
    | SpoofPeerSrcIpKey

  datatype ShapeKey =
    | SpoofIcmpReplyKey | SpoofMtuKey | SpoofTtlJitterKey | SpoofRandomDscpKey | SpoofShufflePortKey
    | SpoofPortMinKey | SpoofPortMaxKey | SpoofPaddingKey | SpoofPaddingMaxKey | SpoofFakeTlsKey

  datatype PackKey =
    | PckInterfaceKey | PckGatewayMacKey | PckFlagsKey

  datatype ForwardKey =
    | PortsKey | AcceptUdpKey | MaxConnectionsKey | BandwidthMbpsKey

  /** Every key of the table, in seven families. */
  datatype Name =
    | Link(LinkKey)
    | Net(NetKey)
    | Queue(QueueKey)
    | Forge(ForgeKey)
    | Shape(ShapeKey)
    | Pack(PackKey)
    | Forward(ForwardKey)

  function LinkSpelling(k: LinkKey): string {
    match k
    case ModeKey => "mode"
    case AddrKey => "addr"
    case TokenKey => "token"
    case CarrierKey => "carrier"
    case SniDomainKey => "sni_domain"
    case EncapKey => "encap"
    case GreKeyKey => "gre_key"
  }

  function NetSpelling(k: NetKey): string {
    match k
    case IfaceKey => "iface"
    case LocalIpKey => "local_ip"
    case PeerIpKey => "peer_ip"
    case MtuKey => "mtu"
    case AutoMtuKey => "auto_mtu"
  }

  function QueueSpelling(k: QueueKey): string {
    match k
    case PresetKey => "preset"
    case TxqueuelenKey => "txqueuelen"
    case QdiscKey => "qdisc"
    case SockbufKey => "sockbuf"
    case FecDataKey => "fec_data"
    case FecParityKey => "fec_parity"
    case PathsKey => "paths"
    case MssClampKey => "mss_clamp"
  }

  function ForgeSpelling(k: ForgeKey): string {
    match k
    case SpoofProfileKey => "spoof_profile"
    case SpoofUplinkKey => "spoof_uplink"
    case SpoofDownlinkKey => "spoof_downlink"
    case SpoofSrcIpKey => "spoof_src_ip"
    case SpoofSrcPoolKey => "spoof_src_pool"
    case SpoofPeerIpKey => "spoof_peer_ip"
    case SpoofInterfaceKey => "spoof_interface"
    case SpoofXdpInterfaceKey => "spoof_xdp_interface"
    case SpoofSockbufKey => "spoof_sockbuf"
    case SpoofPeerSrcIpKey => "spoof_peer_src_ip"
  }

  function ShapeSpelling(k: ShapeKey): string {
    match k
    case SpoofIcmpReplyKey => "spoof_icmp_reply"
    case SpoofMtuKey => "spoof_mtu"
    case SpoofTtlJitterKey => "spoof_ttl_jitter"
    case SpoofRandomDscpKey => "spoof_random_dscp"
    case SpoofShufflePortKey => "spoof_shuffle_port"
    case SpoofPortMinKey => "spoof_port_min"
    case SpoofPortMaxKey => "spoof_port_max"
    case SpoofPaddingKey => "spoof_padding"
    case SpoofPaddingMaxKey => "spoof_padding_max"
    case SpoofFakeTlsKey => "spoof_fake_tls"
  }

  function PackSpelling(k: PackKey): string {
    match k
    case PckInterfaceKey => "pck_interface"
    case PckGatewayMacKey => "pck_gateway_mac"
    case PckFlagsKey => "pck_flags"
  }

  function ForwardSpelling(k: ForwardKey): string {
    match k
    case PortsKey => "ports"
    case AcceptUdpKey => "accept_udp"
    case MaxConnectionsKey => "max_connections"
    case BandwidthMbpsKey => "bandwidth_mbps"
  }

  function Spelling(n: Name): string {
    match n
    case Link(k) => LinkSpelling(k)
    case Net(k) => NetSpelling(k)
    case Queue(k) => QueueSpelling(k)
    case Forge(k) => ForgeSpelling(k)
    case Shape(k) => ShapeSpelling(k)
    case Pack(k) => PackSpelling(k)
    case Forward(k) => ForwardSpelling(k)
  }

  lemma LinkBare(k: LinkKey)
    ensures IsBareKey(LinkSpelling(k))
  {
  }

  lemma NetBare(k: NetKey)
    ensures IsBareKey(NetSpelling(k))
  {
  }

  lemma QueueBare(k: QueueKey)
    ensures IsBareKey(QueueSpelling(k))
  {
  }

  lemma ForgeBare(k: ForgeKey)
    ensures IsBareKey(ForgeSpelling(k))
  {
  }

  lemma ShapeBare(k: ShapeKey)
    ensures IsBareKey(ShapeSpelling(k))
  {
  }

  lemma PackBare(k: PackKey)
    ensures IsBareKey(PackSpelling(k))
  {
  }

  lemma ForwardBare(k: ForwardKey)
    ensures IsBareKey(ForwardSpelling(k))
  {
  }

  lemma LinkApart(a: LinkKey, b: Name)
    requires b != Link(a)
    ensures Spelling(b) != LinkSpelling(a)
  {
  }

  lemma NetApart(a: NetKey, b: Name)
    requires b != Net(a)
    ensures Spelling(b) != NetSpelling(a)
  {
  }

  lemma QueueApart(a: QueueKey, b: Name)
    requires b != Queue(a)
    ensures Spelling(b) != QueueSpelling(a)
  {
  }

  lemma ForgeApart(a: ForgeKey, b: Name)
    requires b != Forge(a)
    ensures Spelling(b) != ForgeSpelling(a)
  {
  }

  lemma ShapeApart(a: ShapeKey, b: Name)
    requires b != Shape(a)
    ensures Spelling(b) != ShapeSpelling(a)
  {
  }

  lemma PackApart(a: PackKey, b: Name)
    requires b != Pack(a)
    ensures Spelling(b) != PackSpelling(a)
  {
  }

  lemma ForwardApart(a: ForwardKey, b: Name)
    requires b != Forward(a)
    ensures Spelling(b) != ForwardSpelling(a)
  {
  }

  lemma NamesSpell()
    ensures Spells(Spelling)
  {
    hide IsBareKey;
    forall a: Name, b: Name | a != b ensures Spelling(a) != Spelling(b) { NamesSpellDifferently(a, b); }
    forall n: Name ensures IsBareKey(Spelling(n)) {
      match n
      case Link(k) => LinkBare(k);
      case Net(k) => NetBare(k);
      case Queue(k) => QueueBare(k);
      case Forge(k) => ForgeBare(k);
      case Shape(k) => ShapeBare(k);
      case Pack(k) => PackBare(k);
      case Forward(k) => ForwardBare(k);
    }
  }

  lemma NamesSpellDifferently(a: Name, b: Name)
    requires a != b
    ensures Spelling(a) != Spelling(b)
  {
    match a
    case Link(k) => LinkApart(k, b);
    case Net(k) => NetApart(k, b);
    case Queue(k) => QueueApart(k, b);
    case Forge(k) => ForgeApart(k, b);
    case Shape(k) => ShapeApart(k, b);
    case Pack(k) => PackApart(k, b);
    case Forward(k) => ForwardApart(k, b);
  }

  function KindOf(n: Name): Kind {
    match n
    case Link(ModeKey) | Link(AddrKey) | Link(TokenKey) | Link(CarrierKey) | Link(SniDomainKey) |
    Link(EncapKey) | Net(IfaceKey) | Net(LocalIpKey) | Net(PeerIpKey) | Queue(PresetKey) |
    Queue(QdiscKey) | Forge(SpoofProfileKey) | Forge(SpoofUplinkKey) | Forge(SpoofDownlinkKey) |
    Forge(SpoofSrcIpKey) | Forge(SpoofPeerIpKey) | Forge(SpoofInterfaceKey) |
    Forge(SpoofXdpInterfaceKey) | Forge(SpoofPeerSrcIpKey) | Pack(PckInterfaceKey) |
    Pack(PckGatewayMacKey) => KText
    case Net(AutoMtuKey) | Shape(SpoofIcmpReplyKey) | Shape(SpoofTtlJitterKey) |
    Shape(SpoofRandomDscpKey) | Shape(SpoofShufflePortKey) | Shape(SpoofPaddingKey) |
    Shape(SpoofFakeTlsKey) | Forward(AcceptUdpKey) => KFlag
    case Forge(SpoofSrcPoolKey) | Pack(PckFlagsKey) | Forward(PortsKey) => KList
    case _ => KNumber
  }

  /** Where a key comes in the table. */
  function Rank(n: Name): nat {
    match n
    case Link(ModeKey) => 1
    case Link(AddrKey) => 2
    case Link(TokenKey) => 3
    case Link(CarrierKey) => 4
    case Link(SniDomainKey) => 5
    case Link(EncapKey) => 6
    case Link(GreKeyKey) => 7
    case Net(IfaceKey) => 8
    case Net(LocalIpKey) => 9
    case Net(PeerIpKey) => 10
    case Net(MtuKey) => 11
    case Net(AutoMtuKey) => 12
    case Queue(PresetKey) => 13
    case Queue(TxqueuelenKey) => 14
    case Queue(QdiscKey) => 15
    case Queue(SockbufKey) => 16
    case Queue(FecDataKey) => 17
    case Queue(FecParityKey) => 18
    case Queue(PathsKey) => 19
    case Queue(MssClampKey) => 20
    case Forge(SpoofProfileKey) => 21
    case Forge(SpoofUplinkKey) => 22
    case Forge(SpoofDownlinkKey) => 23
    case Forge(SpoofSrcIpKey) => 24
    case Forge(SpoofSrcPoolKey) => 25
    case Forge(SpoofPeerIpKey) => 26
    case Forge(SpoofInterfaceKey) => 27
    case Forge(SpoofXdpInterfaceKey) => 28
    case Forge(SpoofSockbufKey) => 29
    case Forge(SpoofPeerSrcIpKey) => 30
    case Shape(SpoofIcmpReplyKey) => 31
    case Shape(SpoofMtuKey) => 32
    case Shape(SpoofTtlJitterKey) => 33
    case Shape(SpoofRandomDscpKey) => 34
    case Shape(SpoofShufflePortKey) => 35
    case Shape(SpoofPortMinKey) => 36
    case Shape(SpoofPortMaxKey) => 37
    case Shape(SpoofPaddingKey) => 38
    case Shape(SpoofPaddingMaxKey) => 39
    case Shape(SpoofFakeTlsKey) => 40
    case Pack(PckInterfaceKey) => 41
    case Pack(PckGatewayMacKey) => 42
    case Pack(PckFlagsKey) => 43
    case Forward(PortsKey) => 44
    case Forward(AcceptUdpKey) => 45
    case Forward(MaxConnectionsKey) => 46
    case Forward(BandwidthMbpsKey) => 47
  }

  // The settings, as the file's reader holds them and as the printer takes them.

  type UInt32 = n: int | 0 <= n < 0x1_0000_0000

  datatype Spoof = Spoof(
    profile: string, uplink: string, downlink: string, srcIP: string, srcPool: seq<string>,
    peerIP: string, iface: string, xdpIface: string, sockBuf: Int64, peerSrcIP: string, icmpReply: bool,
    mtu: Int64, ttlJitter: bool, randomDSCP: bool, shufflePort: bool, portMin: Int64, portMax: Int64,
    padding: bool, paddingMax: Int64, fakeTLS: bool)

  const NO_SPOOF := Spoof("", "", "", "", [], "", "", "", 0, "", false, 0, false, false, false, 0, 0, false, 0, false)

  datatype Pck = Pck(iface: string, gatewayMAC: string, flags: seq<string>)

  datatype L3Config = L3Config(
    mode: string, addr: string, token: string, carrier: string, sniDomain: string,
    encap: string, greKey: UInt32,
    iface: string, localIP: string, peerIP: string, mtu: Int64, autoMTU: Option<bool>,
    preset: string, txQueueLen: Int64, qdisc: string, sockBuf: Int64,
    fecData: Int64, fecParity: Int64, paths: Int64, mssClamp: Int64,
    spoof: Spoof, pck: Pck,
    ports: seq<string>, acceptUDP: bool, maxConnections: Int64, bandwidthMbps: Int64)

  datatype Side = Iran | Kharej

  datatype L3Spec = L3Spec(
    name: string, side: Side, addr: string, token: string, carrier: string, sniDomain: string,
    encap: string, greKey: UInt32,
    iface: string, localIP: string, peerIP: string, mtu: Int64, autoMTU: Option<bool>,
    preset: string, txQueueLen: Int64, qdisc: string, sockBuf: Int64,
    fecData: Int64, fecParity: Int64, paths: Int64, mssClamp: Int64,
    spoof: Spoof, pck: Pck,
    ports: seq<string>, acceptUDP: bool, maxConnections: Int64, bandwidthMbps: Int64)

  /** The explanatory comments are prose: only where they stand is modelled. */
  type Wording = w: nat -> string | forall n: nat :: IsNote(w(n)) witness (n: nat) => ""

  function CommentLines(w: Wording, guard: bool, first: nat, count: nat): seq<Line> {
    if guard then [Blank] + seq(count, i requires 0 <= i < count => Remark(w(first + i))) else []
  }

  function Comment(w: Wording, guard: bool, first: nat, count: nat): Field<Name> {
    Note(CommentLines(w, guard, first, count))
  }

  // What is printed, group by group in the order of the file.

  function ModeOf(side: Side): string { if side.Kharej? then "listen" else "dial" }

  predicate Announces(s: L3Spec) { s.carrier == "sni" && Given(s.sniDomain) }

  predicate Corrects(s: L3Spec) { s.fecData > 0 && s.fecParity > 0 }

  predicate Capped(s: L3Spec) { Listed(s.ports) && (s.maxConnections > 0 || s.bandwidthMbps > 0) }

  predicate SetByHand(p: Pck) { p != Pck("", "", []) }

  function LinkFields(s: L3Spec): seq<Field<Name>> {
    [Always(Link(ModeKey), Str(ModeOf(s.side))),
     Always(Link(AddrKey), Str(s.addr)),
     Always(Link(TokenKey), Str(s.token)),
     Always(Link(CarrierKey), Str(s.carrier)),
     When(Announces(s), Link(SniDomainKey), Str(s.sniDomain)),
     Always(Link(EncapKey), Str("gre")),
     When(s.greKey != 0, Link(GreKeyKey), Int(s.greKey))]
  }

  function NetFields(s: L3Spec, w: Wording): seq<Field<Name>> {
    [Comment(w, true, 5, 2),
     Always(Net(IfaceKey), Str(s.iface)),
     Always(Net(LocalIpKey), Str(s.localIP)),
     Always(Net(PeerIpKey), Str(s.peerIP)),
     Always(Net(MtuKey), Int(s.mtu)),
     Comment(w, s.autoMTU == Some(false), 7, 2),
     When(s.autoMTU == Some(false), Net(AutoMtuKey), Bool(false))]
  }

  function QueueFields(s: L3Spec, w: Wording): seq<Field<Name>> {
    [Comment(w, Given(s.preset), 9, 3),
     When(Given(s.preset), Queue(PresetKey), Str(s.preset)),
     When(Given(s.preset), Queue(TxqueuelenKey), Int(s.txQueueLen)),
     When(Given(s.preset), Queue(QdiscKey), Str(s.qdisc)),
     When(s.sockBuf > 0, Queue(SockbufKey), Int(s.sockBuf)),
     When(Corrects(s), Queue(FecDataKey), Int(s.fecData)),
     When(Corrects(s), Queue(FecParityKey), Int(s.fecParity)),
     When(s.paths > 1, Queue(PathsKey), Int(s.paths)),
     Comment(w, s.mssClamp != 0, 12, 2),
     When(s.mssClamp != 0, Queue(MssClampKey), Int(s.mssClamp))]
  }

  function ForgeFields(f: Spoof, w: Wording): seq<Field<Name>> {
    [Comment(w, f != NO_SPOOF, 14, 2),
     When(Given(f.profile), Forge(SpoofProfileKey), Str(f.profile)),
     When(Given(f.uplink), Forge(SpoofUplinkKey), Str(f.uplink)),
     When(Given(f.downlink), Forge(SpoofDownlinkKey), Str(f.downlink)),
     When(Given(f.srcIP), Forge(SpoofSrcIpKey), Str(f.srcIP)),
     FlatWhen(Listed(f.srcPool), Forge(SpoofSrcPoolKey), List(Trimmed(f.srcPool))),
     When(Given(f.peerIP), Forge(SpoofPeerIpKey), Str(f.peerIP)),
     When(Given(f.iface), Forge(SpoofInterfaceKey), Str(f.iface)),
     When(Given(f.xdpIface), Forge(SpoofXdpInterfaceKey), Str(f.xdpIface)),
     When(f.sockBuf > 0, Forge(SpoofSockbufKey), Int(f.sockBuf)),
     When(Given(f.peerSrcIP), Forge(SpoofPeerSrcIpKey), Str(f.peerSrcIP))]
  }

  function ShapeFields(f: Spoof): seq<Field<Name>> {
    [When(f.icmpReply, Shape(SpoofIcmpReplyKey), Bool(true)),
     When(f.mtu > 0, Shape(SpoofMtuKey), Int(f.mtu)),
     When(f.ttlJitter, Shape(SpoofTtlJitterKey), Bool(true)),
     When(f.randomDSCP, Shape(SpoofRandomDscpKey), Bool(true)),
     When(f.shufflePort, Shape(SpoofShufflePortKey), Bool(true)),
     When(f.portMin > 0, Shape(SpoofPortMinKey), Int(f.portMin)),
     When(f.portMax > 0, Shape(SpoofPortMaxKey), Int(f.portMax)),
     When(f.padding, Shape(SpoofPaddingKey), Bool(true)),
     When(f.paddingMax > 0, Shape(SpoofPaddingMaxKey), Int(f.paddingMax)),
     When(f.fakeTLS, Shape(SpoofFakeTlsKey), Bool(true))]
  }

  function PackFields(p: Pck, w: Wording): seq<Field<Name>> {
    [Comment(w, SetByHand(p), 16, 2),
     When(Given(p.iface), Pack(PckInterfaceKey), Str(p.iface)),
     When(Given(p.gatewayMAC), Pack(PckGatewayMacKey), Str(p.gatewayMAC)),
     FlatWhen(Listed(p.flags), Pack(PckFlagsKey), List(Trimmed(p.flags)))]
  }

  function ForwardFields(s: L3Spec, w: Wording): seq<Field<Name>> {
    [Comment(w, Listed(s.ports), 18, 2),
     FlatWhen(Listed(s.ports), Forward(PortsKey), List(Trimmed(s.ports))),
     When(Listed(s.ports), Forward(AcceptUdpKey), Bool(s.acceptUDP)),
     Comment(w, Capped(s), 20, 1),
     When(Capped(s), Forward(MaxConnectionsKey), Int(s.maxConnections)),
     When(Capped(s), Forward(BandwidthMbpsKey), Int(s.bandwidthMbps))]
  }

  function SpecFields(s: L3Spec, w: Wording): seq<Field<Name>> {
    LinkFields(s) + NetFields(s, w) + QueueFields(s, w) + ForgeFields(s.spoof, w) + ShapeFields(s.spoof)
      + PackFields(s.pck, w) + ForwardFields(s, w)
  }

  function TopLines(w: Wording): seq<Line> {
    [Remark(w(0)), Remark(w(1)), Remark(w(2)), Remark(w(3)), Remark(w(4)), Blank]
  }

  const COLUMN := 12

  function RenderedText(s: L3Spec, w: Wording, printable: Printable): string {
    LinesText(TopLines(w) + [Table("l3")], printable) + FieldsText(SpecFields(s, w), Spelling, COLUMN, printable)
  }

  // The printer itself.

  method WriteLink(out: Builder<Name>, s: L3Spec)
    requires out.Valid()
    modifies out
    ensures out.Valid() && out.fields == old(out.fields) + LinkFields(s)
  {
    hide FieldsText, Builder.Valid, When, Spelling, Given, Listed, Announces;
    out.P(Link(ModeKey), Str(ModeOf(s.side)));
    out.P(Link(AddrKey), Str(s.addr));
    out.P(Link(TokenKey), Str(s.token));
    out.P(Link(CarrierKey), Str(s.carrier));
    out.If(Announces(s), Link(SniDomainKey), Str(s.sniDomain));
    out.P(Link(EncapKey), Str("gre"));
    out.If(s.greKey != 0, Link(GreKeyKey), Int(s.greKey));
  }

  method WriteNet(out: Builder<Name>, s: L3Spec, w: Wording)
    requires out.Valid()
    modifies out
    ensures out.Valid() && out.fields == old(out.fields) + NetFields(s, w)
  {
    hide FieldsText, Builder.Valid, When, Spelling, Comment;
    out.Write(Comment(w, true, 5, 2));
    out.P(Net(IfaceKey), Str(s.iface));
    out.P(Net(LocalIpKey), Str(s.localIP));
    out.P(Net(PeerIpKey), Str(s.peerIP));
    out.P(Net(MtuKey), Int(s.mtu));
    out.Write(Comment(w, s.autoMTU == Some(false), 7, 2));
    out.If(s.autoMTU == Some(false), Net(AutoMtuKey), Bool(false));
  }

  method WriteQueue(out: Builder<Name>, s: L3Spec, w: Wording)
    requires out.Valid()
    modifies out
    ensures out.Valid() && out.fields == old(out.fields) + QueueFields(s, w)
  {
    hide FieldsText, Builder.Valid, When, Spelling, Comment, Given, Corrects;
    out.Write(Comment(w, Given(s.preset), 9, 3));
    out.If(Given(s.preset), Queue(PresetKey), Str(s.preset));
    out.If(Given(s.preset), Queue(TxqueuelenKey), Int(s.txQueueLen));
    out.If(Given(s.preset), Queue(QdiscKey), Str(s.qdisc));
    out.If(s.sockBuf > 0, Queue(SockbufKey), Int(s.sockBuf));
    out.If(Corrects(s), Queue(FecDataKey), Int(s.fecData));
    out.If(Corrects(s), Queue(FecParityKey), Int(s.fecParity));
    out.If(s.paths > 1, Queue(PathsKey), Int(s.paths));
    out.Write(Comment(w, s.mssClamp != 0, 12, 2));
    out.If(s.mssClamp != 0, Queue(MssClampKey), Int(s.mssClamp));
  }

  method WriteForge(out: Builder<Name>, f: Spoof, w: Wording)
    requires out.Valid()
    modifies out
    ensures out.Valid() && out.fields == old(out.fields) + ForgeFields(f, w)
  {
    hide FieldsText, Builder.Valid, When, FlatWhen, Spelling, Comment, Given, Listed, Trimmed;
    out.Write(Comment(w, f != NO_SPOOF, 14, 2));
    out.If(Given(f.profile), Forge(SpoofProfileKey), Str(f.profile));
    out.If(Given(f.uplink), Forge(SpoofUplinkKey), Str(f.uplink));
    out.If(Given(f.downlink), Forge(SpoofDownlinkKey), Str(f.downlink));
    out.If(Given(f.srcIP), Forge(SpoofSrcIpKey), Str(f.srcIP));
    out.Write(FlatWhen(Listed(f.srcPool), Forge(SpoofSrcPoolKey), List(Trimmed(f.srcPool))));
    out.If(Given(f.peerIP), Forge(SpoofPeerIpKey), Str(f.peerIP));
    out.If(Given(f.iface), Forge(SpoofInterfaceKey), Str(f.iface));
    out.If(Given(f.xdpIface), Forge(SpoofXdpInterfaceKey), Str(f.xdpIface));
    out.If(f.sockBuf > 0, Forge(SpoofSockbufKey), Int(f.sockBuf));
    out.If(Given(f.peerSrcIP), Forge(SpoofPeerSrcIpKey), Str(f.peerSrcIP));
  }

  method WriteShape(out: Builder<Name>, f: Spoof)
    requires out.Valid()
    modifies out
    ensures out.Valid() && out.fields == old(out.fields) + ShapeFields(f)
  {
    hide FieldsText, Builder.Valid, When, FlatWhen, Spelling, Comment, Given, Listed, Trimmed;
    out.If(f.icmpReply, Shape(SpoofIcmpReplyKey), Bool(true));
    out.If(f.mtu > 0, Shape(SpoofMtuKey), Int(f.mtu));
    out.If(f.ttlJitter, Shape(SpoofTtlJitterKey), Bool(true));
    out.If(f.randomDSCP, Shape(SpoofRandomDscpKey), Bool(true));
    out.If(f.shufflePort, Shape(SpoofShufflePortKey), Bool(true));
    out.If(f.portMin > 0, Shape(SpoofPortMinKey), Int(f.portMin));
    out.If(f.portMax > 0, Shape(SpoofPortMaxKey), Int(f.portMax));
    out.If(f.padding, Shape(SpoofPaddingKey), Bool(true));
    out.If(f.paddingMax > 0, Shape(SpoofPaddingMaxKey), Int(f.paddingMax));
    out.If(f.fakeTLS, Shape(SpoofFakeTlsKey), Bool(true));
  }

  method WritePckKeys(out: Builder<Name>, p: Pck, w: Wording)
    requires out.Valid()
    modifies out
    ensures out.Valid() && out.fields == old(out.fields) + PackFields(p, w)
  {
    hide FieldsText, Builder.Valid, When, FlatWhen, Spelling, Comment, Given, Listed, Trimmed, SetByHand;
    out.Write(Comment(w, SetByHand(p), 16, 2));
    out.If(Given(p.iface), Pack(PckInterfaceKey), Str(p.iface));
    out.If(Given(p.gatewayMAC), Pack(PckGatewayMacKey), Str(p.gatewayMAC));
    out.Write(FlatWhen(Listed(p.flags), Pack(PckFlagsKey), List(Trimmed(p.flags))));
  }

  method WriteForward(out: Builder<Name>, s: L3Spec, w: Wording)
    requires out.Valid()
    modifies out
    ensures out.Valid() && out.fields == old(out.fields) + ForwardFields(s, w)
  {
    hide FieldsText, Builder.Valid, When, FlatWhen, Spelling, Comment, Given, Listed, Trimmed, Capped;
    out.Write(Comment(w, Listed(s.ports), 18, 2));
    out.Write(FlatWhen(Listed(s.ports), Forward(PortsKey), List(Trimmed(s.ports))));
    out.If(Listed(s.ports), Forward(AcceptUdpKey), Bool(s.acceptUDP));
    out.Write(Comment(w, Capped(s), 20, 1));
    out.If(Capped(s), Forward(MaxConnectionsKey), Int(s.maxConnections));
    out.If(Capped(s), Forward(BandwidthMbpsKey), Int(s.bandwidthMbps));
  }

  /** l3Spec.render. */
  method Render(s: L3Spec, w: Wording, printable: Printable) returns (text: string)
    ensures text == RenderedText(s, w, printable)
  {
    hide FieldsText, Spelling, LinkFields, NetFields, QueueFields, ForgeFields, ShapeFields, PackFields,
      ForwardFields, LinesText;
    var out := new Builder(Spelling, COLUMN, printable, LinesText(TopLines(w) + [Table("l3")], printable));
    WriteLink(out, s);
    assert out.fields == LinkFields(s);
    WriteNet(out, s, w);
    WriteQueue(out, s, w);
    WriteForge(out, s.spoof, w);
    WriteShape(out, s.spoof);
    WritePckKeys(out, s.pck, w);
    WriteForward(out, s, w);
    return out.text;
  }
}
