/** An [l3] file loaded back, and what is left of a spec that was printed and
    loaded again. */
module L3RoundTrip {
  import opened Wrappers
  import opened Toml
  import opened TomlDocument
  import opened ConfigKeys
  import opened GoText
  import opened L3Config

  // The loader.

  /** A *bool: nil when the key is absent. */
  function OptionalFlag(m: Settings, n: Name): Option<bool> {
    match Read(m, Spelling, n) case Some(Bool(b)) => Some(b) case _ => None
  }

  function SpoofAt(m: Settings): Spoof {
    Spoof(
      profile := Text(m, Spelling, Forge(SpoofProfileKey)),
      uplink := Text(m, Spelling, Forge(SpoofUplinkKey)),
      downlink := Text(m, Spelling, Forge(SpoofDownlinkKey)),
      srcIP := Text(m, Spelling, Forge(SpoofSrcIpKey)),
      srcPool := Items(m, Spelling, Forge(SpoofSrcPoolKey)),
      peerIP := Text(m, Spelling, Forge(SpoofPeerIpKey)),
      iface := Text(m, Spelling, Forge(SpoofInterfaceKey)),
      xdpIface := Text(m, Spelling, Forge(SpoofXdpInterfaceKey)),
      sockBuf := Number(m, Spelling, Forge(SpoofSockbufKey)),
      peerSrcIP := Text(m, Spelling, Forge(SpoofPeerSrcIpKey)),
      icmpReply := Flag(m, Spelling, Shape(SpoofIcmpReplyKey)),
      mtu := Number(m, Spelling, Shape(SpoofMtuKey)),
      ttlJitter := Flag(m, Spelling, Shape(SpoofTtlJitterKey)),
      randomDSCP := Flag(m, Spelling, Shape(SpoofRandomDscpKey)),
      shufflePort := Flag(m, Spelling, Shape(SpoofShufflePortKey)),
      portMin := Number(m, Spelling, Shape(SpoofPortMinKey)),
      portMax := Number(m, Spelling, Shape(SpoofPortMaxKey)),
      padding := Flag(m, Spelling, Shape(SpoofPaddingKey)),
      paddingMax := Number(m, Spelling, Shape(SpoofPaddingMaxKey)),
      fakeTLS := Flag(m, Spelling, Shape(SpoofFakeTlsKey)))
  }

  function PckAt(m: Settings): Pck {
    Pck(Text(m, Spelling, Pack(PckInterfaceKey)), Text(m, Spelling, Pack(PckGatewayMacKey)),
        Items(m, Spelling, Pack(PckFlagsKey)))
  }

  function ConfigOf(m: Settings): L3Config
    requires 0 <= Number(m, Spelling, Link(GreKeyKey)) < 0x1_0000_0000
  {
    L3Config(
      mode := Text(m, Spelling, Link(ModeKey)), addr := Text(m, Spelling, Link(AddrKey)),
      token := Text(m, Spelling, Link(TokenKey)),
      carrier := Text(m, Spelling, Link(CarrierKey)), sniDomain := Text(m, Spelling, Link(SniDomainKey)),
      encap := Text(m, Spelling, Link(EncapKey)), greKey := Number(m, Spelling, Link(GreKeyKey)),
      iface := Text(m, Spelling, Net(IfaceKey)), localIP := Text(m, Spelling, Net(LocalIpKey)),
      peerIP := Text(m, Spelling, Net(PeerIpKey)),
      mtu := Number(m, Spelling, Net(MtuKey)), autoMTU := OptionalFlag(m, Net(AutoMtuKey)),
      preset := Text(m, Spelling, Queue(PresetKey)), txQueueLen := Number(m, Spelling, Queue(TxqueuelenKey)),
      qdisc := Text(m, Spelling, Queue(QdiscKey)), sockBuf := Number(m, Spelling, Queue(SockbufKey)),
      fecData := Number(m, Spelling, Queue(FecDataKey)), fecParity := Number(m, Spelling, Queue(FecParityKey)),
      paths := Number(m, Spelling, Queue(PathsKey)), mssClamp := Number(m, Spelling, Queue(MssClampKey)),
      spoof := SpoofAt(m), pck := PckAt(m),
      ports := Items(m, Spelling, Forward(PortsKey)), acceptUDP := Flag(m, Spelling, Forward(AcceptUdpKey)),
      maxConnections := Number(m, Spelling, Forward(MaxConnectionsKey)),
      bandwidthMbps := Number(m, Spelling, Forward(BandwidthMbpsKey)))
  }

  /** Decoding the file into the configuration, of which this is the [l3] table.
      None when it does not parse or a key holds the wrong type or range. */
  ghost function LoadL3(toml: Edition, text: string): Option<L3Config> {
    match ReadFile(toml, text)
    case None => None
    case Some(file) =>
      var m := if "l3" in file then file["l3"] else map[];
      if Decodes(m, Spelling, KindOf, Rank) && 0 <= Number(m, Spelling, Link(GreKeyKey)) < 0x1_0000_0000
      then Some(ConfigOf(m)) else None
  }

  // What survives.

  function HeldSpoof(f: Spoof): Spoof {
    f.(srcPool := Trimmed(f.srcPool), sockBuf := Positive(f.sockBuf), mtu := Positive(f.mtu),
       portMin := Positive(f.portMin), portMax := Positive(f.portMax), paddingMax := Positive(f.paddingMax))
  }

  function HeldPck(p: Pck): Pck { p.(flags := Trimmed(p.flags)) }

  /** The settings the printed file holds. */
  function Held(s: L3Spec): L3Config {
    L3Config(
      mode := ModeOf(s.side), addr := s.addr, token := s.token, carrier := s.carrier,
      sniDomain := if Announces(s) then s.sniDomain else "", encap := "gre", greKey := s.greKey,
      iface := s.iface, localIP := s.localIP, peerIP := s.peerIP, mtu := s.mtu,
      autoMTU := if s.autoMTU == Some(false) then Some(false) else None,
      preset := s.preset, txQueueLen := if Given(s.preset) then s.txQueueLen else 0,
      qdisc := if Given(s.preset) then s.qdisc else "", sockBuf := Positive(s.sockBuf),
      fecData := if Corrects(s) then s.fecData else 0, fecParity := if Corrects(s) then s.fecParity else 0,
      paths := if s.paths > 1 then s.paths else 0, mssClamp := s.mssClamp,
      spoof := HeldSpoof(s.spoof), pck := HeldPck(s.pck),
      ports := Trimmed(s.ports), acceptUDP := Listed(s.ports) && s.acceptUDP,
      maxConnections := if Capped(s) then s.maxConnections else 0,
      bandwidthMbps := if Capped(s) then s.bandwidthMbps else 0)
  }

  lemma LinkReads(m: Settings, s: L3Spec)
    requires Says(m, LinkFields(s), Spelling)
    ensures Text(m, Spelling, Link(ModeKey)) == ModeOf(s.side)
    ensures Text(m, Spelling, Link(AddrKey)) == s.addr
    ensures Text(m, Spelling, Link(TokenKey)) == s.token
    ensures Text(m, Spelling, Link(CarrierKey)) == s.carrier
    ensures Text(m, Spelling, Link(SniDomainKey)) == if Announces(s) then s.sniDomain else ""
    ensures Text(m, Spelling, Link(EncapKey)) == "gre"
    ensures Number(m, Spelling, Link(GreKeyKey)) == s.greKey
  {
    hide Spelling, Announces;
    SaysOf(m, LinkFields(s), Spelling, 0);
    SaysOf(m, LinkFields(s), Spelling, 1);
    SaysOf(m, LinkFields(s), Spelling, 2);
    SaysOf(m, LinkFields(s), Spelling, 3);
    SaysOf(m, LinkFields(s), Spelling, 4);
    SaysOf(m, LinkFields(s), Spelling, 5);
    SaysOf(m, LinkFields(s), Spelling, 6);
  }

  lemma NetReads(m: Settings, s: L3Spec, w: Wording)
    requires Says(m, NetFields(s, w), Spelling)
    ensures Text(m, Spelling, Net(IfaceKey)) == s.iface
    ensures Text(m, Spelling, Net(LocalIpKey)) == s.localIP
    ensures Text(m, Spelling, Net(PeerIpKey)) == s.peerIP
    ensures Number(m, Spelling, Net(MtuKey)) == s.mtu
    ensures OptionalFlag(m, Net(AutoMtuKey)) == if s.autoMTU == Some(false) then Some(false) else None
  {
    hide Spelling, Comment;
    SaysOf(m, NetFields(s, w), Spelling, 1);
    SaysOf(m, NetFields(s, w), Spelling, 2);
    SaysOf(m, NetFields(s, w), Spelling, 3);
    SaysOf(m, NetFields(s, w), Spelling, 4);
    SaysOf(m, NetFields(s, w), Spelling, 6);
  }

  lemma QueueReads(m: Settings, s: L3Spec, w: Wording)
    requires Says(m, QueueFields(s, w), Spelling)
    ensures Text(m, Spelling, Queue(PresetKey)) == s.preset
    ensures Number(m, Spelling, Queue(TxqueuelenKey)) == if Given(s.preset) then s.txQueueLen else 0
    ensures Text(m, Spelling, Queue(QdiscKey)) == if Given(s.preset) then s.qdisc else ""
    ensures Number(m, Spelling, Queue(SockbufKey)) == Positive(s.sockBuf)
    ensures Number(m, Spelling, Queue(FecDataKey)) == if Corrects(s) then s.fecData else 0
    ensures Number(m, Spelling, Queue(FecParityKey)) == if Corrects(s) then s.fecParity else 0
    ensures Number(m, Spelling, Queue(PathsKey)) == if s.paths > 1 then s.paths else 0
    ensures Number(m, Spelling, Queue(MssClampKey)) == s.mssClamp
  {
    hide Spelling, Comment, Corrects;
    SaysOf(m, QueueFields(s, w), Spelling, 1);
    SaysOf(m, QueueFields(s, w), Spelling, 2);
    SaysOf(m, QueueFields(s, w), Spelling, 3);
    SaysOf(m, QueueFields(s, w), Spelling, 4);
    SaysOf(m, QueueFields(s, w), Spelling, 5);
    SaysOf(m, QueueFields(s, w), Spelling, 6);
    SaysOf(m, QueueFields(s, w), Spelling, 7);
    SaysOf(m, QueueFields(s, w), Spelling, 9);
  }

  lemma TextReads(m: Settings, fs: seq<Field<Name>>, i: nat, n: Name, text: string)
    requires Says(m, fs, Spelling) && i < |fs| && fs[i] == When(Given(text), n, Str(text))
    ensures Text(m, Spelling, n) == text
  {
    SaysOf(m, fs, Spelling, i);
  }

  lemma NumberReads(m: Settings, fs: seq<Field<Name>>, i: nat, n: Name, number: Int64)
    requires Says(m, fs, Spelling) && i < |fs| && fs[i] == When(number > 0, n, Int(number))
    ensures Number(m, Spelling, n) == Positive(number)
  {
    SaysOf(m, fs, Spelling, i);
  }

  lemma ItemsRead(m: Settings, fs: seq<Field<Name>>, i: nat, n: Name, items: seq<string>)
    requires Says(m, fs, Spelling) && i < |fs| && fs[i] == FlatWhen(Listed(items), n, List(Trimmed(items)))
    ensures Items(m, Spelling, n) == Trimmed(items)
  {
    SaysOf(m, fs, Spelling, i);
  }

  lemma ForgeReads(m: Settings, f: Spoof, w: Wording)
    requires Says(m, ForgeFields(f, w), Spelling)
    ensures Text(m, Spelling, Forge(SpoofProfileKey)) == f.profile
    ensures Text(m, Spelling, Forge(SpoofUplinkKey)) == f.uplink
    ensures Text(m, Spelling, Forge(SpoofDownlinkKey)) == f.downlink
    ensures Text(m, Spelling, Forge(SpoofSrcIpKey)) == f.srcIP
    ensures Items(m, Spelling, Forge(SpoofSrcPoolKey)) == Trimmed(f.srcPool)
    ensures Text(m, Spelling, Forge(SpoofPeerIpKey)) == f.peerIP
    ensures Text(m, Spelling, Forge(SpoofInterfaceKey)) == f.iface
    ensures Text(m, Spelling, Forge(SpoofXdpInterfaceKey)) == f.xdpIface
    ensures Number(m, Spelling, Forge(SpoofSockbufKey)) == Positive(f.sockBuf)
    ensures Text(m, Spelling, Forge(SpoofPeerSrcIpKey)) == f.peerSrcIP
  {
    hide Spelling, Says, Text, Number, Items, When, FlatWhen, Given, Listed, Trimmed, Positive, Comment;
    var fs := ForgeFields(f, w);
    TextReads(m, fs, 1, Forge(SpoofProfileKey), f.profile);
    TextReads(m, fs, 2, Forge(SpoofUplinkKey), f.uplink);
    TextReads(m, fs, 3, Forge(SpoofDownlinkKey), f.downlink);
    TextReads(m, fs, 4, Forge(SpoofSrcIpKey), f.srcIP);
    ItemsRead(m, fs, 5, Forge(SpoofSrcPoolKey), f.srcPool);
    TextReads(m, fs, 6, Forge(SpoofPeerIpKey), f.peerIP);
    TextReads(m, fs, 7, Forge(SpoofInterfaceKey), f.iface);
    TextReads(m, fs, 8, Forge(SpoofXdpInterfaceKey), f.xdpIface);
    NumberReads(m, fs, 9, Forge(SpoofSockbufKey), f.sockBuf);
    TextReads(m, fs, 10, Forge(SpoofPeerSrcIpKey), f.peerSrcIP);
  }

  lemma ShapeReads(m: Settings, f: Spoof)
    requires Says(m, ShapeFields(f), Spelling)
    ensures Flag(m, Spelling, Shape(SpoofIcmpReplyKey)) == f.icmpReply
    ensures Number(m, Spelling, Shape(SpoofMtuKey)) == Positive(f.mtu)
    ensures Flag(m, Spelling, Shape(SpoofTtlJitterKey)) == f.ttlJitter
    ensures Flag(m, Spelling, Shape(SpoofRandomDscpKey)) == f.randomDSCP
    ensures Flag(m, Spelling, Shape(SpoofShufflePortKey)) == f.shufflePort
    ensures Number(m, Spelling, Shape(SpoofPortMinKey)) == Positive(f.portMin)
    ensures Number(m, Spelling, Shape(SpoofPortMaxKey)) == Positive(f.portMax)
    ensures Flag(m, Spelling, Shape(SpoofPaddingKey)) == f.padding
    ensures Number(m, Spelling, Shape(SpoofPaddingMaxKey)) == Positive(f.paddingMax)
    ensures Flag(m, Spelling, Shape(SpoofFakeTlsKey)) == f.fakeTLS
  {
    hide Spelling, Comment;
    SaysOf(m, ShapeFields(f), Spelling, 0);
    SaysOf(m, ShapeFields(f), Spelling, 1);
    SaysOf(m, ShapeFields(f), Spelling, 2);
    SaysOf(m, ShapeFields(f), Spelling, 3);
    SaysOf(m, ShapeFields(f), Spelling, 4);
    SaysOf(m, ShapeFields(f), Spelling, 5);
    SaysOf(m, ShapeFields(f), Spelling, 6);
    SaysOf(m, ShapeFields(f), Spelling, 7);
    SaysOf(m, ShapeFields(f), Spelling, 8);
    SaysOf(m, ShapeFields(f), Spelling, 9);
  }

  lemma PackReads(m: Settings, p: Pck, w: Wording)
    requires Says(m, PackFields(p, w), Spelling)
    ensures PckAt(m) == p.(flags := Trimmed(p.flags))
  {
    hide Spelling, Comment;
    SaysOf(m, PackFields(p, w), Spelling, 1);
    SaysOf(m, PackFields(p, w), Spelling, 2);
    SaysOf(m, PackFields(p, w), Spelling, 3);
  }

  lemma ForwardReads(m: Settings, s: L3Spec, w: Wording)
    requires Says(m, ForwardFields(s, w), Spelling)
    ensures Items(m, Spelling, Forward(PortsKey)) == Trimmed(s.ports)
    ensures Flag(m, Spelling, Forward(AcceptUdpKey)) == (Listed(s.ports) && s.acceptUDP)
    ensures Number(m, Spelling, Forward(MaxConnectionsKey)) == if Capped(s) then s.maxConnections else 0
    ensures Number(m, Spelling, Forward(BandwidthMbpsKey)) == if Capped(s) then s.bandwidthMbps else 0
  {
    hide Spelling, Comment, Capped;
    SaysOf(m, ForwardFields(s, w), Spelling, 1);
    SaysOf(m, ForwardFields(s, w), Spelling, 2);
    SaysOf(m, ForwardFields(s, w), Spelling, 4);
    SaysOf(m, ForwardFields(s, w), Spelling, 5);
  }

  lemma TableSays(m: Settings, s: L3Spec, w: Wording)
    requires Says(m, SpecFields(s, w), Spelling)
    ensures Says(m, LinkFields(s), Spelling)
    ensures Says(m, NetFields(s, w), Spelling)
    ensures Says(m, QueueFields(s, w), Spelling)
    ensures Says(m, ForgeFields(s.spoof, w), Spelling)
    ensures Says(m, ShapeFields(s.spoof), Spelling)
    ensures Says(m, PackFields(s.pck, w), Spelling)
    ensures Says(m, ForwardFields(s, w), Spelling)
  {
    hide Says, LinkFields, NetFields, QueueFields, ForgeFields, ShapeFields, PackFields, ForwardFields;
    var f1 := LinkFields(s) + NetFields(s, w);
    var f2 := f1 + QueueFields(s, w);
    var f3 := f2 + ForgeFields(s.spoof, w);
    var f4 := f3 + ShapeFields(s.spoof);
    var f5 := f4 + PackFields(s.pck, w);
    var f6 := f5 + ForwardFields(s, w);
    SaysSplits(m, f5, ForwardFields(s, w), Spelling);
    SaysSplits(m, f4, PackFields(s.pck, w), Spelling);
    SaysSplits(m, f3, ShapeFields(s.spoof), Spelling);
    SaysSplits(m, f2, ForgeFields(s.spoof, w), Spelling);
    SaysSplits(m, f1, QueueFields(s, w), Spelling);
    SaysSplits(m, LinkFields(s), NetFields(s, w), Spelling);
  }

  lemma CommentsAreNotes(w: Wording)
    ensures forall guard: bool, first: nat, count: nat :: IsNotes(CommentLines(w, guard, first, count))
  {
    hide IsNote;
  }

  lemma LinkProper(s: L3Spec)
    ensures Proper(LinkFields(s), KindOf, Rank, 0, 7)
  {
    hide Spelling, Trimmed;
  }

  lemma NetProper(s: L3Spec, w: Wording)
    ensures Proper(NetFields(s, w), KindOf, Rank, 7, 12)
  {
    hide Spelling, CommentLines, Trimmed;
    CommentsAreNotes(w);
  }

  lemma QueueInOrder(s: L3Spec, w: Wording)
    ensures InOrder(QueueFields(s, w), Rank, 12, 20)
  {
    hide Spelling, CommentLines, Trimmed;
  }

  lemma QueueTyped(s: L3Spec, w: Wording)
    ensures Typed(QueueFields(s, w), KindOf)
  {
    hide Spelling, CommentLines, Trimmed;
  }

  lemma QueueSound(s: L3Spec, w: Wording)
    ensures Sound(QueueFields(s, w))
  {
    hide Spelling, CommentLines, Trimmed;
    CommentsAreNotes(w);
  }

  lemma QueueProper(s: L3Spec, w: Wording)
    ensures Proper(QueueFields(s, w), KindOf, Rank, 12, 20)
  {
    hide InOrder, Typed, Sound, QueueFields;
    QueueInOrder(s, w);
    QueueTyped(s, w);
    QueueSound(s, w);
  }

  lemma ForgeInOrder(f: Spoof, w: Wording)
    ensures InOrder(ForgeFields(f, w), Rank, 20, 30)
  {
    hide Spelling, CommentLines, Trimmed;
  }

  lemma ForgeTyped(f: Spoof, w: Wording)
    ensures Typed(ForgeFields(f, w), KindOf)
  {
    hide Spelling, CommentLines, Trimmed;
  }

  lemma ForgeSound(f: Spoof, w: Wording)
    ensures Sound(ForgeFields(f, w))
  {
    hide Spelling, CommentLines, Trimmed;
    CommentsAreNotes(w);
  }

  lemma ForgeProper(f: Spoof, w: Wording)
    ensures Proper(ForgeFields(f, w), KindOf, Rank, 20, 30)
  {
    hide InOrder, Typed, Sound, ForgeFields;
    ForgeInOrder(f, w);
    ForgeTyped(f, w);
    ForgeSound(f, w);
  }

  lemma ShapeInOrder(f: Spoof)
    ensures InOrder(ShapeFields(f), Rank, 30, 40)
  {
    hide Spelling, Trimmed;
  }

  lemma ShapeTyped(f: Spoof)
    ensures Typed(ShapeFields(f), KindOf)
  {
    hide Spelling, Trimmed;
  }

  lemma ShapeSound(f: Spoof)
    ensures Sound(ShapeFields(f))
  {
    hide Spelling, Trimmed;
  }

  lemma ShapeProper(f: Spoof)
    ensures Proper(ShapeFields(f), KindOf, Rank, 30, 40)
  {
    hide InOrder, Typed, Sound, ShapeFields;
    ShapeInOrder(f);
    ShapeTyped(f);
    ShapeSound(f);
  }

  lemma PackProper(p: Pck, w: Wording)
    ensures Proper(PackFields(p, w), KindOf, Rank, 40, 43)
  {
    hide Spelling, CommentLines, Trimmed;
    CommentsAreNotes(w);
  }

  lemma ForwardProper(s: L3Spec, w: Wording)
    ensures Proper(ForwardFields(s, w), KindOf, Rank, 43, 47)
  {
    hide Spelling, CommentLines, Trimmed;
    CommentsAreNotes(w);
  }

  lemma FieldsProper(s: L3Spec, w: Wording)
    ensures Proper(SpecFields(s, w), KindOf, Rank, 0, 47)
  {
    hide Proper, LinkFields, NetFields, QueueFields, ForgeFields, ShapeFields, PackFields, ForwardFields;
    LinkProper(s);
    NetProper(s, w);
    QueueProper(s, w);
    ForgeProper(s.spoof, w);
    ShapeProper(s.spoof);
    PackProper(s.pck, w);
    ForwardProper(s, w);
    var f1 := LinkFields(s) + NetFields(s, w);
    ProperJoin(LinkFields(s), NetFields(s, w), KindOf, Rank, 0, 7, 12);
    var f2 := f1 + QueueFields(s, w);
    ProperJoin(f1, QueueFields(s, w), KindOf, Rank, 0, 12, 20);
    var f3 := f2 + ForgeFields(s.spoof, w);
    ProperJoin(f2, ForgeFields(s.spoof, w), KindOf, Rank, 0, 20, 30);
    var f4 := f3 + ShapeFields(s.spoof);
    ProperJoin(f3, ShapeFields(s.spoof), KindOf, Rank, 0, 30, 40);
    var f5 := f4 + PackFields(s.pck, w);
    ProperJoin(f4, PackFields(s.pck, w), KindOf, Rank, 0, 40, 43);
    var f6 := f5 + ForwardFields(s, w);
    ProperJoin(f5, ForwardFields(s, w), KindOf, Rank, 0, 43, 47);
  }

  lemma TableReads(m: Settings, s: L3Spec, w: Wording)
    requires Says(m, SpecFields(s, w), Spelling)
    ensures Number(m, Spelling, Link(GreKeyKey)) == s.greKey && ConfigOf(m) == Held(s)
  {
    hide Says, SpecFields, Spelling, Text, Number, Flag, Items, OptionalFlag, PckAt, Given, Listed, Announces,
      Corrects,
      Capped, Trimmed;
    TableSays(m, s, w);
    LinkReads(m, s);
    NetReads(m, s, w);
    QueueReads(m, s, w);
    SpoofReads(m, s.spoof, w);
    PackReads(m, s.pck, w);
    ForwardReads(m, s, w);
  }

  lemma SpoofReads(m: Settings, f: Spoof, w: Wording)
    requires Says(m, ForgeFields(f, w), Spelling) && Says(m, ShapeFields(f), Spelling)
    ensures SpoofAt(m) == HeldSpoof(f)
  {
    hide Says, Spelling, Text, Number, Flag, Items, Trimmed;
    ForgeReads(m, f, w);
    ShapeReads(m, f);
  }

  lemma TopIsNotes(w: Wording)
    ensures IsNotes(TopLines(w))
  {
    hide IsNote;
  }

  lemma TableNameIsBare()
    ensures IsBareKey("l3")
  {
  }

  lemma FileReads(toml: Edition, s: L3Spec, w: Wording, printable: Printable)
    ensures var m := Written(PartsOf(SpecFields(s, w), Spelling));
            && ReadFile(toml, RenderedText(s, w, printable)) ==
               (if Spellable(toml, SpecFields(s, w)) then Some(map["l3" := m]) else None)
            && Says(m, SpecFields(s, w), Spelling) && Decodes(m, Spelling, KindOf, Rank)
  {
    hide SpecFields, Spelling, IsBareKey, ReadFile, FieldsText, LinesText, Written, PartsOf, TopLines, IsNotes,
      InOrder,
      Typed, Sound, Spells, Says, Decodes, Spellable;
    TopIsNotes(w);
    FieldsProper(s, w);
    NamesSpell();
    TableNameIsBare();
    FieldsReadBack(toml, TopLines(w), "l3", SpecFields(s, w), Spelling, Rank, 47, COLUMN, printable);
    FieldsSay(SpecFields(s, w), Spelling, KindOf, Rank, 47);
  }

  /** A rendered spec loads as exactly the settings its file can hold, or the file
      does not parse because a string in it cannot be spelled in TOML. */
  /** The settings say of everything what the spec says. */
  predicate SaysAll(l: L3Config, s: L3Spec) {
    && l.mode == (if s.side.Kharej? then "listen" else "dial")
    && l.addr == s.addr && l.token == s.token && l.carrier == s.carrier && l.sniDomain == s.sniDomain
    && l.encap == s.encap && l.greKey == s.greKey && l.iface == s.iface
    && l.localIP == s.localIP && l.peerIP == s.peerIP
    && l.mtu == s.mtu && l.autoMTU == s.autoMTU && l.preset == s.preset && l.txQueueLen == s.txQueueLen
    && l.qdisc == s.qdisc && l.sockBuf == s.sockBuf && l.fecData == s.fecData && l.fecParity == s.fecParity
    && l.paths == s.paths && l.mssClamp == s.mssClamp && l.spoof == s.spoof && l.pck == s.pck && l.ports == s.ports
    && l.acceptUDP == s.acceptUDP && l.maxConnections == s.maxConnections && l.bandwidthMbps == s.bandwidthMbps
  }

  /** Nothing is lost in the file exactly of a spec that says nothing a file cannot hold:
      a domain for another carrier, an automatic MTU asked for by name, queue settings
      without a preset, half a pair, one path, a negative size, an untrimmed item, or
      answers about ports there are none of. */
  lemma NothingIsLostExactly(s: L3Spec)
    ensures SaysAll(Held(s), s) <==>
      && s.encap == "gre" && (s.sniDomain == "" || s.carrier == "sni") && (s.autoMTU.Some? ==> !s.autoMTU.value)
      && (s.preset == "" ==> s.txQueueLen == 0 && s.qdisc == "") && s.sockBuf >= 0
      && ((s.fecData > 0 && s.fecParity > 0) || (s.fecData == 0 && s.fecParity == 0)) && (s.paths == 0 || s.paths > 1)
      && s.spoof.srcPool == Trimmed(s.spoof.srcPool) && s.spoof.sockBuf >= 0 && s.spoof.mtu >= 0
      && s.spoof.portMin >= 0 && s.spoof.portMax >= 0 && s.spoof.paddingMax >= 0
      && s.pck.flags == Trimmed(s.pck.flags) && s.ports == Trimmed(s.ports) && (s.acceptUDP ==> s.ports != [])
      && (s.ports == [] || (s.maxConnections <= 0 && s.bandwidthMbps <= 0) ==>
            s.maxConnections == 0 && s.bandwidthMbps == 0)
  {
    hide Trim;
    SpoofAndPckStay(s.spoof, s.pck);
    hide Trimmed, HeldSpoof, HeldPck;
  }

  lemma SpoofAndPckStay(f: Spoof, p: Pck)
    ensures HeldSpoof(f) == f <==>
      && f.srcPool == Trimmed(f.srcPool) && f.sockBuf >= 0 && f.mtu >= 0
      && f.portMin >= 0 && f.portMax >= 0 && f.paddingMax >= 0
    ensures HeldPck(p) == p <==> p.flags == Trimmed(p.flags)
  {
    hide Trimmed;
    var g, q := HeldSpoof(f), HeldPck(p);
    assert g == f ==>
        g.srcPool == f.srcPool && g.sockBuf == f.sockBuf && g.mtu == f.mtu && g.portMin == f.portMin
        && g.portMax == f.portMax && g.paddingMax == f.paddingMax;
    assert q == p ==> q.flags == p.flags;
  }

  lemma LoadUndoesRender(toml: Edition, s: L3Spec, w: Wording, printable: Printable)
    ensures LoadL3(toml, RenderedText(s, w, printable)) ==
            if Spellable(toml, SpecFields(s, w)) then Some(Held(s)) else None
  {
    hide SpecFields, Spelling, ReadFile, RenderedText, Written, PartsOf, Held, ConfigOf, Says, Decodes, Spellable;
    FileReads(toml, s, w, printable);
    TableReads(Written(PartsOf(SpecFields(s, w), Spelling)), s, w);
  }
}
