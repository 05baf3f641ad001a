/** The forged-source carrier's half of a setup link: the addresses one end forges,
    listed in one string, and the one the other end may be told to expect. */
module ForgedSources {
  import opened Wrappers
  import opened GoText
  import L = L3Config
  import E = L3Edit

  // Lists of addresses in one string.

  function Join(items: seq<string>): string {
    if items == [] then "" else if |items| == 1 then items[0] else items[0] + ", " + Join(items[1..])
  }

  function Piece(s: string): seq<string> { if Trim(s) == "" then [] else [Trim(s)] }

  /** What stands between the commas, without spaces around it and without blanks. */
  function Pieces(s: string): seq<string>
    decreases |s|
  {
    var i := FirstIndex(s, ',');
    if i < 0 then Piece(s) else Piece(s[..i]) + Pieces(s[i + 1..])
  }

  function AllPieces(items: seq<string>): seq<string> {
    if items == [] then [] else Pieces(items[0]) + AllPieces(items[1..])
  }

  lemma {:induction false} PiecesAround(a: string, b: string)
    ensures Pieces(a + "," + b) == Pieces(a) + Pieces(b)
    decreases |a|
  {
    hide FirstIndex, Piece;
    var s, i := a + "," + b, FirstIndex(a, ',');
    if i < 0 {
      assert s[..|a|] == a && s[|a|] == ',' && s[|a| + 1..] == b;
      FirstIndexIs(s, ',', |a|);
    } else {
      PiecesAround(a[i + 1..], b);
      assert s[..i] == a[..i] && s[i] == ',' && s[i + 1..] == a[i + 1..] + "," + b;
      FirstIndexIs(s, ',', i);
      assert Piece(a[..i]) + (Pieces(a[i + 1..]) + Pieces(b)) == Piece(a[..i]) + Pieces(a[i + 1..]) + Pieces(b);
    }
  }

  lemma SpaceBefore(s: string)
    ensures Pieces(" " + s) == Pieces(s)
  {
    var t, i := " " + s, FirstIndex(s, ',');
    assert t[1..] == s;
    if i >= 0 {
      assert t[..i + 1] == " " + s[..i] && t[i + 1] == ',' && t[i + 2..] == s[i + 1..];
      assert (" " + s[..i])[1..] == s[..i];
      FirstIndexIs(t, ',', i + 1);
    }
    hide TrimRight;
  }

  /** Joining and taking apart: whatever the items hold, the pieces are theirs. */
  lemma {:induction false} JoinedPieces(items: seq<string>)
    ensures Pieces(Join(items)) == AllPieces(items)
  {
    if items == [] {
    } else if |items| == 1 {
      assert AllPieces(items[1..]) == [];
    } else {
      var rest := Join(items[1..]);
      JoinedPieces(items[1..]);
      assert Join(items) == items[0] + "," + (" " + rest);
      PiecesAround(items[0], " " + rest);
      SpaceBefore(rest);
    }
  }

  /** nonEmpty: trimmed, without blanks, each once, in order. */
  function Kept(items: seq<string>): seq<string> {
    if items == [] then []
    else
      var before, last := Kept(items[..|items| - 1]), Trim(items[|items| - 1]);
      if last == "" || last in before then before else before + [last]
  }

  method NonEmpty(items: seq<string>) returns (out: seq<string>)
    ensures out == Kept(items)
  {
    hide Trim;
    var seen: set<string> := {};
    out := [];
    for i := 0 to |items|
      invariant out == Kept(items[..i]) && seen == set x | x in out
    {
      assert items[..i + 1][..i] == items[..i];
      var s := Trim(items[i]);
      if s == "" || s in seen { continue; }
      seen := seen + {s};
      out := out + [s];
    }
    assert items[..|items|] == items;
  }

  /** What is kept: exactly what is left of the items that are not blank, each once. */
  lemma {:induction false} KeptExactly(items: seq<string>)
    ensures forall x :: x in Kept(items) <==> x != "" && exists y <- items :: Trim(y) == x
    ensures forall i, j :: 0 <= i < j < |Kept(items)| ==> Kept(items)[i] != Kept(items)[j]
  {
    hide Trim;
    if items != [] {
      var before, last := items[..|items| - 1], items[|items| - 1];
      KeptExactly(before);
      assert items == before + [last];
      forall x ensures x in Kept(items) <==> x != "" && exists y <- items :: Trim(y) == x {
        if x != "" && exists y <- items :: Trim(y) == x {
          var y :| y in items && Trim(y) == x;
          if y in before { assert x in Kept(before); }
        }
        if x in Kept(before) {
          var y :| y in before && Trim(y) == x;
          assert y in items;
        }
        if x == Trim(last) { assert last in items; }
      }
    }
  }

  /** And in the order of first appearance: keeping more items only adds at the end. */
  lemma {:induction false} KeptInOrder(items: seq<string>, more: seq<string>)
    ensures Kept(items) <= Kept(items + more)
    decreases |more|
  {
    hide Trim;
    if more == [] {
      assert items + more == items;
    } else {
      KeptInOrder(items, more[..|more| - 1]);
      assert (items + more)[..|items + more| - 1] == items + more[..|more| - 1];
    }
  }

  lemma {:induction false} KeptHolds(items: seq<string>, x: string)
    ensures x in items && Trim(x) != "" ==> Trim(x) in Kept(items)
  {
    hide Trim;
    if items != [] { KeptHolds(items[..|items| - 1], x); }
  }

  /** singleSource: the one address of a list, when there is just one. */
  function Single(list: string): Option<string> { if |Pieces(list)| == 1 then Some(Pieces(list)[0]) else None }

  lemma PiecesTake(seen: seq<string>, s: string)
    ensures var i := FirstIndex(s, ',');
      seen + Pieces(s) ==
      if i < 0 then seen + Piece(s) + [] else seen + Piece(s[..i]) + Pieces(s[i + 1..])
  {
    hide FirstIndex, Piece;
    assert seen + Piece(s) + [] == seen + Piece(s);
  }

  method SingleSource(list: string) returns (one: Option<string>)
    ensures one == Single(list)
  {
    hide Trim, Pieces, FirstIndex;
    var seen: seq<string>, rest, more := [], list, true;
    assert seen + Pieces(list) == Pieces(list);
    while more
      invariant Pieces(list) == seen + (if more then Pieces(rest) else [])
      decreases |rest| + if more then 1 else 0
    {
      var i := FirstIndex(rest, ',');
      var p := Trim(if i < 0 then rest else rest[..i]);
      PiecesTake(seen, rest);
      if p != "" { seen := seen + [p]; }
      if i < 0 { more := false; } else { rest := rest[i + 1..]; }
    }
    return if |seen| == 1 then Some(seen[0]) else None;
  }

  lemma {:induction false} PlainPiece(items: seq<string>, x: string)
    requires x in items && Trim(x) == x && x != "" && ',' !in x
    ensures x in AllPieces(items)
  {
    hide Trim;
    if x == items[0] { assert Pieces(x) == [x]; } else { PlainPiece(items[1..], x); }
  }

  // The carrier's settings.

  /** The addresses a file names as forged sources, as a link lists them. */
  function Listed(f: L.Spoof): string { Join(Kept([f.srcIP] + f.srcPool)) }

  /** A link pins a source exactly when the file's list has one piece in all, and then
      it is every address the file names: the other end drops none of them. */
  lemma PinnedIsEverySource(f: L.Spoof)
    ensures Single(Listed(f)).Some? <==> |AllPieces(Kept([f.srcIP] + f.srcPool))| == 1
    ensures forall x :: x in [f.srcIP] + f.srcPool && Trim(x) != "" && ',' !in Trim(x) && Single(Listed(f)).Some? ==>
              Single(Listed(f)).value == Trim(x)
  {
    var items := Kept([f.srcIP] + f.srcPool);
    JoinedPieces(items);
    forall x | x in [f.srcIP] + f.srcPool && Trim(x) != "" && ',' !in Trim(x) && Single(Listed(f)).Some?
      ensures Single(Listed(f)).value == Trim(x)
    {
      TrimIsTight(x);
      KeptHolds([f.srcIP] + f.srcPool, x);
      PlainPiece(items, Trim(x));
    }
  }

  const PROFILES := {"udp", "icmp", "tcp", "icmpv6", "proto58", "ipip", "gre"}

  /** One direction's profile as the engine settles it: its own, else the symmetric
      one, else udp; udp too for one it does not know. */
  function Direction(f: L.Spoof, own: string): string {
    var v := OrDefault(own, f.profile);
    if v in PROFILES then v else "udp"
  }

  function Directions(f: L.Spoof): (string, string) { (Direction(f, f.uplink), Direction(f, f.downlink)) }

  /** The engine stops at a name it does not know. */
  predicate Known(profile: string) { profile == "" || profile in PROFILES }

  predicate AllKnown(f: L.Spoof) { Known(f.profile) && Known(f.uplink) && Known(f.downlink) }

  /** The profile name that carries a TLS record header. */
  const ONLY_TCP: E.Profiles := (v: string) => v == "tcp"

  predicate StealthOn(f: L.Spoof) { f.padding || f.fakeTLS }

  // Setting the carrier up from a mirrored form.

  /** What a mirrored form fills in of the carrier's drawer; the rest it leaves empty. */
  datatype Tune = Tune(profile: string, uplink: string, downlink: string, peerSrcIP: string, icmpReply: bool)

  datatype ForgeError = BadProfile | BadAddress | NoPeerIP

  /** Go's net.ParseIP: what it takes for an address, and for one of IPv4. */
  datatype Addresses = Addresses(isIP: string -> bool, isIPv4: string -> bool)

  function ProfileOf(v: string, beyond: char -> char): Option<string> {
    var p := Lower(Trim(v), beyond);
    if Known(p) then Some(p) else None
  }

  /** SpoofTune.apply. */
  function Applied(t: Tune, beyond: char -> char, net: Addresses): Result<L.Spoof, ForgeError> {
    match (ProfileOf(t.profile, beyond), ProfileOf(t.uplink, beyond), ProfileOf(t.downlink, beyond))
    case (Some(profile), Some(up), Some(down)) =>
      (var ip := Trim(t.peerSrcIP);
       if ip != "" && !net.isIPv4(ip) then Err(BadAddress)
       else Ok(L.NO_SPOOF.(profile := OrDefault(profile, "udp"), uplink := up, downlink := down,
                           peerSrcIP := ip, icmpReply := t.icmpReply)))
    case _ => Err(BadProfile)
  }

  /** The carrier's part of NewDirectTunnel.spec. */
  function SpoofAsked(tune: Option<Tune>, peerIP: string, stealth: bool, side: L.Side, beyond: char -> char,
                      net: Addresses): Result<L.Spoof, ForgeError> {
    match (match tune case None => Ok(L.NO_SPOOF) case Some(t) => Applied(t, beyond, net))
    case Err(why) => Err(why)
    case Ok(drawn) =>
      var ip := Trim(peerIP);
      if ip != "" && !net.isIP(ip) then Err(BadAddress)
      else
        var named := if ip == "" then drawn else drawn.(peerIP := ip);
        var full := if stealth then E.Stealthed(named, ONLY_TCP) else named;
        if side.Kharej? && (full.peerIP == "" || !net.isIP(full.peerIP)) then Err(NoPeerIP) else Ok(full)
  }

  /** What the drawer's answers must be to pass: names the engine knows, but for case and
      spaces, addresses that parse, and one to reply to on the side that listens. */
  lemma DrawersPassExactly(tune: Option<Tune>, peerIP: string, stealth: bool, side: L.Side, beyond: char -> char,
                           net: Addresses)
    ensures SpoofAsked(tune, peerIP, stealth, side, beyond, net).Ok? <==>
      && (tune.Some? ==>
            && Lower(Trim(tune.value.profile), beyond) in PROFILES + {""}
            && Lower(Trim(tune.value.uplink), beyond) in PROFILES + {""}
            && Lower(Trim(tune.value.downlink), beyond) in PROFILES + {""}
            && (Trim(tune.value.peerSrcIP) == "" || net.isIPv4(Trim(tune.value.peerSrcIP))))
      && (if Trim(peerIP) == "" then side.Iran? else net.isIP(Trim(peerIP)))
  {
    hide Trim, Lower;
  }

  lemma KnownProfilesPass(v: string, beyond: char -> char)
    requires Known(v)
    ensures ProfileOf(v, beyond) == Some(v)
  {
    assert Tight(v);
    TrimIsTight(v);
    assert Lower(v, beyond) == v;
  }

  /** What the drawer settles, whatever else is asked for. */
  lemma SpoofAskedHolds(tune: Option<Tune>, peerIP: string, stealth: bool, side: L.Side, beyond: char -> char,
                        net: Addresses)
    requires SpoofAsked(tune, peerIP, stealth, side, beyond, net).Ok?
    ensures var f := SpoofAsked(tune, peerIP, stealth, side, beyond, net).value;
      && f.srcPool == [] && f.sockBuf == 0 && f.mtu == 0 && f.portMin >= 0 && f.portMax >= 0 && f.paddingMax >= 0
      && f.peerIP == Trim(peerIP) && (side.Kharej? ==> f.peerIP != "" && net.isIP(f.peerIP))
      && f.padding == stealth && AllKnown(f)
      && (f.peerIP == "" || net.isIP(f.peerIP)) && (f.peerSrcIP == "" || net.isIPv4(f.peerSrcIP))
      && (f.fakeTLS <==> stealth && (Directions(f).0 == "tcp" || Directions(f).1 == "tcp"))
      && (tune.None? ==> f.profile == "" && f.uplink == "" && f.downlink == "" && f.peerSrcIP == "" && !f.icmpReply)
      && (tune.Some? ==> f.peerSrcIP == Trim(tune.value.peerSrcIP) && f.icmpReply == tune.value.icmpReply)
  {
    hide Trim, Lower;
  }

  /** Names the producing engine knows arrive as the same two directions. */
  lemma DirectionsArrive(f: L.Spoof, t: Tune, peerIP: string, stealth: bool, side: L.Side, beyond: char -> char,
                         net: Addresses)
    requires AllKnown(f) && t.profile == f.profile && t.uplink == f.uplink && t.downlink == f.downlink
    requires SpoofAsked(Some(t), peerIP, stealth, side, beyond, net).Ok?
    ensures Directions(SpoofAsked(Some(t), peerIP, stealth, side, beyond, net).value) == Directions(f)
  {
    KnownProfilesPass(t.profile, beyond);
    KnownProfilesPass(t.uplink, beyond);
    KnownProfilesPass(t.downlink, beyond);
    hide Trim, Lower, ProfileOf, Directions, AllKnown;
    SameDirections(f, SpoofAsked(Some(t), peerIP, stealth, side, beyond, net).value);
  }

  lemma SameDirections(f: L.Spoof, g: L.Spoof)
    requires g.profile == OrDefault(f.profile, "udp") && g.uplink == f.uplink && g.downlink == f.downlink
    ensures Directions(g) == Directions(f)
  {
  }

  lemma {:induction false} PiecesAreTight(s: string)
    ensures forall p <- Pieces(s) :: p != "" && Trim(p) == p
    decreases |s|
  {
    hide Trim, FirstIndex;
    var i := FirstIndex(s, ',');
    TrimIsTight(if i < 0 then s else s[..i]);
    if i >= 0 { PiecesAreTight(s[i + 1..]); }
  }
}
