/** Picking an interface and a subnet no other tunnel on the machine has. */
module Allocator {
  import opened Wrappers
  import opened Decimal
  import opened GoText
  import opened L3Config
  import P = Pairing

  const LIMIT := 256

  function IfaceName(n: nat): string { "bp" + Natural(n) }

  function BlockName(n: nat): string { "10.10." + Natural(n) + "." }

  /** l3Block: an address down to its last dot, without prefix length. */
  function L3Block(addr: string): string {
    var host := P.HostOf(Trim(addr));
    var i := LastIndex(host, '.');
    if i >= 0 then host[..i + 1] else ""
  }

  function IfacesUsed(configs: seq<L3Config>): set<string> {
    set l <- configs :: OrDefault(l.iface, "bp0")
  }

  function BlocksUsed(configs: seq<L3Config>): set<string> {
    (set l <- configs :: L3Block(l.localIP)) + (set l <- configs :: L3Block(l.peerIP))
  }

  /** The first number from `from` below the limit whose name is not taken. */
  function FirstFree(name: nat -> string, used: set<string>, from: nat): Option<nat>
    decreases LIMIT - from
  {
    if from >= LIMIT then None else if name(from) in used then FirstFree(name, used, from + 1) else Some(from)
  }

  lemma {:induction false} FirstFreeIsFree(name: nat -> string, used: set<string>, from: nat)
    ensures match FirstFree(name, used, from)
            case Some(n) => from <= n < LIMIT && name(n) !in used &&
              (forall k: nat :: from <= k < n ==> name(k) in used)
            case None => forall k: nat :: from <= k < LIMIT ==> name(k) in used
    decreases LIMIT - from
  {
    if from < LIMIT && name(from) in used { FirstFreeIsFree(name, used, from + 1); }
  }

  function Iface(used: set<string>): string {
    match FirstFree(IfaceName, used, 0) case Some(n) => IfaceName(n) case None => "bp0"
  }

  function Block(used: set<string>): string {
    match FirstFree(BlockName, used, 0) case Some(n) => BlockName(n) case None => "10.10.0."
  }

  /** An end of a block's network: its last number, with or without a prefix length. */
  function End(block: string, last: char, prefix: string): string { block + ([last] + prefix) }

  /** This side's address with its prefix length, and the other side's. */
  function Subnet(block: string, side: Side): (string, string) {
    if side.Iran? then (End(block, '1', "/30"), End(block, '2', "")) else (End(block, '2', "/30"), End(block, '1', ""))
  }

  /** A tunnel's interface, bp0 when it names none. */
  predicate IfaceTaken(configs: seq<L3Config>, n: nat) {
    exists l <- configs :: (if l.iface == "" then "bp0" else l.iface) == "bp" + Natural(n)
  }

  /** Either end of a tunnel is in the block. */
  predicate BlockTaken(configs: seq<L3Config>, n: nat) {
    var block := "10.10." + Natural(n) + ".";
    exists l <- configs :: L3Block(l.localIP) == block || L3Block(l.peerIP) == block
  }

  /** The Iran end's own address ends in 1 and the other's in 2; the own one has the
      prefix length. */
  function EndsOf(n: nat, side: Side): (string, string) {
    var block := "10.10." + Natural(n) + ".";
    match side
    case Iran => (block + "1/30", block + "2")
    case Kharej => (block + "2/30", block + "1")
  }

  lemma TakenIfaces(configs: seq<L3Config>, n: nat)
    ensures IfaceTaken(configs, n) <==> IfaceName(n) in IfacesUsed(configs)
  {
    hide Natural;
    if IfaceTaken(configs, n) {
      var l :| l in configs && (if l.iface == "" then "bp0" else l.iface) == "bp" + Natural(n);
      assert OrDefault(l.iface, "bp0") in IfacesUsed(configs);
    }
  }

  lemma TakenBlocks(configs: seq<L3Config>, n: nat)
    ensures BlockTaken(configs, n) <==> BlockName(n) in BlocksUsed(configs)
  {
    hide Natural, L3Block;
    if BlockTaken(configs, n) {
      var l :| l in configs && (L3Block(l.localIP) == BlockName(n) || L3Block(l.peerIP) == BlockName(n));
    }
  }

  lemma EndsAreSubnet(n: nat, side: Side)
    ensures Subnet(BlockName(n), side) == EndsOf(n, side)
  {
    hide Natural;
    var b := BlockName(n);
    assert b + (['1'] + "/30") == b + "1/30" && b + (['2'] + "/30") == b + "2/30";
    assert b + (['1'] + "") == b + "1" && b + (['2'] + "") == b + "2";
  }

  lemma ZeroBlock()
    ensures BlockName(0) == "10.10.0."
  {
    assert Natural(0) == "0";
  }

  lemma FirstFreeIs(name: nat -> string, used: set<string>, n: nat)
    ensures n < LIMIT && name(n) !in used && (forall k: nat :: k < n ==> name(k) in used) ==>
              FirstFree(name, used, 0) == Some(n)
    ensures (forall k: nat :: k < LIMIT ==> name(k) in used) ==> FirstFree(name, used, 0) == None
  {
    hide FirstFree;
    FirstFreeIsFree(name, used, 0);
  }

  lemma IfaceSpelled(n: nat)
    ensures IfaceName(n) == "bp" + Natural(n)
  {
  }

  /** What is handed out is the first interface there is, and bp0 where there is none. */
  lemma TheFirstIface(configs: seq<L3Config>, n: nat)
    ensures n < LIMIT && !IfaceTaken(configs, n) && (forall k: nat :: k < n ==> IfaceTaken(configs, k)) ==>
              Iface(IfacesUsed(configs)) == "bp" + Natural(n)
    ensures (forall k: nat :: k < LIMIT ==> IfaceTaken(configs, k)) ==> Iface(IfacesUsed(configs)) == "bp0"
  {
    IfaceSpelled(n);
    hide Natural, FirstFree, IfacesUsed, IfaceTaken, IfaceName;
    forall k: nat ensures IfaceTaken(configs, k) <==> IfaceName(k) in IfacesUsed(configs) { TakenIfaces(configs, k); }
    FirstFreeIs(IfaceName, IfacesUsed(configs), n);
  }

  /** And the two ends of the first block there is, or of the block numbered 0. */
  lemma TheFirstBlock(configs: seq<L3Config>, n: nat, side: Side)
    ensures n < LIMIT && !BlockTaken(configs, n) && (forall k: nat :: k < n ==> BlockTaken(configs, k)) ==>
              Subnet(Block(BlocksUsed(configs)), side) == EndsOf(n, side)
    ensures (forall k: nat :: k < LIMIT ==> BlockTaken(configs, k)) ==>
              Subnet(Block(BlocksUsed(configs)), side) == EndsOf(0, side)
  {
    ZeroBlock();
    hide Natural, FirstFree, BlocksUsed, BlockTaken, BlockName, Subnet, EndsOf;
    EndsAreSubnet(n, side);
    EndsAreSubnet(0, side);
    forall k: nat ensures BlockTaken(configs, k) <==> BlockName(k) in BlocksUsed(configs) { TakenBlocks(configs, k); }
    FirstFreeIs(BlockName, BlocksUsed(configs), n);
  }

  /** The block of an address: what comes before its last number, whatever stands
      around it. */
  lemma BlockOfAnAddress(addr: string, block: string, last: string, suffix: string)
    requires Trim(addr) == block + last + suffix && block != [] && block[|block| - 1] == '.'
    requires '.' !in last && '/' !in block + last && (suffix == "" || suffix[0] == '/')
    ensures L3Block(addr) == block
  {
    var host := block + last;
    FirstSlash(host, suffix);
    assert forall k :: |block| <= k < |host| ==> host[k] == last[k - |block|];
    assert host[|block| - 1] == '.' && host[..|block|] == block;
    assert LastIndex(host, '.') == |block| - 1;
    hide Trim;
  }

  method FreeL3Iface(configs: seq<L3Config>) returns (name: string)
    ensures name == Iface(IfacesUsed(configs))
  {
    var used: set<string> := {};
    for i := 0 to |configs|
      invariant used == IfacesUsed(configs[..i])
    {
      used := used + {OrDefault(configs[i].iface, "bp0")};
      assert configs[..i + 1] == configs[..i] + [configs[i]];
    }
    assert configs[..|configs|] == configs;
    var i := 0;
    while i < LIMIT
      invariant 0 <= i <= LIMIT
      invariant FirstFree(IfaceName, used, 0) == FirstFree(IfaceName, used, i)
    {
      if IfaceName(i) !in used { return IfaceName(i); }
      i := i + 1;
    }
    return "bp0";
  }

  method FreeL3Subnet(configs: seq<L3Config>, side: Side) returns (localIP: string, peerIP: string)
    ensures (localIP, peerIP) == Subnet(Block(BlocksUsed(configs)), side)
  {
    hide End, BlockName, L3Block;
    var used: set<string> := {};
    for i := 0 to |configs|
      invariant used == BlocksUsed(configs[..i])
    {
      used := used + {L3Block(configs[i].localIP), L3Block(configs[i].peerIP)};
      assert configs[..i + 1] == configs[..i] + [configs[i]];
    }
    assert configs[..|configs|] == configs;
    var n := 0;
    while n < LIMIT
      invariant 0 <= n <= LIMIT
      invariant FirstFree(BlockName, used, 0) == FirstFree(BlockName, used, n)
    {
      var block := BlockName(n);
      if block in used {
        n := n + 1;
        continue;
      }
      if side == Iran { return End(block, '1', "/30"), End(block, '2', ""); }
      return End(block, '2', "/30"), End(block, '1', "");
    }
    if side == Iran { return End("10.10.0.", '1', "/30"), End("10.10.0.", '2', ""); }
    return End("10.10.0.", '2', "/30"), End("10.10.0.", '1', "");
  }

  // There is room while fewer than 256 are taken.

  ghost predicate Injective(name: nat -> string) { forall m: nat, n: nat :: name(m) == name(n) ==> m == n }

  lemma NamesAreInjective()
    ensures Injective(IfaceName) && Injective(BlockName)
  {
    forall m: nat, n: nat | IfaceName(m) == IfaceName(n) ensures m == n {
      assert IfaceName(m)[2..] == Natural(m) && IfaceName(n)[2..] == Natural(n);
      NaturalInjective(m, n);
    }
    forall m: nat, n: nat | BlockName(m) == BlockName(n) ensures m == n {
      assert BlockName(m)[6..|BlockName(m)| - 1] == Natural(m) && BlockName(n)[6..|BlockName(n)| - 1] == Natural(n);
      NaturalInjective(m, n);
    }
  }

  lemma {:induction false} ManyNames(name: nat -> string, used: set<string>, n: nat)
    requires Injective(name) && forall k: nat :: k < n ==> name(k) in used
    ensures |used| >= n
    decreases n
  {
    if n > 0 {
      ManyNames(name, used - {name(n - 1)}, n - 1);
      assert used == used - {name(n - 1)} + {name(n - 1)};
    }
  }

  /** Fewer than 256 names in use leave one to return, whatever they are. */
  lemma AFreeNameIsFound(name: nat -> string, used: set<string>)
    requires Injective(name) && |used| < LIMIT
    ensures FirstFree(name, used, 0).Some? && name(FirstFree(name, used, 0).value) !in used
  {
    FirstFreeIsFree(name, used, 0);
    if FirstFree(name, used, 0).None? { ManyNames(name, used, LIMIT); }
  }

  // What an allocation claims.

  lemma DigitsHaveNoDots(n: nat)
    ensures '.' !in Natural(n) && '/' !in Natural(n) && forall c <- Natural(n) :: !IsSpace(c)
  {
  }

  /** Both addresses handed out belong to the block they were cut from. */
  lemma SubnetIsInItsBlock(n: nat, side: Side)
    ensures var (localIP, peerIP) := Subnet(BlockName(n), side);
            L3Block(localIP) == BlockName(n) && L3Block(peerIP) == BlockName(n)
  {
    hide End, BlockName, L3Block;
    AddressIsInItsBlock(n, '1', "");
    AddressIsInItsBlock(n, '2', "");
    AddressIsInItsBlock(n, '1', "/30");
    AddressIsInItsBlock(n, '2', "/30");
  }

  lemma AddressIsInItsBlock(n: nat, last: char, prefix: string)
    requires last in {'1', '2'} && prefix in {"", "/30"}
    ensures L3Block(End(BlockName(n), last, prefix)) == BlockName(n)
    ensures P.HostOf(End(BlockName(n), last, prefix)) == End(BlockName(n), last, "")
  {
    var block := BlockName(n);
    var addr, host := End(block, last, prefix), block + [last];
    DigitsHaveNoDots(n);
    assert addr[0] == '1' && addr == host + prefix && host[|host| - 1] == last;
    assert Tight(addr) by { if prefix == "/30" { assert addr[|addr| - 1] == '0'; } }
    TrimIsTight(addr);
    assert '/' !in block;
    assert End(block, last, "") == host;
    FirstSlash(host, prefix);
    LastDot(block, last);
    hide Trim, Natural, IsSpace;
  }

  lemma FirstSlash(host: string, prefix: string)
    requires '/' !in host && (prefix == "" || prefix[0] == '/')
    ensures P.HostOf(host + prefix) == host
  {
    var s := host + prefix;
    var i := FirstIndex(s, '/');
    if prefix == "" {
      assert s == host;
    } else {
      assert s[|host|] == '/';
      assert s[..|host|] == host;
      assert forall k :: 0 <= k < |host| ==> s[k] == host[k];
    }
  }

  lemma LastDot(block: string, last: char)
    requires block != [] && block[|block| - 1] == '.' && last != '.'
    ensures var s := block + [last]; LastIndex(s, '.') == |block| - 1 && s[..|block|] == block
  {
    var s := block + [last];
    assert s[|block| - 1] == '.';
  }

  function WithSubnet(l: L3Config, subnet: (string, string)): L3Config { l.(localIP := subnet.0, peerIP := subnet.1) }

  /** While fewer than 256 blocks are in use, the block handed out is in none of the
      tunnels there; the tunnel that takes it claims that block and no other. So the
      blocks of successive allocations are pairwise different. */
  lemma AllocationIsDisjoint(configs: seq<L3Config>, l: L3Config, side: Side)
    requires |BlocksUsed(configs)| < LIMIT
    ensures var block := Block(BlocksUsed(configs));
      && block !in BlocksUsed(configs)
      && BlocksUsed(configs + [WithSubnet(l, Subnet(block, side))]) == BlocksUsed(configs) + {block}
      && |BlocksUsed(configs + [WithSubnet(l, Subnet(block, side))])| == |BlocksUsed(configs)| + 1
  {
    hide L3Block, BlockName, End, BlocksUsed, WithSubnet, Subnet, Injective;
    NamesAreInjective();
    AFreeNameIsFound(BlockName, BlocksUsed(configs));
    var n := FirstFree(BlockName, BlocksUsed(configs), 0).value;
    hide FirstFree;
    var next := WithSubnet(l, Subnet(BlockName(n), side));
    ClaimsItsBlock(l, n, side);
    UsedGrows(configs, next);
    assert BlocksUsed(configs + [next]) == BlocksUsed(configs) + {BlockName(n)};
  }

  lemma ClaimsItsBlock(l: L3Config, n: nat, side: Side)
    ensures var next := WithSubnet(l, Subnet(BlockName(n), side));
            L3Block(next.localIP) == BlockName(n) && L3Block(next.peerIP) == BlockName(n)
  {
    hide L3Block, BlockName, End;
    SubnetIsInItsBlock(n, side);
  }

  lemma UsedGrows(configs: seq<L3Config>, l: L3Config)
    ensures BlocksUsed(configs + [l]) == BlocksUsed(configs) + {L3Block(l.localIP), L3Block(l.peerIP)}
  {
    hide L3Block;
    assert forall x :: x in configs + [l] <==> x in configs || x == l;
  }

  /** Tunnels set up in a row, either end of each, on the next block handed out. */
  function Allocated(configs: seq<L3Config>, ls: seq<(L3Config, Side)>): seq<L3Config>
    decreases |ls|
  {
    if ls == [] then configs
    else Allocated(configs + [WithSubnet(ls[0].0, Subnet(Block(BlocksUsed(configs)), ls[0].1))], ls[1..])
  }

  lemma {:induction false} SuccessiveAllocationsNeverCollide(configs: seq<L3Config>, ls: seq<(L3Config, Side)>)
    requires |BlocksUsed(configs)| + |ls| <= LIMIT
    ensures |BlocksUsed(Allocated(configs, ls))| == |BlocksUsed(configs)| + |ls|
    decreases |ls|
  {
    if ls != [] {
      AllocationIsDisjoint(configs, ls[0].0, ls[0].1);
      hide BlocksUsed, Block, Subnet;
      var next := WithSubnet(ls[0].0, Subnet(Block(BlocksUsed(configs)), ls[0].1));
      SuccessiveAllocationsNeverCollide(configs + [next], ls[1..]);
    }
  }

  /** With every block taken the answer is a block in use. */
  lemma AFullMachineCollides(used: set<string>)
    requires forall n: nat :: n < LIMIT ==> BlockName(n) in used
    ensures Block(used) in used
  {
    FirstFreeIsFree(BlockName, used, 0);
    ZeroBlock();
    assert BlockName(0) in used;
  }

  /** Two machines with the same blocks in use hand out the two ends of one tunnel:
      each one's own address is what the other calls its peer. */
  lemma TheTwoSidesAreSwapped(used: set<string>)
    ensures var iran, kharej := Subnet(Block(used), Iran), Subnet(Block(used), Kharej);
            P.HostOf(iran.0) == kharej.1 && P.HostOf(kharej.0) == iran.1
  {
    var n: nat := match FirstFree(BlockName, used, 0) case Some(k) => k case None => 0;
    ZeroBlock();
    assert Block(used) == BlockName(n);
    hide BlockName, P.HostOf, End, Block;
    AddressIsInItsBlock(n, '1', "/30");
    AddressIsInItsBlock(n, '2', "/30");
  }

  /** The interface name is new while fewer than 256 are taken. */
  lemma InterfaceIsFree(configs: seq<L3Config>)
    requires |IfacesUsed(configs)| < LIMIT
    ensures Iface(IfacesUsed(configs)) !in IfacesUsed(configs)
  {
    NamesAreInjective();
    AFreeNameIsFound(IfaceName, IfacesUsed(configs));
  }
}
