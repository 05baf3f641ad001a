/** How large a packet a path carries, and the clamp advised for it. */
module PathMTU {
  import opened Wrappers
  import opened ConfigKeys
  import ReverseConfig
  import Edits = ReverseEdit

  /** Whether the ping of a payload comes back, the nth time one is sent. */
  type Pings = (nat, nat) -> bool

  const SMALL := 64
  const LOW := 512
  const HIGH := 1472
  const HEADERS := 28

  function Pow2(n: nat): nat { if n == 0 then 1 else 2 * Pow2(n - 1) }

  /** The path always answers alike, and what carries a packet carries a smaller one. */
  ghost predicate Steady(ping: Pings, carries: nat -> bool) {
    && (forall i: nat, x: nat :: ping(i, x) == carries(x))
    && (forall x: nat, y: nat :: x <= y && carries(y) ==> carries(x))
  }

  /** The largest payload from LOW to HIGH a path carries, with its headers; SMALL's
      when it carries none of those, and 0 when not even that. */
  ghost predicate Measures(mtu: int, carries: nat -> bool) {
    if !carries(SMALL) then mtu == 0
    else if !carries(LOW) then mtu == SMALL + HEADERS
    else
      && LOW <= mtu - HEADERS <= HIGH && carries(mtu - HEADERS)
      && forall x: nat :: mtu - HEADERS < x <= HIGH ==> !carries(x)
  }

  /** probePathMTU. Whatever the path does, what it returns is 0 or the size of a ping
      that came back, after at most eleven. `carries` is any path there
      may be: if pings show it steadily, it is the exact answer. */
  method ProbePathMTU(host: string, ping: Pings, ghost carries: nat -> bool) returns (mtu: int, asked: seq<nat>)
    ensures |asked| <= 11
    ensures mtu == 0 || exists i {:trigger asked[i]} ::
              0 <= i < |asked| && asked[i] + HEADERS == mtu && ping(i, asked[i])
    ensures mtu == 0 || mtu == SMALL + HEADERS || LOW + HEADERS <= mtu <= HIGH + HEADERS
    ensures host == "" ==> mtu == 0 && asked == []
    ensures host != "" && Steady(ping, carries) ==> Measures(mtu, carries)
  {
    asked := [];
    if host == "" { return 0, asked; }
    asked := [SMALL];
    if !ping(0, SMALL) { return 0, asked; }
    var lo, hi, best := LOW, HIGH, SMALL;
    ghost var left: nat, at: nat := 10, 0;
    assert Pow2(10) == 1024;
    while lo <= hi
      invariant LOW <= lo && lo - 1 <= hi <= HIGH && hi - lo + 1 < Pow2(left) && |asked| == 11 - left
      invariant at < |asked| && asked[at] == best && ping(at, best)
      invariant best == (if lo == LOW then SMALL else lo - 1)
      invariant Steady(ping, carries) ==> carries(best) && (hi < HIGH ==> !carries(hi + 1))
      decreases hi - lo
    {
      var mid := (lo + hi) / 2;
      var answered := ping(|asked|, mid);
      asked := asked + [mid];
      assert asked[|asked| - 1] == mid;
      left := left - 1;
      if answered {
        at := |asked| - 1;
        best := mid;
        lo := mid + 1;
      } else {
        hi := mid - 1;
      }
    }
    mtu := best + HEADERS;
    assert asked[at] + HEADERS == mtu;
  }

  // The advice.

  const MIN_PATH_MTU := 576

  function SafeMSS(mtu: int): int { mtu - 20 - 32 }

  function OversizeMSS(mtu: int): int { mtu - 40 }

  /** The lines pathMTUCheck can print, by what they claim. */
  datatype Check = ProbeUnderstates(clamp: int) | TooSmall | Oversized(clamp: int) | Inside | FullSized

  function PathMTUCheck(mtu: int, negotiated: int, fromKernel: bool): Check {
    var clamp := SafeMSS(mtu);
    var oversize := negotiated > OversizeMSS(mtu);
    if oversize && !fromKernel then ProbeUnderstates(clamp)
    else if oversize && clamp < Edits.MIN_MSS then TooSmall
    else if oversize then Oversized(clamp)
    else if mtu < 1500 then Inside
    else FullSized
  }

  /** What each line claims of the path and the segments in use, and who is believed. */
  lemma ChecksMeanWhatTheySay(mtu: int, negotiated: int, fromKernel: bool)
    ensures var c, fits := PathMTUCheck(mtu, negotiated, fromKernel), negotiated <= mtu - 20 - 20;
      && (c == FullSized <==> fits && mtu >= 1500) && (c == Inside <==> fits && mtu < 1500)
      && (c == TooSmall <==> !fits && fromKernel && mtu < 576)
      && (forall clamp :: c == ProbeUnderstates(clamp) <==> !fits && !fromKernel && clamp == mtu - 52)
      && (forall clamp :: c == Oversized(clamp) <==> !fits && fromKernel && mtu >= 576 && clamp == mtu - 52)
  {
  }

  function Printed(c: Check): Option<int> {
    match c case ProbeUnderstates(clamp) => Some(clamp) case Oversized(clamp) => Some(clamp) case _ => None
  }

  /** No clamp, or one from the smallest path's safe one to a plain Ethernet frame's. */
  predicate Settable(mss: int) {
    mss == 0 || SafeMSS(MIN_PATH_MTU) <= mss <= 1500 - 20 - 20
  }

  lemma SettableIsWhatSetMSSTakes(s: ReverseConfig.TunnelSpec, mss: Int64)
    requires !Edits.IsDatagram(s.transport) && s.mss != mss
    ensures Edits.Refused(s, Edits.SetMSS(mss)).None? <==> Settable(mss)
  {
  }

  /** On the sockets' evidence a clamp is printed only where one can help, and SetMSS
      takes it exactly when the path is no larger than an Ethernet frame with room
      for options. */
  lemma KernelAdviceIsSettable(mtu: int, negotiated: int)
    requires Printed(PathMTUCheck(mtu, negotiated, true)).Some?
    ensures mtu >= MIN_PATH_MTU
    ensures Settable(Printed(PathMTUCheck(mtu, negotiated, true)).value) <==> mtu <= 1512
  {
  }

  /** On a ping's evidence the clamp comes before the check for a path too small, so
      of the sizes the probe can return SetMSS takes exactly those of 576 and up. */
  lemma ProbeAdviceIsSettable(mtu: int, negotiated: int)
    requires mtu == SMALL + HEADERS || LOW + HEADERS <= mtu <= HIGH + HEADERS
    requires Printed(PathMTUCheck(mtu, negotiated, false)).Some?
    ensures Settable(Printed(PathMTUCheck(mtu, negotiated, false)).value) <==> mtu >= MIN_PATH_MTU
  {
  }

  /** Such a path: pings of 64 bytes pass and those of 512 do not. The advice is a
      clamp of 40, which SetMSS refuses. */
  lemma SmallPathsGetAdviceNobodyTakes(negotiated: int)
    requires negotiated > OversizeMSS(SMALL + HEADERS)
    ensures PathMTUCheck(SMALL + HEADERS, negotiated, false) == ProbeUnderstates(40) && !Settable(40)
  {
  }

  /** datagramPathChecks names a clamp too, for a path below 1400. No tunnel it is
      printed for accepts one. */
  function DatagramAdvice(mtu: int): Option<int> { if mtu < 1400 then Some(SafeMSS(mtu)) else None }

  lemma DatagramAdviceIsRefused(s: ReverseConfig.TunnelSpec, mtu: Int64)
    requires Edits.IsDatagram(s.transport) && 0 < mtu && DatagramAdvice(mtu).Some?
    ensures Edits.Refused(s, Edits.SetMSS(DatagramAdvice(mtu).value)) == Some(Edits.WrongTransport)
  {
  }
}
