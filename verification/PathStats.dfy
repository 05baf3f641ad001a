/** Round-trip statistics of a path, and the timers derived from them. Durations are
    whole nanoseconds; the sums and averages are exact. */
module PathStats {
  import opened Wrappers

  const SECOND := 1_000_000_000
  const PROBE_TIMEOUT := 4 * SECOND

  datatype PathQuality = PathQuality(
    understood: bool, sent: nat, received: nat, min: nat, avg: nat, max: nat, jitter: nat)

  // What the probe computes.

  function Sum(s: seq<nat>): nat { if s == [] then 0 else s[0] + Sum(s[1..]) }

  function Gap(x: int, a: int): nat { if x >= a then x - a else a - x }

  /** Total deviation from a value. */
  function Spread(s: seq<nat>, a: nat): nat { if s == [] then 0 else Gap(s[0], a) + Spread(s[1..], a) }

  function Insert(x: nat, s: seq<nat>): seq<nat> {
    if s == [] || x <= s[0] then [x] + s else [s[0]] + Insert(x, s[1..])
  }

  function Sorted(s: seq<nat>): seq<nat> { if s == [] then [] else Insert(s[0], Sorted(s[1..])) }

  /** The dials that completed. */
  function Completed(dials: seq<Option<nat>>): seq<nat> {
    if dials == [] then []
    else (if dials[0].Some? then [dials[0].value] else []) + Completed(dials[1..])
  }

  /** Division that drops the remainder. */
  function Mean(total: nat, n: nat): (m: nat)
    requires n > 0
    ensures n * m <= total < n * m + n
  {
    total / n
  }

  function QualityOf(understood: bool, dials: seq<Option<nat>>): PathQuality {
    var s := Sorted(Completed(dials));
    if !understood then PathQuality(false, 0, 0, 0, 0, 0, 0)
    else if s == [] then PathQuality(true, |dials|, 0, 0, 0, 0, 0)
    else PathQuality(true, |dials|, |s|, s[0], Mean(Sum(s), |s|), s[|s| - 1], Mean(Spread(s, Mean(Sum(s), |s|)), |s|))
  }

  ghost predicate Ascends(s: seq<nat>) { forall i, j :: 0 <= i < j < |s| ==> s[i] <= s[j] }

  lemma {:induction false} InsertKeeps(x: nat, s: seq<nat>)
    ensures multiset(Insert(x, s)) == multiset(s) + multiset{x} && |Insert(x, s)| == |s| + 1
  {
    if s != [] && x > s[0] {
      InsertKeeps(x, s[1..]);
      assert s == [s[0]] + s[1..];
    }
  }

  lemma {:induction false} InsertAscends(x: nat, s: seq<nat>)
    requires Ascends(s)
    ensures Ascends(Insert(x, s))
    ensures Insert(x, s)[0] == x || (s != [] && Insert(x, s)[0] == s[0])
  {
    if s != [] && x > s[0] {
      InsertAscends(x, s[1..]);
      var r := Insert(x, s[1..]);
      assert s[0] <= r[0];
      assert Ascends(r);
    }
  }

  lemma {:induction false} SortedFacts(s: seq<nat>)
    ensures multiset(Sorted(s)) == multiset(s) && |Sorted(s)| == |s| && Ascends(Sorted(s))
  {
    if s != [] {
      SortedFacts(s[1..]);
      InsertKeeps(s[0], Sorted(s[1..]));
      InsertAscends(s[0], Sorted(s[1..]));
      assert s == [s[0]] + s[1..];
    }
  }

  lemma CompletedFrom(dials: seq<Option<nat>>, i: nat)
    requires i < |dials|
    ensures Completed(dials[i..]) == (if dials[i].Some? then [dials[i].value] else []) + Completed(dials[i + 1..])
  {
    assert dials[i..][1..] == dials[i + 1..];
  }

  method Collect(dials: seq<Option<nat>>) returns (samples: seq<nat>, sent: nat)
    ensures samples == Completed(dials) && sent == |dials|
  {
    samples, sent := [], 0;
    assert dials[0..] == dials && Completed(dials[|dials|..]) == [];
    hide Completed;
    for i := 0 to |dials|
      invariant sent == i
      invariant Completed(dials) == samples + Completed(dials[i..])
    {
      CompletedFrom(dials, i);
      sent := sent + 1;
      if dials[i].None? { continue; }
      samples := samples + [dials[i].value];
    }
  }

  method Total(samples: seq<nat>) returns (total: nat)
    ensures total == Sum(samples)
  {
    total := 0;
    for i := 0 to |samples|
      invariant Sum(samples) == total + Sum(samples[i..])
    {
      assert samples[i..][1..] == samples[i + 1..];
      total := total + samples[i];
    }
  }

  method Deviation(samples: seq<nat>, avg: nat) returns (deviation: nat)
    ensures deviation == Spread(samples, avg)
  {
    deviation := 0;
    for i := 0 to |samples|
      invariant Spread(samples, avg) == deviation + Spread(samples[i..], avg)
    {
      assert samples[i..][1..] == samples[i + 1..];
      deviation := deviation + Gap(samples[i], avg);
    }
  }

  /** ProbePath over the results of its dials. */
  method ProbePath(understood: bool, dials: seq<Option<nat>>) returns (q: PathQuality)
    ensures q == QualityOf(understood, dials)
  {
    if !understood { return PathQuality(false, 0, 0, 0, 0, 0, 0); }
    var samples, sent := Collect(dials);
    SortedFacts(samples);
    hide Sorted, Completed, Sum, Spread;
    samples := Sorted(samples);
    if |samples| == 0 { return PathQuality(true, sent, 0, 0, 0, 0, 0); }
    var total := Total(samples);
    var avg := Mean(total, |samples|);
    var deviation := Deviation(samples, avg);
    return PathQuality(true, sent, |samples|, samples[0], avg, samples[|samples| - 1], Mean(deviation, |samples|));
  }

  // What the numbers mean.

  ghost predicate Within(s: seq<nat>, low: nat, high: nat) { forall x <- s :: low <= x <= high }

  lemma WithinTail(s: seq<nat>, low: nat, high: nat)
    requires s != [] && Within(s, low, high)
    ensures low <= s[0] <= high && Within(s[1..], low, high)
  {
    assert s[0] in s;
    assert forall x <- s[1..] :: x in s;
  }

  lemma {:induction false} SumBounds(s: seq<nat>, low: nat, high: nat)
    requires Within(s, low, high)
    ensures |s| * low <= Sum(s) <= |s| * high
  {
    if s != [] {
      var n := |s[1..]|;
      WithinTail(s, low, high);
      SumBounds(s[1..], low, high);
      OneMore(n, low, high);
      assert |s| == n + 1;
    }
  }

  // Arithmetic, one step at a time.

  lemma Grows(k: int, a: int, b: int)
    requires k >= 0 && a <= b
    ensures k * a <= k * b
  {
  }

  lemma Distributes(k: int, a: int, b: int)
    ensures (a + b) * k == a * k + b * k && k * (a + b) == k * a + k * b
  {
  }

  /** Between the ends, the distance to a point lies under the chord. */
  lemma UnderTheChord(x: int, low: int, a: int, high: int)
    requires low <= x <= high && low <= a <= high
    ensures (high - low) * Gap(x, a) <= (high - x) * (a - low) + (x - low) * (high - a)
  {
    if x >= a {
      ChordGap(high - x, a - low, x - a);
    } else {
      ChordGap(x - low, high - a, a - x);
    }
  }

  /** With x beyond a by d, u short of one end, and a v short of the other. */
  lemma ChordGap(u: int, v: int, d: int)
    requires u >= 0 && v >= 0 && d >= 0
    ensures (u + d + v) * d <= u * v + (d + v) * (u + d)
  {
    assert u * v + (d + v) * (u + d) - (u + d + v) * d == 2 * (u * v);
    Grows(u, 0, v);
  }

  lemma {:induction false} SpreadUnderTheChord(s: seq<nat>, low: nat, a: nat, high: nat)
    requires Within(s, low, high) && low <= a <= high
    ensures ChordHolds(|s|, Sum(s), Spread(s, a), low, a, high)
  {
    if s != [] {
      WithinTail(s, low, high);
      SpreadUnderTheChord(s[1..], low, a, high);
      UnderTheChord(s[0], low, a, high);
      ChordStep(|s[1..]|, Sum(s[1..]), Spread(s[1..], a), low, a, high, s[0]);
      hide ChordHolds, Gap, Within;
      assert |s| == |s[1..]| + 1;
    }
  }

  ghost predicate ChordHolds(n: int, total: int, spread: int, low: int, a: int, high: int) {
    (high - low) * spread <= (n * high - total) * (a - low) + (total - n * low) * (high - a)
  }

  lemma ChordStep(n: int, total: int, spread: int, low: int, a: int, high: int, x: int)
    requires ChordHolds(n, total, spread, low, a, high)
    requires (high - low) * Gap(x, a) <= (high - x) * (a - low) + (x - low) * (high - a)
    ensures ChordHolds(n + 1, x + total, Gap(x, a) + spread, low, a, high)
  {
    hide Gap;
    ChordSums(high - low, Gap(x, a), spread, a - low, high - x, n * high - total, high - a, x - low, total - n * low);
    OneMore(n, low, high);
  }

  lemma OneMore(n: int, low: int, high: int)
    ensures (n + 1) * low == n * low + low && (n + 1) * high == n * high + high
  {
  }

  lemma ChordSums(w: int, g: int, h: int, p: int, a: int, b: int, q: int, c: int, d: int)
    requires w * g <= a * p + c * q && w * h <= b * p + d * q
    ensures w * (g + h) <= (a + b) * p + (c + d) * q
  {
    Distributes(w, g, h);
    Distributes(p, a, b);
    Distributes(q, c, d);
  }

  /** Half the width, rounded up, bounds the mean deviation from the average: both
      are truncated, and truncation costs no more than that. */
  lemma JitterBound(n: nat, low: int, a: int, high: int, total: int, spread: nat)
    requires n > 0 && low <= a <= high && n * a <= total < n * a + n
    requires ChordHolds(n, total, spread, low, a, high)
    requires high == low ==> spread == 0
    ensures Mean(spread, n) <= (high - low + 1) / 2
  {
    var w, p, q, r := high - low, a - low, high - a, total - n * a;
    if w > 0 {
      Distributes(n, a, q);
      Distributes(n, low, p);
      assert n * high - total == n * q - r && total - n * low == n * p + r;
      Regroup(n, p, q, r);
      Square(p, q);
      RemainderTerm(n, p, q, r);
      ChordBeaten(n, w, p * q, spread, r * (q - p));
      TruncatedBelow(spread, n, w);
    }
  }

  lemma Regroup(n: int, p: int, q: int, r: int)
    ensures (n * q - r) * p + (n * p + r) * q == 2 * (n * (p * q)) + r * (q - p)
  {
    Distributes(p, n * q, -r);
    Distributes(q, n * p, r);
    assert (n * q) * p == n * (p * q) && (n * p) * q == n * (p * q);
    assert r * (q - p) == r * q - r * p;
  }

  lemma Square(p: int, q: int)
    ensures 4 * (p * q) <= (p + q) * (p + q)
  {
    assert (p + q) * (p + q) - 4 * (p * q) == (p - q) * (p - q);
  }

  lemma RemainderTerm(n: int, p: int, q: int, r: int)
    requires 0 <= r < n && p >= 0 && q >= 0
    ensures r * (q - p) <= (n - 1) * (p + q)
  {
    Grows(r, q - p, p + q);
    Grows(p + q, r, n - 1);
  }

  lemma TruncatedBelow(spread: nat, n: nat, w: int)
    requires n > 0 && w >= 0 && 2 * spread < n * (w + 2)
    ensures Mean(spread, n) <= (w + 1) / 2
  {
    var k := Mean(spread, n);
    assert n * (2 * k) == 2 * (n * k);
    if 2 * k >= w + 2 { Grows(n, w + 2, 2 * k); }
  }

  lemma ChordBeaten(n: int, w: int, pq: int, spread: int, rest: int)
    requires w > 0 && n > 0
    requires w * spread <= 2 * (n * pq) + rest && 4 * pq <= w * w && rest <= (n - 1) * w
    ensures 2 * spread < n * (w + 2)
  {
    Grows(n, 4 * pq, w * w);
    RingFacts(n, w, pq, spread);
    Outweighed(w * spread, n * pq, n * (w * w), n * w, w, rest);
    assert w * (2 * spread) < w * (n * (w + 2));
    if 2 * spread >= n * (w + 2) { Grows(w, n * (w + 2), 2 * spread); }
  }

  lemma RingFacts(n: int, w: int, pq: int, spread: int)
    ensures w * (n * (w + 2)) == n * (w * w) + 2 * (n * w)
    ensures (n - 1) * w == n * w - w && w * (2 * spread) == 2 * (w * spread) && n * (4 * pq) == 4 * (n * pq)
  {
  }

  lemma Outweighed(ws: int, npq: int, nww: int, nw: int, w: int, rest: int)
    requires w > 0 && ws <= 2 * npq + rest && 4 * npq <= nww && rest <= nw - w
    ensures 2 * ws < nww + 2 * nw
  {
  }

  /** For any dials at all: the average lies between the extremes, which are those of
      the completed dials, and the jitter is at most half the range, rounded up. */
  lemma StatisticsHold(dials: seq<Option<nat>>)
    requires Completed(dials) != []
    ensures var q := QualityOf(true, dials);
      && q.min <= q.avg <= q.max && q.jitter <= (q.max - q.min + 1) / 2
      && (forall x <- Completed(dials) :: q.min <= x <= q.max)
      && q.min in Completed(dials) && q.max in Completed(dials)
      && q.received == |Completed(dials)| <= q.sent == |dials|
  {
    CompletedCount(dials);
    hide Completed, Sorted, Spread, Sum;
    var s := Sorted(Completed(dials));
    SortedMembers(Completed(dials));
    SampleStatistics(s);
    assert s[0] in s && s[|s| - 1] in s;
  }

  lemma SortedMembers(s: seq<nat>)
    ensures |Sorted(s)| == |s| && Ascends(Sorted(s)) && forall x :: x in s <==> x in Sorted(s)
  {
    SortedFacts(s);
    forall x ensures x in s <==> x in Sorted(s) { assert x in multiset(s) <==> x in multiset(Sorted(s)); }
  }

  lemma SampleStatistics(s: seq<nat>)
    requires s != [] && Ascends(s)
    ensures var low, high, a := s[0], s[|s| - 1], Mean(Sum(s), |s|);
      && Within(s, low, high) && low <= a <= high && Mean(Spread(s, a), |s|) <= (high - low + 1) / 2
  {
    var n, low, high, total := |s|, s[0], s[|s| - 1], Sum(s);
    assert Within(s, low, high);
    SumBounds(s, low, high);
    var a := Mean(total, n);
    AverageBetween(n, low, high, total);
    SpreadUnderTheChord(s, low, a, high);
    if low == high { FlatSpread(s, low); }
    hide Sum, Spread, Within, ChordHolds;
    JitterBound(n, low, a, high, total, Spread(s, a));
  }

  lemma AverageBetween(n: nat, low: nat, high: nat, total: nat)
    requires n > 0 && n * low <= total <= n * high
    ensures low <= Mean(total, n) <= high
  {
    var a := Mean(total, n);
    if a < low { Grows(n, a + 1, low); }
    if a > high { Grows(n, high + 1, a); }
  }

  lemma {:induction false} FlatSpread(s: seq<nat>, a: nat)
    requires Within(s, a, a)
    ensures Spread(s, a) == 0
  {
    if s != [] {
      WithinTail(s, a, a);
      FlatSpread(s[1..], a);
    }
  }

  lemma {:induction false} CompletedCount(dials: seq<Option<nat>>)
    ensures |Completed(dials)| <= |dials|
  {
    if dials != [] { CompletedCount(dials[1..]); }
  }

  lemma {:induction false} CompletedAreTheDials(dials: seq<Option<nat>>, x: nat)
    ensures multiset(Completed(dials))[x] == multiset(dials)[Some(x)]
  {
    if dials != [] {
      CompletedAreTheDials(dials[1..], x);
      assert dials == [dials[0]] + dials[1..];
    }
  }

  /** How far each sample lies from a value. */
  function Distances(s: seq<nat>, a: nat): seq<nat> {
    seq(|s|, i requires 0 <= i < |s| => if s[i] >= a then s[i] - a else a - s[i])
  }

  lemma {:induction false} InsertedSums(x: nat, s: seq<nat>, a: nat)
    ensures Sum(Insert(x, s)) == x + Sum(s) && Spread(Insert(x, s), a) == Gap(x, a) + Spread(s, a)
  {
    if s != [] && x > s[0] {
      InsertedSums(x, s[1..], a);
    } else {
      assert ([x] + s)[1..] == s;
    }
  }

  lemma {:induction false} SortedSums(s: seq<nat>, a: nat)
    ensures Sum(Sorted(s)) == Sum(s) && Spread(Sorted(s), a) == Spread(s, a)
  {
    if s != [] {
      SortedSums(s[1..], a);
      InsertedSums(s[0], Sorted(s[1..]), a);
    }
  }

  lemma {:induction false} SpreadIsDistances(s: seq<nat>, a: nat)
    ensures Spread(s, a) == Sum(Distances(s, a))
  {
    if s != [] {
      SpreadIsDistances(s[1..], a);
      assert Distances(s, a)[1..] == Distances(s[1..], a);
    }
  }

  /** The figures themselves: the average is the total of the completed dials over their
      number, and the jitter that of their distances from the average, both without
      their remainders. */
  lemma AveragesAreExact(dials: seq<Option<nat>>)
    requires Completed(dials) != []
    ensures var q, s := QualityOf(true, dials), Completed(dials);
      && q.received == |s| && q.avg == Sum(s) / |s| && q.jitter == Sum(Distances(s, q.avg)) / |s|
  {
    var s := Completed(dials);
    SortedFacts(s);
    SortedSums(s, Mean(Sum(s), |s|));
    SpreadIsDistances(s, Mean(Sum(s), |s|));
    hide Sorted, Sum, Spread, Distances, Completed;
  }

  // The timers.

  datatype KeepAlivePlan = KeepAlivePlan(keepAlive: int, heartbeat: int)

  predicate Usable(q: PathQuality) { q.understood && q.received >= 2 }

  /** LossPercent() >= 2. */
  predicate Lossy(q: PathQuality) { q.sent > 0 && 100 * (q.sent - q.received) >= 2 * q.sent }

  function Worst(q: PathQuality): nat { (q.max + q.jitter) * if Lossy(q) then 2 else 1 }

  function Plan(q: PathQuality): KeepAlivePlan {
    if !Usable(q) then KeepAlivePlan(75, 40)
    else
      var beat := Worst(q) / SECOND + 5;
      var capped := if beat < 10 then 10 else if beat > 60 then 60 else beat;
      KeepAlivePlan(2 * capped, capped)
  }

  method RecommendKeepAlive(q: PathQuality) returns (plan: KeepAlivePlan)
    ensures plan == Plan(q)
  {
    if !Usable(q) { return KeepAlivePlan(75, 40); }
    var worst := q.max + q.jitter;
    if Lossy(q) { worst := worst * 2; }
    var heartbeat := worst / SECOND + 5;
    if heartbeat < 10 { heartbeat := 10; } else if heartbeat > 60 { heartbeat := 60; }
    var keepalive := heartbeat * 2;
    return KeepAlivePlan(keepalive, heartbeat);
  }

  /** The timers themselves: a heartbeat five seconds over the worst's whole seconds, from
      ten up to sixty, and a keepalive of twice it; the fixed pair for an address that
      could not be probed or fewer than two completed dials. Two lost in a hundred double
      the worst. */
  lemma TimersExactly(q: PathQuality)
    requires q.received <= q.sent
    ensures var plan := Plan(q);
      if !q.understood || q.received < 2 then plan.keepAlive == 75 && plan.heartbeat == 40
      else
        var lost := q.sent - q.received;
        var seconds := (q.max + q.jitter) * (if lost * 50 >= q.sent then 2 else 1) / SECOND;
        && plan.keepAlive == 2 * plan.heartbeat
        && (seconds <= 5 ==> plan.heartbeat == 10) && (seconds >= 55 ==> plan.heartbeat == 60)
        && (5 <= seconds <= 55 ==> plan.heartbeat == seconds + 5)
  {
  }

  /** Whatever was measured, if every completed dial met the probe's timeout: the
      heartbeat is 10 to 17 seconds and outlasts the worst round trip with its jitter,
      twice over on a lossy path. The cap of a minute is never reached. */
  lemma TimersFollowThePath(dials: seq<Option<nat>>)
    requires forall x <- Completed(dials) :: x <= PROBE_TIMEOUT
    requires Usable(QualityOf(true, dials))
    ensures var q := QualityOf(true, dials);
      && 10 <= Plan(q).heartbeat <= 17 && Plan(q).keepAlive == 2 * Plan(q).heartbeat
      && Plan(q).heartbeat * SECOND > Worst(q) && Worst(q) / SECOND + 5 <= 60
  {
    var q := QualityOf(true, dials);
    assert Completed(dials) != [] by { SortedFacts(Completed(dials)); }
    StatisticsHold(dials);
    hide QualityOf, Completed;
    assert q.max <= PROBE_TIMEOUT && q.jitter <= (PROBE_TIMEOUT + 1) / 2;
  }

  /** Past the probe's timeout the heartbeat can fall short: exactly when the worst is
      a minute or more. */
  lemma TheCapFallsShort(q: PathQuality)
    requires Usable(q)
    ensures Plan(q).heartbeat * SECOND > Worst(q) <==> Worst(q) < 60 * SECOND
  {
  }
}
