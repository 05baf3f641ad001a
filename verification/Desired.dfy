/** What a managed server should be running, and how that is compared with what it
    reports. */
module Desired {

  datatype TunnelIntent = TunnelIntent(name: string, role: string, port: string, running: bool, recorded: int)

  datatype TunnelState = TunnelState(name: string, role: string, port: string, active: bool)

  /** In the order their names sort in. */
  datatype Kind = Changed | Missing | Running | Stopped | Unexpected

  datatype What = Ports(want: string, have: string) | Roles(want: string, have: string) | Whole

  datatype Drift = Drift(tunnel: string, kind: Kind, what: What)

  type Intents = map<string, TunnelIntent>

  type States = map<string, TunnelState>

  /** strings.EqualFold. */
  type Folds = f: (string, string) -> bool | forall s :: f(s, s) witness (a: string, b: string) => a == b

  // What differs, tunnel by tunnel.

  predicate PortsDiffer(w: TunnelIntent, g: TunnelState) { w.port != "" && g.port != "" && w.port != g.port }

  predicate RolesDiffer(w: TunnelIntent, g: TunnelState, folds: Folds) {
    w.role != "" && g.role != "" && !folds(w.role, g.role)
  }

  /** The differences at one name. */
  function Found(name: string, want: Intents, have: States, folds: Folds): seq<Drift> {
    if name in want then
      if name !in have then [Drift(name, Missing, Whole)]
      else
        var w, g := want[name], have[name];
        (if PortsDiffer(w, g) then [Drift(name, Changed, Ports(w.port, g.port))] else [])
        + (if RolesDiffer(w, g, folds) then [Drift(name, Changed, Roles(w.role, g.role))] else [])
        + (if w.running && !g.active then [Drift(name, Stopped, Whole)]
           else if !w.running && g.active then [Drift(name, Running, Whole)] else [])
    else if name in have then [Drift(name, Unexpected, Whole)]
    else []
  }

  /** A report of exactly the differences there are, each once. */
  ghost predicate Reports(out: seq<Drift>, want: Intents, have: States, folds: Folds) {
    forall d: Drift :: multiset(out)[d] == multiset(Found(d.tunnel, want, have, folds))[d]
  }

  // The order of a report.

  /** Go's order of strings. */
  predicate Before(a: string, b: string) {
    b != [] && (a == [] || a[0] < b[0] || (a[0] == b[0] && Before(a[1..], b[1..])))
  }

  lemma {:induction false} BeforeIsTotal(a: string, b: string)
    ensures a == b || Before(a, b) || Before(b, a)
    ensures !(Before(a, b) && (Before(b, a) || a == b))
  {
    if a != [] && b != [] {
      BeforeIsTotal(a[1..], b[1..]);
      assert a == [a[0]] + a[1..] && b == [b[0]] + b[1..];
    }
  }

  lemma {:induction false} BeforeChains(a: string, b: string, c: string)
    requires Before(a, b) && Before(b, c)
    ensures Before(a, c)
  {
    if a != [] && a[0] == b[0] && b[0] == c[0] { BeforeChains(a[1..], b[1..], c[1..]); }
  }

  function Rank(k: Kind): nat {
    match k case Changed => 0 case Missing => 1 case Running => 2 case Stopped => 3 case Unexpected => 4
  }

  /** The words the kinds are, which is what they are sorted by. */
  function Word(k: Kind): string {
    match k
    case Changed => "changed"
    case Missing => "missing"
    case Running => "running"
    case Stopped => "stopped"
    case Unexpected => "unexpected"
  }

  lemma RanksFollowTheWords(a: Kind, b: Kind)
    ensures Rank(a) < Rank(b) <==> Before(Word(a), Word(b))
  {
    if a == b { BeforeIsTotal(Word(a), Word(b)); } else { assert Word(a)[0] != Word(b)[0]; }
  }

  predicate NotAfter(a: Drift, b: Drift) {
    if a.tunnel != b.tunnel then Before(a.tunnel, b.tunnel) else Rank(a.kind) <= Rank(b.kind)
  }

  ghost predicate Ordered(s: seq<Drift>) { forall i, j :: 0 <= i < j < |s| ==> NotAfter(s[i], s[j]) }

  lemma NotAfterChains(a: Drift, b: Drift, c: Drift)
    requires NotAfter(a, b) && NotAfter(b, c)
    ensures NotAfter(a, c)
  {
    if a.tunnel != b.tunnel && b.tunnel != c.tunnel {
      BeforeChains(a.tunnel, b.tunnel, c.tunnel);
      BeforeIsTotal(a.tunnel, b.tunnel);
      BeforeIsTotal(a.tunnel, c.tunnel);
    }
  }

  lemma NotAfterIsTotal(a: Drift, b: Drift)
    ensures NotAfter(a, b) || NotAfter(b, a)
  {
    BeforeIsTotal(a.tunnel, b.tunnel);
  }

  /** Any sort would do: between equals no order is promised. */
  method Sort(s: seq<Drift>) returns (out: seq<Drift>)
    ensures Ordered(out) && multiset(out) == multiset(s)
  {
    out := [];
    for i := 0 to |s|
      invariant Ordered(out) && multiset(out) == multiset(s[..i])
    {
      out := Place(out, s[i]);
      assert s[..i + 1] == s[..i] + [s[i]];
    }
    assert s[..|s|] == s;
  }

  method Place(s: seq<Drift>, d: Drift) returns (out: seq<Drift>)
    requires Ordered(s)
    ensures Ordered(out) && multiset(out) == multiset(s) + multiset{d}
  {
    hide NotAfter;
    var i := 0;
    while i < |s| && NotAfter(s[i], d)
      invariant 0 <= i <= |s| && forall k :: 0 <= k < i ==> NotAfter(s[k], d)
    {
      i := i + 1;
    }
    out := s[..i] + [d] + s[i..];
    assert s == s[..i] + s[i..];
    if i < |s| { NotAfterIsTotal(s[i], d); }
    forall j | i < j < |s| ensures NotAfter(d, s[j]) { NotAfterChains(d, s[i], s[j]); }
  }

  /** The later of two states of one name stands. */
  function HaveOf(actual: seq<TunnelState>): States {
    if actual == [] then map[] else HaveOf(actual[..|actual| - 1])[actual[|actual| - 1].name := actual[|actual| - 1]]
  }

  /** Of the states under one name the last stands, and no other name appears. */
  lemma {:induction false} HaveByPlace(actual: seq<TunnelState>, name: string)
    ensures name !in HaveOf(actual) <==> forall s <- actual :: s.name != name
    ensures name in HaveOf(actual) ==>
      exists i :: 0 <= i < |actual| && actual[i] == HaveOf(actual)[name] && actual[i].name == name
                  && forall j :: i < j < |actual| ==> actual[j].name != name
  {
    if actual != [] {
      var before, last := actual[..|actual| - 1], actual[|actual| - 1];
      HaveByPlace(before, name);
      assert actual == before + [last];
      if last.name == name { assert actual[|actual| - 1] == HaveOf(actual)[name]; }
    }
  }

  class Desired {
    var nodes: map<string, Intents>
    /** The file beside the fleet, and whether it can be written. */
    var disk: map<string, Intents>

    constructor (disk: map<string, Intents>)
      ensures nodes == disk && this.disk == disk
    {
      nodes, this.disk := disk, disk;
    }

    method Save(writable: bool) returns (saved: bool)
      modifies this`disk
      ensures saved == writable && disk == if writable then nodes else old(disk)
    {
      if writable { disk := nodes; }
      return writable;
    }

    /** An intent that could not be written is still held. */
    method Record(node: string, t: TunnelIntent, now: int, writable: bool) returns (ok: bool)
      modifies this
      ensures nodes == Recorded(old(nodes), node, t, now) && ok == (node != "" && t.name != "" && writable)
      ensures node != "" && t.name != "" ==>
        && node in nodes && t.name in nodes[node]
        && nodes[node][t.name] == TunnelIntent(t.name, t.role, t.port, t.running, now)
        && (forall other :: other != t.name ==>
              (other in nodes[node] <==> Expected(old(nodes), node, other)) &&
              (other in nodes[node] ==> nodes[node][other] == old(nodes)[node][other]))
        && (forall other :: other != node ==>
              (other in nodes <==> other in old(nodes)) && (other in nodes ==> nodes[other] == old(nodes)[other]))
    {
      if node == "" || t.name == "" { return false; }
      var here := if node in nodes then nodes[node] else map[];
      nodes := nodes[node := here[t.name := t.(recorded := now)]];
      ok := Save(writable);
    }

    method SetRunning(node: string, tunnel: string, running: bool, now: int, writable: bool) returns (ok: bool)
      modifies this
      ensures nodes == SetRunningIn(old(nodes), node, tunnel, running, now)
      ensures ok == (writable || !Expected(old(nodes), node, tunnel))
      ensures !Expected(old(nodes), node, tunnel) ==> nodes == old(nodes)
      ensures Expected(old(nodes), node, tunnel) ==>
        && nodes.Keys == old(nodes).Keys && nodes[node].Keys == old(nodes)[node].Keys
        && nodes[node][tunnel].running == running && nodes[node][tunnel].recorded == now
        && (var was := old(nodes)[node][tunnel];
            nodes[node][tunnel].(running := was.running, recorded := was.recorded) == was)
        && (forall other <- nodes[node] :: other != tunnel ==> nodes[node][other] == old(nodes)[node][other])
        && (forall other <- nodes :: other != node ==> nodes[other] == old(nodes)[other])
    {
      if node !in nodes || tunnel !in nodes[node] { return true; }
      nodes := nodes[node := nodes[node][tunnel := nodes[node][tunnel].(running := running, recorded := now)]];
      ok := Save(writable);
    }

    method Forget(node: string, tunnel: string, writable: bool) returns (ok: bool)
      modifies this
      ensures nodes == Forgotten(old(nodes), node, tunnel) && ok == (writable || node !in old(nodes))
      ensures !Expected(nodes, node, tunnel) && (node in nodes && node in old(nodes) ==> nodes[node] != map[])
      ensures forall n, t :: n != node || t != tunnel ==>
        (Expected(nodes, n, t) <==> Expected(old(nodes), n, t)) &&
        (Expected(nodes, n, t) ==> nodes[n][t] == old(nodes)[n][t])
    {
      if node !in nodes { return true; }
      var left := nodes[node] - {tunnel};
      nodes := if left == map[] then nodes - {node} else nodes[node := left];
      ok := Save(writable);
    }

    method ForgetNode(node: string, writable: bool) returns (ok: bool)
      modifies this
      ensures nodes == old(nodes) - {node} && ok == writable
    {
      nodes := nodes - {node};
      ok := Save(writable);
    }

    /** The differences and nothing else, each once, in order. The maps are walked in
        no particular order. */
    method Reconcile(node: string, actual: seq<TunnelState>, folds: Folds) returns (out: seq<Drift>)
      ensures Reports(out, IntentsOf(nodes, node), HaveOf(actual), folds) && Ordered(out)
    {
      hide Found, HaveOf;
      var want := IntentsOf(nodes, node);
      var have := Index(actual);
      out := [];
      var left := want.Keys;
      ghost var done: set<string> := {};
      while left != {}
        invariant left + done == want.Keys && left !! done
        invariant Covers(out, done, want, have, folds)
        decreases left
      {
        var name :| name in left;
        left := left - {name};
        var found := Compare(name, want, have, folds);
        Covered(out, done, name, want, have, folds);
        out := out + found;
        done := done + {name};
      }
      left := have.Keys - want.Keys;
      while left != {}
        invariant left + done == want.Keys + have.Keys && left !! done && left !! want.Keys
        invariant Covers(out, done, want, have, folds)
        decreases left
      {
        var name :| name in left;
        left := left - {name};
        OnlyThere(name, want, have, folds);
        Covered(out, done, name, want, have, folds);
        out := out + [Drift(name, Unexpected, Whole)];
        done := done + {name};
      }
      CoversAll(out, done, want, have, folds);
      var sorted := Sort(out);
      out := sorted;
    }

    /** What an expected tunnel is found to be. */
    method Compare(name: string, want: Intents, have: States, folds: Folds) returns (found: seq<Drift>)
      requires name in want
      ensures found == Found(name, want, have, folds)
    {
      var w := want[name];
      if name !in have { return [Drift(name, Missing, Whole)]; }
      var got := have[name];
      found := [];
      if PortsDiffer(w, got) { found := found + [Drift(name, Changed, Ports(w.port, got.port))]; }
      if RolesDiffer(w, got, folds) { found := found + [Drift(name, Changed, Roles(w.role, got.role))]; }
      if w.running && !got.active { found := found + [Drift(name, Stopped, Whole)]; }
      else if !w.running && got.active { found := found + [Drift(name, Running, Whole)]; }
    }

    method Index(actual: seq<TunnelState>) returns (have: States)
      ensures have == HaveOf(actual)
    {
      have := map[];
      for i := 0 to |actual|
        invariant have == HaveOf(actual[..i])
      {
        have := have[actual[i].name := actual[i]];
        assert actual[..i + 1][..i] == actual[..i];
      }
      assert actual[..|actual|] == actual;
    }
  }

  /** A report so far, of the names in `done`. */
  ghost predicate Covers(out: seq<Drift>, done: set<string>, want: Intents, have: States, folds: Folds) {
    forall d: Drift ::
      multiset(out)[d] == if d.tunnel in done then multiset(Found(d.tunnel, want, have, folds))[d] else 0
  }

  lemma FoundIsAtItsName(name: string, want: Intents, have: States, folds: Folds)
    ensures forall d <- Found(name, want, have, folds) :: d.tunnel == name
  {
  }

  lemma OnlyThere(name: string, want: Intents, have: States, folds: Folds)
    requires name in have && name !in want
    ensures Found(name, want, have, folds) == [Drift(name, Unexpected, Whole)]
  {
  }

  lemma CoversAll(out: seq<Drift>, done: set<string>, want: Intents, have: States, folds: Folds)
    requires Covers(out, done, want, have, folds) && done == want.Keys + have.Keys
    ensures Reports(out, want, have, folds)
  {
    forall d: Drift ensures multiset(out)[d] == multiset(Found(d.tunnel, want, have, folds))[d] {
      if d.tunnel !in done { assert Found(d.tunnel, want, have, folds) == []; }
    }
  }

  lemma Covered(out: seq<Drift>, done: set<string>, name: string, want: Intents, have: States, folds: Folds)
    requires Covers(out, done, want, have, folds) && name !in done
    ensures Covers(out + Found(name, want, have, folds), done + {name}, want, have, folds)
  {
    FoundIsAtItsName(name, want, have, folds);
    hide Found;
    var more := Found(name, want, have, folds);
    forall d: Drift
      ensures multiset(out + more)[d] ==
              if d.tunnel in done + {name} then multiset(Found(d.tunnel, want, have, folds))[d] else 0
    {
      assert multiset(out + more) == multiset(out) + multiset(more);
      if d.tunnel != name { assert d !in more; }
    }
  }

  // The intents.

  function IntentsOf(nodes: map<string, Intents>, node: string): Intents {
    if node in nodes then nodes[node] else map[]
  }

  predicate Expected(nodes: map<string, Intents>, node: string, tunnel: string) { tunnel in IntentsOf(nodes, node) }

  function Recorded(nodes: map<string, Intents>, node: string, t: TunnelIntent, now: int): map<string, Intents> {
    if node == "" || t.name == "" then nodes
    else nodes[node := IntentsOf(nodes, node)[t.name := t.(recorded := now)]]
  }

  function SetRunningIn(nodes: map<string, Intents>, node: string, tunnel: string, running: bool,
                        now: int): map<string, Intents> {
    if !Expected(nodes, node, tunnel) then nodes
    else nodes[node := nodes[node][tunnel := nodes[node][tunnel].(running := running, recorded := now)]]
  }

  function Forgotten(nodes: map<string, Intents>, node: string, tunnel: string): map<string, Intents> {
    if node !in nodes then nodes
    else if nodes[node] - {tunnel} == map[] then nodes - {node}
    else nodes[node := nodes[node] - {tunnel}]
  }

  // What a report says.

  /** Nothing differs: the same names, and at each the same running, and the same port
      and role where both are known. */
  ghost predicate Matches(want: Intents, have: States, folds: Folds) {
    && want.Keys == have.Keys
    && forall name <- want.Keys :: Agrees(want[name], have[name], folds)
  }

  predicate Agrees(w: TunnelIntent, g: TunnelState, folds: Folds) {
    !PortsDiffer(w, g) && !RolesDiffer(w, g, folds) && w.running == g.active
  }

  /** Two reports of the same facts are the same differences, however the maps were
      walked. */
  lemma ReportsAgree(a: seq<Drift>, b: seq<Drift>, want: Intents, have: States, folds: Folds)
    requires Reports(a, want, have, folds) && Reports(b, want, have, folds)
    ensures multiset(a) == multiset(b)
  {
    hide Found;
    forall d: Drift ensures multiset(a)[d] == multiset(b)[d] { }
  }

  lemma ReportedIsFound(out: seq<Drift>, want: Intents, have: States, folds: Folds, d: Drift)
    requires Reports(out, want, have, folds)
    ensures d in out <==> d in Found(d.tunnel, want, have, folds)
  {
    hide Found;
    assert d in out <==> multiset(out)[d] > 0;
    assert d in Found(d.tunnel, want, have, folds) <==> multiset(Found(d.tunnel, want, have, folds))[d] > 0;
  }

  /** Sound and complete: a report is empty exactly when nothing differs. */
  lemma EmptyExactlyWhenMatching(out: seq<Drift>, want: Intents, have: States, folds: Folds)
    requires Reports(out, want, have, folds)
    ensures out == [] <==> Matches(want, have, folds)
  {
    if out != [] {
      ReportedIsFound(out, want, have, folds, out[0]);
      if Matches(want, have, folds) { MatchingFindsNothing(out[0].tunnel, want, have, folds); }
    }
    if !Matches(want, have, folds) {
      hide Reports, Matches;
      var name := Mismatch(want, have, folds);
      var d := Found(name, want, have, folds)[0];
      FoundIsAtItsName(name, want, have, folds);
      hide Found;
      ReportedIsFound(out, want, have, folds, d);
    }
  }

  lemma MatchingFindsNothing(name: string, want: Intents, have: States, folds: Folds)
    requires Matches(want, have, folds)
    ensures Found(name, want, have, folds) == []
  {
  }

  lemma Mismatch(want: Intents, have: States, folds: Folds) returns (name: string)
    requires !Matches(want, have, folds)
    ensures Found(name, want, have, folds) != []
  {
    if want.Keys - have.Keys != {} { name :| name in want.Keys - have.Keys; }
    else if have.Keys - want.Keys != {} { name :| name in have.Keys - want.Keys; }
    else { name :| name in want && !Agrees(want[name], have[name], folds); }
  }

  lemma FoundOfKinds(want: Intents, have: States, folds: Folds, name: string)
    ensures var f := Found(name, want, have, folds);
      && (Drift(name, Missing, Whole) in f <==> name in want && name !in have)
      && (Drift(name, Unexpected, Whole) in f <==> name in have && name !in want)
      && (Drift(name, Stopped, Whole) in f <==>
          name in want && name in have && want[name].running && !have[name].active)
      && (Drift(name, Running, Whole) in f <==>
          name in want && name in have && !want[name].running && have[name].active)
  {
  }

  /** Each difference in whether a tunnel is there and runs is reported exactly when
      it is so. */
  lemma KindsMeanWhatTheySay(out: seq<Drift>, want: Intents, have: States, folds: Folds, name: string)
    requires Reports(out, want, have, folds)
    ensures Drift(name, Missing, Whole) in out <==> name in want && name !in have
    ensures Drift(name, Unexpected, Whole) in out <==> name in have && name !in want
    ensures Drift(name, Stopped, Whole) in out <==>
            name in want && name in have && want[name].running && !have[name].active
    ensures Drift(name, Running, Whole) in out <==>
            name in want && name in have && !want[name].running && have[name].active
  {
    FoundOfKinds(want, have, folds, name);
    ReportedIsFound(out, want, have, folds, Drift(name, Missing, Whole));
    ReportedIsFound(out, want, have, folds, Drift(name, Unexpected, Whole));
    ReportedIsFound(out, want, have, folds, Drift(name, Stopped, Whole));
    ReportedIsFound(out, want, have, folds, Drift(name, Running, Whole));
    hide Reports, Found;
  }

  /** A port or role is reported as changed exactly when both sides know it and they
      do not agree, with the two values. */
  lemma ChangesMeanWhatTheySay(out: seq<Drift>, want: Intents, have: States, folds: Folds, name: string, w: string,
                               h: string)
    requires Reports(out, want, have, folds)
    ensures Drift(name, Changed, Ports(w, h)) in out <==>
            name in want && name in have && w == want[name].port && h == have[name].port && w != "" && h != "" && w != h
    ensures Drift(name, Changed, Roles(w, h)) in out <==>
            name in want && name in have && w == want[name].role && h == have[name].role && w != "" && h != "" &&
            !folds(w, h)
  {
    ReportedIsFound(out, want, have, folds, Drift(name, Changed, Ports(w, h)));
    ReportedIsFound(out, want, have, folds, Drift(name, Changed, Roles(w, h)));
    hide Reports;
    FoundChanges(want, have, folds, name, w, h);
  }

  lemma FoundChanges(want: Intents, have: States, folds: Folds, name: string, w: string, h: string)
    ensures var f := Found(name, want, have, folds);
      && (Drift(name, Changed, Ports(w, h)) in f <==>
            name in want && name in have && w == want[name].port && h == have[name].port && w != "" && h != "" &&
            w != h)
      && (Drift(name, Changed, Roles(w, h)) in f <==>
            name in want && name in have && w == want[name].role && h == have[name].role && w != "" && h != "" &&
            !folds(w, h))
  {
  }

  /** Entries that sort alike but differ are the two ways a tunnel can have changed. */
  lemma TiesAreTheTwoChanges(out: seq<Drift>, want: Intents, have: States, folds: Folds, d: Drift, e: Drift)
    requires Reports(out, want, have, folds) && d in out && e in out
    requires d.tunnel == e.tunnel && d.kind == e.kind && d != e
    ensures d.kind == Changed && ((d.what.Ports? && e.what.Roles?) || (d.what.Roles? && e.what.Ports?))
  {
    ReportedIsFound(out, want, have, folds, d);
    ReportedIsFound(out, want, have, folds, e);
    FoundSays(d.tunnel, want, have, folds, d);
    FoundSays(d.tunnel, want, have, folds, e);
    hide Reports, Found;
  }

  lemma FoundSays(name: string, want: Intents, have: States, folds: Folds, d: Drift)
    requires d in Found(name, want, have, folds)
    ensures d.tunnel == name && (d.kind != Changed ==> d.what == Whole)
    ensures d.kind == Changed ==> name in want && name in have
    ensures d.kind == Changed ==> d.what in {Ports(want[name].port, have[name].port),
                                             Roles(want[name].role, have[name].role)}
  {
  }

  lemma NothingIsReportedTwice(out: seq<Drift>, want: Intents, have: States, folds: Folds, d: Drift)
    requires Reports(out, want, have, folds)
    ensures multiset(out)[d] <= 1
  {
  }

  // Runs in which the node does what was recorded.

  datatype Order =
    | Created(intent: TunnelIntent, now: int)
    | Driven(tunnel: string, running: bool, now: int)
    | Deleted(tunnel: string)

  function Intended(nodes: map<string, Intents>, node: string, o: Order): map<string, Intents> {
    match o
    case Created(t, now) => Recorded(nodes, node, t, now)
    case Driven(tunnel, running, now) => SetRunningIn(nodes, node, tunnel, running, now)
    case Deleted(tunnel) => Forgotten(nodes, node, tunnel)
  }

  /** The node carries out the same order. A tunnel without a name is refused at both
      ends. */
  function Done(have: States, o: Order): States {
    match o
    case Created(t, _) => if t.name == "" then have else have[t.name := TunnelState(t.name, t.role, t.port, t.running)]
    case Driven(tunnel, running, _) => if tunnel in have then have[tunnel := have[tunnel].(active := running)] else have
    case Deleted(tunnel) => have - {tunnel}
  }

  function AllIntended(nodes: map<string, Intents>, node: string, os: seq<Order>): map<string, Intents>
    decreases |os|
  {
    if os == [] then nodes else AllIntended(Intended(nodes, node, os[0]), node, os[1..])
  }

  function AllDone(have: States, os: seq<Order>): States
    decreases |os|
  {
    if os == [] then have else AllDone(Done(have, os[0]), os[1..])
  }

  lemma OrderKeepsMatching(nodes: map<string, Intents>, node: string, have: States, o: Order, folds: Folds)
    requires node != "" && Matches(IntentsOf(nodes, node), have, folds)
    ensures Matches(IntentsOf(Intended(nodes, node, o), node), Done(have, o), folds)
  {
    var want, next := IntentsOf(nodes, node), IntentsOf(Intended(nodes, node, o), node);
    match o
    case Created(t, now) =>
      if t.name != "" { assert next == want[t.name := t.(recorded := now)]; }
    case Driven(tunnel, running, now) =>
      if tunnel in want { assert next == want[tunnel := want[tunnel].(running := running, recorded := now)]; }
    case Deleted(tunnel) => assert next == want - {tunnel};
  }

  lemma {:induction false} MirroredRunsMatch(nodes: map<string, Intents>, node: string, have: States,
                                             os: seq<Order>, folds: Folds)
    requires node != "" && Matches(IntentsOf(nodes, node), have, folds)
    ensures Matches(IntentsOf(AllIntended(nodes, node, os), node), AllDone(have, os), folds)
    decreases |os|
  {
    if os != [] {
      OrderKeepsMatching(nodes, node, have, os[0], folds);
      hide Matches, Intended, Done;
      MirroredRunsMatch(Intended(nodes, node, os[0]), node, Done(have, os[0]), os[1..], folds);
    }
  }

  /** While the node does what the panel records, every report of it is empty. */
  lemma MirroredRunsStayQuiet(nodes: map<string, Intents>, node: string, have: States, os: seq<Order>,
                              out: seq<Drift>, folds: Folds)
    requires node != "" && Matches(IntentsOf(nodes, node), have, folds)
    requires Reports(out, IntentsOf(AllIntended(nodes, node, os), node), AllDone(have, os), folds)
    ensures out == []
  {
    MirroredRunsMatch(nodes, node, have, os, folds);
    EmptyExactlyWhenMatching(out, IntentsOf(AllIntended(nodes, node, os), node), AllDone(have, os), folds);
  }

  lemma OrdersAreApart(nodes: map<string, Intents>, node: string, other: string, o: Order)
    requires other != node
    ensures IntentsOf(Intended(nodes, node, o), other) == IntentsOf(nodes, other)
  {
  }

  lemma {:induction false} RunsAreApart(nodes: map<string, Intents>, node: string, other: string, os: seq<Order>)
    requires other != node
    ensures IntentsOf(AllIntended(nodes, node, os), other) == IntentsOf(nodes, other)
    decreases |os|
  {
    if os != [] {
      OrdersAreApart(nodes, node, other, os[0]);
      hide Intended;
      RunsAreApart(Intended(nodes, node, os[0]), node, other, os[1..]);
    }
  }

  /** Whatever is recorded of one node, a report of another finds what it found
      before. */
  lemma NodesAreApart(nodes: map<string, Intents>, node: string, other: string, os: seq<Order>, have: States,
                      before: seq<Drift>, after: seq<Drift>, folds: Folds)
    requires other != node
    requires Reports(before, IntentsOf(nodes, other), have, folds)
    requires Reports(after, IntentsOf(AllIntended(nodes, node, os), other), have, folds)
    ensures multiset(before) == multiset(after)
  {
    hide Reports, Intended, IntentsOf;
    RunsAreApart(nodes, node, other, os);
    ReportsAgree(before, after, IntentsOf(nodes, other), have, folds);
  }
}
