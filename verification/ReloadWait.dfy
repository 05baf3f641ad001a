/** The wait between two generations turn by turn, and the register a socket restart
    goes through, each against the step machine. */
module ReloadWait {
  import opened Wrappers
  import opened ReloadLoop
  import opened ReloadRuns

  /** One turn of the wait's select, with what the file showed to the stat and then
      to the load. */
  datatype Turn = Done | GenerationDone | Tick(stat: Version, loaded: Version)

  function Waited<C(==)>(phase: Phase<C>, turns: seq<Turn>, cfg: C, load: Loader<C>): Phase<C>
    decreases |turns|
  {
    if !phase.Waiting? || turns == [] then phase
    else
      match turns[0]
      case Done => Ending(Shutdown)
      case GenerationDone => Ending(Restart)
      case Tick(stat, loaded) =>
        var polled := Polled(phase, stat, phase.seen);
        Waited(if polled.Reading? then Judged(polled, LoadOf(loaded, load), cfg) else polled, turns[1..], cfg, load)
  }

  /** The fingerprint held after some turns: the last one a file showed. */
  function LastSeen(entry: Version, turns: seq<Turn>): Stamp {
    if turns == [] then StampOf(entry)
    else
      match turns[|turns| - 1]
      case Tick(File(_, stamp), _) => stamp
      case _ => LastSeen(entry, turns[..|turns| - 1])
  }

  /** A turn the wait goes on after: a poll that finds no file or the fingerprint held,
      or a file that does not load or means what is running. */
  predicate Passes<C(==)>(entry: Version, turns: seq<Turn>, i: nat, current: C, load: Loader<C>)
    requires i < |turns|
  {
    turns[i].Tick? &&
    (turns[i].stat.Missing? || turns[i].stat.stamp == LastSeen(entry, turns[..i]) ||
     LoadOf(turns[i].loaded, load) in {Bad, Good(current)})
  }

  /** A poll that finds another file than the last, which does not load. */
  predicate Broken<C(==)>(entry: Version, turns: seq<Turn>, i: nat, load: Loader<C>)
    requires i < |turns|
  {
    turns[i].Tick? && turns[i].stat.File? && turns[i].stat.stamp != LastSeen(entry, turns[..i]) &&
    LoadOf(turns[i].loaded, load).Bad?
  }

  /** The first turn it does not go on after. */
  ghost predicate Decisive<C(!new)>(entry: Version, turns: seq<Turn>, i: nat, current: C, load: Loader<C>) {
    && i < |turns| && !Passes(entry, turns, i, current, load)
    && forall j: nat :: j < i ==> Passes(entry, turns, j, current, load)
  }

  lemma OnlyOneDecides<C(!new)>(entry: Version, turns: seq<Turn>, i: nat, current: C, load: Loader<C>)
    requires Decisive(entry, turns, i, current, load)
    ensures forall j: nat :: Decisive(entry, turns, j, current, load) ==> j == i
  {
  }

  /** awaitConfigChange over a script of turns, with the broken files it reports. None is
      still waiting when the script runs out, or a process that a check ended. No file
      is reported twice in succession, and every broken one is reported. */
  method AwaitConfigChange<C(==, !new)>(entry: Version, turns: seq<Turn>, current: C, load: Loader<C>)
    returns (why: Option<Why<C>>, complaints: seq<Stamp>)
    ensures var end := Waited<C>(Waiting(StampOf(entry), NO_STAMP, 0), turns, current, load);
      why == if end.Ending? then Some(end.why) else None
    ensures why == Some(Shutdown) <==> exists i: nat :: Decisive(entry, turns, i, current, load) && turns[i].Done?
    ensures why == Some(Restart) <==>
      exists i: nat :: Decisive(entry, turns, i, current, load) && turns[i].GenerationDone?
    ensures forall next :: why == Some(Reload(next)) <==>
      exists i: nat :: Decisive(entry, turns, i, current, load) && turns[i].Tick?
                       && LoadOf(turns[i].loaded, load) == Good(next)
    ensures forall k :: 0 < k < |complaints| ==> complaints[k - 1] != complaints[k]
    ensures forall s <- complaints ::
              exists i: nat :: i < |turns| && Broken(entry, turns, i, load) && turns[i].stat.stamp == s
    ensures forall i: nat :: i < |turns| && (forall j: nat :: j <= i ==> Passes(entry, turns, j, current, load))
                             && Broken(entry, turns, i, load) ==>
              turns[i].stat.stamp in complaints || turns[i].stat.stamp == NO_STAMP
  {
    var last, complaint := StampOf(entry), NO_STAMP;
    complaints := [];
    ghost var start: Phase<C> := Waiting(last, complaint, 0);
    var i := 0;
    while i < |turns|
      invariant 0 <= i <= |turns| && last == LastSeen(entry, turns[..i])
      invariant forall j: nat :: j < i ==> Passes(entry, turns, j, current, load)
      invariant complaint == if complaints == [] then NO_STAMP else complaints[|complaints| - 1]
      invariant forall k :: 0 < k < |complaints| ==> complaints[k - 1] != complaints[k]
      invariant forall s <- complaints ::
                  exists j: nat :: j < i && Broken(entry, turns, j, load) && turns[j].stat.stamp == s
      invariant forall j: nat :: j < i && Broken(entry, turns, j, load) ==>
                  turns[j].stat.stamp in complaints || turns[j].stat.stamp == NO_STAMP
      invariant Waited(start, turns, current, load) == Waited(Waiting(last, complaint, 0), turns[i..], current, load)
    {
      var turn := turns[i];
      assert turns[i..][1..] == turns[i + 1..];
      assert turns[..i + 1][..i] == turns[..i];
      if !Passes(entry, turns, i, current, load) { OnlyOneDecides(entry, turns, i, current, load); }
      i := i + 1;
      match turn {
        case Done => return Some(Shutdown), complaints;
        case GenerationDone => return Some(Restart), complaints;
        case Tick(stat, loaded) =>
          if stat.Missing? || stat.stamp == last { continue; }
          last := stat.stamp;
          var got := LoadOf(loaded, load);
          if got.Bad? {
            assert Broken(entry, turns, i - 1, load);
            if last != complaint {
              complaint := last;
              complaints := complaints + [last];
            }
            continue;
          }
          if got.Exits? { return None, complaints; }
          if got.cfg == current { continue; }
          return Some(Reload(got.cfg)), complaints;
      }
    }
    return None, complaints;
  }

  // The wait is the machine's.

  /** The same wait, whichever versions their fingerprints were taken from. */
  predicate SameWait<C(==)>(p: Phase<C>, q: Phase<C>) {
    match (p, q)
    case (Waiting(a, b, _), Waiting(c, d, _)) => a == c && b == d
    case (Reading(a, b, _), Reading(c, d, _)) => a == c && b == d
    case _ => p == q
  }

  /** What happens around the loop for one turn to go so, and the loop's own steps. */
  function EventsOf(turn: Turn, generation: nat): seq<Event> {
    match turn
    case Done => [Signals, SeesShutdown]
    case GenerationDone => [Aims, Fires(generation), SeesGenerationEnd]
    case Tick(stat, loaded) => [Edits(stat), Ticks, Edits(loaded), Reads]
  }

  function AllEventsOf(turns: seq<Turn>, generation: nat): seq<Event> {
    if turns == [] then [] else EventsOf(turns[0], generation) + AllEventsOf(turns[1..], generation)
  }

  lemma Runs3<C(!new)>(w: World<C>, a: Event, b: Event, c: Event, load: Loader<C>)
    requires w.disk != []
    ensures Run(w, [a, b, c], load) == Step(Step(Step(w, a, load), b, load), c, load)
  {
    hide Step, Run;
    assert [a] + [b, c] == [a, b, c];
    RunsJoin(w, [a], [b, c], load);
    Runs1(w, a, load);
    Runs2(Step(w, a, load), b, c, load);
  }

  lemma Runs1<C(!new)>(w: World<C>, a: Event, load: Loader<C>)
    requires w.disk != []
    ensures Run(w, [a], load) == Step(w, a, load)
  {
    assert Run(w, [a], load) == Run(Step(w, a, load), [], load);
  }

  /** What one turn makes of a wait. */
  function AfterTurn<C(==)>(phase: Phase<C>, turn: Turn, cfg: C, load: Loader<C>): Phase<C>
    requires phase.Waiting?
  {
    match turn
    case Done => Ending(Shutdown)
    case GenerationDone => Ending(Restart)
    case Tick(stat, loaded) =>
      var polled := Polled(phase, stat, phase.seen);
      if polled.Reading? then Judged(polled, LoadOf(loaded, load), cfg) else polled
  }

  lemma TickTurn<C(!new)>(w: World<C>, stat: Version, loaded: Version, phase: Phase<C>, load: Loader<C>)
    requires w.disk != [] && w.phase.Waiting? && phase.Waiting? && SameWait(w.phase, phase)
    ensures var v := Step(Step(Step(Step(w, Edits(stat), load), Ticks, load), Edits(loaded), load), Reads, load);
      && SameWait(v.phase, AfterTurn(phase, Tick(stat, loaded), w.cfg, load)) && v.cfg == w.cfg
      && v.generation == w.generation
  {
    var v := Step(w, Edits(stat), load);
    assert Now(v) == stat;
    var t := Step(v, Ticks, load);
    var u := Step(t, Edits(loaded), load);
    assert Now(u) == loaded;
  }

  lemma OneTurn<C(!new)>(w: World<C>, turn: Turn, phase: Phase<C>, load: Loader<C>)
    requires Lawful(w, load) && w.generation > 0 && w.phase.Waiting? && phase.Waiting? && SameWait(w.phase, phase)
    ensures var v := Run(w, EventsOf(turn, w.generation), load);
      && SameWait(v.phase, AfterTurn(phase, turn, w.cfg, load)) && v.cfg == w.cfg && v.generation == w.generation
  {
    match turn
    case Done =>
      hide Run;
      Runs2(w, Signals, SeesShutdown, load);
    case GenerationDone =>
      hide Run;
      Runs3(w, Aims, Fires(w.generation), SeesGenerationEnd, load);
    case Tick(stat, loaded) =>
      hide Run, Step, Lawful, SameWait;
      Runs4(w, Edits(stat), Ticks, Edits(loaded), Reads, load);
      TickTurn(w, stat, loaded, phase, load);
  }

  /** Once the wait is over, no turn changes how it ended. */
  lemma {:induction false} TurnsAfterTheEnd<C(!new)>(w: World<C>, turns: seq<Turn>, g: nat, load: Loader<C>)
    requires w.disk != [] && (w.phase.Ending? || w.phase.Exited?)
    ensures Run(w, AllEventsOf(turns, g), load).phase == w.phase
    decreases |turns|
  {
    if turns != [] {
      var es := EventsOf(turns[0], g);
      RunsJoin(w, es, AllEventsOf(turns[1..], g), load);
      match turns[0] {
        case Done => Runs2(w, Signals, SeesShutdown, load);
        case GenerationDone => Runs3(w, Aims, Fires(g), SeesGenerationEnd, load);
        case Tick(stat, loaded) => Runs4(w, Edits(stat), Ticks, Edits(loaded), Reads, load);
      }
      hide Step;
      TurnsAfterTheEnd(Run(w, es, load), turns[1..], g, load);
    }
  }

  /** A script of turns comes out as the run of the machine in which the file, the
      socket and the signals do what the turns saw. */
  lemma {:induction false} TheWaitIsARun<C(!new)>(w: World<C>, turns: seq<Turn>, phase: Phase<C>, load: Loader<C>)
    requires Lawful(w, load) && w.generation > 0 && w.phase.Waiting? && phase.Waiting? && SameWait(w.phase, phase)
    ensures SameWait(Run(w, AllEventsOf(turns, w.generation), load).phase, Waited(phase, turns, w.cfg, load))
    decreases |turns|
  {
    if turns != [] {
      var es, rest := EventsOf(turns[0], w.generation), AllEventsOf(turns[1..], w.generation);
      OneTurn(w, turns[0], phase, load);
      EveryRunIsLawful(w, es, load);
      RunsJoin(w, es, rest, load);
      var v, next := Run(w, es, load), AfterTurn(phase, turns[0], w.cfg, load);
      assert Waited(phase, turns, w.cfg, load) == Waited(next, turns[1..], w.cfg, load);
      hide Run, Lawful;
      if next.Waiting? {
        TheWaitIsARun(v, turns[1..], next, load);
      } else {
        TurnsAfterTheEnd(v, turns[1..], w.generation, load);
      }
    }
  }

  // The register.

  class EngineControl {
    /** The generation whose context `restart` cancels. */
    var restart: Option<nat>
    var generation: nat
    var cancelled: set<nat>

    /** The register holds what the machine's does. */
    ghost predicate Mirrors<C(!new)>(w: World<C>)
      reads this
    {
      restart == w.restart && generation == w.generation && cancelled == w.cancelled
    }

    constructor ()
      ensures restart == None && generation == 0 && cancelled == {}
    {
      restart, generation, cancelled := None, 0, {};
    }

    method SetGeneration<C(!new)>(ghost w: World<C>, ghost load: Loader<C>)
      requires w.disk != [] && w.phase.Starting? && Mirrors(w)
      modifies this
      ensures Mirrors(Step(w, Begins, load))
      ensures generation == old(generation) + 1 && restart == Some(generation) && cancelled == old(cancelled)
    {
      generation := generation + 1;
      restart := Some(generation);
    }

    /** In every lawful state: refused exactly before the first generation, and
        otherwise that one's context, and no other, is cancelled. */
    method RestartTransport<C(!new)>(ghost w: World<C>, ghost load: Loader<C>) returns (accepted: bool)
      requires Lawful(w, load) && Mirrors(w)
      modifies this`cancelled
      ensures Mirrors(Requested(w, load))
      ensures accepted == (w.generation > 0)
      ensures cancelled == if accepted then old(cancelled) + {w.generation} else old(cancelled)
    {
      RequestedIs(w, load);
      if restart.None? { return false; }
      cancelled := cancelled + {restart.value};
      return true;
    }
  }

  /** At every reachable state the register is empty, and a restart refused, exactly
      before the first generation. */
  lemma RefusedExactlyBeforeTheFirst<C(!new)>(disk: seq<Version>, cfg: C, es: seq<Event>, load: Loader<C>)
    requires disk != [] && LoadOf(disk[|disk| - 1], load) == Good(cfg)
    ensures var w := Run(Boot(disk, cfg), es, load);
      w.restart.None? <==> w.generation == 0
  {
    EveryReachableStateIsLawful(disk, cfg, es, load);
    hide Run;
  }
}
