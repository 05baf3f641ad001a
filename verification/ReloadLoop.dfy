/** One tunnel process: its configuration file, the generations it runs, the socket
    that can restart one, and everything that happens meanwhile. */
module ReloadLoop {
  import opened Wrappers

  /** A file's size and modification time. */
  datatype Stamp = Stamp(size: int, modTime: int)

  /** What a failed stat leaves behind: Go's zero value. */
  const NO_STAMP := Stamp(0, 0)

  /** One state of the path: a file, or none. The disk keeps them all, oldest first. */
  datatype Version = File(content: string, stamp: Stamp) | Missing

  /** What loading a file comes to. Exits is a configuration that parses and then
      fails one of the defaults' checks, which ends the process. */
  datatype Load<C> = Bad | Exits | Good(cfg: C)

  /** Parsing and defaulting, as one. */
  type Loader<!C> = string -> Load<C>

  datatype Why<C> = Shutdown | Reload(next: C) | Restart

  /** Where the loop is. `seen` is the version `last` was taken from. */
  datatype Phase<C> =
    | Starting
    | Entering
    | Waiting(last: Stamp, complaint: Stamp, seen: nat)
    | Reading(last: Stamp, complaint: Stamp, seen: nat)
    | Ending(why: Why<C>)
    | Settling(why: Why<C>)
    | Stopped
    | Exited

  datatype World<C> = World(
    disk: seq<Version>,
    cfg: C,
    /** The version last loaded, whatever came of it. */
    read: nat,
    phase: Phase<C>,
    generation: nat,
    /** Generations whose engine is still running, and whose cancel was called. */
    running: set<nat>, cancelled: set<nat>,
    shutdown: bool,
    /** The generation the socket would end, and the ends it has read and not yet called. */
    restart: Option<nat>, aimed: set<nat>)

  datatype Event =
    | Edits(version: Version)
    | Signals
    | Aims
    | Fires(generation: nat)
    | EngineStops(generation: nat)
    | Begins
    | TakesFingerprint
    | SeesShutdown
    | SeesGenerationEnd
    | Ticks
    | Reads
    | Ends
    | Settles

  function Now<C>(w: World<C>): Version
    requires w.disk != []
  {
    w.disk[|w.disk| - 1]
  }

  function LoadOf<C>(v: Version, load: Loader<C>): Load<C> { if v.File? then load(v.content) else Bad }

  /** Whether the generation's context is done: a child of the process's. */
  predicate Ended<C>(w: World<C>) { w.generation in w.cancelled || w.shutdown }

  /** The process once its first load succeeded. */
  function Boot<C>(disk: seq<Version>, cfg: C): World<C>
    requires disk != []
  {
    World(disk, cfg, |disk| - 1, Starting, 0, {}, {}, false, None, {})
  }

  /** What a poll does with what it finds. */
  function Polled<C>(phase: Phase<C>, now: Version, at: nat): Phase<C>
    requires phase.Waiting?
  {
    if now.Missing? || now.stamp == phase.last then phase else Reading(now.stamp, phase.complaint, at)
  }

  /** What it makes of the file it then loads. */
  function Judged<C(==)>(phase: Phase<C>, loaded: Load<C>, cfg: C): Phase<C>
    requires phase.Reading?
  {
    match loaded
    case Bad => Waiting(phase.last, phase.last, phase.seen)
    case Exits => Exited
    case Good(next) => if next == cfg then Waiting(phase.last, phase.complaint, phase.seen) else Ending(Reload(next))
  }

  /** One event; one that cannot happen now changes nothing. */
  function Step<C(==)>(w: World<C>, e: Event, load: Loader<C>): (v: World<C>)
    requires w.disk != []
    ensures v.disk != []
  {
    match e
    case Edits(version) => w.(disk := w.disk + [version])
    case Signals => w.(shutdown := true)
    case Aims => if w.restart.Some? then w.(aimed := w.aimed + {w.restart.value}) else w
    case Fires(g) => if g in w.aimed then w.(cancelled := w.cancelled + {g}, aimed := w.aimed - {g}) else w
    case EngineStops(g) => w.(running := w.running - {g})
    case Begins =>
      if w.phase.Starting? then
        var g := w.generation + 1;
        w.(phase := Entering, generation := g, running := w.running + {g}, restart := Some(g))
      else w
    case TakesFingerprint =>
      if w.phase.Entering? then
        w.(phase := Waiting(if Now(w).File? then Now(w).stamp else NO_STAMP, NO_STAMP, |w.disk| - 1))
      else w
    case SeesShutdown => if w.phase.Waiting? && w.shutdown then w.(phase := Ending(Shutdown)) else w
    case SeesGenerationEnd => if w.phase.Waiting? && Ended(w) then w.(phase := Ending(Restart)) else w
    case Ticks => if w.phase.Waiting? then w.(phase := Polled(w.phase, Now(w), |w.disk| - 1)) else w
    case Reads =>
      if w.phase.Reading? then
        w.(phase := Judged(w.phase, LoadOf(Now(w), load), w.cfg), read := |w.disk| - 1)
      else w
    case Ends =>
      if w.phase.Ending? && w.running == {} then
        w.(phase := if w.phase.why.Shutdown? then Stopped else Settling(w.phase.why),
           cancelled := w.cancelled + {w.generation})
      else if w.phase.Ending? then w.(cancelled := w.cancelled + {w.generation})
      else w
    case Settles =>
      if w.phase.Settling? then
        w.(phase := Starting, cfg := if w.phase.why.Reload? then w.phase.why.next else w.cfg)
      else w
  }

  function Run<C(==)>(w: World<C>, es: seq<Event>, load: Loader<C>): (v: World<C>)
    requires w.disk != []
    ensures v.disk != []
    decreases |es|
  {
    if es == [] then w else Run(Step(w, es[0], load), es[1..], load)
  }

  // Safety.

  ghost predicate CameFromDisk<C(!new)>(w: World<C>, load: Loader<C>, cfg: C) {
    exists i {:trigger w.disk[i]} :: 0 <= i < |w.disk| && LoadOf(w.disk[i], load) == Good(cfg)
  }

  ghost predicate Lawful<C(!new)>(w: World<C>, load: Loader<C>) {
    && w.disk != [] && w.read < |w.disk|
    && w.running <= {w.generation} && (w.phase.Starting? || w.phase.Settling? || w.phase.Stopped? ==> w.running == {})
    && CameFromDisk(w, load, w.cfg)
    && (w.phase.Ending? && w.phase.why.Reload? ==> w.phase.why.next != w.cfg && CameFromDisk(w, load, w.phase.why.next))
    && (w.phase.Settling? && w.phase.why.Reload? ==>
          w.phase.why.next != w.cfg && CameFromDisk(w, load, w.phase.why.next))
    && (w.restart == if w.generation == 0 then None else Some(w.generation))
    && (forall g <- w.aimed :: 1 <= g <= w.generation)
    && (forall g <- w.cancelled :: g <= w.generation)
    && ((w.phase.Waiting? || w.phase.Reading?) ==> w.phase.seen < |w.disk|)
  }

  lemma BootIsLawful<C(!new)>(disk: seq<Version>, cfg: C, load: Loader<C>)
    requires disk != [] && LoadOf(disk[|disk| - 1], load) == Good(cfg)
    ensures Lawful(Boot(disk, cfg), load)
  {
  }

  lemma StepIsLawful<C(!new)>(w: World<C>, e: Event, load: Loader<C>)
    requires Lawful(w, load)
    ensures Lawful(Step(w, e, load), load)
  {
    var v := Step(w, e, load);
    DiskGrows(w, e, load);
    forall cfg: C | CameFromDisk(w, load, cfg) ensures CameFromDisk(v, load, cfg) {
      var i :| 0 <= i < |w.disk| && LoadOf(w.disk[i], load) == Good(cfg);
      assert v.disk[i] == w.disk[i];
    }
  }

  lemma DiskGrows<C(!new)>(w: World<C>, e: Event, load: Loader<C>)
    requires w.disk != []
    ensures w.disk <= Step(w, e, load).disk
  {
  }

  /** Over every run, whatever the file, the signals and the socket do meanwhile: at
      most one generation's engine runs, and it is the current one's; the
      configuration is what some content the file held loads as; a reload is to a
      different configuration; the socket can only end a generation there has been. */
  lemma {:induction false} EveryRunIsLawful<C(!new)>(w: World<C>, es: seq<Event>, load: Loader<C>)
    requires Lawful(w, load)
    ensures Lawful(Run(w, es, load), load)
    decreases |es|
  {
    if es != [] {
      StepIsLawful(w, es[0], load);
      EveryRunIsLawful(Step(w, es[0], load), es[1..], load);
    }
  }

  /** From the first load on: every reachable state is lawful. */
  lemma EveryReachableStateIsLawful<C(!new)>(disk: seq<Version>, cfg: C, es: seq<Event>, load: Loader<C>)
    requires disk != [] && LoadOf(disk[|disk| - 1], load) == Good(cfg)
    ensures Lawful(Run(Boot(disk, cfg), es, load), load)
  {
    BootIsLawful(disk, cfg, load);
    EveryRunIsLawful(Boot(disk, cfg), es, load);
  }
}
