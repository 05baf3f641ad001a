/** The stall ladder: one tunnel's byte counters and a clock are folded into
    "what should the watchdog do now". The first half states the machine on
    values; the second half is the mutable watch the monitor really holds, each
    method tied to the value it computes. */
module StallLadder {
  import opened Wrappers

  /** Nanoseconds since Go's zero time, so that IsZero() is `== ZERO_TIME`. */
  type Time = int
  const ZERO_TIME: Time := 0
  const SECOND := 1_000_000_000
  /** 1970-01-01 on that scale: 62135596800 seconds. */
  const UNIX_EPOCH: Time := 62_135_596_800_000_000_000

  const STALL_PROGRESS := 65536
  const STALL_CHECKS := 5
  const STALL_RESTART_AFTER := 180_000_000_000
  const STALL_GIVE_UP_AFTER := 2
  const STALL_QUIET_FOR := 1_800_000_000_000

  datatype FlowState = FlowUnknown | FlowIdle | FlowOK | FlowStalled
  datatype Direction = NoDirection | NothingGoingOut | NothingComingBack
  datatype Action = Watch | Report | Reload | Restart | GiveUp

  datatype Reading = Reading(
    bytesIn: nat, bytesOut: nat,
    runs: nat,
    since: Time,
    direction: Direction,
    restarts: nat,
    reloaded: bool,
    quietUntil: Time,
    reported: bool)

  /** What the first reading of a tunnel leaves behind. */
  function FirstReading(bytesIn: nat, bytesOut: nat): Reading {
    Reading(bytesIn, bytesOut, 0, ZERO_TIME, NoDirection, 0, false, ZERO_TIME, false)
  }

  /** A counter that went backwards is a restarted engine, not an advance. */
  function Delta(prev: nat, now: nat): (d: nat)
    ensures d > 0 <==> now > prev
    ensures now >= prev ==> prev + d == now
  {
    if now < prev then 0 else now - prev
  }

  /** Everything but the counters and `reloaded`: the cheap rung is spent once in
      the life of a reading, not once per stall. */
  function Cleared(r: Reading): Reading {
    r.(runs := 0, since := ZERO_TIME, direction := NoDirection, restarts := 0,
       reported := false, quietUntil := ZERO_TIME)
  }

  datatype Evidence = Silent | OneWay(frozen: Direction) | Clearing

  /** What one pair of counter advances says. */
  function Judge(dIn: nat, dOut: nat): Evidence {
    if dIn == 0 && dOut == 0 then Silent
    else if dIn >= STALL_PROGRESS && dOut == 0 then OneWay(NothingGoingOut)
    else if dOut >= STALL_PROGRESS && dIn == 0 then OneWay(NothingComingBack)
    else Clearing
  }

  function Observed(r: Reading, bytesIn: nat, bytesOut: nat, now: Time): (Reading, FlowState) {
    var moved := r.(bytesIn := bytesIn, bytesOut := bytesOut);
    match Judge(Delta(r.bytesIn, bytesIn), Delta(r.bytesOut, bytesOut))
    case Silent => (moved, if r.runs >= STALL_CHECKS then FlowStalled else FlowIdle)
    case Clearing => (Cleared(moved), FlowOK)
    case OneWay(frozen) =>
      var counted := moved.(runs := r.runs + 1, direction := frozen);
      if counted.runs < STALL_CHECKS then (counted, FlowOK)
      else (if counted.since == ZERO_TIME then counted.(since := now) else counted, FlowStalled)
  }

  function Decided(r: Reading, now: Time): (Reading, Action) {
    if r.since == ZERO_TIME || now < r.quietUntil then (r, Watch)
    else if !r.reported then (r.(reported := true), Report)
    else if now - r.since < STALL_RESTART_AFTER then (r, Watch)
    else if !r.reloaded then (r.(reloaded := true, since := now), Reload)
    else if r.restarts >= STALL_GIVE_UP_AFTER then (r.(quietUntil := now + STALL_QUIET_FOR), GiveUp)
    else (r.(restarts := r.restarts + 1, since := now), Restart)
  }

  // Writing the ladder down and reading it back.

  /** The stored shape. A zero second count stands for "no time". */
  datatype Persisted = Persisted(
    bytesIn: nat, bytesOut: nat, runs: nat, since: int, direction: Direction,
    restarts: nat, quietUntil: int, reported: bool, reloaded: bool)

  /** time.Time.Unix(): whole seconds since 1970, rounded down. */
  function UnixSeconds(t: Time): int { (t - UNIX_EPOCH) / SECOND }

  function FromUnix(s: int): Time { UNIX_EPOCH + s * SECOND }

  function SavedTime(t: Time): int { if t == ZERO_TIME then 0 else UnixSeconds(t) }

  function LoadedTime(s: int): Time { if s != 0 then FromUnix(s) else ZERO_TIME }

  function Saved(r: Reading): Persisted {
    Persisted(r.bytesIn, r.bytesOut, r.runs, SavedTime(r.since), r.direction,
              r.restarts, SavedTime(r.quietUntil), r.reported, r.reloaded)
  }

  function Loaded(p: Persisted): Reading {
    Reading(p.bytesIn, p.bytesOut, p.runs, LoadedTime(p.since), p.direction,
            p.restarts, p.reloaded, LoadedTime(p.quietUntil), p.reported)
  }

  /** A state with the named entries of the file read into it. */
  ghost function Merged(state: map<string, Reading>, file: map<string, Persisted>, names: set<string>)
    : map<string, Reading>
    requires names <= file.Keys
  {
    state + map name | name in names :: Loaded(file[name])
  }

  lemma MergeOne(state: map<string, Reading>, file: map<string, Persisted>, names: set<string>, name: string)
    requires names <= file.Keys && name in file
    ensures Merged(state, file, names + {name}) == Merged(state, file, names)[name := Loaded(file[name])]
  {
  }

  // The watch itself.

  class FlowReading {
    var bytesIn: nat
    var bytesOut: nat
    var runs: nat
    var since: Time
    var direction: Direction
    var restarts: nat
    var reloaded: bool
    var quietUntil: Time
    var reported: bool

    ghost function View(): Reading
      reads this
    {
      Reading(bytesIn, bytesOut, runs, since, direction, restarts, reloaded, quietUntil, reported)
    }

    constructor (bytesIn: nat, bytesOut: nat)
      ensures View() == FirstReading(bytesIn, bytesOut)
    {
      this.bytesIn, this.bytesOut := bytesIn, bytesOut;
      runs, since, direction := 0, ZERO_TIME, NoDirection;
      restarts, reloaded, quietUntil, reported := 0, false, ZERO_TIME, false;
    }

    constructor FromPersisted(p: Persisted)
      ensures View() == Loaded(p)
    {
      bytesIn, bytesOut, runs, direction := p.bytesIn, p.bytesOut, p.runs, p.direction;
      restarts, reported, reloaded := p.restarts, p.reported, p.reloaded;
      since, quietUntil := ZERO_TIME, ZERO_TIME;
      if p.since != 0 { since := FromUnix(p.since); }
      if p.quietUntil != 0 { quietUntil := FromUnix(p.quietUntil); }
    }

    method Clear()
      modifies this
      ensures View() == Cleared(old(View()))
    {
      runs, since, direction := 0, ZERO_TIME, NoDirection;
      restarts, reported, quietUntil := 0, false, ZERO_TIME;
    }

    /** The part of observe() that follows the lookup. */
    method Fold(nowIn: nat, nowOut: nat, now: Time) returns (state: FlowState)
      modifies this
      ensures (View(), state) == Observed(old(View()), nowIn, nowOut, now)
    {
      var dIn, dOut := Delta(bytesIn, nowIn), Delta(bytesOut, nowOut);
      bytesIn, bytesOut := nowIn, nowOut;
      if dIn == 0 && dOut == 0 {
        return if runs >= STALL_CHECKS then FlowStalled else FlowIdle;
      } else if dIn >= STALL_PROGRESS && dOut == 0 {
        runs, direction := runs + 1, NothingGoingOut;
      } else if dOut >= STALL_PROGRESS && dIn == 0 {
        runs, direction := runs + 1, NothingComingBack;
      } else {
        Clear();
        return FlowOK;
      }
      if runs < STALL_CHECKS { return FlowOK; }
      if since == ZERO_TIME { since := now; }
      return FlowStalled;
    }

    /** The part of decide() that follows the lookup. */
    method Climb(now: Time) returns (action: Action)
      modifies this
      ensures (View(), action) == Decided(old(View()), now)
    {
      if since == ZERO_TIME || now < quietUntil { return Watch; }
      if !reported {
        reported := true;
        return Report;
      }
      if now - since < STALL_RESTART_AFTER { return Watch; }
      if !reloaded {
        reloaded, since := true, now;
        return Reload;
      }
      if restarts >= STALL_GIVE_UP_AFTER {
        quietUntil := now + STALL_QUIET_FOR;
        return GiveUp;
      }
      restarts, since := restarts + 1, now;
      return Restart;
    }
  }

  class FlowWatch {
    var seen: map<string, FlowReading>

    /** Two tunnels never share a reading. */
    ghost predicate Valid()
      reads this
    {
      forall a, b :: a in seen && b in seen && a != b ==> seen[a] != seen[b]
    }

    ghost function State(): map<string, Reading>
      reads this, seen.Values
    {
      map name | name in seen :: seen[name].View()
    }

    constructor ()
      ensures Valid() && State() == map[] && fresh(this)
    {
      seen := map[];
    }

    method Forget(name: string)
      requires Valid()
      modifies this
      ensures Valid() && seen.Values <= old(seen.Values)
      ensures State() == old(State()) - {name}
    {
      seen := seen - {name};
    }

    method Observe(name: string, bytesIn: nat, bytesOut: nat, now: Time) returns (state: FlowState)
      requires Valid()
      modifies this, seen.Values
      ensures Valid() && fresh(seen.Values - old(seen.Values))
      ensures name !in old(seen) ==>
                state == FlowUnknown && State() == old(State())[name := FirstReading(bytesIn, bytesOut)]
      ensures name in old(seen) ==>
                var after := Observed(old(seen[name].View()), bytesIn, bytesOut, now);
                state == after.1 && State() == old(State())[name := after.0]
    {
      if name !in seen {
        var first := new FlowReading(bytesIn, bytesOut);
        seen := seen[name := first];
        return FlowUnknown;
      }
      var r := seen[name];
      state := r.Fold(bytesIn, bytesOut, now);
    }

    method Decide(name: string, now: Time) returns (action: Action)
      requires Valid()
      modifies seen.Values
      ensures Valid()
      ensures name !in seen ==> action == Watch && State() == old(State())
      ensures name in seen ==>
                var after := Decided(old(seen[name].View()), now);
                action == after.1 && State() == old(State())[name := after.0]
    {
      if name !in seen { return Watch; }
      var r := seen[name];
      action := r.Climb(now);
    }

    /** What goes into the file. Go visits a map in no particular order, so the
        loop takes any remaining name. */
    method Save() returns (out: map<string, Persisted>)
      requires Valid()
      ensures out == map name | name in State() :: Saved(State()[name])
    {
      out := map[];
      var left := seen.Keys;
      while left != {}
        invariant left <= seen.Keys
        invariant out == map name | name in seen.Keys - left :: Saved(State()[name])
        decreases left
      {
        var name :| name in left;
        var r := seen[name];
        var p := Persisted(r.bytesIn, r.bytesOut, r.runs, 0, r.direction, r.restarts, 0, r.reported, r.reloaded);
        if r.since != ZERO_TIME { p := p.(since := UnixSeconds(r.since)); }
        if r.quietUntil != ZERO_TIME { p := p.(quietUntil := UnixSeconds(r.quietUntil)); }
        out := out[name := p];
        left := left - {name};
      }
    }

    /** One entry of the stored file. */
    method Restore(name: string, p: Persisted)
      requires Valid()
      modifies this
      ensures Valid() && fresh(seen.Values - old(seen.Values))
      ensures State() == old(State())[name := Loaded(p)]
    {
      var r := new FlowReading.FromPersisted(p);
      seen := seen[name := r];
    }

    /** An unreadable file is passed as None and changes nothing. */
    method Load(file: Option<map<string, Persisted>>)
      requires Valid()
      modifies this
      ensures Valid() && fresh(seen.Values - old(seen.Values))
      ensures file.None? ==> State() == old(State())
      ensures file.Some? ==>
                State() == Merged(old(State()), file.value, file.value.Keys)
    {
      if file.None? { return; }
      var stored := file.value;
      var left := stored.Keys;
      ghost var before := State();
      while left != {}
        invariant left <= stored.Keys
        invariant Valid() && fresh(seen.Values - old(seen.Values))
        invariant State() == Merged(before, stored, stored.Keys - left)
        decreases left
      {
        var name :| name in left;
        MergeOne(before, stored, stored.Keys - left, name);
        assert stored.Keys - (left - {name}) == stored.Keys - left + {name};
        Restore(name, stored[name]);
        left := left - {name};
      }
      assert stored.Keys - left == stored.Keys;
    }
  }
}
