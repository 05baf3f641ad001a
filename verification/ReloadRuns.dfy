/** What the reload loop promises over whole runs: what ends a generation, what a
    restart may not do, and when the running configuration is the file's. */
module ReloadRuns {
  import opened Wrappers
  import opened ReloadLoop

  // Restarts, broken files, shutdown.

  /** Only a reload changes the configuration, and only to the one it announced. */
  lemma OnlyAReloadChangesTheConfig<C(!new)>(w: World<C>, e: Event, load: Loader<C>)
    requires Lawful(w, load) && Step(w, e, load).cfg != w.cfg
    ensures e.Settles? && w.phase.Settling? && w.phase.why == Reload(Step(w, e, load).cfg)
    ensures CameFromDisk(w, load, Step(w, e, load).cfg)
  {
  }

  /** A restart over the socket touches one context: that of the generation that was
      current when the socket read it. Fired late, it ends nothing that runs now. */
  lemma SocketRestartsAreNarrow<C(!new)>(w: World<C>, e: Event, load: Loader<C>)
    requires Lawful(w, load) && (e.Aims? || e.Fires?)
    ensures var v := Step(w, e, load);
      && v.(cancelled := w.cancelled, aimed := w.aimed) == w
      && (e.Aims? ==> v.cancelled == w.cancelled && v.aimed <= w.aimed + {w.generation})
      && (e.Fires? ==> v.cancelled <= w.cancelled + {e.generation})
      && (e.Fires? && e.generation != w.generation ==> Ended(v) == Ended(w))
  {
  }

  /** A restart asked for over the socket, with nothing in between. */
  function Requested<C(==)>(w: World<C>, load: Loader<C>): (v: World<C>)
    requires w.disk != []
    ensures v.disk != []
  {
    Step(Step(w, Aims, load), Fires(w.generation), load)
  }

  lemma RequestedIs<C(!new)>(w: World<C>, load: Loader<C>)
    requires Lawful(w, load)
    ensures w.generation == 0 ==> Requested(w, load) == w
    ensures w.generation > 0 ==>
      Requested(w, load) == w.(cancelled := w.cancelled + {w.generation}, aimed := w.aimed - {w.generation})
  {
    if w.generation > 0 {
      assert w.aimed + {w.generation} - {w.generation} == w.aimed - {w.generation};
    }
  }

  /** The generation's wait has not ended yet. */
  predicate BeforeItsEnd<C>(w: World<C>) { w.phase.Entering? || w.phase.Waiting? || w.phase.Reading? }

  /** The wait of a generation takes its end for a restart. */
  predicate CutShort<C(==)>(w: World<C>, g: nat, load: Loader<C>)
    requires w.disk != []
  {
    w.generation == g && w.phase.Waiting? && Step(w, SeesGenerationEnd, load).phase == Ending(Restart)
  }

  /** Neither a signal nor another request. */
  ghost predicate Undisturbed(es: seq<Event>) { forall e <- es :: !e.Signals? && !e.Aims? && !e.Fires? }

  /** Once a generation's wait has ended it does not begin again. */
  lemma {:induction false} WaitsDoNotComeBack<C(!new)>(w: World<C>, es: seq<Event>, load: Loader<C>, g: nat)
    requires w.disk != [] && w.generation >= g && (w.generation == g ==> !BeforeItsEnd(w))
    ensures var u := Run(w, es, load); u.generation >= g && (u.generation == g ==> !BeforeItsEnd(u))
    decreases |es|
  {
    if es != [] {
      assert Step(w, es[0], load).generation >= g;
      WaitsDoNotComeBack(Step(w, es[0], load), es[1..], load, g);
    }
  }

  lemma RequestCutsTheWait<C(!new)>(w: World<C>, load: Loader<C>)
    requires Lawful(w, load) && w.generation > 0 && BeforeItsEnd(w)
    ensures exists es :: Undisturbed(es) && CutShort(Run(Requested(w, load), es, load), w.generation, load)
  {
    RequestedIs(w, load);
    var v := Requested(w, load);
    if w.phase.Waiting? {
      assert Run(v, [], load) == v && Undisturbed([]);
    } else if w.phase.Entering? {
      assert Run(v, [TakesFingerprint], load) == Run(Step(v, TakesFingerprint, load), [], load);
      assert Undisturbed([TakesFingerprint]);
    } else {
      Runs2(v, Edits(Missing), Reads, load);
      assert Undisturbed([Edits(Missing), Reads]);
    }
  }

  /** An accepted restart can end the wait of the generation it names exactly while
      that wait has not ended: between the wait's return and the next generation it is
      lost, whatever happens after. */
  lemma ARestartTakesEffectExactlyInItsWait<C(!new)>(w: World<C>, load: Loader<C>)
    requires Lawful(w, load) && w.generation > 0
    ensures w.restart == Some(w.generation)
    ensures BeforeItsEnd(w) ==>
      exists es :: Undisturbed(es) && CutShort(Run(Requested(w, load), es, load), w.generation, load)
    ensures !BeforeItsEnd(w) ==> forall es :: !CutShort(Run(Requested(w, load), es, load), w.generation, load)
  {
    if BeforeItsEnd(w) {
      RequestCutsTheWait(w, load);
    } else {
      RequestedIs(w, load);
      forall es ensures !CutShort(Run(Requested(w, load), es, load), w.generation, load) {
        WaitsDoNotComeBack(Requested(w, load), es, load, w.generation);
      }
    }
  }

  /** And the generation after a lost restart, as every other, begins uncut: no cancel
      called before it begins is its own. Only a shutdown reaches ahead. */
  lemma AGenerationBeginsUncut<C(!new)>(w: World<C>, es: seq<Event>, load: Loader<C>)
    requires Lawful(w, load)
    ensures var u := Run(Requested(w, load), es, load);
      u.phase.Starting? ==>
        Step(u, Begins, load).generation == u.generation + 1 && Ended(Step(u, Begins, load)) == u.shutdown
  {
    StepIsLawful(w, Aims, load);
    StepIsLawful(Step(w, Aims, load), Fires(w.generation), load);
    EveryRunIsLawful(Requested(w, load), es, load);
    hide Run, Requested;
    var u := Run(Requested(w, load), es, load);
    assert u.generation + 1 !in u.cancelled;
  }

  lemma {:induction false} RunsJoin<C(!new)>(w: World<C>, a: seq<Event>, b: seq<Event>, load: Loader<C>)
    requires w.disk != []
    ensures Run(w, a + b, load) == Run(Run(w, a, load), b, load)
    decreases |a|
  {
    hide Step;
    if a == [] {
      assert a + b == b;
    } else {
      assert (a + b)[1..] == a[1..] + b;
      RunsJoin(Step(w, a[0], load), a[1..], b, load);
    }
  }

  lemma Runs2<C(!new)>(w: World<C>, a: Event, b: Event, load: Loader<C>)
    requires w.disk != []
    ensures Run(w, [a, b], load) == Step(Step(w, a, load), b, load)
  {
    hide Step;
    assert [a, b][1..] == [b];
    var x := Step(w, a, load);
    assert Run(x, [b], load) == Run(Step(x, b, load), [], load);
  }

  lemma Runs4<C(!new)>(w: World<C>, a: Event, b: Event, c: Event, d: Event, load: Loader<C>)
    requires w.disk != []
    ensures Run(w, [a, b, c, d], load) == Step(Step(Step(Step(w, a, load), b, load), c, load), d, load)
  {
    hide Step, Run;
    assert [a, b] + [c, d] == [a, b, c, d];
    Runs2(w, a, b, load);
    RunsJoin(w, [a, b], [c, d], load);
    Runs2(Step(Step(w, a, load), b, load), c, d, load);
  }

  /** A file that does not load, or that means the same thing, ends nothing. */
  lemma BrokenOrSameFileDisturbsNothing<C(!new)>(w: World<C>, load: Loader<C>)
    requires Lawful(w, load) && w.phase.Reading?
    ensures LoadOf(Now(w), load) in {Bad, Good(w.cfg)} <==> Step(w, Reads, load).phase.Waiting?
    ensures Step(w, Reads, load).phase.Exited? <==> LoadOf(Now(w), load) == Exits
    ensures var v := Step(w, Reads, load);
      v.cfg == w.cfg && v.generation == w.generation && v.running == w.running && v.cancelled == w.cancelled
  {
  }

  lemma {:induction false} ShutdownStands<C(!new)>(w: World<C>, es: seq<Event>, load: Loader<C>)
    requires w.disk != [] && w.shutdown
    ensures Run(w, es, load).shutdown
    decreases |es|
  {
    if es != [] { ShutdownStands(Step(w, es[0], load), es[1..], load); }
  }

  /** After shutdown no generation runs with a live context, whichever started it. */
  lemma AfterShutdownEveryGenerationIsOver<C(!new)>(w: World<C>, es: seq<Event>, load: Loader<C>)
    requires w.disk != [] && w.shutdown
    ensures Ended(Run(w, es, load))
  {
    ShutdownStands(w, es, load);
  }

  /** The process is stopped or sure to be. */
  predicate Over<C>(w: World<C>) { w.phase.Stopped? || w.phase.Exited? || w.phase == Ending(Shutdown) }

  lemma {:induction false} NothingFollowsTheEnd<C(!new)>(w: World<C>, es: seq<Event>, load: Loader<C>)
    requires w.disk != [] && Over(w)
    ensures Over(Run(w, es, load)) && Run(w, es, load).generation == w.generation
    decreases |es|
  {
    if es != [] { NothingFollowsTheEnd(Step(w, es[0], load), es[1..], load); }
  }

  /** A shutdown the wait has seen ends the process: once the engine is down the loop is
      done, and no run begins another generation. */
  lemma ASeenShutdownEndsTheProcess<C(!new)>(w: World<C>, es: seq<Event>, load: Loader<C>)
    requires Lawful(w, load) && w.phase.Waiting? && w.shutdown
    ensures Run(w, [SeesShutdown, EngineStops(w.generation), Ends], load).phase.Stopped?
    ensures var u := Run(Step(w, SeesShutdown, load), es, load); Over(u) && u.generation == w.generation
  {
    var v := Step(w, SeesShutdown, load);
    NothingFollowsTheEnd(v, es, load);
    hide Run;
    Runs2(v, EngineStops(w.generation), Ends, load);
    RunsOn(w, SeesShutdown, [EngineStops(w.generation), Ends], load);
    assert [SeesShutdown] + [EngineStops(w.generation), Ends] == [SeesShutdown, EngineStops(w.generation), Ends];
  }

  /** A restart the wait has seen begins the next generation on the same configuration,
      and a reload it announces on the new one: with its own engine and, unless shutdown
      came, a live context. */
  lemma AnEndedWaitGoesOn<C(!new)>(w: World<C>, load: Loader<C>)
    requires Lawful(w, load) && w.phase.Ending? && !w.phase.why.Shutdown?
    ensures var v := Run(w, [EngineStops(w.generation), Ends, Settles, Begins], load);
      && v.phase.Entering? && v.generation == w.generation + 1 && v.running == {v.generation}
      && v.cfg == (if w.phase.why.Reload? then w.phase.why.next else w.cfg)
      && Ended(v) == w.shutdown
  {
    Runs4(w, EngineStops(w.generation), Ends, Settles, Begins, load);
  }

  lemma RunsOn<C(!new)>(w: World<C>, e: Event, es: seq<Event>, load: Loader<C>)
    requires w.disk != []
    ensures Run(w, [e] + es, load) == Run(Step(w, e, load), es, load)
  {
    assert ([e] + es)[1..] == es;
  }

  /** Some run begins a generation after the g-th. */
  ghost predicate CanPass<C(!new)>(w: World<C>, g: nat, load: Loader<C>)
    requires w.disk != []
  {
    exists es :: Run(w, es, load).generation > g
  }

  lemma PassesAfter<C(!new)>(w: World<C>, e: Event, g: nat, load: Loader<C>)
    requires w.disk != [] && CanPass(Step(w, e, load), g, load)
    ensures CanPass(w, g, load)
  {
    hide Step;
    var es :| Run(Step(w, e, load), es, load).generation > g;
    assert ([e] + es)[1..] == es;
    assert Run(w, [e] + es, load).generation > g;
  }

  lemma PassesOnceStarting<C(!new)>(w: World<C>, g: nat, load: Loader<C>)
    requires w.disk != [] && (w.phase.Starting? || w.phase.Settling?) && g <= w.generation
    ensures CanPass(w, g, load)
  {
    var v := if w.phase.Settling? then Step(w, Settles, load) else w;
    var u := Step(v, Begins, load);
    assert Run(u, [], load).generation > g;
    PassesAfter(v, Begins, g, load);
    if w.phase.Settling? { PassesAfter(w, Settles, g, load); }
  }

  lemma PassesFromEnding<C(!new)>(w: World<C>, g: nat, load: Loader<C>)
    requires Lawful(w, load) && w.phase.Ending? && !w.phase.why.Shutdown? && g <= w.generation
    ensures CanPass(w, g, load)
  {
    var v := Step(w, EngineStops(w.generation), load);
    assert v.running == {};
    PassesOnceStarting(Step(v, Ends, load), g, load);
    PassesAfter(v, Ends, g, load);
    PassesAfter(w, EngineStops(w.generation), g, load);
  }

  lemma PassesFromTheWait<C(!new)>(w: World<C>, g: nat, load: Loader<C>)
    requires Lawful(w, load) && w.shutdown && w.phase.Waiting? && g <= w.generation
    ensures CanPass(w, g, load)
  {
    StepIsLawful(w, SeesGenerationEnd, load);
    PassesFromEnding(Step(w, SeesGenerationEnd, load), g, load);
    PassesAfter(w, SeesGenerationEnd, g, load);
  }

  /** After shutdown another generation can still begin exactly while the loop has not
      seen the shutdown: from every state but a stopped or exited process and a wait
      that ended for the shutdown. */
  lemma AGenerationCanFollowShutdownExactlyUnlessSeen<C(!new)>(w: World<C>, load: Loader<C>)
    requires Lawful(w, load) && w.shutdown
    ensures (exists es :: Run(w, es, load).generation > w.generation) <==>
            !(w.phase.Stopped? || w.phase.Exited? || w.phase == Ending(Shutdown))
  {
    var g := w.generation;
    if Over(w) {
      forall es ensures Run(w, es, load).generation <= g { NothingFollowsTheEnd(w, es, load); }
    } else {
      assert CanPass(w, g, load) by {
        match w.phase {
          case Ending(_) => PassesFromEnding(w, g, load);
          case Waiting(_, _, _) => PassesFromTheWait(w, g, load);
          case Entering =>
            StepIsLawful(w, TakesFingerprint, load);
            PassesFromTheWait(Step(w, TakesFingerprint, load), g, load);
            PassesAfter(w, TakesFingerprint, g, load);
          case Reading(_, _, _) => PassesFromReading(w, g, load);
          case _ => PassesOnceStarting(w, g, load);
        }
      }
      var es :| Run(w, es, load).generation > g;
      assert Run(w, es, load).generation > w.generation;
    }
  }

  lemma PassesFromReading<C(!new)>(w: World<C>, g: nat, load: Loader<C>)
    requires Lawful(w, load) && w.shutdown && w.phase.Reading? && g <= w.generation
    ensures CanPass(w, g, load)
  {
    var v := Step(w, Edits(Missing), load);
    StepIsLawful(w, Edits(Missing), load);
    StepIsLawful(v, Reads, load);
    PassesFromTheWait(Step(v, Reads, load), g, load);
    PassesAfter(v, Reads, g, load);
    PassesAfter(w, Edits(Missing), g, load);
  }

  /** But generations do start: the wait may take the ended generation for a restart
      each time. For any number there is a run in which that many follow a shutdown. */
  lemma {:induction false} GenerationsMayFollowShutdown<C(!new)>(w: World<C>, n: nat, load: Loader<C>)
    requires Lawful(w, load) && w.shutdown && w.phase.Waiting?
    ensures exists es :: Run(w, es, load).generation == w.generation + n && Run(w, es, load).phase.Waiting?
    decreases n
  {
    if n == 0 {
      assert Run(w, [], load) == w;
    } else {
      var once := [SeesGenerationEnd, EngineStops(w.generation), Ends, Settles, Begins, TakesFingerprint];
      var v := Turned(w, load);
      EveryRunIsLawful(w, once, load);
      TurnedRuns(w, load);
      GenerationsMayFollowShutdown(v, n - 1, load);
      var more :| Run(v, more, load).generation == v.generation + (n - 1) && Run(v, more, load).phase.Waiting?;
      RunsJoin(w, once, more, load);
    }
  }

  function Turned<C(==)>(w: World<C>, load: Loader<C>): World<C>
    requires w.disk != []
  {
    Run(w, [SeesGenerationEnd, EngineStops(w.generation), Ends, Settles, Begins, TakesFingerprint], load)
  }

  lemma TurnedRuns<C(!new)>(w: World<C>, load: Loader<C>)
    requires Lawful(w, load) && w.shutdown && w.phase.Waiting?
    ensures Turned(w, load).generation == w.generation + 1 && Turned(w, load).shutdown && Turned(w, load).phase.Waiting?
  {
    var es := [SeesGenerationEnd, EngineStops(w.generation), Ends, Settles, Begins, TakesFingerprint];
    RunsJoin(w, es[..2], es[2..], load);
    assert es == es[..2] + es[2..] && es[..2] == [SeesGenerationEnd, EngineStops(w.generation)];
    assert es[2..] == [Ends, Settles, Begins, TakesFingerprint] && es[..2][1..] == [EngineStops(w.generation)];
    var a := Step(w, SeesGenerationEnd, load);
    var b := Step(a, EngineStops(w.generation), load);
    assert Run(a, [EngineStops(w.generation)], load) == Run(b, [], load) == b;
    Runs4(b, Ends, Settles, Begins, TakesFingerprint, load);
  }

  // Convergence.

  function StampOf(v: Version): Stamp { if v.File? then v.stamp else NO_STAMP }

  /** What the loop knows: the fingerprint it holds is that of `seen`, and what it
      last loaded did not parse or is the configuration it has or is about to have. */
  ghost predicate Tracked<C(!new)>(w: World<C>, load: Loader<C>) {
    && w.disk != [] && w.read < |w.disk|
    && (w.phase.Waiting? || w.phase.Reading? ==>
          w.phase.seen < |w.disk| && w.phase.last == StampOf(w.disk[w.phase.seen]))
    && var got := LoadOf(w.disk[w.read], load);
       if (w.phase.Ending? || w.phase.Settling?) && w.phase.why.Reload? then got == Good(w.phase.why.next)
       else w.phase.Exited? || got in {Bad, Good(w.cfg)}
  }

  /** The wait has examined nothing older than the fingerprint it compares against. */
  predicate CaughtUp<C>(w: World<C>) { w.phase.Waiting? ==> w.phase.seen <= w.read }

  lemma StepIsTracked<C(!new)>(w: World<C>, e: Event, load: Loader<C>)
    requires Tracked(w, load)
    ensures Tracked(Step(w, e, load), load)
  {
    DiskGrows(w, e, load);
  }

  /** Whatever is loaded after a poll is no older than the fingerprint that prompted it. */
  lemma LoadedIsNeverOlder<C(!new)>(w: World<C>, load: Loader<C>)
    requires Tracked(w, load) && w.phase.Reading?
    ensures w.phase.seen <= Step(w, Reads, load).read && CaughtUp(Step(w, Reads, load))
  {
  }

  /** No edit lands between the last load and the fingerprint taken on entry. */
  predicate CleanEntry<C>(w: World<C>, e: Event) { e.TakesFingerprint? && w.phase.Entering? ==> w.read == |w.disk| - 1 }

  ghost predicate CleanRun<C(!new)>(w: World<C>, es: seq<Event>, load: Loader<C>)
    requires w.disk != []
    decreases |es|
  {
    es == [] || (CleanEntry(w, es[0]) && CleanRun(Step(w, es[0], load), es[1..], load))
  }

  /** The fingerprints of two files tell them apart, and from no file. */
  ghost predicate StampsTell(disk: seq<Version>) {
    && (forall i, j :: 0 <= i < j < |disk| && disk[i].File? && disk[j].File? ==> disk[i].stamp != disk[j].stamp)
    && (forall i :: 0 <= i < |disk| && disk[i].File? ==> disk[i].stamp != NO_STAMP)
  }

  lemma {:induction false} CleanRunsStayCaughtUp<C(!new)>(w: World<C>, es: seq<Event>, load: Loader<C>)
    requires Tracked(w, load) && CaughtUp(w) && CleanRun(w, es, load)
    ensures Tracked(Run(w, es, load), load) && CaughtUp(Run(w, es, load))
    decreases |es|
  {
    if es != [] {
      StepIsTracked(w, es[0], load);
      assert CaughtUp(Step(w, es[0], load));
      CleanRunsStayCaughtUp(Step(w, es[0], load), es[1..], load);
    }
  }

  /** What disk said when the fingerprint was taken has been loaded since, or would not
      have changed anything. */
  predicate Informed<C(==)>(w: World<C>, load: Loader<C>) {
    w.phase.Waiting? ==>
      w.phase.seen <= w.read || (w.phase.seen < |w.disk| && LoadOf(w.disk[w.phase.seen], load) in {Bad, Good(w.cfg)})
  }

  /** A poll that sees no change finds a file that does not load, or loads as exactly
      the configuration that runs. */
  predicate Agrees<C(==)>(w: World<C>, load: Loader<C>)
    requires w.disk != []
  {
    w.phase.Waiting? && Step(w, Ticks, load) == w ==> LoadOf(Now(w), load) in {Bad, Good(w.cfg)}
  }

  /** And so at every state of a run. */
  ghost predicate AgreesAll<C(!new)>(w: World<C>, es: seq<Event>, load: Loader<C>)
    requires w.disk != []
    decreases |es|
  {
    Agrees(w, load) && (es == [] || AgreesAll(Step(w, es[0], load), es[1..], load))
  }

  lemma QuietPollMeansAgreement<C(!new)>(w: World<C>, load: Loader<C>)
    requires Tracked(w, load) && Informed(w, load) && StampsTell(w.disk)
    ensures Agrees(w, load)
  {
  }

  /** The fingerprint is taken of a file that does not load, or that means what runs. */
  predicate HarmlessEntry<C(==)>(w: World<C>, e: Event, load: Loader<C>)
    requires w.disk != []
  {
    e.TakesFingerprint? && w.phase.Entering? ==> LoadOf(Now(w), load) in {Bad, Good(w.cfg)}
  }

  ghost predicate HarmlessRun<C(!new)>(w: World<C>, es: seq<Event>, load: Loader<C>)
    requires w.disk != []
    decreases |es|
  {
    es == [] || (HarmlessEntry(w, es[0], load) && HarmlessRun(Step(w, es[0], load), es[1..], load))
  }

  lemma HarmlessStepsInform<C(!new)>(w: World<C>, e: Event, load: Loader<C>)
    requires Tracked(w, load) && Informed(w, load) && HarmlessEntry(w, e, load)
    ensures Informed(Step(w, e, load), load)
  {
    DiskGrows(w, e, load);
  }

  /** The first quiet poll after any other entry finds the file saying something else. */
  lemma HarmfulEntriesDisagree<C(!new)>(w: World<C>, e: Event, load: Loader<C>)
    requires w.disk != [] && !HarmlessEntry(w, e, load)
    ensures !Agrees(Step(w, e, load), load)
  {
  }

  lemma {:induction false} RunsGrowTheDisk<C(!new)>(w: World<C>, es: seq<Event>, load: Loader<C>)
    requires w.disk != []
    ensures w.disk <= Run(w, es, load).disk
    decreases |es|
  {
    if es != [] {
      DiskGrows(w, es[0], load);
      RunsGrowTheDisk(Step(w, es[0], load), es[1..], load);
    }
  }

  /** The exact condition: over any run in which fingerprints tell files apart, the
      running configuration is the file's at every quiet poll if and only if every
      fingerprint taken on entering a wait was of a file that did not load or meant
      what was running. */
  lemma {:induction false} AgreementIsExactlyHarmlessEntry<C(!new)>(w: World<C>, es: seq<Event>, load: Loader<C>)
    requires Tracked(w, load) && Informed(w, load) && StampsTell(Run(w, es, load).disk)
    ensures AgreesAll(w, es, load) <==> HarmlessRun(w, es, load)
    decreases |es|
  {
    RunsGrowTheDisk(w, es, load);
    PrefixesTell(w.disk, Run(w, es, load).disk);
    QuietPollMeansAgreement(w, load);
    if es != [] {
      if HarmlessEntry(w, es[0], load) {
        StepIsTracked(w, es[0], load);
        HarmlessStepsInform(w, es[0], load);
        hide Tracked, Informed, Agrees, HarmlessEntry, StampsTell, Step;
        AgreementIsExactlyHarmlessEntry(Step(w, es[0], load), es[1..], load);
      } else {
        HarmfulEntriesDisagree(w, es[0], load);
        hide Step, Agrees, HarmlessEntry;
      }
    }
  }

  lemma PrefixesTell(disk: seq<Version>, more: seq<Version>)
    requires disk <= more && StampsTell(more)
    ensures StampsTell(disk)
  {
  }

  lemma {:induction false} CleanRunsAreHarmless<C(!new)>(w: World<C>, es: seq<Event>, load: Loader<C>)
    requires Tracked(w, load) && CleanRun(w, es, load)
    ensures HarmlessRun(w, es, load)
    decreases |es|
  {
    if es != [] {
      assert HarmlessEntry(w, es[0], load);
      StepIsTracked(w, es[0], load);
      CleanRunsAreHarmless(Step(w, es[0], load), es[1..], load);
    }
  }

  lemma {:induction false} AgreesAtTheEnd<C(!new)>(w: World<C>, es: seq<Event>, load: Loader<C>)
    requires w.disk != [] && AgreesAll(w, es, load)
    ensures Agrees(Run(w, es, load), load)
    decreases |es|
  {
    if es != [] { AgreesAtTheEnd(Step(w, es[0], load), es[1..], load); }
  }

  /** From the first load on: exactly then; in particular over every run in which no
      edit at all slips into an entry. */
  lemma ReloadConverges<C(!new)>(disk: seq<Version>, cfg: C, es: seq<Event>, load: Loader<C>)
    requires disk != [] && LoadOf(disk[|disk| - 1], load) == Good(cfg)
    requires StampsTell(Run(Boot(disk, cfg), es, load).disk)
    ensures AgreesAll(Boot(disk, cfg), es, load) <==> HarmlessRun(Boot(disk, cfg), es, load)
    ensures CleanRun(Boot(disk, cfg), es, load) ==> AgreesAll(Boot(disk, cfg), es, load)
    ensures AgreesAll(Boot(disk, cfg), es, load) ==> Agrees(Run(Boot(disk, cfg), es, load), load)
  {
    var w := Boot(disk, cfg);
    assert Tracked(w, load) && Informed(w, load);
    hide Tracked, Informed, StampsTell, AgreesAll, HarmlessRun, CleanRun, Run, Boot, Agrees;
    AgreementIsExactlyHarmlessEntry(w, es, load);
    if CleanRun(w, es, load) { CleanRunsAreHarmless(w, es, load); }
    if AgreesAll(w, es, load) { AgreesAtTheEnd(w, es, load); }
  }

  /** An edit in the window is masked: while nothing else happens to the file, no
      number of polls picks it up. */
  lemma {:induction false} MaskedUntilTheNextEdit<C(!new)>(w: World<C>, n: nat, load: Loader<C>)
    requires w.disk != [] && w.phase.Waiting? && w.phase.last == StampOf(Now(w))
    ensures Run(w, seq(n, _ => Ticks), load) == w
    decreases n
  {
    if n > 0 {
      assert seq(n, _ => Ticks)[1..] == seq(n - 1, _ => Ticks);
      MaskedUntilTheNextEdit(w, n - 1, load);
    }
  }

  /** Such a run: the file is edited between the first load and the first
      fingerprint. Every later poll is quiet, and the file says something else. */
  lemma AnEditInTheWindowIsMissed<C(!new)>(before: Version, after: Version, cfg: C, next: C, n: nat, load: Loader<C>)
    requires LoadOf(before, load) == Good(cfg) && LoadOf(after, load) == Good(next) && next != cfg
    ensures var w := Run(Boot([before], cfg), [Begins, Edits(after), TakesFingerprint, Ticks], load);
      && w.phase.Waiting? && LoadOf(Now(w), load) == Good(next) && w.cfg == cfg
      && Run(w, seq(n, _ => Ticks), load) == w
  {
    var b := Boot([before], cfg);
    Runs4(b, Begins, Edits(after), TakesFingerprint, Ticks, load);
    var w := Step(Step(Step(Step(b, Begins, load), Edits(after), load), TakesFingerprint, load), Ticks, load);
    MaskedUntilTheNextEdit(w, n, load);
  }

  lemma ANoticedEditEndsTheGeneration<C(!new)>(w: World<C>, next: C, load: Loader<C>)
    requires Lawful(w, load) && w.phase.Waiting? && Now(w).File? && Now(w).stamp != w.phase.last
    requires LoadOf(Now(w), load) == Good(next) && next != w.cfg
    ensures var u := Run(w, [Ticks, Reads, EngineStops(w.generation), Ends], load);
      && u.phase == Settling(Reload(next)) && u.running == {} && u.generation == w.generation
      && u.disk == w.disk && u.read == |u.disk| - 1
  {
    Runs4(w, Ticks, Reads, EngineStops(w.generation), Ends, load);
    hide Run;
  }

  /** A noticed edit that loads as something else is running within one more
      generation, which starts caught up. */
  lemma ANoticedEditTakesEffect<C(!new)>(w: World<C>, next: C, load: Loader<C>)
    requires Lawful(w, load) && w.phase.Waiting? && Now(w).File? && Now(w).stamp != w.phase.last
    requires LoadOf(Now(w), load) == Good(next) && next != w.cfg
    ensures var u := Run(w, [Ticks, Reads, EngineStops(w.generation), Ends], load);
      var v := Run(u, [Settles, Begins, TakesFingerprint, Ticks], load);
      && v.cfg == next && v.generation == w.generation + 1 && v.running == {v.generation}
      && v.phase.Waiting? && CaughtUp(v)
  {
    ANoticedEditEndsTheGeneration(w, next, load);
    hide Run, Lawful, Step;
    SettledReloadBegins(Run(w, [Ticks, Reads, EngineStops(w.generation), Ends], load), next, load);
  }

  lemma SettledReloadBegins<C(!new)>(u: World<C>, next: C, load: Loader<C>)
    requires u.disk != [] && u.phase == Settling(Reload(next)) && u.running == {} && u.read == |u.disk| - 1
    ensures var v := Run(u, [Settles, Begins, TakesFingerprint, Ticks], load);
      && v.cfg == next && v.generation == u.generation + 1 && v.running == {v.generation}
      && v.phase.Waiting? && CaughtUp(v)
  {
    Runs4(u, Settles, Begins, TakesFingerprint, Ticks, load);
    hide Run;
  }
}
