/** Whole runs of the stall ladder for one tunnel: any sequence of readings,
    decisions, deliberate stops and restarts of the watchdog itself. */
module StallRuns {
  import opened Wrappers
  import opened StallLadder

  datatype Event =
    | Sample(bytesIn: nat, bytesOut: nat, now: Time)
    | Decide(now: Time)
    | WatchdogRestart
    | Forget

  datatype Acted = Acted(action: Action, at: Time)

  /** `acts` is what has been done since the counters last recovered, `spent`
      whether the transport restart was already gone by then, and `life`
      everything done since the reading was created. */
  datatype Climb = Climb(reading: Option<Reading>, spent: bool, acts: seq<Acted>, life: seq<Acted>)

  const NOTHING_SEEN := Climb(None, false, [], [])

  function Step(c: Climb, e: Event): Climb {
    if e.Forget? then NOTHING_SEEN
    else if c.reading.None? then
      if e.Sample? then Climb(Some(FirstReading(e.bytesIn, e.bytesOut)), false, [], []) else c
    else
      var r := c.reading.value;
      match e
      case WatchdogRestart => c.(reading := Some(Loaded(Saved(r))))
      case Sample(i, o, now) =>
        var after := Observed(r, i, o, now).0;
        if Judge(Delta(r.bytesIn, i), Delta(r.bytesOut, o)).Clearing?
        then c.(reading := Some(after), spent := after.reloaded, acts := [])
        else c.(reading := Some(after))
      case Decide(now) =>
        var (after, action) := Decided(r, now);
        if action == Watch then c.(reading := Some(after))
        else c.(reading := Some(after),
                acts := c.acts + [Acted(action, now)], life := c.life + [Acted(action, now)])
  }

  function Run(es: seq<Event>): Climb {
    if es == [] then NOTHING_SEEN else Step(Run(es[..|es| - 1]), es[|es| - 1])
  }

  lemma RunGrows(es: seq<Event>, e: Event)
    ensures Run(es + [e]) == Step(Run(es), e)
  {
    assert (es + [e])[..|es|] == es;
  }

  /** Every clock reading is at least one second past 1970. */
  ghost predicate Sane(es: seq<Event>) {
    forall e <- es :: (e.Sample? || e.Decide?) ==> e.now >= UNIX_EPOCH + SECOND
  }

  // The ladder as a reader would write it down.

  /** The i-th action of one stall. */
  function Rung(i: nat, spent: bool): Action {
    if i == 0 then Report
    else if i == 1 && !spent then Reload
    else if i <= (if spent then 2 else 3) then Restart
    else GiveUp
  }

  /** What a watchdog restart may shave off an interval. */
  function Slack(es: seq<Event>): nat {
    if WatchdogRestart in es then SECOND - 1 else 0
  }

  function Pause(a: Action): nat {
    match a
    case Watch => 0
    case Report => 0
    case Reload => STALL_RESTART_AFTER
    case Restart => STALL_RESTART_AFTER
    case GiveUp => STALL_QUIET_FOR
  }

  ghost predicate Ladder(acts: seq<Acted>, spent: bool, slack: nat) {
    && (forall i :: 0 <= i < |acts| ==> acts[i].action == Rung(i, spent))
    && (forall i :: 0 < i < |acts| && Pause(acts[i - 1].action) > 0 ==>
          acts[i].at >= acts[i - 1].at + Pause(acts[i - 1].action) - slack)
  }

  ghost predicate ReloadedOnce(life: seq<Acted>) {
    forall i, j :: 0 <= i < j < |life| ==> !(life[i].action == Reload && life[j].action == Reload)
  }

  function RestartsAmong(acts: seq<Acted>): nat {
    if acts == [] then 0
    else RestartsAmong(acts[..|acts| - 1]) + if acts[|acts| - 1].action == Restart then 1 else 0
  }

  // The invariant behind it.

  /** The start of the second a moment falls in. */
  function WholeSecond(t: Time): Time { FromUnix(UnixSeconds(t)) }

  ghost predicate SaneTime(t: Time) { t == ZERO_TIME || t >= UNIX_EPOCH + SECOND }

  /** `kept` is `t`, or what a watchdog restart made of it. */
  ghost predicate KeptFrom(kept: Time, t: Time, slack: nat) {
    kept == t || (slack == SECOND - 1 && kept == WholeSecond(t))
  }

  function RestartsAfter(k: nat, spent: bool): nat {
    var first := if spent then 1 else 2;
    if k <= first then 0 else if k == first + 1 then 1 else 2
  }

  /** The fields of the reading after `k` actions on this stall. */
  ghost predicate Standing(r: Reading, k: nat, spent: bool) {
    && SaneTime(r.since) && SaneTime(r.quietUntil)
    && (r.since != ZERO_TIME <==> r.runs >= STALL_CHECKS)
    && (k > 0 ==> r.since != ZERO_TIME)
    && (r.reported <==> k > 0)
    && (r.reloaded <==> spent || k > 1)
    && r.restarts == RestartsAfter(k, spent)
  }

  /** The clock the next rung is measured from is the last action's. */
  ghost predicate MeasuredFrom(r: Reading, last: Acted, slack: nat) {
    && (last.action in {Reload, Restart} ==> KeptFrom(r.since, last.at, slack))
    && (last.action == GiveUp ==> KeptFrom(r.quietUntil, last.at + STALL_QUIET_FOR, slack))
  }

  ghost predicate ReloadIn(life: seq<Acted>) {
    exists i :: 0 <= i < |life| && life[i].action == Reload
  }

  ghost predicate Climbing(c: Climb, slack: nat) {
    && Ladder(c.acts, c.spent, slack)
    && ReloadedOnce(c.life)
    && (forall a <- c.acts :: a.at >= UNIX_EPOCH + SECOND)
    && (c.reading.None? ==> c == NOTHING_SEEN)
    && (c.reading.Some? ==>
          && Standing(c.reading.value, |c.acts|, c.spent)
          && (c.reading.value.reloaded <==> ReloadIn(c.life))
          && (|c.acts| > 0 ==> MeasuredFrom(c.reading.value, c.acts[|c.acts| - 1], slack)))
  }

  lemma WholeSecondFacts(t: Time)
    requires t >= UNIX_EPOCH + SECOND
    ensures UNIX_EPOCH + SECOND <= WholeSecond(t) <= t < WholeSecond(t) + SECOND
    ensures WholeSecond(WholeSecond(t)) == WholeSecond(t)
    ensures LoadedTime(SavedTime(t)) == WholeSecond(t)
  {
  }

  lemma RestartKeepsClimbing(c: Climb)
    requires Climbing(c, SECOND - 1)
    ensures Climbing(Step(c, WatchdogRestart), SECOND - 1)
  {
    if c.reading.Some? {
      var r := c.reading.value;
      if r.since != ZERO_TIME { WholeSecondFacts(r.since); }
      if r.quietUntil != ZERO_TIME { WholeSecondFacts(r.quietUntil); }
      if |c.acts| > 0 {
        var last := c.acts[|c.acts| - 1];
        WholeSecondFacts(last.at);
        WholeSecondFacts(last.at + STALL_QUIET_FOR);
      }
    }
  }

  lemma KeptBounds(kept: Time, t: Time, slack: nat)
    requires KeptFrom(kept, t, slack) && t >= UNIX_EPOCH + SECOND
    ensures t - slack <= kept <= t
  {
    WholeSecondFacts(t);
  }

  lemma LadderGrows(acts: seq<Acted>, spent: bool, slack: nat, a: Acted)
    requires Ladder(acts, spent, slack) && a.action == Rung(|acts|, spent)
    requires |acts| > 0 ==>
               var last := acts[|acts| - 1];
               Pause(last.action) > 0 ==> a.at >= last.at + Pause(last.action) - slack
    ensures Ladder(acts + [a], spent, slack)
  {
  }

  lemma LifeGrows(life: seq<Acted>, a: Acted)
    requires ReloadedOnce(life)
    requires a.action == Reload ==> !ReloadIn(life)
    ensures ReloadedOnce(life + [a])
    ensures ReloadIn(life + [a]) <==> ReloadIn(life) || a.action == Reload
  {
    var longer := life + [a];
    assert longer[|life|] == a;
    assert forall i :: 0 <= i < |life| ==> longer[i] == life[i];
  }

  /** The step that is taken is the next one on the ladder, and is not early. */
  lemma DecisionIsNextRung(c: Climb, now: Time, slack: nat)
    requires Climbing(c, slack) && slack < SECOND && c.reading.Some?
    requires Decided(c.reading.value, now).1 != Watch
    ensures Decided(c.reading.value, now).1 == Rung(|c.acts|, c.spent)
    ensures |c.acts| > 0 ==>
              var last := c.acts[|c.acts| - 1];
              Pause(last.action) > 0 ==> now >= last.at + Pause(last.action) - slack
  {
    var k := |c.acts|;
    if k > 0 {
      var last := c.acts[k - 1];
      assert last.action == Rung(k - 1, c.spent);
      if last.action in {Reload, Restart} { KeptBounds(c.reading.value.since, last.at, slack); }
      if last.action == GiveUp { KeptBounds(c.reading.value.quietUntil, last.at + STALL_QUIET_FOR, slack); }
    }
  }

  lemma DecisionStands(r: Reading, k: nat, spent: bool, now: Time, slack: nat)
    requires Standing(r, k, spent) && now >= UNIX_EPOCH + SECOND
    ensures var (after, action) := Decided(r, now);
            if action == Watch then after == r
            else Standing(after, k + 1, spent) && MeasuredFrom(after, Acted(action, now), slack)
                 && (after.reloaded <==> r.reloaded || action == Reload)
                 && (action == Reload ==> !r.reloaded)
  {
  }

  lemma DecisionKeepsClimbing(c: Climb, now: Time, slack: nat)
    requires Climbing(c, slack) && slack < SECOND && now >= UNIX_EPOCH + SECOND
    ensures Climbing(Step(c, Decide(now)), slack)
  {
    if c.reading.Some? && Decided(c.reading.value, now).1 != Watch {
      var a := Acted(Decided(c.reading.value, now).1, now);
      DecisionIsNextRung(c, now, slack);
      DecisionStands(c.reading.value, |c.acts|, c.spent, now, slack);
      LadderGrows(c.acts, c.spent, slack, a);
      LifeGrows(c.life, a);
    }
  }

  lemma SampleKeepsClimbing(c: Climb, e: Event, slack: nat)
    requires Climbing(c, slack) && e.Sample? && e.now >= UNIX_EPOCH + SECOND
    ensures Climbing(Step(c, e), slack)
  {
  }

  lemma MoreSlack(c: Climb, slack: nat, more: nat)
    requires Climbing(c, slack) && (slack == more || (slack == 0 && more == SECOND - 1))
    ensures Climbing(c, more)
  {
  }

  lemma {:induction false} RunsClimb(es: seq<Event>)
    requires Sane(es)
    ensures Climbing(Run(es), Slack(es))
  {
    if es != [] {
      var before, e := es[..|es| - 1], es[|es| - 1];
      RunsClimb(before);
      assert es == before + [e];
      MoreSlack(Run(before), Slack(before), Slack(es));
      match e
      case Forget =>
      case WatchdogRestart => RestartKeepsClimbing(Run(before));
      case Decide(now) => DecisionKeepsClimbing(Run(before), now, Slack(es));
      case Sample(_, _, _) => SampleKeepsClimbing(Run(before), e, Slack(es));
    }
  }

  // The evidence, counted from the raw counters alone.

  function LastCounters(es: seq<Event>): Option<(nat, nat)> {
    if es == [] then None
    else match es[|es| - 1]
      case Forget => None
      case Sample(i, o, _) => Some((i, o))
      case _ => LastCounters(es[..|es| - 1])
  }

  /** One direction gained 64 KiB or more while the other did not gain at all. */
  predicate OneSided(before: (nat, nat), i: nat, o: nat) {
    || (i >= before.0 + STALL_PROGRESS && o <= before.1)
    || (o >= before.1 + STALL_PROGRESS && i <= before.0)
  }

  /** One-sided readings since the last reading that settled the question. A pair
      of counters that both failed to advance, a reset included, leaves the count
      alone. */
  function OneSidedReadings(es: seq<Event>): nat {
    if es == [] then 0
    else
      var before := es[..|es| - 1];
      match es[|es| - 1]
      case Forget => 0
      case Sample(i, o, _) =>
        var was := LastCounters(before);
        if was.None? then 0
        else if OneSided(was.value, i, o) then OneSidedReadings(before) + 1
        else if i <= was.value.0 && o <= was.value.1 then OneSidedReadings(before)
        else 0
      case _ => OneSidedReadings(before)
  }

  lemma {:induction false} RunsCountEvidence(es: seq<Event>)
    ensures Run(es).reading.Some? <==> LastCounters(es).Some?
    ensures Run(es).reading.Some? ==>
              && Run(es).reading.value.runs == OneSidedReadings(es)
              && LastCounters(es).value == (Run(es).reading.value.bytesIn, Run(es).reading.value.bytesOut)
  {
    if es != [] { RunsCountEvidence(es[..|es| - 1]); }
  }

  // When a stall was noticed, and what was spent before it.

  /** When the fifth one-sided reading in a row came, while they stand. */
  function NoticedAt(es: seq<Event>): Option<Time> {
    if es == [] then None
    else
      var before := es[..|es| - 1];
      match es[|es| - 1]
      case Forget => None
      case Sample(_, _, now) =>
        if OneSidedReadings(es) < STALL_CHECKS then None
        else if OneSidedReadings(before) < STALL_CHECKS then Some(now)
        else NoticedAt(before)
      case _ => NoticedAt(before)
  }

  /** The present stall's actions end the reading's life, and its transport restart
      was spent beforehand exactly when there is one in what came before them. */
  ghost predicate Earlier(c: Climb) {
    && |c.acts| <= |c.life| && c.life[|c.life| - |c.acts|..] == c.acts
    && (c.spent <==> ReloadIn(c.life[..|c.life| - |c.acts|]))
  }

  /** The clock of the first costly rung runs from the moment of notice. */
  ghost predicate DatedFrom(c: Climb, noticed: Option<Time>, slack: nat) {
    && (noticed.Some? ==> noticed.value >= UNIX_EPOCH + SECOND)
    && (noticed.Some? <==> c.reading.Some? && c.reading.value.since != ZERO_TIME)
    && (noticed.Some? && |c.acts| <= 1 ==> KeptFrom(c.reading.value.since, noticed.value, slack))
    && (|c.acts| > 1 ==> noticed.Some? && c.acts[1].at >= noticed.value + STALL_RESTART_AFTER - slack)
  }

  lemma EarlierGrows(c: Climb, reading: Option<Reading>, a: Acted)
    requires Earlier(c)
    ensures Earlier(Climb(reading, c.spent, c.acts + [a], c.life + [a]))
  {
    var acts, life := c.acts + [a], c.life + [a];
    assert life[|life| - |acts|..] == acts;
    assert life[..|life| - |acts|] == c.life[..|c.life| - |c.acts|];
    hide ReloadIn;
  }

  lemma DecisionKeepsEarlier(c: Climb, now: Time)
    requires Earlier(c)
    ensures Earlier(Step(c, Decide(now)))
  {
    if c.reading.Some? {
      var (after, action) := Decided(c.reading.value, now);
      EarlierGrows(c, Some(after), Acted(action, now));
      assert Earlier(c.(reading := Some(after)));
    }
    hide Decided, Earlier;
  }

  lemma SampleKeepsEarlier(c: Climb, e: Event, slack: nat)
    requires Climbing(c, slack) && Earlier(c) && e.Sample?
    ensures Earlier(Step(c, e))
  {
    hide Ladder, ReloadedOnce, Standing, MeasuredFrom, ReloadIn, Decided, Loaded, Saved;
    assert c.life[..|c.life|] == c.life;
  }

  lemma {:induction false} RunsStartEarlier(es: seq<Event>)
    requires Sane(es)
    ensures Earlier(Run(es))
  {
    if es != [] {
      var before, e := es[..|es| - 1], es[|es| - 1];
      RunsStartEarlier(before);
      RunsClimb(before);
      hide Climbing, Earlier, Observed, Decided;
      match e
      case Forget => NothingWasSpent();
      case WatchdogRestart => RestartKeepsEarlier(Run(before));
      case Decide(now) => DecisionKeepsEarlier(Run(before), now);
      case Sample(_, _, _) => SampleKeepsEarlier(Run(before), e, Slack(before));
    } else {
      NothingWasSpent();
    }
  }

  lemma NothingWasSpent()
    ensures Earlier(NOTHING_SEEN)
  {
  }

  lemma RestartKeepsEarlier(c: Climb)
    requires Earlier(c)
    ensures Earlier(Step(c, WatchdogRestart))
  {
  }

  lemma DecisionKeepsDate(c: Climb, now: Time, noticed: Option<Time>, slack: nat)
    requires Climbing(c, slack) && DatedFrom(c, noticed, slack) && slack < SECOND && now >= UNIX_EPOCH + SECOND
    ensures DatedFrom(Step(c, Decide(now)), noticed, slack)
  {
    if c.reading.Some? && Decided(c.reading.value, now).1 != Watch && |c.acts| <= 1 {
      DecisionIsNextRung(c, now, slack);
      KeptBounds(c.reading.value.since, noticed.value, slack);
    }
  }

  lemma RestartKeepsDate(c: Climb, noticed: Option<Time>)
    requires Climbing(c, SECOND - 1) && DatedFrom(c, noticed, SECOND - 1)
    ensures DatedFrom(Step(c, WatchdogRestart), noticed, SECOND - 1)
  {
    if c.reading.Some? && c.reading.value.since != ZERO_TIME {
      WholeSecondFacts(c.reading.value.since);
      WholeSecondFacts(noticed.value);
    }
  }

  lemma SampleKeepsDate(es: seq<Event>, slack: nat)
    requires es != [] && es[|es| - 1].Sample? && es[|es| - 1].now >= UNIX_EPOCH + SECOND
    requires Climbing(Run(es[..|es| - 1]), slack) && Climbing(Run(es), slack)
    requires DatedFrom(Run(es[..|es| - 1]), NoticedAt(es[..|es| - 1]), slack)
    ensures DatedFrom(Run(es), NoticedAt(es), slack)
  {
    RunsCountEvidence(es[..|es| - 1]);
    RunsCountEvidence(es);
    hide OneSidedReadings, LastCounters;
  }

  lemma {:induction false} RunsAreDated(es: seq<Event>)
    requires Sane(es)
    ensures DatedFrom(Run(es), NoticedAt(es), Slack(es))
  {
    if es != [] {
      var before, e := es[..|es| - 1], es[|es| - 1];
      RunsAreDated(before);
      RunsClimb(before);
      RunsClimb(es);
      assert es == before + [e];
      MoreSlack(Run(before), Slack(before), Slack(es));
      hide Climbing, OneSidedReadings, Observed, Decided;
      match e
      case Forget =>
      case WatchdogRestart => RestartKeepsDate(Run(before), NoticedAt(before));
      case Decide(now) => DecisionKeepsDate(Run(before), now, NoticedAt(before), Slack(es));
      case Sample(_, _, _) => SampleKeepsDate(es, Slack(es));
    }
  }

  // What follows for every run.

  /** Over every run from an empty watch, the actions taken on one stall are
      exactly report, transport restart (unless spent earlier), two restarts, and
      give-ups, with the stated pauses between them; a watchdog restart can take
      less than a second off a pause and nothing else. The transport restart is spent
      exactly when it was tried on an earlier stall of the same reading, and the first
      rung after the report waits three minutes from the reading that was noticed. */
  lemma EveryRunClimbsTheLadder(es: seq<Event>)
    requires Sane(es)
    ensures Earlier(Run(es))
    ensures |Run(es).acts| > 1 ==>
      NoticedAt(es).Some? && Run(es).acts[1].at >= NoticedAt(es).value + STALL_RESTART_AFTER - Slack(es)
    ensures Ladder(Run(es).acts, Run(es).spent, Slack(es))
    ensures RestartsAmong(Run(es).acts) <= STALL_GIVE_UP_AFTER
    ensures ReloadedOnce(Run(es).life)
  {
    RunsClimb(es);
    RestartCount(Run(es).acts, Run(es).spent, Slack(es));
    RunsStartEarlier(es);
    RunsAreDated(es);
  }

  // When a rung is due, and that it is taken.

  /** From when the next rung is due, once something was done about the stall: three
      minutes after the notice, or after the last reload or restart, or thirty after
      giving up. */
  function DueFrom(acts: seq<Acted>, noticed: Time): Time
    requires acts != []
  {
    var last := acts[|acts| - 1];
    match last.action
    case Reload => last.at + STALL_RESTART_AFTER
    case Restart => last.at + STALL_RESTART_AFTER
    case GiveUp => last.at + STALL_QUIET_FOR
    case _ => noticed + STALL_RESTART_AFTER
  }

  /** Nothing is due before five one-sided readings stand; then the report is, at once. */
  predicate Due(es: seq<Event>, acts: seq<Acted>, now: Time) {
    NoticedAt(es).Some? && (acts == [] || now >= DueFrom(acts, NoticedAt(es).value))
  }

  /** What the two clocks hold besides the ladder: one runs only after giving up, and
      then the other has run out. */
  ghost predicate Quieted(c: Climb) {
    c.reading.Some? ==>
      if c.acts != [] && c.acts[|c.acts| - 1].action == GiveUp
      then c.reading.value.since <= c.acts[|c.acts| - 1].at - STALL_RESTART_AFTER
      else c.reading.value.quietUntil == ZERO_TIME
  }

  lemma DecisionKeepsQuieted(c: Climb, now: Time, slack: nat)
    requires Climbing(c, slack) && slack < SECOND && now >= UNIX_EPOCH + SECOND && Quieted(c)
    ensures Quieted(Step(c, Decide(now)))
  {
    if c.reading.Some? && Decided(c.reading.value, now).1 != Watch {
      DecisionIsNextRung(c, now, slack);
      hide Ladder, ReloadedOnce, MeasuredFrom, ReloadIn;
      if c.acts != [] && c.acts[|c.acts| - 1].action == GiveUp {
        assert Decided(c.reading.value, now).1 == GiveUp by { GiveUpsFollow(c, slack); }
      }
    }
  }

  lemma GiveUpsFollow(c: Climb, slack: nat)
    requires Climbing(c, slack) && c.acts != [] && c.acts[|c.acts| - 1].action == GiveUp
    ensures Rung(|c.acts|, c.spent) == GiveUp
  {
    assert c.acts[|c.acts| - 1].action == Rung(|c.acts| - 1, c.spent);
  }

  lemma RestartKeepsQuieted(c: Climb)
    requires Climbing(c, SECOND - 1) && Quieted(c)
    ensures Quieted(Step(c, WatchdogRestart))
  {
    if c.reading.Some? && c.reading.value.since != ZERO_TIME { WholeSecondFacts(c.reading.value.since); }
  }

  lemma SampleKeepsQuieted(c: Climb, e: Event, slack: nat)
    requires Climbing(c, slack) && e.Sample? && Quieted(c)
    ensures Quieted(Step(c, e))
  {
    hide Ladder, ReloadedOnce, MeasuredFrom, ReloadIn, Decided;
  }

  lemma {:induction false} RunsAreQuieted(es: seq<Event>)
    requires Sane(es)
    ensures Quieted(Run(es))
  {
    if es != [] {
      var before, e := es[..|es| - 1], es[|es| - 1];
      RunsAreQuieted(before);
      RunsClimb(before);
      assert es == before + [e];
      MoreSlack(Run(before), Slack(before), Slack(es));
      hide Climbing, Observed, Decided;
      match e
      case Forget =>
      case WatchdogRestart => RestartKeepsQuieted(Run(before));
      case Decide(now) => DecisionKeepsQuieted(Run(before), now, Slack(es));
      case Sample(_, _, _) => SampleKeepsQuieted(Run(before), e, Slack(es));
    }
  }

  /** One decision against the clocks. */
  lemma DecisionIsDue(c: Climb, noticed: Option<Time>, now: Time, slack: nat)
    requires Climbing(c, slack) && Quieted(c) && DatedFrom(c, noticed, slack) && slack < SECOND
    requires now >= UNIX_EPOCH + SECOND
    ensures var v := Step(c, Decide(now));
      && (noticed.Some? && (c.acts == [] || now >= DueFrom(c.acts, noticed.value)) ==>
            v.acts == c.acts + [Acted(Rung(|c.acts|, c.spent), now)])
      && (noticed.None? || (c.acts != [] && now + slack < DueFrom(c.acts, noticed.value)) ==> v.acts == c.acts)
  {
    if c.reading.Some? && noticed.Some? {
      var r := c.reading.value;
      if Decided(r, now).1 != Watch { DecisionIsNextRung(c, now, slack); }
      if c.acts != [] {
        var last := c.acts[|c.acts| - 1];
        assert last.action == Rung(|c.acts| - 1, c.spent);
        if last.action in {Reload, Restart} { KeptBounds(r.since, last.at, slack); }
        if last.action == GiveUp { KeptBounds(r.quietUntil, last.at + STALL_QUIET_FOR, slack); }
        if last.action == Report { KeptBounds(r.since, noticed.value, slack); }
        hide Ladder, ReloadedOnce, ReloadIn;
      }
    }
  }

  /** The converse of the ladder, over every run: a decision takes the next rung whenever
      it is due, and takes none before. A watchdog restart can bring a rung forward by
      less than a second; without one there is nothing in between. */
  lemma EveryDueRungIsTaken(es: seq<Event>, now: Time)
    requires Sane(es) && now >= UNIX_EPOCH + SECOND
    ensures var c, v := Run(es), Run(es + [Decide(now)]);
      && (Due(es, c.acts, now) ==> v.acts == c.acts + [Acted(Rung(|c.acts|, c.spent), now)])
      && (!Due(es, c.acts, now + Slack(es)) ==> v.acts == c.acts)
  {
    RunGrows(es, Decide(now));
    RunsClimb(es);
    RunsAreQuieted(es);
    RunsAreDated(es);
    hide Run, Climbing, Quieted, DatedFrom, Step;
    DecisionIsDue(Run(es), NoticedAt(es), now, Slack(es));
  }

  // What a reading is said to show.

  /** The side that stood still at the last one-sided reading, while it stands. */
  function FrozenSide(es: seq<Event>): Direction {
    if es == [] then NoDirection
    else
      var before := es[..|es| - 1];
      match es[|es| - 1]
      case Forget => NoDirection
      case Sample(i, o, _) =>
        var was := LastCounters(before);
        if was.None? then NoDirection
        else if i <= was.value.0 && o <= was.value.1 then FrozenSide(before)
        else if !OneSided(was.value, i, o) then NoDirection
        else if i > was.value.0 then NothingGoingOut else NothingComingBack
      case _ => FrozenSide(before)
  }

  /** Over every run, of the next reading: it is called stalled exactly when five
      one-sided readings stand, itself among them; idle exactly when nothing moved and
      they do not; and the side that is named is the one that stood still. */
  lemma ReadingsSayWhatTheCountersShow(es: seq<Event>, i: nat, o: nat, now: Time)
    requires Run(es).reading.Some?
    ensures LastCounters(es).Some?
    ensures var more, was := es + [Sample(i, o, now)], LastCounters(es).value;
      var (after, state) := Observed(Run(es).reading.value, i, o, now);
      && (state == FlowStalled <==> OneSidedReadings(more) >= STALL_CHECKS)
      && (state == FlowIdle <==> i <= was.0 && o <= was.1 && OneSidedReadings(more) < STALL_CHECKS)
      && state != FlowUnknown
      && Run(more).reading == Some(after) && after.direction == FrozenSide(more)
  {
    var more := es + [Sample(i, o, now)];
    RunsCountEvidence(es);
    RunsCountEvidence(more);
    RunsNameTheSide(es);
    RunGrows(es, Sample(i, o, now));
    assert more[..|more| - 1] == es;
    hide Run;
  }

  lemma {:induction false} RunsNameTheSide(es: seq<Event>)
    ensures Run(es).reading.Some? ==> Run(es).reading.value.direction == FrozenSide(es)
  {
    if es != [] {
      RunsCountEvidence(es[..|es| - 1]);
      RunsNameTheSide(es[..|es| - 1]);
      hide OneSidedReadings, Decided;
      assert es[|es| - 1].Decide? && Run(es[..|es| - 1]).reading.Some? ==>
        Run(es).reading.value.direction == Run(es[..|es| - 1]).reading.value.direction by {
        if es[|es| - 1].Decide? && Run(es[..|es| - 1]).reading.Some? {
          DecisionsNameNoSide(Run(es[..|es| - 1]).reading.value, es[|es| - 1].now);
        }
      }
    }
  }

  lemma DecisionsNameNoSide(r: Reading, now: Time)
    ensures Decided(r, now).0.direction == r.direction
  {
  }

  // A second stall of one reading.

  /** Five readings at one moment: in gains 64 KiB each time, out stands. */
  function Stall(i: nat, o: nat, at: Time): seq<Event> {
    [Sample(i + STALL_PROGRESS, o, at), Sample(i + 2 * STALL_PROGRESS, o, at), Sample(i + 3 * STALL_PROGRESS, o, at),
     Sample(i + 4 * STALL_PROGRESS, o, at), Sample(i + 5 * STALL_PROGRESS, o, at)]
  }

  lemma RunGrowsBy2(es: seq<Event>, a: Event, b: Event)
    ensures Run(es + [a, b]) == Step(Step(Run(es), a), b)
  {
    hide Step;
    RunGrows(es, a);
    RunGrows(es + [a], b);
    assert es + [a, b] == es + [a] + [b];
  }

  lemma StallRun(es: seq<Event>, at: Time)
    requires Run(es).reading.Some? && at > ZERO_TIME
    requires Run(es).reading.value.runs == 0 && Run(es).reading.value.since == ZERO_TIME
    ensures var r := Run(es).reading.value;
            Run(es + Stall(r.bytesIn, r.bytesOut, at)) ==
            Run(es).(reading := Some(r.(bytesIn := r.bytesIn + 5 * STALL_PROGRESS, runs := STALL_CHECKS, since := at,
                                        direction := NothingGoingOut)))
  {
    hide Decided, Loaded, Saved;
    var r := Run(es).reading.value;
    var s := Stall(r.bytesIn, r.bytesOut, at);
    RunGrowsBy2(es, s[0], s[1]);
    RunGrowsBy2(es + [s[0], s[1]], s[2], s[3]);
    RunGrows(es + [s[0], s[1]] + [s[2], s[3]], s[4]);
    hide Run;
    assert es + s == es + [s[0], s[1]] + [s[2], s[3]] + [s[4]];
  }

  const FIRST_SECOND: Time := UNIX_EPOCH + SECOND

  /** A stall that is reported and reloaded, a reading that clears it, and another
      stall as long. */
  function TwoStalls(): seq<Event> {
    [Sample(0, 0, FIRST_SECOND)] + Stall(0, 0, FIRST_SECOND)
    + [Decide(FIRST_SECOND), Decide(FIRST_SECOND + STALL_RESTART_AFTER)]
    + [Sample(5 * STALL_PROGRESS + 1, 1, FIRST_SECOND)] + Stall(5 * STALL_PROGRESS + 1, 1, FIRST_SECOND)
    + [Decide(FIRST_SECOND), Decide(FIRST_SECOND + STALL_RESTART_AFTER)]
  }

  /** The second of them gets no transport restart. */
  lemma ASecondStallGetsNoReload()
    ensures Run(TwoStalls()).spent
    ensures Run(TwoStalls()).acts == [Acted(Report, FIRST_SECOND), Acted(Restart, FIRST_SECOND + STALL_RESTART_AFTER)]
  {
    var start := [Sample(0, 0, FIRST_SECOND)];
    assert Run(start) == Step(Run([]), start[0]) by { assert start[..0] == []; }
    StallRun(start, FIRST_SECOND);
    var one := start + Stall(0, 0, FIRST_SECOND);
    RunGrowsBy2(one, Decide(FIRST_SECOND), Decide(FIRST_SECOND + STALL_RESTART_AFTER));
    var two := one + [Decide(FIRST_SECOND), Decide(FIRST_SECOND + STALL_RESTART_AFTER)];
    RunGrows(two, Sample(5 * STALL_PROGRESS + 1, 1, FIRST_SECOND));
    var three := two + [Sample(5 * STALL_PROGRESS + 1, 1, FIRST_SECOND)];
    hide Run, Stall;
    StallRun(three, FIRST_SECOND);
    var four := three + Stall(5 * STALL_PROGRESS + 1, 1, FIRST_SECOND);
    RunGrowsBy2(four, Decide(FIRST_SECOND), Decide(FIRST_SECOND + STALL_RESTART_AFTER));
  }

  const THREE_MINUTES := 180_000_000_000

  /** A reading whose stall dates from `since`, somewhere on the ladder. */
  ghost predicate At(c: Climb, since: Time, reported: bool, reloaded: bool, restarts: nat) {
    && c.reading.Some? && c.reading.value.since == since && c.reading.value.quietUntil == ZERO_TIME
    && c.reading.value.reported == reported && c.reading.value.reloaded == reloaded
    && c.reading.value.restarts == restarts
  }

  lemma ReportThenReload(c: Climb, at: Time)
    requires at >= FIRST_SECOND && At(c, at, false, false, 0)
    ensures var v := Step(Step(c, Decide(at)), Decide(at + THREE_MINUTES));
      && At(v, at + THREE_MINUTES, true, true, 0)
      && v.acts == c.acts + [Acted(Report, at), Acted(Reload, at + THREE_MINUTES)]
  {
  }

  lemma TwoRestarts(c: Climb, at: Time)
    requires at >= FIRST_SECOND && At(c, at, true, true, 0)
    ensures var b, d := at + THREE_MINUTES, at + 2 * THREE_MINUTES;
      var v := Step(Step(c, Decide(b)), Decide(d));
      At(v, d, true, true, 2) && v.acts == c.acts + [Acted(Restart, b), Acted(Restart, d)]
  {
  }

  lemma TwoGiveUps(c: Climb, at: Time)
    requires at >= FIRST_SECOND && At(c, at, true, true, 2)
    ensures var b, d := at + THREE_MINUTES, at + 11 * THREE_MINUTES;
      Step(Step(c, Decide(b)), Decide(d)).acts == c.acts + [Acted(GiveUp, b), Acted(GiveUp, d)]
  {
  }

  lemma AFreshStall(at: Time)
    requires at >= FIRST_SECOND
    ensures var c := Run([Sample(0, 0, at)] + Stall(0, 0, at)); At(c, at, false, false, 0) && c.acts == []
  {
    var start := [Sample(0, 0, at)];
    assert Run(start) == Step(Run([]), start[0]) by { assert start[..0] == []; }
    StallRun(start, at);
  }

  /** One stall watched to the end: it is announced, its transport and then twice its
      process restarted, three minutes apart, and given up on, and half an hour later
      given up on again. */
  lemma TheWholeLadder(at: Time)
    requires at >= FIRST_SECOND
    ensures var es := [Sample(0, 0, at)] + Stall(0, 0, at)
              + [Decide(at), Decide(at + THREE_MINUTES)]
              + [Decide(at + 2 * THREE_MINUTES), Decide(at + 3 * THREE_MINUTES)]
              + [Decide(at + 4 * THREE_MINUTES), Decide(at + 14 * THREE_MINUTES)];
      Run(es).acts ==
        [Acted(Report, at), Acted(Reload, at + THREE_MINUTES)]
        + [Acted(Restart, at + 2 * THREE_MINUTES), Acted(Restart, at + 3 * THREE_MINUTES)]
        + [Acted(GiveUp, at + 4 * THREE_MINUTES), Acted(GiveUp, at + 14 * THREE_MINUTES)]
  {
    hide Run, Stall, Step, At;
    AFreshStall(at);
    var one := [Sample(0, 0, at)] + Stall(0, 0, at);
    RunGrowsBy2(one, Decide(at), Decide(at + THREE_MINUTES));
    ReportThenReload(Run(one), at);
    var two := one + [Decide(at), Decide(at + THREE_MINUTES)];
    RunGrowsBy2(two, Decide(at + 2 * THREE_MINUTES), Decide(at + 3 * THREE_MINUTES));
    TwoRestarts(Run(two), at + THREE_MINUTES);
    var three := two + [Decide(at + 2 * THREE_MINUTES), Decide(at + 3 * THREE_MINUTES)];
    RunGrowsBy2(three, Decide(at + 4 * THREE_MINUTES), Decide(at + 14 * THREE_MINUTES));
    TwoGiveUps(Run(three), at + 3 * THREE_MINUTES);
  }

  lemma {:induction false} RestartCount(acts: seq<Acted>, spent: bool, slack: nat)
    requires Ladder(acts, spent, slack)
    ensures RestartsAmong(acts) == RestartsAfter(|acts|, spent)
  {
    if acts != [] { RestartCount(acts[..|acts| - 1], spent, slack); }
  }

  /** The state a run can be in: a stall is dated exactly when five one-sided
      readings stand, and no restart is spent before the report and the transport
      restart were. */
  lemma ReachableReadings(es: seq<Event>)
    requires Sane(es) && Run(es).reading.Some?
    ensures var r := Run(es).reading.value;
            && (r.since != ZERO_TIME <==> r.runs >= STALL_CHECKS)
            && (r.restarts > 0 ==> r.reported && r.reloaded)
            && r.restarts <= STALL_GIVE_UP_AFTER
            && (r.reported ==> r.since != ZERO_TIME)
  {
    RunsClimb(es);
  }

  /** Nothing is ever said or done about a tunnel without five standing readings
      of one side talking and the other silent. */
  lemma ActionNeedsEvidence(es: seq<Event>, now: Time)
    requires Sane(es)
    requires Run(es + [Decide(now)]).life != Run(es).life
    ensures OneSidedReadings(es) >= STALL_CHECKS
  {
    RunsClimb(es);
    RunsCountEvidence(es);
    assert (es + [Decide(now)])[..|es|] == es;
  }

  /** No counter in the run is ever above the one before it. */
  ghost predicate NeverAdvances(es: seq<Event>) {
    forall k :: 0 <= k < |es| && es[k].Sample? && LastCounters(es[..k]).Some? ==>
      es[k].bytesIn <= LastCounters(es[..k]).value.0 && es[k].bytesOut <= LastCounters(es[..k]).value.1
  }

  /** Silence alone is never a symptom, however long it lasts and however often
      the counters restart from zero. */
  lemma {:induction false} SilenceNeverActs(es: seq<Event>)
    requires Sane(es) && NeverAdvances(es)
    ensures OneSidedReadings(es) == 0 && Run(es).life == []
  {
    if es != [] {
      var before, e := es[..|es| - 1], es[|es| - 1];
      forall k | 0 <= k < |before| ensures before[..k] == es[..k] {}
      SilenceNeverActs(before);
      if e.Decide? && Run(es).life != [] {
        assert es == before + [e];
        ActionNeedsEvidence(before, e.now);
      }
    }
  }

  /** A reading in which nothing moved changes the remembered counters and
      nothing else: it neither ends a stall nor adds to one. */
  lemma SilenceNeverClears(c: Climb, i: nat, o: nat, now: Time)
    requires c.reading.Some?
    requires i <= c.reading.value.bytesIn && o <= c.reading.value.bytesOut
    ensures Step(c, Sample(i, o, now)) ==
            c.(reading := Some(c.reading.value.(bytesIn := i, bytesOut := o)))
  {
  }

  // Restarting the watchdog.

  predicate OnTheSecond(t: Time) { t == ZERO_TIME || (t != UNIX_EPOCH && t == WholeSecond(t)) }

  /** Writing a reading down and reading it back is exact when, and only when,
      both of its times are absent or whole seconds other than 1970's first. */
  lemma SaveLoadExactlyWhen(r: Reading)
    ensures Loaded(Saved(r)) == r <==> OnTheSecond(r.since) && OnTheSecond(r.quietUntil)
  {
    SavedTimeExactlyWhen(r.since);
    SavedTimeExactlyWhen(r.quietUntil);
  }

  lemma SavedTimeExactlyWhen(t: Time)
    ensures LoadedTime(SavedTime(t)) == t <==> OnTheSecond(t)
    ensures t != ZERO_TIME ==>
              (LoadedTime(SavedTime(t)) == ZERO_TIME <==>
               UNIX_EPOCH <= t < UNIX_EPOCH + SECOND || 0 < t < SECOND)
  {
  }

  ghost predicate ClockOnTheSecond(es: seq<Event>) {
    forall e <- es :: (e.Sample? || e.Decide?) ==> e.now == WholeSecond(e.now)
  }

  /** The same run with the watchdog never restarted. */
  function WithoutRestarts(es: seq<Event>): seq<Event> {
    if es == [] then []
    else WithoutRestarts(es[..|es| - 1]) + if es[|es| - 1].WatchdogRestart? then [] else [es[|es| - 1]]
  }

  lemma {:induction false} TimesStayOnTheSecond(es: seq<Event>)
    requires Sane(es) && ClockOnTheSecond(es)
    ensures Run(es).reading.Some? ==>
              OnTheSecond(Run(es).reading.value.since) && OnTheSecond(Run(es).reading.value.quietUntil)
  {
    if es != [] {
      var before, e := es[..|es| - 1], es[|es| - 1];
      TimesStayOnTheSecond(before);
      if Run(before).reading.Some? {
        SaveLoadExactlyWhen(Run(before).reading.value);
        if e.Decide? { QuietEndsOnTheSecond(e.now); }
      }
    }
  }

  lemma QuietEndsOnTheSecond(now: Time)
    requires now == WholeSecond(now) && now >= UNIX_EPOCH + SECOND
    ensures OnTheSecond(now + STALL_QUIET_FOR)
  {
    assert now + STALL_QUIET_FOR == UNIX_EPOCH + (UnixSeconds(now) + 1800) * SECOND;
  }

  /** On a clock of whole seconds, restarting the watchdog anywhere, any number of
      times, changes nothing the run does or remembers. */
  lemma {:induction false} WatchdogRestartsAreInvisible(es: seq<Event>)
    requires Sane(es) && ClockOnTheSecond(es)
    ensures Run(es) == Run(WithoutRestarts(es))
  {
    if es != [] {
      var before, e := es[..|es| - 1], es[|es| - 1];
      WatchdogRestartsAreInvisible(before);
      var kept := WithoutRestarts(before);
      if e.WatchdogRestart? {
        assert WithoutRestarts(es) == kept;
        TimesStayOnTheSecond(before);
        if Run(before).reading.Some? { SaveLoadExactlyWhen(Run(before).reading.value); }
      } else {
        assert (kept + [e])[..|kept|] == kept;
      }
    }
  }

  /** On any clock, a restarted watchdog does whatever the other one would have
      done, and what it does early the other does less than a second later. */
  lemma RestartBringsForwardUnderASecond(r: Reading, now: Time)
    requires SaneTime(r.since) && SaneTime(r.quietUntil)
    ensures var kept := Loaded(Saved(r));
            && (Decided(r, now).1 != Watch ==> Decided(kept, now).1 == Decided(r, now).1)
            && (Decided(kept, now).1 != Watch ==>
                  Decided(r, now + SECOND - 1).1 == Decided(kept, now).1)
  {
    if r.since != ZERO_TIME { WholeSecondFacts(r.since); }
    if r.quietUntil != ZERO_TIME { WholeSecondFacts(r.quietUntil); }
  }
}
