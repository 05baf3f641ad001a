/** The registry shared by any number of workers, cancellers and readers: every
    interleaving of their locked sections. */
module JobRuns {
  import opened Wrappers
  import opened Decimal
  import opened JobRegistry

  /** Where one job's goroutine is. After its work returned it looks at its context,
      without the lock, and only then finishes. */
  datatype Phase<R> =
    | Working
    | Returned(result: Option<R>, err: Option<string>)
    | Looked(result: Option<R>, err: Option<string>, cancelled: bool)
    | Gone(result: Option<R>, err: Option<string>, cancelled: bool)

  datatype Worker<R> = Worker(kind: string, number: nat, phase: Phase<R>)

  /** `log` is every finish in order; `aimed` are the cancels that have found their
      job and not fired yet. */
  datatype World<R> = World(reg: Registry<R>, workers: map<string, Worker<R>>, log: seq<Job<R>>, aimed: set<string>)

  datatype Event<R> =
    | Starts(kind: string, target: string, now: int)
    | Reports(id: string, text: string)
    | Returns(id: string, result: Option<R>, err: Option<string>)
    | Looks(id: string)
    | Finishes(id: string, now: int)
    | CancelAims(id: string)
    | CancelFires(id: string)
    | ParentEnds(id: string)

  function Empty<R>(keep: nat): World<R> { World(Registry(map[], map[], [], keep, 0, {}), map[], [], {}) }

  function PhaseOf<R>(w: World<R>, id: string): Option<Phase<R>> {
    if id in w.workers then Some(w.workers[id].phase) else None
  }

  function Moved<R>(w: World<R>, id: string, phase: Phase<R>): map<string, Worker<R>>
    requires id in w.workers
  {
    w.workers[id := w.workers[id].(phase := phase)]
  }

  /** One event; one that cannot happen now changes nothing. */
  function Step<R>(w: World<R>, e: Event<R>): World<R> {
    match e
    case Starts(kind, target, now) =>
      if kind in w.reg.byKind then w
      else
        w.(reg := StartIn(w.reg, kind, target, now),
           workers := w.workers[IdOf(kind, w.reg.count + 1) := Worker(kind, w.reg.count + 1, Working)])
    case Reports(id, text) => w.(reg := StepIn(w.reg, id, text))
    case Returns(id, result, err) =>
      if PhaseOf(w, id) == Some(Working) then w.(workers := Moved(w, id, Returned(result, err))) else w
    case Looks(id) =>
      (match PhaseOf(w, id)
       case Some(Returned(result, err)) => w.(workers := Moved(w, id, Looked(result, err, id in w.reg.cancelled)))
       case _ => w)
    case Finishes(id, now) =>
      (match PhaseOf(w, id)
       case Some(Looked(result, err, cancelled)) =>
         w.(reg := FinishIn(w.reg, id, result, err, cancelled, now),
            workers := Moved(w, id, Gone(result, err, cancelled)),
            log := if id in w.reg.live then w.log + [Outcome(w.reg.live[id], result, err, cancelled, now)] else w.log)
       case _ => w)
    case CancelAims(id) => if id in w.reg.live then w.(aimed := w.aimed + {id}) else w
    case CancelFires(id) =>
      if id in w.aimed then w.(reg := w.reg.(cancelled := w.reg.cancelled + {id}), aimed := w.aimed - {id}) else w
    case ParentEnds(id) => w.(reg := w.reg.(cancelled := w.reg.cancelled + {id}))
  }

  function Run<R>(w: World<R>, es: seq<Event<R>>): World<R>
    decreases |es|
  {
    if es == [] then w else Run(Step(w, es[0]), es[1..])
  }

  // What every step keeps.

  /** The kind's id is live and of that kind. */
  predicate KindSound<R>(r: Registry<R>, k: string) {
    k in r.byKind ==> r.byKind[k] in r.live && r.live[r.byKind[k]].kind == k
  }

  /** The live job is running and is the one its kind names. */
  predicate LiveSound<R>(r: Registry<R>, id: string) {
    id in r.live ==>
      var job := r.live[id];
      job.kind in r.byKind && r.byKind[job.kind] == id && job.id == id && job.state == Running
  }

  /** A worker has an id of its own, and its job is live until it is gone. */
  predicate WorkerSound<R>(w: World<R>, id: string) {
    && (id in w.reg.live ==> id in w.workers)
    && (id in w.workers ==>
          var worker := w.workers[id];
          && id == IdOf(worker.kind, worker.number) && 1 <= worker.number <= w.reg.count
          && (worker.phase.Gone? <==> id !in w.reg.live))
  }

  ghost predicate Inverse<R>(r: Registry<R>) {
    && (forall k {:trigger KindSound(r, k)} :: KindSound(r, k))
    && (forall id {:trigger LiveSound(r, id)} :: LiveSound(r, id))
  }

  ghost predicate Numbered<R>(w: World<R>) { forall id {:trigger WorkerSound(w, id)} :: WorkerSound(w, id) }

  /** A finished job holds what its work returned and what its context looked like
      then: cancelled wins over an error, an error over success. */
  ghost predicate Settles<R>(p: Phase<R>, job: Job<R>) {
    && p.Gone? && job.result == p.result && job.ended.Some?
    && job.state == (if p.cancelled then Cancelled else if p.err.Some? then Failed else Succeeded)
    && (p.cancelled ==> job.err == "") && (job.state == Failed ==> Some(job.err) == p.err)
  }

  ghost predicate Settled<R>(workers: map<string, Worker<R>>, job: Job<R>) {
    job.id in workers && Settles(workers[job.id].phase, job)
  }

  ghost predicate AllSettled<R>(w: World<R>) {
    forall job {:trigger Settled(w.workers, job)} :: job in w.log ==> Settled(w.workers, job)
  }

  ghost predicate Distinct<R>(log: seq<Job<R>>) { forall i, j :: 0 <= i < j < |log| ==> log[i].id != log[j].id }

  ghost predicate Counted<R>(w: World<R>) {
    w.reg.history == LastOf(w.log, w.reg.keep) && |w.reg.live| + |w.log| == w.reg.count
  }

  ghost predicate Inv<R>(w: World<R>) {
    Inverse(w.reg) && Numbered(w) && AllSettled(w) && Distinct(w.log) && Counted(w)
  }

  lemma EmptyIsSound<R>(keep: nat)
    ensures Inv(Empty<R>(keep))
  {
  }

  lemma NewIdIsFresh<R>(w: World<R>, kind: string)
    requires Numbered(w)
    ensures IdOf(kind, w.reg.count + 1) !in w.workers && IdOf(kind, w.reg.count + 1) !in w.reg.live
  {
    var id := IdOf(kind, w.reg.count + 1);
    assert WorkerSound(w, id);
    if id in w.workers { IdsDiffer(kind, w.reg.count + 1, w.workers[id].kind, w.workers[id].number); }
  }

  lemma LastOfGrows<T>(s: seq<T>, x: T, n: nat)
    ensures LastOf(LastOf(s, n) + [x], n) == LastOf(s + [x], n)
  {
  }

  lemma LoggedIsNotLive<R>(w: World<R>, job: Job<R>)
    requires Numbered(w) && AllSettled(w) && job in w.log
    ensures job.id !in w.reg.live && job.id in w.workers
  {
    assert Settled(w.workers, job) && WorkerSound(w, job.id);
  }

  lemma StartKeeps<R>(w: World<R>, e: Event<R>)
    requires Inv(w) && e.Starts? && e.kind !in w.reg.byKind
    ensures Inv(Step(w, e))
  {
    var v, id := Step(w, e), IdOf(e.kind, w.reg.count + 1);
    NewIdIsFresh(w, e.kind);
    hide Natural, IdOf, LastOf, Inverse, Numbered;
    assert v.reg.live == w.reg.live[id := Fresh(w.reg, e.kind, e.target, e.now)];
    assert v.reg.live.Keys == w.reg.live.Keys + {id};
    forall k ensures KindSound(v.reg, k) { SoundKind(w, k); }
    forall other ensures LiveSound(v.reg, other) && WorkerSound(v, other) { SoundId(w, other); }
    forall job | job in v.log ensures Settled(v.workers, job) {
      LoggedIsNotLive(w, job);
      assert Settled(w.workers, job);
    }
    InvFrom(v);
  }

  // The parts of the invariant at one key.

  lemma SoundKind<R>(w: World<R>, k: string)
    requires Inv(w)
    ensures KindSound(w.reg, k)
  {
  }

  lemma SoundId<R>(w: World<R>, id: string)
    requires Inv(w)
    ensures LiveSound(w.reg, id) && WorkerSound(w, id)
  {
  }

  lemma InvFrom<R>(v: World<R>)
    requires forall k {:trigger KindSound(v.reg, k)} :: KindSound(v.reg, k)
    requires forall id {:trigger LiveSound(v.reg, id)} :: LiveSound(v.reg, id)
    requires forall id {:trigger WorkerSound(v, id)} :: WorkerSound(v, id)
    requires AllSettled(v) && Distinct(v.log) && Counted(v)
    ensures Inv(v)
  {
  }

  lemma FinishKeeps<R>(w: World<R>, e: Event<R>)
    requires Inv(w) && e.Finishes? && e.id in w.workers && w.workers[e.id].phase.Looked?
    ensures Inv(Step(w, e))
  {
    var v, phase := Step(w, e), w.workers[e.id].phase;
    SoundId(w, e.id);
    hide Natural, IdOf, LastOf, Inverse, Numbered;
    var done := Outcome(w.reg.live[e.id], phase.result, phase.err, phase.cancelled, e.now);
    assert v.log == w.log + [done] && done.id == e.id;
    assert v.reg.live.Keys == w.reg.live.Keys - {e.id};
    forall k ensures KindSound(v.reg, k) { SoundKind(w, k); }
    forall id ensures LiveSound(v.reg, id) && WorkerSound(v, id) { SoundId(w, id); }
    forall job | job in v.log ensures Settled(v.workers, job) {
      if job in w.log { LoggedIsNotLive(w, job); assert Settled(w.workers, job); } else { assert job == done; }
    }
    forall i, j | 0 <= i < j < |v.log| ensures v.log[i].id != v.log[j].id {
      if j == |w.log| { assert w.log[i] in w.log; LoggedIsNotLive(w, w.log[i]); }
    }
    LastOfGrows(w.log, done, w.reg.keep);
    InvFrom(v);
  }

  lemma ReportKeeps<R>(w: World<R>, e: Event<R>)
    requires Inv(w) && e.Reports? && e.id in w.reg.live
    ensures Inv(Step(w, e))
  {
    var v := Step(w, e);
    hide Natural, IdOf, LastOf, Inverse, Numbered;
    assert v.reg.live.Keys == w.reg.live.Keys;
    SoundId(w, e.id);
    forall k ensures KindSound(v.reg, k) { SoundKind(w, k); }
    forall id ensures LiveSound(v.reg, id) && WorkerSound(v, id) { SoundId(w, id); }
    InvFrom(v);
  }

  /** A worker goes on, or a context is cancelled: the jobs are as they were. */
  lemma QuietKeeps<R>(w: World<R>, e: Event<R>)
    requires Inv(w) && !e.Starts? && !e.Finishes? && !e.Reports?
    ensures Inv(Step(w, e))
  {
    var v := Step(w, e);
    hide Natural, IdOf, LastOf, Inverse, Numbered;
    forall k ensures KindSound(v.reg, k) { SoundKind(w, k); }
    forall id ensures LiveSound(v.reg, id) && WorkerSound(v, id) { SoundId(w, id); }
    forall job | job in v.log ensures Settled(v.workers, job) { assert Settled(w.workers, job); }
    InvFrom(v);
  }

  lemma StepKeeps<R>(w: World<R>, e: Event<R>)
    requires Inv(w)
    ensures Inv(Step(w, e))
  {
    hide Inv, StartIn, FinishIn;
    match e
    case Starts(kind, _, _) => if kind !in w.reg.byKind { StartKeeps(w, e); }
    case Finishes(id, _) => if id in w.workers && w.workers[id].phase.Looked? { FinishKeeps(w, e); }
    case Reports(id, _) => if id in w.reg.live { ReportKeeps(w, e); }
    case _ => QuietKeeps(w, e);
  }

  /** Every reachable state of every interleaving is sound. */
  lemma {:induction false} RunKeeps<R>(w: World<R>, es: seq<Event<R>>)
    requires Inv(w)
    ensures Inv(Run(w, es))
    decreases |es|
  {
    hide Step, Inv;
    if es != [] {
      StepKeeps(w, es[0]);
      RunKeeps(Step(w, es[0]), es[1..]);
    }
  }

  // What the invariant says.

  /** At every reachable state: at most one job of a kind is live and the index finds
      it, all that is live is running, all that is remembered is done, and every
      start is accounted for exactly once. */
  lemma ReachableRegistries<R>(keep: nat, es: seq<Event<R>>)
    ensures var w := Run(Empty<R>(keep), es);
      && Indexed(w.reg)
      && (forall a <- w.reg.live, b <- w.reg.live :: w.reg.live[a].kind == w.reg.live[b].kind ==> a == b)
      && (forall id <- w.reg.live :: w.reg.live[id].state == Running)
      && (forall job <- w.reg.history :: job.state != Running)
      && w.reg.history == LastOf(w.log, keep)
      && |w.reg.live| + |w.log| == w.reg.count
      && (forall i, j :: 0 <= i < j < |w.log| ==> w.log[i].id != w.log[j].id)
      && (forall job <- w.log :: job.id !in w.reg.live)
  {
    EmptyIsSound<R>(keep);
    RunKeeps(Empty<R>(keep), es);
    KeepStays(Empty<R>(keep), es);
    hide Run, Natural, IdOf, Inverse, Numbered;
    var w := Run(Empty<R>(keep), es);
    forall k | k in w.reg.byKind ensures w.reg.byKind[k] in w.reg.live { SoundKind(w, k); }
    forall id | id in w.reg.live ensures LiveSound(w.reg, id) { SoundId(w, id); }
    forall job | job in w.log ensures job.state != Running && job.id !in w.reg.live {
      LoggedIsNotLive(w, job);
      assert Settled(w.workers, job);
    }
    assert forall job <- w.reg.history :: job in w.log;
  }

  lemma {:induction false} KeepStays<R>(w: World<R>, es: seq<Event<R>>)
    ensures Run(w, es).reg.keep == w.reg.keep
    decreases |es|
  {
    if es != [] { KeepStays(Step(w, es[0]), es[1..]); }
  }

  /** Finishing is for good: what was finished stays finished, in the same place. */
  lemma {:induction false} TheLogOnlyGrows<R>(w: World<R>, es: seq<Event<R>>)
    ensures w.log <= Run(w, es).log
    decreases |es|
  {
    if es != [] {
      assert w.log <= Step(w, es[0]).log;
      TheLogOnlyGrows(Step(w, es[0]), es[1..]);
    }
  }

  /** To a finished id, finishing, reporting and cancelling do nothing, then or ever
      after. */
  lemma FinishedIsInert<R>(w: World<R>, es: seq<Event<R>>, job: Job<R>, result: Option<R>, err: Option<string>,
                           cancelled: bool, now: int, text: string)
    requires Inv(w) && job in w.log
    ensures var r := Run(w, es).reg;
      && FinishIn(r, job.id, result, err, cancelled, now) == r && StepIn(r, job.id, text) == r
      && CancelIn(r, job.id) == r
  {
    RunKeeps(w, es);
    TheLogOnlyGrows(w, es);
    var v := Run(w, es);
    assert job in v.log;
    hide Run, Natural, IdOf, Inverse, Numbered;
    LoggedIsNotLive(v, job);
  }

  /** Whatever happens between its two looks, Latest answers as if it had looked once:
      at the first moment when a job was running then, else at the second, exactly
      unless another of its kind has begun by then, which it passes over. */
  lemma LatestLooksTwice<R>(w: World<R>, es: seq<Event<R>>, kind: string)
    requires Inv(w)
    ensures var later := Run(w, es).reg;
      && Indexed(w.reg) && Indexed(later)
      && (kind in w.reg.byKind ==> LatestOf(w.reg, later, kind) == LatestIn(w.reg, kind))
      && (kind !in w.reg.byKind ==>
            (LatestOf(w.reg, later, kind) == LatestIn(later, kind) <==> kind !in later.byKind))
  {
    RunKeeps(w, es);
    var v := Run(w, es);
    hide Run, Natural, IdOf, Inverse, Numbered;
    forall k | k in w.reg.byKind ensures w.reg.byKind[k] in w.reg.live { SoundKind(w, k); }
    forall k | k in v.reg.byKind ensures v.reg.byKind[k] in v.reg.live { SoundKind(v, k); }
    if kind in v.reg.byKind {
      SoundId(v, v.reg.byKind[kind]);
      LatestIsThere(v.reg.history, kind);
      var job := LatestWhere(v.reg.history, HasKind(kind));
      if job.Some? { LoggedIsNotLive(v, job.value); }
    }
  }

  ghost predicate Seen<R>(p: Phase<R>, result: Option<R>, err: Option<string>, cancelled: bool) {
    (p.Looked? || p.Gone?) && p.result == result && p.err == err && p.cancelled == cancelled
  }

  lemma SeenStaysSeen<R>(w: World<R>, e: Event<R>, id: string, result: Option<R>, err: Option<string>, cancelled: bool)
    requires Inv(w) && id in w.workers && Seen(w.workers[id].phase, result, err, cancelled)
    ensures id in Step(w, e).workers && Seen(Step(w, e).workers[id].phase, result, err, cancelled)
  {
    if e.Starts? { NewIdIsFresh(w, e.kind); }
    hide Natural, IdOf, Inverse, Numbered, AllSettled, StartIn, FinishIn, StepIn;
  }

  /** What a worker brought back and saw of its context stays what it was. */
  lemma {:induction false} LookingStands<R>(w: World<R>, es: seq<Event<R>>, id: string, result: Option<R>,
                                            err: Option<string>, cancelled: bool)
    requires Inv(w) && id in w.workers && Seen(w.workers[id].phase, result, err, cancelled)
    ensures id in Run(w, es).workers && Seen(Run(w, es).workers[id].phase, result, err, cancelled)
    decreases |es|
  {
    hide Step, Inv;
    if es != [] {
      SeenStaysSeen(w, es[0], id, result, err, cancelled);
      StepKeeps(w, es[0]);
      LookingStands(Step(w, es[0]), es[1..], id, result, err, cancelled);
    }
  }

  /** How a job ends is settled when its worker looks at the context, after the work
      returned: Cancelled exactly if the context was cancelled by then, whatever the
      work returned, and otherwise Failed exactly if it returned an error. A cancel
      that comes later, before the finish or after, changes nothing. */
  lemma LookingDecides<R>(w: World<R>, id: string, es: seq<Event<R>>, job: Job<R>)
    requires Inv(w) && id in w.workers && w.workers[id].phase.Returned?
    requires job in Run(Step(w, Looks(id)), es).log && job.id == id
    ensures job.state == Cancelled <==> id in w.reg.cancelled
    ensures job.state == Failed <==> id !in w.reg.cancelled && w.workers[id].phase.err.Some?
    ensures job.result == w.workers[id].phase.result
  {
    var v, p := Step(w, Looks(id)), w.workers[id].phase;
    StepKeeps(w, Looks(id));
    RunKeeps(v, es);
    LookingStands(v, es, id, p.result, p.err, id in w.reg.cancelled);
    hide Run, Step, Inverse, Numbered;
    assert Settled(Run(v, es).workers, job);
  }
}
