/** The registry of long operations: one live job per kind, a bounded history. Its
    state as a value, what each call makes of it, and the registry itself. */
module JobRegistry {
  import opened Wrappers
  import opened Decimal

  datatype State = Running | Succeeded | Failed | Cancelled

  datatype Job<R> = Job(
    id: string, kind: string, target: string, state: State, step: string,
    started: int, ended: Option<int>, result: Option<R>, err: string)

  /** What the mutex guards, and the contexts cancelled so far. A live entry's job
      is held by value. */
  datatype Registry<R> = Registry(
    live: map<string, Job<R>>, byKind: map<string, string>, history: seq<Job<R>>,
    keep: nat, count: nat, cancelled: set<string>)

  function IdOf(kind: string, n: nat): string { kind + "-" + Natural(n) }

  /** An id gives back its kind and number, whatever dashes or digits the kind has:
      the number is what follows the last dash. */
  lemma IdsDiffer(a: string, m: nat, b: string, n: nat)
    requires IdOf(a, m) == IdOf(b, n)
    ensures a == b && m == n
  {
    var x, y := Natural(m), Natural(n);
    SameTail(a, x, b, y);
    assert IdOf(a, m)[|a| + 1..] == x && IdOf(b, n)[|b| + 1..] == y;
    assert IdOf(a, m)[..|a|] == a && IdOf(b, n)[..|b|] == b;
    NaturalInjective(m, n);
  }

  lemma SameTail(a: string, x: string, b: string, y: string)
    requires AllDigits(x) && AllDigits(y) && a + "-" + x == b + "-" + y
    ensures |x| == |y|
  {
    var s := a + "-" + x;
    assert s[|a|] == '-' && s[|b|] == '-';
    assert forall k :: |a| < k < |s| ==> s[k] == x[k - |a| - 1] && s[k] in x;
    assert forall k :: |b| < k < |s| ==> s[k] == y[k - |b| - 1] && s[k] in y;
  }

  // Each call's effect.

  /** In range: every id byKind names is live. Start and Current in job.go take the
      live entry of such an id without asking whether it is there. */
  predicate Indexed<R>(r: Registry<R>) { forall k <- r.byKind :: r.byKind[k] in r.live }

  function Fresh<R>(r: Registry<R>, kind: string, target: string, now: int): Job<R> {
    Job(IdOf(kind, r.count + 1), kind, target, Running, "", now, None, None, "")
  }

  function StartIn<R>(r: Registry<R>, kind: string, target: string, now: int): Registry<R> {
    if kind in r.byKind then r
    else
      var job := Fresh(r, kind, target, now);
      r.(live := r.live[job.id := job], byKind := r.byKind[kind := job.id], count := r.count + 1)
  }

  function Outcome<R>(job: Job<R>, result: Option<R>, err: Option<string>, cancelled: bool, now: int): Job<R> {
    var ended := job.(ended := Some(now), result := result);
    if cancelled then ended.(state := Cancelled, err := "")
    else if err.Some? then ended.(state := Failed, err := err.value)
    else ended.(state := Succeeded)
  }

  function LastOf<T>(s: seq<T>, n: nat): seq<T> { if |s| > n then s[|s| - n..] else s }

  function FinishIn<R>(r: Registry<R>, id: string, result: Option<R>, err: Option<string>, cancelled: bool,
                       now: int): Registry<R> {
    if id !in r.live then r
    else
      var job := Outcome(r.live[id], result, err, cancelled, now);
      r.(history := LastOf(r.history + [job], r.keep), live := r.live - {id},
         byKind := if job.kind in r.byKind && r.byKind[job.kind] == id then r.byKind - {job.kind} else r.byKind,
         cancelled := r.cancelled + {id})
  }

  function StepIn<R>(r: Registry<R>, id: string, text: string): Registry<R> {
    if id in r.live then r.(live := r.live[id := r.live[id].(step := text)]) else r
  }

  function CancelIn<R>(r: Registry<R>, id: string): Registry<R> {
    if id in r.live then r.(cancelled := r.cancelled + {id}) else r
  }

  /** A free kind gets a job that says what was asked for and has not got anywhere yet,
      under the next number, and nothing else changes; a busy one nothing. */
  lemma StartingMeans<R>(r: Registry<R>, kind: string, target: string, now: int)
    ensures var s, id := StartIn(r, kind, target, now), IdOf(kind, r.count + 1);
      if kind in r.byKind then s == r
      else
        && id in s.live && s.byKind.Keys == r.byKind.Keys + {kind} && s.byKind[kind] == id && s.count == r.count + 1
        && (var job := s.live[id];
            && job.id == id && job.kind == kind && job.target == target && job.started == now
            && job.state == Running && job.step == "" && job.ended.None? && job.result.None? && job.err == "")
        && (forall other <- r.live :: other != id ==> other in s.live && s.live[other] == r.live[other])
        && (forall other <- s.live :: other != id ==> other in r.live)
        && (forall other <- r.byKind :: s.byKind[other] == r.byKind[other])
        && s.history == r.history && s.cancelled == r.cancelled
  {
  }

  /** A live job ends: it is filed last with its end, its result and one of three states
      and keeps the rest, its context is cancelled and its kind is free. */
  lemma FinishingMeans<R>(r: Registry<R>, id: string, result: Option<R>, err: Option<string>, cancelled: bool, now: int)
    requires id in r.live && r.keep > 0
    ensures var s, was := FinishIn(r, id, result, err, cancelled, now), r.live[id];
      && id !in s.live && s.live == r.live - {id} && s.cancelled == r.cancelled + {id} && s.count == r.count
      && (was.kind in r.byKind && r.byKind[was.kind] == id ==> was.kind !in s.byKind)
      && (forall kind <- r.byKind :: kind != was.kind ==> kind in s.byKind && s.byKind[kind] == r.byKind[kind])
      && s.history != []
      && (var job := s.history[|s.history| - 1];
          && job.ended == Some(now) && job.result == result
          && (job.state == Cancelled <==> cancelled)
          && (job.state == Failed <==> !cancelled && err.Some?)
          && (job.state == Succeeded <==> !cancelled && err.None?)
          && (job.state == Cancelled ==> job.err == "") && (job.state == Failed ==> Some(job.err) == err)
          && (job.state == Succeeded ==> job.err == was.err)
          && job.id == was.id && job.kind == was.kind && job.target == was.target && job.step == was.step
          && job.started == was.started)
  {
  }

  /** A live job's progress line is the one given, and its context ends when it is
      cancelled; of any other id, and of everything else, nothing changes. */
  lemma TouchingMeans<R>(r: Registry<R>, id: string, text: string)
    ensures var s := StepIn(r, id, text);
      && s.live.Keys == r.live.Keys
      && (id in r.live ==> s.live[id].step == text && s.live[id].(step := r.live[id].step) == r.live[id])
      && (forall other <- r.live :: other != id ==> s.live[other] == r.live[other])
      && s.(live := r.live) == r
    ensures var s := CancelIn(r, id);
      && (forall other :: other in s.cancelled <==> other in r.cancelled || (other == id && id in r.live))
      && s.(cancelled := r.cancelled) == r
  {
  }

  // Reading.

  /** The latest entry with a property. */
  function LatestWhere<R>(h: seq<Job<R>>, p: Job<R> -> bool): Option<Job<R>> {
    if h == [] then None else if p(h[|h| - 1]) then Some(h[|h| - 1]) else LatestWhere(h[..|h| - 1], p)
  }

  function HasId<R>(id: string): Job<R> -> bool { (job: Job<R>) => job.id == id }

  function HasKind<R>(kind: string): Job<R> -> bool { (job: Job<R>) => job.kind == kind }

  function GetIn<R>(r: Registry<R>, id: string): Option<Job<R>> {
    if id in r.live then Some(r.live[id]) else LatestWhere(r.history, HasId(id))
  }

  function CurrentIn<R>(r: Registry<R>, kind: string): Option<Job<R>>
    requires Indexed(r)
  {
    if kind in r.byKind then Some(r.live[r.byKind[kind]]) else None
  }

  function LatestIn<R>(r: Registry<R>, kind: string): Option<Job<R>>
    requires Indexed(r)
  {
    if kind in r.byKind then Some(r.live[r.byKind[kind]])
    else LatestWhere(r.history, HasKind(kind))
  }

  /** Latest takes the mutex twice: it looks for a running job, then, if there is none,
      at the history, which may be another registry's by then. */
  function LatestOf<R>(first: Registry<R>, second: Registry<R>, kind: string): Option<Job<R>>
    requires Indexed(first)
  {
    if kind in first.byKind then CurrentIn(first, kind) else LatestWhere(second.history, HasKind(kind))
  }

  /** What the search comes back with, by its place: an entry with the property and none
      with it later, or nothing where there is none. */
  lemma {:induction false} LatestByPlace<R>(h: seq<Job<R>>, p: Job<R> -> bool)
    ensures LatestWhere(h, p).None? <==> forall job <- h :: !p(job)
    ensures LatestWhere(h, p).Some? ==>
      exists i :: 0 <= i < |h| && h[i] == LatestWhere(h, p).value && p(h[i]) && forall j :: i < j < |h| ==> !p(h[j])
  {
    if h != [] && !p(h[|h| - 1]) {
      LatestByPlace(h[..|h| - 1], p);
      assert h == h[..|h| - 1] + [h[|h| - 1]];
    }
  }

  lemma {:induction false} LatestIsThere<R>(h: seq<Job<R>>, kind: string)
    ensures var job := LatestWhere(h, HasKind(kind)); job.Some? ==> job.value in h && job.value.kind == kind
  {
    if h != [] && h[|h| - 1].kind != kind { LatestIsThere(h[..|h| - 1], kind); }
  }

  predicate Wanted<R>(job: Job<R>, kind: string) { kind == "" || job.kind == kind }

  /** The finished jobs of a kind, newest first. */
  function NewestFirst<R>(h: seq<Job<R>>, kind: string): seq<Job<R>> {
    if h == [] then []
    else (if Wanted(h[|h| - 1], kind) then [h[|h| - 1]] else []) + NewestFirst(h[..|h| - 1], kind)
  }

  function UpTo<T>(s: seq<T>, limit: int): seq<T> { if 0 < limit < |s| then s[..limit] else s }

  lemma NewestFirstTakes<R>(h: seq<Job<R>>, i: nat, kind: string, out: seq<Job<R>>)
    requires i < |h|
    ensures out + NewestFirst(h[..i + 1], kind) ==
            (if Wanted(h[i], kind) then out + [h[i]] else out) + NewestFirst(h[..i], kind)
  {
    assert h[..i + 1][..i] == h[..i];
    var rest := NewestFirst(h[..i], kind);
    if Wanted(h[i], kind) { assert out + ([h[i]] + rest) == out + [h[i]] + rest; }
    else { assert [] + rest == rest; }
  }

  lemma UpToPrefix<T>(a: seq<T>, b: seq<T>, limit: int)
    requires 0 < limit == |a|
    ensures UpTo(a + b, limit) == a
  {
  }

  lemma {:induction false} NewestFirstIsAll<R>(h: seq<Job<R>>, kind: string, job: Job<R>)
    ensures multiset(NewestFirst(h, kind))[job] ==
            if kind == "" || job.kind == kind then multiset(h)[job] else 0
  {
    if h != [] {
      var last := h[|h| - 1];
      NewestFirstIsAll(h[..|h| - 1], kind, job);
      assert h == h[..|h| - 1] + [last];
    }
  }

  /** Later in the list is earlier in time. */
  lemma {:induction false} NewestFirstRunsBackwards<R>(h: seq<Job<R>>, kind: string, i: nat, j: nat)
    requires i < j < |NewestFirst(h, kind)|
    ensures exists a: nat, b: nat :: b < a < |h| && h[a] == NewestFirst(h, kind)[i] && h[b] == NewestFirst(h, kind)[j]
  {
    var last, rest := |h| - 1, h[..|h| - 1];
    var shift := if Wanted(h[last], kind) then 1 else 0;
    if i < shift {
      NewestFirstComesFrom(rest, kind, j - shift);
      var b: nat :| b < |rest| && rest[b] == NewestFirst(rest, kind)[j - shift];
      assert h[last] == NewestFirst(h, kind)[i] && h[b] == NewestFirst(h, kind)[j];
    } else {
      NewestFirstRunsBackwards(rest, kind, i - shift, j - shift);
      var a: nat, b: nat :| b < a < |rest| && rest[a] == NewestFirst(rest, kind)[i - shift]
                            && rest[b] == NewestFirst(rest, kind)[j - shift];
      assert h[a] == NewestFirst(h, kind)[i] && h[b] == NewestFirst(h, kind)[j];
    }
  }

  lemma {:induction false} NewestFirstComesFrom<R>(h: seq<Job<R>>, kind: string, i: nat)
    requires i < |NewestFirst(h, kind)|
    ensures exists a: nat :: a < |h| && h[a] == NewestFirst(h, kind)[i]
  {
    var last, rest := |h| - 1, h[..|h| - 1];
    var shift := if Wanted(h[last], kind) then 1 else 0;
    if i < shift {
      assert h[last] == NewestFirst(h, kind)[i];
    } else {
      NewestFirstComesFrom(rest, kind, i - shift);
      var a: nat :| a < |rest| && rest[a] == NewestFirst(rest, kind)[i - shift];
      assert h[a] == NewestFirst(h, kind)[i];
    }
  }

  /** The registry. Each method is what it does under the mutex, which Latest takes
      twice. */
  class Jobs<R(0)> {
    var live: map<string, Job<R>>
    var byKind: map<string, string>
    var history: seq<Job<R>>
    var keep: nat
    var count: nat
    /** The jobs whose context has been cancelled. */
    var cancelled: set<string>

    ghost function View(): Registry<R>
      reads this
    {
      Registry(live, byKind, history, keep, count, cancelled)
    }

    constructor ()
      ensures View() == Registry(map[], map[], [], 50, 0, {})
    {
      live, byKind, history, keep, count, cancelled := map[], map[], [], 50, 0, {};
    }

    /** The job, and whether the kind was busy: then it is the running one. */
    method Start(kind: string, target: string, now: int) returns (job: Job<R>, busy: bool)
      requires Indexed(View())
      modifies this
      ensures View() == StartIn(old(View()), kind, target, now)
      ensures busy == (kind in old(byKind))
      ensures job == if busy then old(live[byKind[kind]]) else Fresh(old(View()), kind, target, now)
    {
      if kind in byKind { return live[byKind[kind]], true; }
      count := count + 1;
      var id := IdOf(kind, count);
      job := Job(id, kind, target, Running, "", now, None, None, "");
      live := live[id := job];
      byKind := byKind[kind := id];
      return job, false;
    }

    method Finish(id: string, result: Option<R>, err: Option<string>, wasCancelled: bool, now: int)
      modifies this
      ensures View() == FinishIn(old(View()), id, result, err, wasCancelled, now)
    {
      if id !in live { return; }
      var job := live[id].(ended := Some(now), result := result);
      if wasCancelled {
        job := job.(state := Cancelled, err := "");
      } else if err.Some? {
        job := job.(state := Failed, err := err.value);
      } else {
        job := job.(state := Succeeded);
      }
      cancelled := cancelled + {id};
      history := history + [job];
      if |history| > keep { history := history[|history| - keep..]; }
      live := live - {id};
      if job.kind in byKind && byKind[job.kind] == id { byKind := byKind - {job.kind}; }
    }

    method Step(id: string, text: string)
      modifies this`live
      ensures View() == StepIn(old(View()), id, text)
    {
      if id in live { live := live[id := live[id].(step := text)]; }
    }

    method Get(id: string) returns (job: Option<Job<R>>)
      ensures job == GetIn(View(), id)
      ensures id in live ==> job == Some(live[id])
      ensures id !in live ==> (job.None? <==> forall h <- history :: h.id != id)
      ensures id !in live && job.Some? ==>
        exists i :: 0 <= i < |history| && history[i] == job.value && job.value.id == id
                    && forall j :: i < j < |history| ==> history[j].id != id
    {
      LatestByPlace(history, HasId(id));
      if id in live { return Some(live[id]); }
      var i := |history|;
      assert history[..i] == history;
      while i > 0
        invariant 0 <= i <= |history|
        invariant LatestWhere(history, HasId(id)) == LatestWhere(history[..i], HasId(id))
      {
        i := i - 1;
        assert history[..i + 1][..i] == history[..i];
        if history[i].id == id { return Some(history[i]); }
      }
      return None;
    }

    method Current(kind: string) returns (job: Option<Job<R>>)
      requires Indexed(View())
      ensures job == CurrentIn(View(), kind)
    {
      if kind !in byKind { return None; }
      return Some(live[byKind[kind]]);
    }

    /** Both looks, with nothing in between. */
    method Latest(kind: string) returns (job: Option<Job<R>>)
      requires Indexed(View())
      ensures job == LatestOf(View(), View(), kind)
      ensures kind in byKind ==> job == Some(live[byKind[kind]])
      ensures kind !in byKind ==> (job.None? <==> forall h <- history :: h.kind != kind)
      ensures kind !in byKind && job.Some? ==>
        exists i :: 0 <= i < |history| && history[i] == job.value && job.value.kind == kind
                    && forall j :: i < j < |history| ==> history[j].kind != kind
    {
      job := Current(kind);
      if job.None? { job := LatestFinished(kind); }
    }

    /** The second look. */
    method LatestFinished(kind: string) returns (job: Option<Job<R>>)
      ensures job == LatestWhere(View().history, HasKind(kind))
      ensures job.None? <==> forall h <- history :: h.kind != kind
      ensures job.Some? ==>
        exists i :: 0 <= i < |history| && history[i] == job.value && job.value.kind == kind
                    && forall j :: i < j < |history| ==> history[j].kind != kind
    {
      LatestByPlace(history, HasKind(kind));
      var i := |history|;
      assert history[..i] == history;
      while i > 0
        invariant 0 <= i <= |history|
        invariant LatestWhere(history, HasKind(kind)) == LatestWhere(history[..i], HasKind(kind))
      {
        i := i - 1;
        assert history[..i + 1][..i] == history[..i];
        if history[i].kind == kind { return Some(history[i]); }
      }
      return None;
    }

    method History(kind: string, limit: int) returns (out: seq<Job<R>>)
      ensures out == UpTo(NewestFirst(history, kind), limit)
      ensures out <= NewestFirst(history, kind)
      ensures |out| == if 0 < limit < |NewestFirst(history, kind)| then limit else |NewestFirst(history, kind)|
    {
      out := [];
      var i := |history|;
      assert history[..i] == history && NewestFirst(history[..0], kind) == [];
      hide NewestFirst;
      while i > 0
        invariant 0 <= i <= |history|
        invariant NewestFirst(history, kind) == out + NewestFirst(history[..i], kind)
        invariant limit > 0 ==> |out| < limit
      {
        i := i - 1;
        NewestFirstTakes(history, i, kind, out);
        if kind != "" && history[i].kind != kind { continue; }
        out := out + [history[i]];
        if limit > 0 && |out| >= limit {
          UpToPrefix(out, NewestFirst(history[..i], kind), limit);
          break;
        }
      }
    }

    /** Whether the job was still live; its context is cancelled then. */
    method Cancel(id: string) returns (found: bool)
      modifies this`cancelled
      ensures found == (id in live) && View() == CancelIn(old(View()), id)
    {
      if id !in live { return false; }
      cancelled := cancelled + {id};
      return true;
    }
  }
}
