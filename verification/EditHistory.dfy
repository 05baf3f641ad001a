/** Any number of edits and restores, with any step of each failing: what is on disk,
    what the history holds, and what undoing brings back. */
module EditHistory {
  import opened Wrappers
  import opened EditTransaction

  // One attempt is a transaction.

  /** An attempt is accepted exactly when every step went well, the service coming up last
      of all. Then its text is in place, the service up and the replaced text at the
      head of the history. A refused one files nothing, and leaves the file as it was
      unless the new text was written and the old could not be written back; once the
      service was restarted on the new text it is brought back to running or to stopped,
      whichever it was. */
  lemma AttemptIsATransaction(m: Machine, text: string, now: int, note: string, viaSave: bool, f: Faults, carry: Carry)
    ensures Accepted(m, f, viaSave) <==>
              m.file.Some? && f.readable && f.write && (viaSave ==> f.unit && f.reload && f.start) && f.restart && f.up
    ensures var r := Attempt(m, text, now, note, viaSave, f, carry);
      if Accepted(m, f, viaSave) then
        && r.file == Some(text) && r.active
        && (m.file.value != "" && f.history.Lands? ==>
              r.stored.Some? && |r.stored.value| > 0 &&
                r.stored.value[0] == Change(now, carry(note), carry(m.file.value)))
      else
        && r.stored == m.stored
        && (r.file == m.file || (m.file.Some? && f.readable && f.write && !f.revert && r.file == Some(text)))
        && (m.file.None? || !f.readable || !f.write || f.revert ==> r.file == m.file)
        && (m.file.Some? && f.readable && f.write && (viaSave ==> f.unit && f.reload && f.start) ==>
              (m.active && f.back ==> r.active) && (!m.active && f.halts ==> !r.active))
  {
  }

  // Sorting. Where no two moments are equal there is only one order to be had, so it
  // does not matter that the library's sort is not a stable one.

  ghost predicate Descending(s: seq<Change>) { forall i, j :: 0 <= i < j < |s| ==> s[i].at > s[j].at }

  lemma {:induction false} SortedStays(s: seq<Change>)
    requires Descending(s)
    ensures SortNewest(s) == s
  {
    if s != [] {
      SortedStays(s[1..]);
      if |s| > 1 { assert s[0].at > s[1].at; }
      assert [s[0]] + s[1..] == s;
    }
  }

  ghost predicate NotAscending(s: seq<Change>) { forall i, j :: 0 <= i < j < |s| ==> s[i].at >= s[j].at }

  lemma {:induction false} InsertKeeps(c: Change, s: seq<Change>)
    ensures multiset(Insert(c, s)) == multiset(s) + multiset{c}
  {
    if s != [] && c.at < s[0].at {
      InsertKeeps(c, s[1..]);
      assert s == [s[0]] + s[1..];
    }
  }

  lemma InsertKeepsBound(c: Change, s: seq<Change>, at: int)
    requires c.at <= at && (forall e <- s :: e.at <= at)
    ensures forall e <- Insert(c, s) :: e.at <= at
  {
    InsertKeeps(c, s);
    hide Insert;
    forall e | e in Insert(c, s) ensures e.at <= at {
      assert e in multiset(Insert(c, s));
    }
  }

  lemma {:induction false} InsertSorts(c: Change, s: seq<Change>)
    requires NotAscending(s)
    ensures NotAscending(Insert(c, s))
  {
    if s != [] && c.at < s[0].at {
      InsertSorts(c, s[1..]);
      InsertKeepsBound(c, s[1..], s[0].at);
    }
  }

  /** What was read is shown newest first, every entry of it and as often, whatever
      order it was written in. */
  lemma {:induction false} SortingSorts(s: seq<Change>)
    ensures NotAscending(SortNewest(s)) && multiset(SortNewest(s)) == multiset(s)
  {
    if s != [] {
      SortingSorts(s[1..]);
      InsertKeeps(s[0], SortNewest(s[1..]));
      InsertSorts(s[0], SortNewest(s[1..]));
      assert s == [s[0]] + s[1..];
    }
  }

  lemma HeadsAgree(s: seq<Change>, t: seq<Change>)
    requires s != [] && t != [] && Descending(s) && NotAscending(t) && s[0] in t && t[0] in s
    ensures s[0] == t[0]
  {
    var i :| 0 <= i < |s| && s[i] == t[0];
    var j :| 0 <= j < |t| && t[j] == s[0];
    assert t[0].at >= t[j].at;
  }

  lemma TailsAgree<T>(s: seq<T>, t: seq<T>)
    requires s != [] && t != [] && s[0] == t[0] && multiset(s) == multiset(t)
    ensures multiset(s[1..]) == multiset(t[1..])
  {
    assert s == [s[0]] + s[1..] && t == [t[0]] + t[1..];
    assert multiset(s[1..]) == multiset(s) - multiset{s[0]};
    assert multiset(t[1..]) == multiset(t) - multiset{t[0]};
  }

  lemma {:induction false} OnlyOneOrder(s: seq<Change>, t: seq<Change>)
    requires Descending(s) && NotAscending(t) && multiset(s) == multiset(t)
    ensures s == t
  {
    assert |multiset(s)| == |multiset(t)|;
    if s != [] {
      assert s[0] in multiset(t) && t[0] in multiset(s);
      HeadsAgree(s, t);
      TailsAgree(s, t);
      OnlyOneOrder(s[1..], t[1..]);
      assert s == [s[0]] + s[1..] && t == [t[0]] + t[1..];
    }
  }

  // Sequences of edits and restores.

  datatype Op =
    | Edit(text: string, now: int, f: Faults)
    | Restore(at: int, now: int, note: string, f: Faults)

  /** The machine beside what it should hold: the configuration last accepted and
      every one superseded so far, oldest first. */
  datatype World = World(m: Machine, accepted: string, past: seq<Change>)

  /** What an operation tries to put in place, if anything. */
  function Wanted(m: Machine, op: Op): Option<string> {
    match op
    case Edit(text, _, _) => Some(text)
    case Restore(at, _, _, _) =>
      match Before(ConfigHistory(m.stored), at) case Some(c) => Some(c.prev) case None => None
  }

  function NoteOf(op: Op): string { if op.Edit? then "" else op.note }

  predicate Succeeds(w: World, op: Op) { Wanted(w.m, op).Some? && Accepted(w.m, op.f, op.Edit?) }

  function Apply(w: World, op: Op, carry: Carry): World {
    match Wanted(w.m, op)
    case None => w
    case Some(text) =>
      var m := Attempt(w.m, text, op.now, NoteOf(op), op.Edit?, op.f, carry);
      if Succeeds(w, op) then
        World(m, text, if w.accepted == "" then w.past else w.past + [Change(op.now, NoteOf(op), w.accepted)])
      else w.(m := m)
  }

  function ApplyAll(w: World, ops: seq<Op>, carry: Carry): World
    decreases |ops|
  {
    if ops == [] then w else ApplyAll(Apply(w, ops[0], carry), ops[1..], carry)
  }

  /** The newest ten, newest first. */
  function Kept(past: seq<Change>): seq<Change> {
    var n := if |past| > KEEP then KEEP else |past|;
    seq(n, i requires 0 <= i < n => past[|past| - 1 - i])
  }

  ghost predicate Ascending(past: seq<Change>) { forall i, j :: 0 <= i < j < |past| ==> past[i].at < past[j].at }

  ghost predicate InPlace(w: World) { w.m.file == Some(w.accepted) }

  ghost predicate Filed(w: World, carry: Carry) {
    Ascending(w.past) && ConfigHistory(w.m.stored) == CarryAll(Kept(w.past), carry)
  }

  /** Reverts land. */
  ghost predicate Reverts(ops: seq<Op>) { forall op <- ops :: op.f.revert }

  /** And history writes land, under a clock that only moves forward. */
  ghost predicate Files(ops: seq<Op>, past: seq<Change>) {
    && (forall op <- ops :: op.f.history.Lands?)
    && (forall i, j :: 0 <= i < j < |ops| ==> ops[i].now < ops[j].now)
    && (forall op <- ops, c <- past :: c.at < op.now)
  }

  /** While reverts land, the file is always the configuration last accepted. */
  lemma {:induction false} TheFileIsTheLastAccepted(w: World, ops: seq<Op>, carry: Carry)
    requires InPlace(w) && Reverts(ops)
    ensures InPlace(ApplyAll(w, ops, carry))
    decreases |ops|
  {
    if ops != [] {
      assert ops[0] in ops;
      assert forall op <- ops[1..] :: op in ops;
      TheFileIsTheLastAccepted(Apply(w, ops[0], carry), ops[1..], carry);
    }
  }

  lemma KeptGrows(past: seq<Change>, c: Change, carry: Carry)
    ensures FirstOf([c] + CarryAll(Kept(past), carry), KEEP)[0] == c
    ensures CarryAll(FirstOf([c] + CarryAll(Kept(past), carry), KEEP), carry) == CarryAll(Kept(past + [c]), carry)
  {
    var a := FirstOf([c] + CarryAll(Kept(past), carry), KEEP);
    var b := Kept(past + [c]);
    assert |a| == |b|;
    forall i | 0 <= i < |a| ensures CarryOne(a[i], carry) == CarryOne(b[i], carry) {
      if i > 0 { assert a[i] == CarryOne(Kept(past)[i - 1], carry) && b[i] == Kept(past)[i - 1]; }
    }
  }

  lemma KeptDescends(past: seq<Change>, carry: Carry)
    requires Ascending(past)
    ensures Descending(CarryAll(Kept(past), carry))
  {
  }

  lemma ApplyFiles(w: World, op: Op, carry: Carry)
    requires InPlace(w) && Filed(w, carry) && op.f.history.Lands? && (forall c <- w.past :: c.at < op.now)
    ensures Filed(Apply(w, op, carry), carry)
  {
    if Succeeds(w, op) && w.accepted != "" {
      var c := Change(op.now, NoteOf(op), w.accepted);
      KeptGrows(w.past, c, carry);
      assert Ascending(w.past + [c]);
      KeptDescends(w.past + [c], carry);
      hide Kept, CarryAll, CarryOne;
      SortedStays(CarryAll(Kept(w.past + [c]), carry));
    }
  }

  lemma ClockGoesOn(w: World, ops: seq<Op>, carry: Carry)
    requires ops != [] && Files(ops, w.past)
    ensures Files(ops[1..], Apply(w, ops[0], carry).past)
  {
    hide Attempt, Wanted, Succeeds;
    var rest, next := ops[1..], Apply(w, ops[0], carry);
    assert forall o <- rest :: o in ops;
    assert forall c <- next.past :: c in w.past || c.at == ops[0].now;
    forall o, c | o in rest && c in next.past ensures c.at < o.now {
      var j :| 0 <= j < |rest| && rest[j] == o;
      assert ops[j + 1] == o;
    }
  }

  /** Under a clock that only moves forward the history is always the newest ten
      superseded configurations, newest first, each as it was replaced. */
  lemma {:induction false} TheHistoryIsTheNewestTen(w: World, ops: seq<Op>, carry: Carry)
    requires InPlace(w) && Filed(w, carry) && Reverts(ops) && Files(ops, w.past)
    ensures Filed(ApplyAll(w, ops, carry), carry)
    decreases |ops|
  {
    if ops != [] {
      var op, rest, next := ops[0], ops[1..], Apply(w, ops[0], carry);
      assert op in ops;
      assert forall o <- rest :: o in ops;
      ApplyFiles(w, op, carry);
      ClockGoesOn(w, ops, carry);
      TheFileIsTheLastAccepted(w, [op], carry);
      hide Apply, Filed, InPlace, Files;
      assert ApplyAll(w, [op], carry) == ApplyAll(next, [], carry) == next;
      TheHistoryIsTheNewestTen(next, rest, carry);
    }
  }

  // Undo.

  lemma {:induction false} BeforeFinds(h: seq<Change>, i: nat)
    requires Descending(h) && i < |h|
    ensures Before(h, h[i].at) == Some(h[i])
  {
    if i > 0 {
      assert h[0].at > h[i].at;
      BeforeFinds(h[1..], i - 1);
    }
  }

  /** Going back to a kept moment puts the text replaced then back, as JSON carried
      it, and files the text it displaces. */
  lemma RestorePutsBack(w: World, i: nat, now: int, note: string, f: Faults, carry: Carry)
    requires InPlace(w) && Filed(w, carry) && i < |Kept(w.past)| && Accepted(w.m, f, false)
    requires f.history.Lands? && (forall c <- w.past :: c.at < now)
    ensures var c, r := Kept(w.past)[i], Apply(w, Restore(Kept(w.past)[i].at, now, note, f), carry);
      && r.m.file == Some(carry(c.prev)) && r.accepted == carry(c.prev) && r.m.active
      && InPlace(r) && Filed(r, carry)
      && r.past == if w.accepted == "" then w.past else w.past + [Change(now, note, w.accepted)]
  {
    KeptDescends(w.past, carry);
    BeforeFinds(CarryAll(Kept(w.past), carry), i);
    assert CarryAll(Kept(w.past), carry)[i] == CarryOne(Kept(w.past)[i], carry);
    ApplyFiles(w, Restore(Kept(w.past)[i].at, now, note, f), carry);
    hide Kept, CarryAll;
  }

  /** Undoing an undo returns to the start, when the start was a text JSON carries
      whole. Undoing needs something to go back to: an empty file is not kept. */
  lemma UndoOfUndo(w: World, i: nat, now: int, later: int, note: string, f: Faults, g: Faults, carry: Carry)
    requires InPlace(w) && Filed(w, carry) && i < |Kept(w.past)| && Accepted(w.m, f, false)
    requires f.history.Lands? && g.history.Lands? && now < later && (forall c <- w.past :: c.at < now)
    requires w.accepted != ""
    ensures var r := Apply(w, Restore(Kept(w.past)[i].at, now, note, f), carry);
      var u := Apply(r, Restore(now, later, note, g), carry);
      Accepted(r.m, g, false) ==>
        u.m.file == Some(carry(w.accepted)) && (u.m.file == w.m.file <==> carry(w.accepted) == w.accepted)
  {
    RestorePutsBack(w, i, now, note, f, carry);
    var r := Apply(w, Restore(Kept(w.past)[i].at, now, note, f), carry);
    assert Kept(r.past)[0] == Change(now, note, w.accepted);
    if Accepted(r.m, g, false) {
      hide Kept, Apply;
      RestorePutsBack(r, 0, later, note, g, carry);
    }
  }

  /** Nothing brings an empty file back: replacing one files nothing. */
  lemma EmptyFilesAreNotKept(w: World, op: Op, carry: Carry)
    requires InPlace(w) && w.accepted == ""
    ensures Apply(w, op, carry).m.stored == w.m.stored
  {
  }
}
