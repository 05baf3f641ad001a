/** Changing a tunnel's file: write, restart, verify, put back on failure, and file
    what was replaced. One tunnel's file, its service and its history. */
module EditTransaction {
  import opened Wrappers

  /** A configuration that was replaced, and when. */
  datatype Change = Change(at: int, note: string, prev: string)

  /** What JSON carries of a text: all of it when it is valid UTF-8. What has been
      carried once is carried unchanged after that. */
  type Carry = c: string -> string | forall s :: c(c(s)) == c(s) witness (s: string) => s

  /** The history is not written atomically: a write can also leave it unreadable. */
  datatype HistoryWrite = Lands | Refused | Torn

  /** How each outside step of one attempt turns out. `up` is whether the service runs
      once it was restarted, `back` whether restarting it after a revert brings it back,
      `halts` whether it can be stopped, and `lingers` whether it runs where a start or
      a stop failed. */
  datatype Faults = Faults(
    readable: bool, write: bool, unit: bool, reload: bool, start: bool, restart: bool, up: bool,
    revert: bool, back: bool, halts: bool, lingers: bool, history: HistoryWrite)

  datatype Machine = Machine(file: Option<string>, active: bool, stored: Option<seq<Change>>)

  // The history.

  const KEEP := 10

  function Insert(c: Change, s: seq<Change>): seq<Change> {
    if s == [] || c.at >= s[0].at then [c] + s else [s[0]] + Insert(c, s[1..])
  }

  /** Newest first. */
  function SortNewest(s: seq<Change>): seq<Change> {
    if s == [] then [] else Insert(s[0], SortNewest(s[1..]))
  }

  function ConfigHistory(stored: Option<seq<Change>>): seq<Change> {
    match stored case None => [] case Some(s) => SortNewest(s)
  }

  function CarryOne(c: Change, carry: Carry): Change { Change(c.at, carry(c.note), carry(c.prev)) }

  function CarryAll(s: seq<Change>, carry: Carry): seq<Change> {
    seq(|s|, i requires 0 <= i < |s| => CarryOne(s[i], carry))
  }

  function FirstOf<T>(s: seq<T>, n: nat): seq<T> { if |s| > n then s[..n] else s }

  /** recordConfigChange. An empty file is not worth going back to. */
  function Recorded(stored: Option<seq<Change>>, prev: string, now: int, note: string, write: HistoryWrite,
                    carry: Carry)
    : Option<seq<Change>>
  {
    if prev == "" then stored
    else
      match write
      case Refused => stored
      case Torn => None
      case Lands => Some(CarryAll(FirstOf([Change(now, note, prev)] + ConfigHistory(stored), KEEP), carry))
  }

  // One attempt.

  /** An edit through Save also writes and starts the unit. */
  predicate Saves(f: Faults, viaSave: bool) { viaSave ==> f.unit && f.reload && f.start }

  predicate Accepted(m: Machine, f: Faults, viaSave: bool) {
    m.file.Some? && f.readable && f.write && Saves(f, viaSave) && f.restart && f.up
  }

  /** Whether the service runs after revertSpec: restarted if it was running before the
      edit, stopped if it was not. */
  predicate Reverted(wasActive: bool, f: Faults) { if wasActive then f.back else !f.halts && f.lingers }

  /** What an attempt to put `text` in place leaves behind. */
  function Attempt(m: Machine, text: string, now: int, note: string, viaSave: bool, f: Faults, carry: Carry): Machine {
    if m.file.None? || !f.readable || !f.write then m
    else if Accepted(m, f, viaSave) then
      Machine(Some(text), f.up, Recorded(m.stored, m.file.value, now, note, f.history, carry))
    else
      var file := if f.revert then m.file else Some(text);
      var active :=
        if Saves(f, viaSave) then Reverted(m.active, f)
        else if f.unit && f.reload then f.lingers
        else m.active;
      Machine(file, active, m.stored)
  }

  class Tunnel {
    var file: Option<string>
    var active: bool
    var stored: Option<seq<Change>>

    ghost function View(): Machine
      reads this
    {
      Machine(file, active, stored)
    }

    constructor (file: Option<string>, active: bool, stored: Option<seq<Change>>)
      ensures View() == Machine(file, active, stored)
    {
      this.file, this.active, this.stored := file, active, stored;
    }

    /** WriteFileAtomic: the new content or the old, nothing between. */
    method WriteFile(text: string, lands: bool)
      modifies this`file
      ensures file == if lands then Some(text) else old(file)
    {
      if lands { file := Some(text); }
    }

    /** revertSpec. */
    method RevertSpec(prev: string, wasActive: bool, f: Faults)
      modifies this`file, this`active
      ensures file == (if f.revert then Some(prev) else old(file)) && active == Reverted(wasActive, f)
    {
      WriteFile(prev, f.revert);
      if wasActive { active := f.back; } else { active := !f.halts && f.lingers; }
    }

    method RecordConfigChange(prev: string, now: int, note: string, write: HistoryWrite, carry: Carry)
      modifies this`stored
      ensures stored == Recorded(old(stored), prev, now, note, write, carry)
      ensures prev == "" || write.Refused? ==> stored == old(stored)
      ensures prev != "" && write.Lands? ==>
        var kept := ConfigHistory(old(stored));
        && stored.Some? && |stored.value| == (if |kept| < KEEP then |kept| + 1 else KEEP)
        && stored.value[0] == Change(now, carry(note), carry(prev))
        && forall i :: 0 < i < |stored.value| ==>
             stored.value[i] == Change(kept[i - 1].at, carry(kept[i - 1].note), carry(kept[i - 1].prev))
    {
      if prev == "" { return; }
      var entries := [Change(now, note, prev)] + ConfigHistory(stored);
      if |entries| > KEEP { entries := entries[..KEEP]; }
      match write {
        case Refused => return;
        case Torn => stored := None;
        case Lands => stored := Some(CarryAll(entries, carry));
      }
    }

    /** TunnelSpec.Save as an edit uses it. */
    method Save(text: string, f: Faults) returns (ok: bool)
      modifies this`file, this`active
      ensures ok == (f.write && f.unit && f.reload && f.start)
      ensures file == if f.write then Some(text) else old(file)
      ensures active == if f.write && f.unit && f.reload then f.start || f.lingers else old(active)
    {
      WriteFile(text, f.write);
      if !f.write || !f.unit || !f.reload { return false; }
      active := f.start || f.lingers;
      return f.start;
    }

    method ApplySpec(text: string, now: int, f: Faults, carry: Carry) returns (ok: bool)
      modifies this
      ensures View() == Attempt(old(View()), text, now, "", true, f, carry)
      ensures ok <==> old(file).Some? && f.readable && f.write && f.unit && f.reload && f.start && f.restart && f.up
      ensures ok ==> file == Some(text) && active
      ensures !f.restart || !f.up ==> !ok && stored == old(stored) && (f.revert ==> file == old(file))
    {
      if file.None? || !f.readable { return false; }
      var prev, wasActive := file.value, active;
      ok := Save(text, f);
      if !ok {
        WriteFile(prev, f.revert);
        return;
      }
      if !f.restart {
        RevertSpec(prev, wasActive, f);
        return false;
      }
      active := f.up;
      if !active {
        RevertSpec(prev, wasActive, f);
        return false;
      }
      RecordConfigChange(prev, now, "", f.history, carry);
    }

    method ApplyRawConfig(text: string, now: int, note: string, f: Faults, carry: Carry) returns (ok: bool)
      modifies this
      ensures View() == Attempt(old(View()), text, now, note, false, f, carry)
      ensures ok <==> old(file).Some? && f.readable && f.write && f.restart && f.up
      ensures ok ==> file == Some(text) && active
      ensures !f.restart || !f.up ==> !ok && stored == old(stored) && (f.revert ==> file == old(file))
    {
      if file.None? || !f.readable { return false; }
      var prev, wasActive := file.value, active;
      WriteFile(text, f.write);
      if !f.write {
        WriteFile(prev, f.revert);
        return false;
      }
      if !f.restart {
        RevertSpec(prev, wasActive, f);
        return false;
      }
      active := f.up;
      if !active {
        RevertSpec(prev, wasActive, f);
        return false;
      }
      RecordConfigChange(prev, now, note, f.history, carry);
      return true;
    }

    /** Puts back what was in place before the change made at `at`, if it is kept. */
    method RestoreConfigFrom(at: int, now: int, note: string, f: Faults, carry: Carry) returns (ok: bool)
      modifies this
      ensures var kept := Before(ConfigHistory(old(stored)), at);
        if kept.Some? then
          View() == Attempt(old(View()), kept.value.prev, now, note, false, f, carry) &&
            (ok <==> old(file).Some? && f.readable && f.write && f.restart && f.up) &&
            (ok ==> file == Some(kept.value.prev) && active)
        else View() == old(View()) && !ok
    {
      var h := ConfigHistory(stored);
      var i := 0;
      while i < |h|
        invariant 0 <= i <= |h|
        invariant Before(h, at) == Before(h[i..], at)
      {
        if h[i].at == at {
          ok := ApplyRawConfig(h[i].prev, now, note, f, carry);
          return;
        }
        assert h[i..][1..] == h[i + 1..];
        i := i + 1;
      }
      return false;
    }

    /** When the configuration changed, oldest first, in seconds. */
    method ConfigChangeTimes() returns (out: seq<int>)
      ensures |out| == |ConfigHistory(stored)|
      ensures forall i :: 0 <= i < |out| ==> out[i] == ConfigHistory(stored)[|out| - 1 - i].at / 1_000_000_000
    {
      var h := ConfigHistory(stored);
      out := [];
      var i := |h| - 1;
      while i >= 0
        invariant -1 <= i < |h| && |out| == |h| - 1 - i
        invariant forall k :: 0 <= k < |out| ==> out[k] == h[|h| - 1 - k].at / 1_000_000_000
      {
        out := out + [h[i].at / 1_000_000_000];
        i := i - 1;
      }
    }
  }

  /** The first entry of a moment. */
  function Before(h: seq<Change>, at: int): (c: Option<Change>)
    ensures c.None? <==> forall e <- h :: e.at != at
    ensures c.Some? ==>
      exists i :: 0 <= i < |h| && h[i] == c.value && c.value.at == at && forall j :: 0 <= j < i ==> h[j].at != at
  {
    if h == [] then None else if h[0].at == at then Some(h[0]) else Before(h[1..], at)
  }
}
