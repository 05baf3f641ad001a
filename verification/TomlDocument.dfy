/** A configuration file as the printers build it: comments, one table, and the
    keys of that table, each written or left out. The file read back is a table
    holding exactly the keys that were written. */
module TomlDocument {
  import opened Wrappers
  import opened Toml

  type Settings = map<string, Value>

  // The reader's view of a file.

  /** Keys gather under the latest header. A repeated key or table is refused, as
      TOML v1.0.0 asks in section "Key/Value Pair". */
  function Gather(items: seq<Item>, current: string, tables: map<string, Settings>): Option<map<string, Settings>> {
    if items == [] then Some(tables)
    else
      match items[0]
      case Nothing => Gather(items[1..], current, tables)
      case Header(name) =>
        if name in tables then None else Gather(items[1..], name, tables[name := map[]])
      case Setting(entry) =>
        var have := if current in tables then tables[current] else map[];
        if entry.key in have then None
        else Gather(items[1..], current, tables[current := have[entry.key := entry.value]])
  }

  function ReadFile(toml: Edition, text: string): Option<map<string, Settings>> {
    match ReadAll(toml, text) { case None => None case Some(items) => Gather(items, "", map[]) }
  }

  // The printer's view.

  /** A key that is written when it has a value, or comment lines. */
  datatype Part = Key(key: string, value: Option<Value>, layout: Layout) | Notes(lines: seq<Line>)

  function PartLines(p: Part, column: nat): seq<Line> {
    match p
    case Notes(lines) => lines
    case Key(_, None, _) => []
    case Key(key, Some(v), layout) => [Pair(key, if |key| < column then column - |key| else 0, v, layout)]
  }

  function PartsLines(ps: seq<Part>, column: nat): seq<Line> {
    if ps == [] then [] else PartLines(ps[0], column) + PartsLines(ps[1..], column)
  }

  function PartsText(ps: seq<Part>, column: nat, printable: Printable): string {
    LinesText(PartsLines(ps, column), printable)
  }

  lemma {:induction false} LinesTextJoins(a: seq<Line>, b: seq<Line>, printable: Printable)
    ensures LinesText(a + b, printable) == LinesText(a, printable) + LinesText(b, printable)
  {
    if a == [] {
      assert a + b == b;
    } else {
      assert (a + b)[1..] == a[1..] + b;
      LinesTextJoins(a[1..], b, printable);
    }
  }

  lemma {:induction false} PartsLinesJoin(a: seq<Part>, b: seq<Part>, column: nat)
    ensures PartsLines(a + b, column) == PartsLines(a, column) + PartsLines(b, column)
  {
    if a == [] {
      assert a + b == b;
    } else {
      assert (a + b)[1..] == a[1..] + b;
      PartsLinesJoin(a[1..], b, column);
    }
  }

  lemma PartsTextGrows(ps: seq<Part>, p: Part, column: nat, printable: Printable)
    ensures PartsText(ps + [p], column, printable) ==
            PartsText(ps, column, printable) + LinesText(PartLines(p, column), printable)
  {
    PartsLinesJoin(ps, [p], column);
    LinesTextJoins(PartsLines(ps, column), PartsLines([p], column), printable);
    assert PartsLines([p], column) == PartLines(p, column);
  }

  predicate IsNotes(lines: seq<Line>) {
    forall l <- lines :: l.Blank? || (l.Remark? && IsNote(l.note))
  }

  predicate PartWellFormed(p: Part) {
    match p
    case Notes(lines) => IsNotes(lines)
    case Key(key, value, _) => IsBareKey(key) && (value.Some? ==> InRange(value.value))
  }

  predicate PartsWellFormed(ps: seq<Part>) { forall p <- ps :: PartWellFormed(p) }

  predicate PartsWritable(toml: Edition, ps: seq<Part>) {
    forall p <- ps :: p.Key? && p.value.Some? ==> WritableValue(toml, p.value.value)
  }

  ghost predicate KeysDiffer(ps: seq<Part>) {
    forall i, j :: 0 <= i < j < |ps| && ps[i].Key? && ps[j].Key? ==> ps[i].key != ps[j].key
  }

  function WrittenBy(p: Part): Settings {
    if p.Key? && p.value.Some? then map[p.key := p.value.value] else map[]
  }

  /** The keys that are written, with their values. */
  function Written(ps: seq<Part>): Settings {
    if ps == [] then map[] else WrittenBy(ps[0]) + Written(ps[1..])
  }

  /** What a table says about one key. */
  ghost predicate Agrees(m: Settings, p: Part) {
    p.Key? ==> if p.value.Some? then p.key in m && m[p.key] == p.value.value else p.key !in m
  }

  ghost predicate AgreesWithAll(m: Settings, ps: seq<Part>) { forall p <- ps :: Agrees(m, p) }

  lemma {:induction false} WrittenKeys(ps: seq<Part>, key: string)
    requires key in Written(ps)
    ensures exists p :: p in ps && p.Key? && p.key == key && p.value == Some(Written(ps)[key])
  {
    if key in Written(ps[1..]) {
      WrittenKeys(ps[1..], key);
      var p :| p in ps[1..] && p.Key? && p.key == key && p.value == Some(Written(ps[1..])[key]);
      assert p in ps;
    } else {
      assert ps[0] in ps;
    }
  }

  lemma {:induction false} WrittenAgrees(ps: seq<Part>)
    requires KeysDiffer(ps)
    ensures AgreesWithAll(Written(ps), ps)
  {
    if ps != [] {
      WrittenAgrees(ps[1..]);
      forall p | p in ps ensures Agrees(Written(ps), p) {
        if p in ps[1..] {
          assert Agrees(Written(ps[1..]), p);
          if p.Key? {
            var j :| 0 <= j < |ps[1..]| && ps[1..][j] == p;
            assert ps[j + 1] == p;
          }
        } else {
          assert p == ps[0];
          if p.Key? && p.key in Written(ps[1..]) {
            WrittenKeys(ps[1..], p.key);
          }
        }
      }
    }
  }

  lemma {:induction false} NotesGatherNothing(lines: seq<Line>, more: seq<Item>, current: string,
                                              tables: map<string, Settings>)
    requires IsNotes(lines)
    ensures Gather(ItemsOf(lines) + more, current, tables) == Gather(more, current, tables)
  {
    if lines == [] {
      assert ItemsOf(lines) + more == more;
    } else {
      assert lines[0] in lines;
      assert (ItemsOf(lines) + more)[1..] == ItemsOf(lines[1..]) + more;
      NotesGatherNothing(lines[1..], more, current, tables);
    }
  }

  lemma {:induction false} ItemsJoin(a: seq<Line>, b: seq<Line>)
    ensures ItemsOf(a + b) == ItemsOf(a) + ItemsOf(b)
  {
    if a == [] {
      assert a + b == b;
    } else {
      assert (a + b)[1..] == a[1..] + b;
      ItemsJoin(a[1..], b);
    }
  }

  lemma PartGathers(p: Part, more: seq<Item>, column: nat, current: string, tables: map<string, Settings>)
    requires PartWellFormed(p) && current in tables
    requires p.Key? ==> p.key !in tables[current]
    ensures Gather(ItemsOf(PartLines(p, column)) + more, current, tables) ==
            Gather(more, current, tables[current := tables[current] + WrittenBy(p)])
  {
    if p.Key? && p.value.Some? {
      var item := Setting(Entry(p.key, p.value.value));
      assert ItemsOf(PartLines(p, column)) == [item];
      assert ([item] + more)[1..] == more;
      assert WrittenBy(p) == map[p.key := p.value.value];
      assert tables[current] + WrittenBy(p) == tables[current][p.key := p.value.value];
    } else {
      assert WrittenBy(p) == map[];
      assert tables[current] + map[] == tables[current];
      assert tables[current := tables[current]] == tables;
      if p.Notes? {
        NotesGatherNothing(p.lines, more, current, tables);
      } else {
        assert ItemsOf(PartLines(p, column)) + more == more;
      }
    }
  }

  lemma {:induction false} PartsGather(ps: seq<Part>, column: nat, current: string, tables: map<string, Settings>)
    requires PartsWellFormed(ps) && KeysDiffer(ps)
    requires current in tables
    requires forall p <- ps :: p.Key? ==> p.key !in tables[current]
    ensures Gather(ItemsOf(PartsLines(ps, column)), current, tables) ==
            Some(tables[current := tables[current] + Written(ps)])
  {
    if ps == [] {
      assert tables[current] + Written(ps) == tables[current];
      assert tables[current := tables[current]] == tables;
    } else {
      var p, rest := ps[0], ps[1..];
      var next := tables[current := tables[current] + WrittenBy(p)];
      assert p in ps && PartWellFormed(p);
      assert forall q <- rest :: q in ps;
      ItemsJoin(PartLines(p, column), PartsLines(rest, column));
      PartGathers(p, ItemsOf(PartsLines(rest, column)), column, current, tables);
      KeysStillFree(ps, tables[current]);
      PartsGather(rest, column, current, next);
      WrittenSplits(ps, current, tables);
    }
  }

  lemma KeysStillFree(ps: seq<Part>, have: Settings)
    requires ps != [] && KeysDiffer(ps)
    requires forall p <- ps :: p.Key? ==> p.key !in have
    ensures KeysDiffer(ps[1..])
    ensures forall q <- ps[1..] :: q.Key? ==> q.key !in have + WrittenBy(ps[0])
  {
    assert ps[0] in ps;
    forall q | q in ps[1..] && q.Key? ensures q.key !in have + WrittenBy(ps[0]) {
      var j :| 0 <= j < |ps[1..]| && ps[1..][j] == q;
      assert ps[j + 1] == q && q in ps;
    }
  }

  lemma WrittenSplits(ps: seq<Part>, current: string, tables: map<string, Settings>)
    requires ps != [] && current in tables
    ensures var next := tables[current := tables[current] + WrittenBy(ps[0])];
            next[current := next[current] + Written(ps[1..])] == tables[current := tables[current] + Written(ps)]
  {
    var next := tables[current := tables[current] + WrittenBy(ps[0])];
    assert next[current] + Written(ps[1..]) == tables[current] + Written(ps);
  }

  lemma {:induction false} PartsLinesWellFormed(toml: Edition, ps: seq<Part>, column: nat)
    requires PartsWellFormed(ps)
    ensures forall l <- PartsLines(ps, column) :: WellFormed(l)
    ensures WritableLines(toml, PartsLines(ps, column)) <==> PartsWritable(toml, ps)
  {
    if ps != [] {
      assert forall q <- ps[1..] :: q in ps;
      PartsLinesWellFormed(toml, ps[1..], column);
      assert ps[0] in ps && PartWellFormed(ps[0]);
      var first, others := PartLines(ps[0], column), PartsLines(ps[1..], column);
      assert forall l :: l in first + others <==> l in first || l in others;
      assert forall p :: p in ps <==> p == ps[0] || p in ps[1..];
      if ps[0].Key? && ps[0].value.Some? { assert first[0] in first; }
    }
  }

  /** The whole file: comments, a header, and the table's parts. */
  function FileLines(top: seq<Line>, table: string, ps: seq<Part>, column: nat): seq<Line> {
    top + ([Table(table)] + PartsLines(ps, column))
  }

  lemma FileGathers(top: seq<Line>, table: string, ps: seq<Part>, column: nat)
    requires IsNotes(top) && PartsWellFormed(ps) && KeysDiffer(ps)
    ensures Gather(ItemsOf(FileLines(top, table, ps, column)), "", map[]) == Some(map[table := Written(ps)])
  {
    var body := PartsLines(ps, column);
    ItemsJoin(top, [Table(table)] + body);
    NotesGatherNothing(top, ItemsOf([Table(table)] + body), "", map[]);
    assert ([Table(table)] + body)[1..] == body;
    PartsGather(ps, column, table, map[table := map[]]);
    assert map[] + Written(ps) == Written(ps);
    assert map[table := map[]][table := Written(ps)] == map[table := Written(ps)];
  }

  lemma FileWellFormed(toml: Edition, top: seq<Line>, table: string, ps: seq<Part>, column: nat)
    requires IsNotes(top) && IsBareKey(table) && PartsWellFormed(ps)
    ensures forall l <- FileLines(top, table, ps, column) :: WellFormed(l)
    ensures WritableLines(toml, FileLines(top, table, ps, column)) <==> PartsWritable(toml, ps)
  {
    PartsLinesWellFormed(toml, ps, column);
    var body := PartsLines(ps, column);
    assert forall l :: l in top + ([Table(table)] + body) <==> l in top || l == Table(table) || l in body;
  }

  /** The file reads back as one table of exactly the written keys, when every
      string in it can be spelled in TOML, and does not parse otherwise. */
  lemma FileReadsBack(toml: Edition, top: seq<Line>, table: string, ps: seq<Part>, column: nat, printable: Printable)
    requires IsNotes(top) && IsBareKey(table) && PartsWellFormed(ps) && KeysDiffer(ps)
    ensures ReadFile(toml, LinesText(FileLines(top, table, ps, column), printable)) ==
            if PartsWritable(toml, ps) then Some(map[table := Written(ps)]) else None
  {
    FileWellFormed(toml, top, table, ps, column);
    LinesReadBack(toml, FileLines(top, table, ps, column), printable);
    FileGathers(top, table, ps, column);
  }
}
