/** A table's keys under their own names: written in a fixed order, looked up
    again after reading, and printed one at a time. A table brings its own set of
    names and their spelling. */
module ConfigKeys {
  import opened Wrappers
  import opened Toml
  import opened TomlDocument

  datatype Kind = KText | KNumber | KFlag | KList

  /** Different names are spelled differently, and as TOML bare keys. */
  ghost predicate Spells<N(!new)>(spell: N -> string) {
    && (forall a: N, b: N :: a != b ==> spell(a) != spell(b))
    && (forall n: N :: IsBareKey(spell(n)))
  }

  /** A key with its value, when it is written, or comment lines. */
  datatype Field<N> = Field(name: N, value: Option<Value>, layout: Layout) | Note(lines: seq<Line>)

  function PartOf<N>(f: Field<N>, spell: N -> string): Part {
    match f
    case Note(lines) => Notes(lines)
    case Field(name, value, layout) => Key(spell(name), value, layout)
  }

  function PartsOf<N>(fs: seq<Field<N>>, spell: N -> string): seq<Part> {
    seq(|fs|, i requires 0 <= i < |fs| => PartOf(fs[i], spell))
  }

  function FieldsText<N>(fs: seq<Field<N>>, spell: N -> string, column: nat, printable: Printable): string {
    PartsText(PartsOf(fs, spell), column, printable)
  }

  lemma FieldsTextGrows<N>(fs: seq<Field<N>>, f: Field<N>, spell: N -> string, column: nat, printable: Printable)
    ensures FieldsText(fs + [f], spell, column, printable) ==
            FieldsText(fs, spell, column, printable) + LinesText(PartLines(PartOf(f, spell), column), printable)
  {
    hide LinesText, PartsLines, PartsText;
    PartsTextGrows(PartsOf(fs, spell), PartOf(f, spell), column, printable);
    assert PartsOf(fs + [f], spell) == PartsOf(fs, spell) + [PartOf(f, spell)];
  }

  /** The keys come in strictly growing rank within the given bounds. */
  ghost predicate InOrder<N>(fs: seq<Field<N>>, rank: N -> nat, low: nat, high: nat) {
    && (forall i :: 0 <= i < |fs| && fs[i].Field? ==> low < rank(fs[i].name) <= high)
    && (forall i, j :: 0 <= i < j < |fs| && fs[i].Field? && fs[j].Field? ==> rank(fs[i].name) < rank(fs[j].name))
  }

  lemma OrdersJoin<N>(a: seq<Field<N>>, b: seq<Field<N>>, rank: N -> nat, low: nat, mid: nat, high: nat)
    requires InOrder(a, rank, low, mid) && InOrder(b, rank, mid, high) && low <= mid <= high
    ensures InOrder(a + b, rank, low, high)
  {
  }

  lemma OrderedKeysDiffer<N(!new)>(fs: seq<Field<N>>, spell: N -> string, rank: N -> nat, low: nat, high: nat)
    requires Spells(spell) && InOrder(fs, rank, low, high)
    ensures KeysDiffer(PartsOf(fs, spell))
  {
    var ps := PartsOf(fs, spell);
    forall i, j | 0 <= i < j < |ps| && ps[i].Key? && ps[j].Key? ensures ps[i].key != ps[j].key {
      assert fs[i].name != fs[j].name;
    }
  }

  ghost predicate Sound<N>(fs: seq<Field<N>>) {
    forall f <- fs ::
      match f
      case Note(lines) => IsNotes(lines)
      case Field(_, value, _) => value.Some? ==> InRange(value.value)
  }

  lemma SoundFieldsWellFormed<N(!new)>(fs: seq<Field<N>>, spell: N -> string)
    requires Spells(spell) && Sound(fs)
    ensures PartsWellFormed(PartsOf(fs, spell))
  {
    forall p | p in PartsOf(fs, spell) ensures PartWellFormed(p) {
      var i :| 0 <= i < |fs| && PartsOf(fs, spell)[i] == p;
      assert fs[i] in fs;
      if fs[i].Field? { assert IsBareKey(spell(fs[i].name)); }
    }
  }

  /** Every string among the written values can be spelled in TOML. */
  ghost predicate Spellable<N>(toml: Edition, fs: seq<Field<N>>) {
    forall i :: 0 <= i < |fs| && fs[i].Field? && fs[i].value.Some? ==> WritableValue(toml, fs[i].value.value)
  }

  lemma SpellableFieldsWritable<N>(toml: Edition, fs: seq<Field<N>>, spell: N -> string)
    ensures Spellable(toml, fs) <==> PartsWritable(toml, PartsOf(fs, spell))
  {
    var ps := PartsOf(fs, spell);
    if Spellable(toml, fs) {
      forall p | p in ps && p.Key? && p.value.Some? ensures WritableValue(toml, p.value.value) {
        var i :| 0 <= i < |fs| && ps[i] == p;
        assert fs[i].Field?;
      }
    } else {
      var i :| 0 <= i < |fs| && fs[i].Field? && fs[i].value.Some? && !WritableValue(toml, fs[i].value.value);
      assert ps[i] in ps;
    }
  }

  // Looking a key up in a table that was read.

  function Get(m: Settings, key: string): Option<Value> {
    if key in m then Some(m[key]) else None
  }

  /** The table says of every key in the list what the list says. */
  ghost predicate Says<N>(m: Settings, fs: seq<Field<N>>, spell: N -> string) {
    forall i :: 0 <= i < |fs| && fs[i].Field? ==> Get(m, spell(fs[i].name)) == fs[i].value
  }

  lemma WrittenSays<N>(fs: seq<Field<N>>, spell: N -> string)
    requires KeysDiffer(PartsOf(fs, spell))
    ensures Says(Written(PartsOf(fs, spell)), fs, spell)
  {
    WrittenAgrees(PartsOf(fs, spell));
    forall i | 0 <= i < |fs| && fs[i].Field?
      ensures Get(Written(PartsOf(fs, spell)), spell(fs[i].name)) == fs[i].value
    {
      assert PartsOf(fs, spell)[i] in PartsOf(fs, spell);
      assert Agrees(Written(PartsOf(fs, spell)), PartsOf(fs, spell)[i]);
    }
  }

  lemma SaysSplits<N>(m: Settings, a: seq<Field<N>>, b: seq<Field<N>>, spell: N -> string)
    requires Says(m, a + b, spell)
    ensures Says(m, a, spell) && Says(m, b, spell)
  {
    forall i | 0 <= i < |a| && a[i].Field? ensures Get(m, spell(a[i].name)) == a[i].value {
      assert (a + b)[i] == a[i];
    }
    forall i | 0 <= i < |b| && b[i].Field? ensures Get(m, spell(b[i].name)) == b[i].value {
      assert (a + b)[|a| + i] == b[i];
    }
  }

  lemma SaysOf<N>(m: Settings, fs: seq<Field<N>>, spell: N -> string, i: nat)
    requires Says(m, fs, spell) && i < |fs| && fs[i].Field?
    ensures Get(m, spell(fs[i].name)) == fs[i].value
  {
  }

  // What a struct field is left with after decoding.

  function TextOf(v: Option<Value>): string { match v case Some(Str(text)) => text case _ => "" }

  function FlagOf(v: Option<Value>): bool { match v case Some(Bool(flag)) => flag case _ => false }

  function ListOf(v: Option<Value>): seq<string> { match v case Some(List(items)) => items case _ => [] }

  /** Go's int. */
  type Int64 = n: int | INT_MIN <= n <= INT_MAX

  function Positive(n: Int64): Int64 { if n > 0 then n else 0 }

  function NumberOf(v: Option<Value>): Int64 {
    match v case Some(Int(n)) => if INT_MIN <= n <= INT_MAX then n else 0 case _ => 0
  }

  // A struct field's key, looked up under its own name.

  function Read<N>(m: Settings, spell: N -> string, n: N): Option<Value> { Get(m, spell(n)) }

  function Text<N>(m: Settings, spell: N -> string, n: N): string { TextOf(Read(m, spell, n)) }

  function Number<N>(m: Settings, spell: N -> string, n: N): Int64 { NumberOf(Read(m, spell, n)) }

  function Flag<N>(m: Settings, spell: N -> string, n: N): bool { FlagOf(Read(m, spell, n)) }

  function Items<N>(m: Settings, spell: N -> string, n: N): seq<string> { ListOf(Read(m, spell, n)) }

  predicate HasKind(v: Value, k: Kind) {
    match v
    case Str(_) => k.KText?
    case Int(_) => k.KNumber?
    case Bool(_) => k.KFlag?
    case List(_) => k.KList?
  }

  /** Decoding into a struct refuses a known key whose value is of another type. */
  ghost predicate Decodes<N(!new)>(m: Settings, spell: N -> string, kind: N -> Kind, rank: N -> nat) {
    forall n: N :: rank(n) > 0 && spell(n) in m ==> HasKind(m[spell(n)], kind(n))
  }

  ghost predicate Typed<N>(fs: seq<Field<N>>, kind: N -> Kind) {
    forall i :: 0 <= i < |fs| && fs[i].Field? && fs[i].value.Some? ==> HasKind(fs[i].value.value, kind(fs[i].name))
  }

  lemma WrittenDecodes<N(!new)>(fs: seq<Field<N>>, spell: N -> string, kind: N -> Kind, rank: N -> nat)
    requires Spells(spell) && Typed(fs, kind)
    ensures Decodes(Written(PartsOf(fs, spell)), spell, kind, rank)
  {
    var m := Written(PartsOf(fs, spell));
    forall n: N | spell(n) in m ensures HasKind(m[spell(n)], kind(n)) {
      WrittenKeys(PartsOf(fs, spell), spell(n));
      var p :| p in PartsOf(fs, spell) && p.Key? && p.key == spell(n) && p.value == Some(m[spell(n)]);
      var i :| 0 <= i < |fs| && PartsOf(fs, spell)[i] == p;
      assert fs[i].name == n;
    }
  }

  /** A stretch of a table: in order, of the right types, with numbers in range. */
  ghost predicate Proper<N>(fs: seq<Field<N>>, kind: N -> Kind, rank: N -> nat, low: nat, high: nat) {
    InOrder(fs, rank, low, high) && Typed(fs, kind) && Sound(fs)
  }

  lemma ProperJoin<N>(a: seq<Field<N>>, b: seq<Field<N>>, kind: N -> Kind, rank: N -> nat, low: nat, mid: nat,
                      high: nat)
    requires Proper(a, kind, rank, low, mid) && Proper(b, kind, rank, mid, high) && low <= mid <= high
    ensures Proper(a + b, kind, rank, low, high)
  {
    OrdersJoin(a, b, rank, low, mid, high);
  }

  lemma FieldsFileText<N>(top: seq<Line>, table: string, fs: seq<Field<N>>, spell: N -> string,
                          column: nat, printable: Printable)
    ensures LinesText(top + [Table(table)], printable) + FieldsText(fs, spell, column, printable) ==
            LinesText(FileLines(top, table, PartsOf(fs, spell), column), printable)
  {
    hide LinesText, PartsLines, PartsOf;
    var body := PartsLines(PartsOf(fs, spell), column);
    LinesTextJoins(top + [Table(table)], body, printable);
    assert FileLines(top, table, PartsOf(fs, spell), column) == (top + [Table(table)]) + body;
  }

  /** What a printed file says and how it decodes, once it is read. */
  lemma FieldsSay<N(!new)>(fs: seq<Field<N>>, spell: N -> string, kind: N -> Kind, rank: N -> nat, high: nat)
    requires Spells(spell) && InOrder(fs, rank, 0, high) && Typed(fs, kind)
    ensures Says(Written(PartsOf(fs, spell)), fs, spell)
    ensures Decodes(Written(PartsOf(fs, spell)), spell, kind, rank)
  {
    OrderedKeysDiffer(fs, spell, rank, 0, high);
    WrittenSays(fs, spell);
    WrittenDecodes(fs, spell, kind, rank);
  }

  /** A printed file, read back: one table of exactly the keys written in it, or
      nothing at all when a string cannot be spelled. */
  lemma FieldsReadBack<N(!new)>(toml: Edition, top: seq<Line>, table: string, fs: seq<Field<N>>, spell: N -> string,
                                rank: N -> nat, high: nat, column: nat, printable: Printable)
    requires IsNotes(top) && IsBareKey(table) && Spells(spell)
    requires InOrder(fs, rank, 0, high) && Sound(fs)
    ensures ReadFile(toml, LinesText(top + [Table(table)], printable) + FieldsText(fs, spell, column, printable)) ==
            if Spellable(toml, fs) then Some(map[table := Written(PartsOf(fs, spell))]) else None
  {
    hide FieldsText, ReadFile, Written, LinesText;
    OrderedKeysDiffer(fs, spell, rank, 0, high);
    SoundFieldsWellFormed(fs, spell);
    SpellableFieldsWritable(toml, fs, spell);
    FileReadsBack(toml, top, table, PartsOf(fs, spell), column, printable);
    FieldsFileText(top, table, fs, spell, column, printable);
  }

  /** Two lists of the same keys, whose values differ at most at the named ones. */
  ghost predicate SameBut<N>(a: seq<Field<N>>, b: seq<Field<N>>, keys: N -> bool) {
    |a| == |b| && forall i :: 0 <= i < |a| ==>
      a[i] == b[i] || (a[i].Field? && b[i].Field? && a[i].name == b[i].name && keys(a[i].name))
  }

  lemma SameButJoin<N>(a: seq<Field<N>>, b: seq<Field<N>>, c: seq<Field<N>>, d: seq<Field<N>>, keys: N -> bool)
    requires SameBut(a, b, keys) && SameBut(c, d, keys)
    ensures SameBut(a + c, b + d, keys)
  {
  }

  /** Values that are not text cannot make a file unreadable. */
  lemma SpellableEitherWay<N(!new)>(toml: Edition, a: seq<Field<N>>, b: seq<Field<N>>, keys: N -> bool, kind: N -> Kind)
    requires SameBut(a, b, keys) && Typed(a, kind) && Typed(b, kind)
    requires forall k: N | keys(k) :: kind(k).KNumber? || kind(k).KFlag?
    ensures Spellable(toml, a) <==> Spellable(toml, b)
  {
    forall i | 0 <= i < |a| && a[i] != b[i]
      ensures a[i].value.Some? ==> WritableValue(toml, a[i].value.value)
      ensures b[i].value.Some? ==> WritableValue(toml, b[i].value.value)
    {
      assert kind(a[i].name).KNumber? || kind(a[i].name).KFlag?;
    }
  }

  /** Then the written tables agree on every other key. */
  lemma {:induction false} OnlyTheseChange<N(!new)>(a: seq<Field<N>>, b: seq<Field<N>>, keys: N -> bool,
                                                    spell: N -> string, other: N)
    requires Spells(spell) && SameBut(a, b, keys) && !keys(other)
    ensures Get(Written(PartsOf(a, spell)), spell(other)) == Get(Written(PartsOf(b, spell)), spell(other))
  {
    if a != [] {
      OnlyTheseChange(a[1..], b[1..], keys, spell, other);
      assert PartsOf(a, spell)[1..] == PartsOf(a[1..], spell) && PartsOf(b, spell)[1..] == PartsOf(b[1..], spell);
      if a[0] != b[0] { assert spell(a[0].name) != spell(other); }
    }
  }

  // The printer's text, one write at a time.

  class Builder<N> {
    const spell: N -> string
    const column: nat
    const printable: Printable
    var text: string
    /** What has been written, and what was left out. */
    ghost var fields: seq<Field<N>>
    ghost const start: string

    ghost predicate Valid()
      reads this
    {
      text == start + FieldsText(fields, spell, column, printable)
    }

    constructor (spell: N -> string, column: nat, printable: Printable, start: string)
      ensures Valid() && fields == [] && this.spell == spell
      ensures this.column == column && this.printable == printable && this.start == start
    {
      this.spell, this.column, this.printable, this.start := spell, column, printable, start;
      text, fields := start, [];
    }

    method Write(f: Field<N>)
      requires Valid()
      modifies this
      ensures Valid() && fields == old(fields) + [f]
    {
      hide FieldsText, LinesText;
      FieldsTextGrows(fields, f, spell, column, printable);
      text := text + LinesText(PartLines(PartOf(f, spell), column), printable);
      fields := fields + [f];
    }

    /** `p("name = ...", value)`. */
    method P(name: N, value: Value)
      requires Valid()
      modifies this
      ensures Valid() && fields == old(fields) + [Field(name, Some(value), Tall)]
    {
      Write(Field(name, Some(value), Tall));
    }

    /** The same under an `if`. */
    method If(guard: bool, name: N, value: Value)
      requires Valid()
      modifies this
      ensures Valid() && fields == old(fields) + [When(guard, name, value)]
    {
      Write(When(guard, name, value));
    }
  }

  predicate Given(text: string) { text != "" }

  predicate Listed(items: seq<string>) { items != [] }

  /** A key written only under a condition. */
  function When<N>(guard: bool, name: N, value: Value): Field<N> {
    Field(name, if guard then Some(value) else None, Tall)
  }

  function FlatWhen<N>(guard: bool, name: N, value: Value): Field<N> {
    Field(name, if guard then Some(value) else None, Flat)
  }

  function Always<N>(name: N, value: Value): Field<N> { Field(name, Some(value), Tall) }
}
