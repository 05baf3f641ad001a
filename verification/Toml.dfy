/** The part of TOML the configuration printers emit: how it is written, a reader for
    it in either edition, v1.0.0 or v1.1.0, and the proof that reading undoes writing. */
module Toml {
  import opened Wrappers
  import opened Decimal

  datatype Value = Str(text: string) | Int(number: int) | Bool(flag: bool) | List(items: seq<string>)

  datatype Entry = Entry(key: string, value: Value)

  /** How a list is laid out: one item a line, or all on one. */
  datatype Layout = Tall | Flat

  datatype Line =
    | Remark(note: string)
    | Blank
    | Table(name: string)
    | Pair(key: string, pad: nat, value: Value, layout: Layout)

  /** The edition a reader follows. What is read here differs only in the escapes a
      basic string may hold: the later has one for the escape character and one of
      two hex digits. */
  datatype Edition = V1_0 | V1_1

  // Strings.

  /** Which characters beyond ASCII Go's strconv.IsPrint accepts. It is a table
      in Go's library, so it is a parameter: nothing below depends on it. */
  type Printable = char -> bool

  function HexDigit(d: nat): char
    requires d < 16
  {
    if d < 10 then '0' + d as char else 'a' + (d - 10) as char
  }

  function HexValue(c: char): Option<nat> {
    if '0' <= c <= '9' then Some(c as int - '0' as int)
    else if 'a' <= c <= 'f' then Some(c as int - 'a' as int + 10)
    else if 'A' <= c <= 'F' then Some(c as int - 'A' as int + 10)
    else None
  }

  function Hex4(n: nat): (s: string)
    requires n < 0x10000
    ensures |s| == 4
  {
    [HexDigit(n / 16 / 16 / 16), HexDigit(n / 16 / 16 % 16), HexDigit(n / 16 % 16), HexDigit(n % 16)]
  }

  function Read4(s: string): Option<nat>
    requires |s| == 4
  {
    var a, b, c, d := HexValue(s[0]), HexValue(s[1]), HexValue(s[2]), HexValue(s[3]);
    if a.Some? && b.Some? && c.Some? && d.Some?
    then Some(16 * (16 * (16 * a.value + b.value) + c.value) + d.value)
    else None
  }

  predicate IsControl(c: char) { c < ' ' || c == '\U{7F}' }

  /** Controls Go escapes in a way TOML has no reading for: \a and \v, and in the older
      edition \x.. too. */
  predicate Unwritable(toml: Edition, c: char) {
    match toml
    case V1_0 => IsControl(c) && c !in {'\U{8}', '\t', '\n', '\U{C}', '\r'}
    case V1_1 => c == '\U{7}' || c == '\U{B}'
  }

  /** strconv.Quote of one character. */
  function Escaped(c: char, printable: Printable): (s: string)
    ensures s != []
  {
    if c == '"' || c == '\\' then ['\\', c]
    else if (if c as int < 0x80 then !IsControl(c) else printable(c)) then [c]
    else if c == '\U{7}' then "\\a"
    else if c == '\U{8}' then "\\b"
    else if c == '\U{C}' then "\\f"
    else if c == '\n' then "\\n"
    else if c == '\r' then "\\r"
    else if c == '\t' then "\\t"
    else if c == '\U{B}' then "\\v"
    else if IsControl(c) then ['\\', 'x', HexDigit(c as int / 16), HexDigit(c as int % 16)]
    else if c as int < 0x10000 then "\\u" + Hex4(c as int)
    else "\\U" + Hex4(c as int / 0x10000) + Hex4(c as int % 0x10000)
  }

  function EscapedAll(s: string, printable: Printable): string {
    if s == [] then [] else Escaped(s[0], printable) + EscapedAll(s[1..], printable)
  }

  function Quoted(s: string, printable: Printable): string {
    "\"" + EscapedAll(s, printable) + "\""
  }

  function ScalarOf(n: nat): Option<char> {
    if n < 0xD800 || 0xE000 <= n < 0x110000 then Some(n as char) else None
  }

  /** The inside of a basic string up to and including its closing quote: the
      text and what follows it. TOML v1.0.0 and v1.1.0, section "String". */
  function ReadBasic(toml: Edition, s: string): (r: Option<(string, string)>)
    ensures r.Some? ==> |r.value.1| < |s|
    decreases |s|
  {
    if s == [] then None
    else if s[0] == '"' then Some(("", s[1..]))
    else if s[0] == '\\' then
      if |s| < 2 then None
      else if s[1] == '"' then Prefix('"', ReadBasic(toml, s[2..]))
      else if s[1] == '\\' then Prefix('\\', ReadBasic(toml, s[2..]))
      else if s[1] == 'b' then Prefix('\U{8}', ReadBasic(toml, s[2..]))
      else if s[1] == 't' then Prefix('\t', ReadBasic(toml, s[2..]))
      else if s[1] == 'n' then Prefix('\n', ReadBasic(toml, s[2..]))
      else if s[1] == 'f' then Prefix('\U{C}', ReadBasic(toml, s[2..]))
      else if s[1] == 'r' then Prefix('\r', ReadBasic(toml, s[2..]))
      else if s[1] == 'u' && |s| >= 6 then
        match Read4(s[2..6])
        case None => None
        case Some(n) => match ScalarOf(n) { case None => None case Some(c) => Prefix(c, ReadBasic(toml, s[6..])) }
      else if s[1] == 'U' && |s| >= 10 then
        match (Read4(s[2..6]), Read4(s[6..10]))
        case (Some(hi), Some(lo)) =>
          (match ScalarOf(hi * 0x10000 + lo) { case None => None case Some(c) => Prefix(c, ReadBasic(toml, s[10..])) })
        case _ => None
      else if toml.V1_1? && s[1] == 'e' then Prefix('\U{1B}', ReadBasic(toml, s[2..]))
      else if toml.V1_1? && s[1] == 'x' && |s| >= 4 then
        match (HexValue(s[2]), HexValue(s[3]))
        case (Some(hi), Some(lo)) => Prefix((16 * hi + lo) as char, ReadBasic(toml, s[4..]))
        case _ => None
      else None
    else if IsControl(s[0]) && s[0] != '\t' then None
    else Prefix(s[0], ReadBasic(toml, s[1..]))
  }

  function Prefix(c: char, r: Option<(string, string)>): Option<(string, string)> {
    match r case None => None case Some((text, rest)) => Some(([c] + text, rest))
  }

  predicate Writable(toml: Edition, s: string) { forall c <- s :: !Unwritable(toml, c) }

  lemma HexDigitReadsBack(d: nat)
    requires d < 16
    ensures HexValue(HexDigit(d)) == Some(d)
  {
  }

  lemma Hex4ReadsBack(n: nat)
    requires n < 0x10000
    ensures Read4(Hex4(n)) == Some(n)
  {
    HexDigitReadsBack(n / 16 / 16 / 16);
    HexDigitReadsBack(n / 16 / 16 % 16);
    HexDigitReadsBack(n / 16 % 16);
    HexDigitReadsBack(n % 16);
  }

  lemma ShortEscapeReadsBack(toml: Edition, c: char, rest: string)
    requires c as int < 0x10000
    ensures ReadBasic(toml, "\\u" + Hex4(c as int) + rest) == Prefix(c, ReadBasic(toml, rest))
  {
    var s := "\\u" + Hex4(c as int) + rest;
    assert s[2..6] == Hex4(c as int) && s[6..] == rest;
    Hex4ReadsBack(c as int);
    hide HexDigit, HexValue, Read4, Hex4;
    assert s[0] == '\\' && s[1] == 'u';
  }

  lemma LongEscapeReadsBack(toml: Edition, c: char, rest: string)
    requires c as int >= 0x10000
    ensures ReadBasic(toml, "\\U" + Hex4(c as int / 0x10000) + Hex4(c as int % 0x10000) + rest) ==
            Prefix(c, ReadBasic(toml, rest))
  {
    var hi, lo := Hex4(c as int / 0x10000), Hex4(c as int % 0x10000);
    var s := "\\U" + hi + lo + rest;
    assert s[2..6] == hi && s[6..10] == lo && s[10..] == rest;
    Hex4ReadsBack(c as int / 0x10000);
    Hex4ReadsBack(c as int % 0x10000);
    hide HexDigit, HexValue, Read4, Hex4;
    assert s[0] == '\\' && s[1] == 'U';
  }

  /** \u and \U escapes, of characters that are no control. */
  lemma WideEscapeReadsBack(toml: Edition, c: char, printable: Printable, rest: string)
    requires c as int >= 0x80 && !printable(c)
    ensures ReadBasic(toml, Escaped(c, printable) + rest) == Prefix(c, ReadBasic(toml, rest))
  {
    hide ReadBasic, Hex4;
    if c as int < 0x10000 {
      ShortEscapeReadsBack(toml, c, rest);
    } else {
      LongEscapeReadsBack(toml, c, rest);
    }
  }

  /** \x escapes, of the controls without a letter of their own. */
  lemma HexEscapeReadsBack(toml: Edition, c: char, printable: Printable, rest: string)
    requires IsControl(c) && c !in {'\U{7}', '\U{8}', '\t', '\n', '\U{B}', '\U{C}', '\r'}
    ensures ReadBasic(toml, Escaped(c, printable) + rest) ==
            if toml.V1_0? then None else Prefix(c, ReadBasic(toml, rest))
  {
    var n, e := c as int, Escaped(c, printable);
    var s := e + rest;
    HexDigitReadsBack(n / 16);
    HexDigitReadsBack(n % 16);
    assert 16 * (n / 16) + n % 16 == n;
    assert e == ['\\', 'x', HexDigit(n / 16), HexDigit(n % 16)];
    assert s[0] == e[0] && s[1] == e[1] && s[2] == e[2] && s[3] == e[3] && s[4..] == rest;
    hide HexDigit, HexValue;
  }

  /** One escaped character is read as that character, or stops the reader. */
  lemma EscapedReadsBack(toml: Edition, c: char, printable: Printable, rest: string)
    ensures ReadBasic(toml, Escaped(c, printable) + rest) ==
            if Unwritable(toml, c) then None else Prefix(c, ReadBasic(toml, rest))
  {
    hide Hex4, Read4, ScalarOf, HexDigit;
    if c as int >= 0x80 && !printable(c) {
      WideEscapeReadsBack(toml, c, printable, rest);
    } else if IsControl(c) && c !in {'\U{7}', '\U{8}', '\t', '\n', '\U{B}', '\U{C}', '\r'} {
      HexEscapeReadsBack(toml, c, printable, rest);
    } else {
      var e := Escaped(c, printable);
      var s := e + rest;
      assert s[..|e|] == e && s[|e|..] == rest;
      assert s[0] == e[0];
      if |e| > 1 { assert s[1] == e[1]; }
    }
  }

  /** A quoted string is read back as itself exactly when none of its characters
      is a control TOML cannot spell the way Go spells it; otherwise the file
      does not parse at all. */
  lemma {:induction false} QuotedReadsBack(toml: Edition, s: string, printable: Printable, rest: string)
    ensures ReadBasic(toml, EscapedAll(s, printable) + "\"" + rest) ==
            if Writable(toml, s) then Some((s, rest)) else None
  {
    if s == [] {
      assert EscapedAll(s, printable) + "\"" + rest == "\"" + rest;
    } else {
      QuotedReadsBack(toml, s[1..], printable, rest);
      var tail := EscapedAll(s[1..], printable) + "\"" + rest;
      EscapedReadsBack(toml, s[0], printable, tail);
      assert EscapedAll(s, printable) + "\"" + rest == Escaped(s[0], printable) + tail;
      assert [s[0]] + s[1..] == s;
      assert Writable(toml, s) <==> !Unwritable(toml, s[0]) && Writable(toml, s[1..]) by {
        assert forall c :: c in s <==> c == s[0] || c in s[1..];
      }
    }
  }

  // Writing.

  function Spaces(n: nat): string { seq(n, _ => ' ') }

  function TallItems(items: seq<string>, printable: Printable): string {
    if items == [] then "" else Spaces(4) + Quoted(items[0], printable) + ",\n" + TallItems(items[1..], printable)
  }

  function FlatItems(items: seq<string>, printable: Printable): string {
    if items == [] then ""
    else if |items| == 1 then Quoted(items[0], printable)
    else Quoted(items[0], printable) + ", " + FlatItems(items[1..], printable)
  }

  function ValueText(v: Value, layout: Layout, printable: Printable): string {
    match v
    case Str(text) => Quoted(text, printable)
    case Int(n) => Integer(n)
    case Bool(b) => if b then "true" else "false"
    case List(items) =>
      if layout.Tall? then "[\n" + TallItems(items, printable) + "]"
      else "[" + FlatItems(items, printable) + "]"
  }

  function LineText(l: Line, printable: Printable): string {
    match l
    case Remark(note) => "#" + note + "\n"
    case Blank => "\n"
    case Table(name) => "[" + name + "]\n"
    case Pair(key, pad, value, layout) => key + Spaces(pad) + " = " + ValueText(value, layout, printable) + "\n"
  }

  function LinesText(ls: seq<Line>, printable: Printable): string {
    if ls == [] then "" else LineText(ls[0], printable) + LinesText(ls[1..], printable)
  }

  // Reading. Each reader takes the text still to be read.

  predicate IsKeyChar(c: char) {
    'a' <= c <= 'z' || 'A' <= c <= 'Z' || IsDigit(c) || c == '_' || c == '-'
  }

  function SkipSpaces(s: string): (r: string)
    ensures |r| <= |s|
  {
    if s != [] && (s[0] == ' ' || s[0] == '\t') then SkipSpaces(s[1..]) else s
  }

  function SkipGaps(s: string): (r: string)
    ensures |r| <= |s|
  {
    if s != [] && s[0] in {' ', '\t', '\n'} then SkipGaps(s[1..]) else s
  }

  function TakeKey(s: string): (r: (string, string))
    ensures r.0 + r.1 == s && |r.1| <= |s|
  {
    if s != [] && IsKeyChar(s[0]) then
      var (taken, rest) := TakeKey(s[1..]);
      ([s[0]] + taken, rest)
    else ([], s)
  }

  function TakeDigits(s: string): (r: (string, string))
    ensures r.0 + r.1 == s && |r.1| <= |s| && AllDigits(r.0)
  {
    if s != [] && IsDigit(s[0]) then
      var (taken, rest) := TakeDigits(s[1..]);
      ([s[0]] + taken, rest)
    else ([], s)
  }

  function ReadKey(s: string): Option<(string, string)> {
    var (key, rest) := TakeKey(s);
    if key == [] then None else Some((key, rest))
  }

  const INT_MIN := -0x8000_0000_0000_0000
  const INT_MAX := 0x7FFF_FFFF_FFFF_FFFF

  function SignedValue(negative: bool, digits: string): (r: Option<int>)
    requires AllDigits(digits)
    ensures r.Some? ==> digits != []
  {
    if digits == [] || (|digits| > 1 && digits[0] == '0') then None
    else
      var size: int := NaturalValue(digits);
      var n := if negative then -size else size;
      if INT_MIN <= n <= INT_MAX then Some(n) else None
  }

  function ReadInt(s: string): (r: Option<(int, string)>)
    ensures r.Some? ==> |r.value.1| < |s|
  {
    var negative := s != [] && s[0] == '-';
    var (digits, rest) := TakeDigits(if negative then s[1..] else s);
    match SignedValue(negative, digits) { case None => None case Some(n) => Some((n, rest)) }
  }

  /** What stands between an opening bracket and its closing one. */
  function ReadItems(toml: Edition, s: string): (r: Option<(seq<string>, string)>)
    ensures r.Some? ==> |r.value.1| < |s|
    decreases |s|
  {
    var t := SkipGaps(s);
    if t == [] then None
    else if t[0] == ']' then Some(([], t[1..]))
    else if t[0] != '"' then None
    else
      match ReadBasic(toml, t[1..])
      case None => None
      case Some((item, rest)) =>
        var u := SkipGaps(rest);
        if u == [] then None
        else if u[0] == ']' then Some(([item], u[1..]))
        else if u[0] != ',' then None
        else
          match ReadItems(toml, u[1..])
          case None => None
          case Some((items, last)) => Some(([item] + items, last))
  }

  function ReadValue(toml: Edition, s: string): (r: Option<(Value, string)>)
    ensures r.Some? ==> |r.value.1| < |s|
  {
    if s == [] then None
    else if s[0] == '"' then
      match ReadBasic(toml, s[1..]) { case None => None case Some((text, rest)) => Some((Str(text), rest)) }
    else if s[0] == '[' then
      match ReadItems(toml, s[1..]) { case None => None case Some((items, rest)) => Some((List(items), rest)) }
    else if "true" <= s then Some((Bool(true), s[4..]))
    else if "false" <= s then Some((Bool(false), s[5..]))
    else match ReadInt(s) { case None => None case Some((n, rest)) => Some((Int(n), rest)) }
  }

  /** A comment runs to the end of its line and holds no control but a tab. */
  function ReadComment(s: string): (r: Option<string>)
    ensures r.Some? ==> |r.value| <= |s|
  {
    if s == [] then Some([])
    else if s[0] == '\n' then Some(s[1..])
    else if IsControl(s[0]) && s[0] != '\t' then None
    else ReadComment(s[1..])
  }

  function ReadLineEnd(s: string): (r: Option<string>)
    ensures r.Some? ==> |r.value| < |s| || s == []
  {
    var t := SkipSpaces(s);
    if t == [] then Some([])
    else if t[0] == '\n' then Some(t[1..])
    else if t[0] == '#' then ReadComment(t[1..])
    else None
  }

  datatype Item = Nothing | Header(name: string) | Setting(entry: Entry)

  function ReadLine(toml: Edition, s: string): (r: Option<(Item, string)>)
    requires s != []
    ensures r.Some? ==> |r.value.1| < |s|
  {
    var t := SkipSpaces(s);
    if t == [] || t[0] == '\n' || t[0] == '#' then
      (match ReadLineEnd(t) { case None => None case Some(rest) => Some((Nothing, rest)) })
    else if t[0] == '[' then
      match ReadKey(t[1..])
      case None => None
      case Some((name, u)) =>
        if u == [] || u[0] != ']' then None
        else match ReadLineEnd(u[1..]) { case None => None case Some(rest) => Some((Header(name), rest)) }
    else
      match ReadKey(t)
      case None => None
      case Some((key, u)) =>
        var w := SkipSpaces(u);
        if w == [] || w[0] != '=' then None
        else
          match ReadValue(toml, SkipSpaces(w[1..]))
          case None => None
          case Some((value, x)) =>
            match ReadLineEnd(x) { case None => None case Some(rest) => Some((Setting(Entry(key, value)), rest)) }
  }

  function ReadAll(toml: Edition, s: string): Option<seq<Item>>
    decreases |s|
  {
    if s == [] then Some([])
    else
      match ReadLine(toml, s)
      case None => None
      case Some((item, rest)) =>
        match ReadAll(toml, rest) { case None => None case Some(items) => Some([item] + items) }
  }

  // Reading undoes writing, line by line.

  predicate IsNote(note: string) { forall c <- note :: !IsControl(c) || c == '\t' }

  predicate IsBareKey(key: string) { key != [] && forall c <- key :: IsKeyChar(c) }

  predicate InRange(v: Value) { v.Int? ==> INT_MIN <= v.number <= INT_MAX }

  predicate WritableAll(toml: Edition, items: seq<string>) { forall item <- items :: Writable(toml, item) }

  predicate WritableValue(toml: Edition, v: Value) {
    match v
    case Str(text) => Writable(toml, text)
    case List(items) => WritableAll(toml, items)
    case _ => true
  }

  predicate WellFormed(l: Line) {
    match l
    case Remark(note) => IsNote(note)
    case Blank => true
    case Table(name) => IsBareKey(name)
    case Pair(key, _, value, _) => IsBareKey(key) && InRange(value)
  }

  function ItemOf(l: Line): Item {
    match l
    case Table(name) => Header(name)
    case Pair(key, _, value, _) => Setting(Entry(key, value))
    case _ => Nothing
  }

  lemma {:induction false} KeyTaken(a: string, b: string)
    requires forall c <- a :: IsKeyChar(c)
    requires b != [] ==> !IsKeyChar(b[0])
    ensures TakeKey(a + b) == (a, b)
  {
    if a == [] {
      assert a + b == b;
    } else {
      assert (a + b)[1..] == a[1..] + b;
      KeyTaken(a[1..], b);
      assert [a[0]] + a[1..] == a;
    }
  }

  lemma {:induction false} DigitsTaken(a: string, b: string)
    requires AllDigits(a)
    requires b != [] ==> !IsDigit(b[0])
    ensures TakeDigits(a + b) == (a, b)
  {
    if a == [] {
      assert a + b == b;
    } else {
      assert (a + b)[1..] == a[1..] + b;
      DigitsTaken(a[1..], b);
      assert [a[0]] + a[1..] == a;
    }
  }

  lemma {:induction false} SpacesSkipped(n: nat, b: string)
    requires b != [] && b[0] != ' ' && b[0] != '\t'
    ensures SkipSpaces(Spaces(n) + b) == b
  {
    if n == 0 {
      assert Spaces(n) + b == b;
    } else {
      assert (Spaces(n) + b)[1..] == Spaces(n - 1) + b;
      SpacesSkipped(n - 1, b);
    }
  }

  lemma SignReadsBack(negative: bool, digits: string, rest: string)
    requires AllDigits(digits) && digits != []
    requires rest != [] ==> !IsDigit(rest[0])
    ensures ReadInt((if negative then "-" + digits else digits) + rest) ==
            match SignedValue(negative, digits) { case None => None case Some(n) => Some((n, rest)) }
  {
    DigitsTaken(digits, rest);
    var s := (if negative then "-" + digits else digits) + rest;
    if negative {
      assert s[0] == '-' && s[1..] == digits + rest;
    } else {
      assert s[0] == digits[0] && digits[0] in digits;
    }
  }

  lemma IntegerReadsBack(n: int, rest: string)
    requires INT_MIN <= n <= INT_MAX
    requires rest != [] ==> !IsDigit(rest[0])
    ensures ReadInt(Integer(n) + rest) == Some((n, rest))
  {
    var size := if n < 0 then -n else n;
    NaturalReadsBack(size);
    assert SignedValue(n < 0, Natural(size)) == Some(n);
    SignReadsBack(n < 0, Natural(size), rest);
  }

  lemma StringReadsBack(toml: Edition, s: string, printable: Printable, rest: string)
    ensures Quoted(s, printable) + rest != [] && (Quoted(s, printable) + rest)[0] == '"'
    ensures ReadBasic(toml, (Quoted(s, printable) + rest)[1..]) == if Writable(toml, s) then Some((s, rest)) else None
  {
    QuotedReadsBack(toml, s, printable, rest);
    assert (Quoted(s, printable) + rest)[1..] == EscapedAll(s, printable) + "\"" + rest;
  }

  lemma {:induction false} GapsSkipped(n: nat, b: string)
    requires b != [] && b[0] !in {' ', '\t', '\n'}
    ensures SkipGaps(Spaces(n) + b) == b
    ensures SkipGaps("\n" + (Spaces(n) + b)) == b
  {
    assert ("\n" + (Spaces(n) + b))[1..] == Spaces(n) + b;
    if n == 0 {
      assert Spaces(n) + b == b;
    } else {
      assert (Spaces(n) + b)[1..] == Spaces(n - 1) + b;
      GapsSkipped(n - 1, b);
    }
  }

  /** One item of a list and the punctuation after it. */
  lemma ItemReadsBack(toml: Edition, s: string, item: string, printable: Printable, tail: string)
    requires SkipGaps(s) == Quoted(item, printable) + tail
    requires tail != [] && tail[0] in {',', ']'}
    ensures ReadItems(toml, s) ==
            if !Writable(toml, item) then None
            else if tail[0] == ']' then Some(([item], tail[1..]))
            else match ReadItems(toml, tail[1..]) {
              case None => None
              case Some((items, last)) => Some(([item] + items, last))
            }
  {
    StringReadsBack(toml, item, printable, tail);
    assert SkipGaps(tail) == tail;
  }

  lemma AllWritable(toml: Edition, items: seq<string>)
    requires items != []
    ensures items == [items[0]] + items[1..]
    ensures WritableAll(toml, items) <==> Writable(toml, items[0]) && WritableAll(toml, items[1..])
  {
    assert forall item :: item in items <==> item == items[0] || item in items[1..];
  }

  lemma NoItemsReadBack(toml: Edition, rest: string)
    ensures ReadItems(toml, "]" + rest) == Some(([], rest))
    ensures ReadItems(toml, "\n" + ("]" + rest)) == Some(([], rest))
  {
    assert ("]" + rest)[1..] == rest;
    assert ("\n" + ("]" + rest))[1..] == "]" + rest;
  }

  lemma TallText(item: string, others: string, end: string)
    ensures "\n" + ((Spaces(4) + item + ",\n" + others) + end) ==
            "\n" + (Spaces(4) + (item + ("," + ("\n" + (others + end)))))
  {
    assert ",\n" == "," + "\n";
  }

  lemma {:induction false} TallItemsReadBack(toml: Edition, items: seq<string>, printable: Printable, rest: string)
    ensures ReadItems(toml, "\n" + (TallItems(items, printable) + ("]" + rest))) ==
            if WritableAll(toml, items) then Some((items, rest)) else None
  {
    if items == [] {
      NoItemsReadBack(toml, rest);
      assert TallItems(items, printable) + ("]" + rest) == "]" + rest;
    } else {
      hide ReadItems, Quoted, SkipGaps, Spaces;
      var tail := "\n" + (TallItems(items[1..], printable) + ("]" + rest));
      var first := Quoted(items[0], printable) + ("," + tail);
      var s := "\n" + (Spaces(4) + first);
      TallText(Quoted(items[0], printable), TallItems(items[1..], printable), "]" + rest);
      TallItemsReadBack(toml, items[1..], printable, rest);
      GapsSkipped(4, first);
      ItemReadsBack(toml, s, items[0], printable, "," + tail);
      assert ("," + tail)[1..] == tail;
      AllWritable(toml, items);
    }
  }

  lemma {:induction false} FlatItemsReadBack(toml: Edition, items: seq<string>, printable: Printable, rest: string)
    ensures ReadItems(toml, FlatItems(items, printable) + ("]" + rest)) ==
            if WritableAll(toml, items) then Some((items, rest)) else None
  {
    if items == [] {
      NoItemsReadBack(toml, rest);
      assert FlatItems(items, printable) + ("]" + rest) == "]" + rest;
    } else {
      FlatTailReadsBack(toml, items, printable, rest, 0);
      assert Spaces(0) + (FlatItems(items, printable) + ("]" + rest)) == FlatItems(items, printable) + ("]" + rest);
    }
  }

  lemma CommaText(item: string, others: string, end: string)
    ensures item + ", " + others + end == item + ("," + (Spaces(1) + (others + end)))
  {
    assert ", " == "," + Spaces(1);
  }

  lemma {:induction false} FlatTailReadsBack(toml: Edition, items: seq<string>, printable: Printable, rest: string,
                                             gap: nat)
    requires items != []
    ensures ReadItems(toml, Spaces(gap) + (FlatItems(items, printable) + ("]" + rest))) ==
            if WritableAll(toml, items) then Some((items, rest)) else None
    decreases |items|
  {
    AllWritable(toml, items);
    var text := FlatItems(items, printable) + ("]" + rest);
    var others := FlatItems(items[1..], printable);
    var next := Spaces(1) + (others + ("]" + rest));
    var tail := if |items| == 1 then "]" + rest else "," + next;
    assert text == Quoted(items[0], printable) + tail by {
      CommaText(Quoted(items[0], printable), others, "]" + rest);
    }
    GapsSkipped(gap, text);
    ItemReadsBack(toml, Spaces(gap) + text, items[0], printable, tail);
    if |items| == 1 {
      assert tail[1..] == rest && items == [items[0]] && WritableAll(toml, []);
    } else {
      assert tail[1..] == next;
      FlatTailReadsBack(toml, items[1..], printable, rest, 1);
    }
  }

  lemma ListReadsBack(toml: Edition, items: seq<string>, layout: Layout, printable: Printable, rest: string)
    ensures ReadValue(toml, ValueText(List(items), layout, printable) + rest) ==
            if WritableValue(toml, List(items)) then Some((List(items), rest)) else None
  {
    var inside := if layout.Tall? then "\n" + (TallItems(items, printable) + ("]" + rest))
                  else FlatItems(items, printable) + ("]" + rest);
    assert ValueText(List(items), layout, printable) + rest == "[" + inside;
    BracketRead(toml, inside);
    if layout.Tall? {
      TallItemsReadBack(toml, items, printable, rest);
    } else {
      FlatItemsReadBack(toml, items, printable, rest);
    }
  }

  lemma BracketRead(toml: Edition, inside: string)
    ensures ReadValue(toml, "[" + inside) ==
            match ReadItems(toml, inside) { case None => None case Some((items, rest)) => Some((List(items), rest)) }
  {
    assert ("[" + inside)[1..] == inside;
  }

  lemma BoolReadsBack(toml: Edition, b: bool, rest: string)
    ensures ReadValue(toml, (if b then "true" else "false") + rest) == Some((Bool(b), rest))
  {
    if b {
      var s := "true" + rest;
      assert s[0] == 't' && s[..4] == "true" && s[4..] == rest;
    } else {
      var s := "false" + rest;
      assert s[0] == 'f' && s[..5] == "false" && s[5..] == rest;
    }
  }

  lemma ValueReadsBack(toml: Edition, v: Value, layout: Layout, printable: Printable, rest: string)
    requires InRange(v)
    requires rest != [] ==> !IsDigit(rest[0])
    ensures ReadValue(toml, ValueText(v, layout, printable) + rest) ==
            if WritableValue(toml, v) then Some((v, rest)) else None
  {
    hide Quoted, ReadBasic, ReadItems, Integer, ReadInt, TallItems, FlatItems;
    var s := ValueText(v, layout, printable) + rest;
    match v
    case Str(text) => StringReadsBack(toml, text, printable, rest);
    case Bool(b) => BoolReadsBack(toml, b, rest);
    case Int(n) =>
      IntegerReadsBack(n, rest);
      assert s[0] == Integer(n)[0];
    case List(items) => ListReadsBack(toml, items, layout, printable, rest);
  }

  lemma ValueStart(v: Value, layout: Layout, printable: Printable)
    ensures var text := ValueText(v, layout, printable); text != [] && text[0] != ' ' && text[0] != '\t'
  {
  }

  lemma {:induction false} NoteReadsBack(note: string, rest: string)
    requires IsNote(note)
    ensures ReadComment(note + ("\n" + rest)) == Some(rest)
  {
    var s := note + ("\n" + rest);
    if note == [] {
      assert s == "\n" + rest;
      assert s[1..] == rest;
    } else {
      assert s[0] == note[0] && note[0] in note;
      assert s[1..] == note[1..] + ("\n" + rest);
      assert forall c <- note[1..] :: c in note;
      NoteReadsBack(note[1..], rest);
    }
  }

  lemma LineEndReadsBack(rest: string)
    ensures ReadLineEnd("\n" + rest) == Some(rest)
  {
    assert ("\n" + rest)[1..] == rest;
  }

  lemma PairText(key: string, pad: nat, value: Value, layout: Layout, printable: Printable, rest: string)
    ensures LineText(Pair(key, pad, value, layout), printable) + rest ==
            key + (Spaces(pad + 1) + ("=" + (Spaces(1) + (ValueText(value, layout, printable) + ("\n" + rest)))))
  {
    hide ValueText;
    assert Spaces(pad) + " = " == Spaces(pad + 1) + ("=" + Spaces(1));
  }

  lemma PairReadsBack(toml: Edition, key: string, pad: nat, value: Value, layout: Layout, printable: Printable,
                      rest: string)
    requires IsBareKey(key) && InRange(value)
    ensures ReadLine(toml, LineText(Pair(key, pad, value, layout), printable) + rest) ==
            if WritableValue(toml, value) then Some((Setting(Entry(key, value)), rest)) else None
  {
    hide ValueText, ReadValue, ReadLineEnd, LineText, TakeKey;
    var v := ValueText(value, layout, printable) + ("\n" + rest);
    var afterSign := Spaces(1) + v;
    var afterKey := Spaces(pad + 1) + ("=" + afterSign);
    var s := key + afterKey;
    PairText(key, pad, value, layout, printable, rest);
    assert s[0] == key[0] && IsKeyChar(key[0]);
    assert SkipSpaces(s) == s;
    KeyTaken(key, afterKey);
    assert ReadKey(s) == Some((key, afterKey));
    SpacesSkipped(pad + 1, "=" + afterSign);
    assert ("=" + afterSign)[1..] == afterSign;
    ValueStart(value, layout, printable);
    assert v[0] == ValueText(value, layout, printable)[0];
    SpacesSkipped(1, v);
    ValueReadsBack(toml, value, layout, printable, "\n" + rest);
    LineEndReadsBack(rest);
  }

  lemma HeaderReadsBack(toml: Edition, name: string, printable: Printable, rest: string)
    requires IsBareKey(name)
    ensures ReadLine(toml, LineText(Table(name), printable) + rest) == Some((Header(name), rest))
  {
    var s := LineText(Table(name), printable) + rest;
    assert s == "[" + (name + ("]" + ("\n" + rest)));
    assert s[1..] == name + ("]" + ("\n" + rest));
    KeyTaken(name, "]" + ("\n" + rest));
    assert ("]" + ("\n" + rest))[1..] == "\n" + rest;
    LineEndReadsBack(rest);
  }

  lemma LineReadsBack(toml: Edition, l: Line, printable: Printable, rest: string)
    requires WellFormed(l)
    ensures LineText(l, printable) + rest != []
    ensures ReadLine(toml, LineText(l, printable) + rest) ==
            if l.Pair? && !WritableValue(toml, l.value) then None else Some((ItemOf(l), rest))
  {
    var s := LineText(l, printable) + rest;
    match l
    case Blank => LineEndReadsBack(rest);
    case Remark(note) =>
      assert s == "#" + (note + ("\n" + rest));
      assert s[1..] == note + ("\n" + rest);
      NoteReadsBack(note, rest);
    case Table(name) => HeaderReadsBack(toml, name, printable, rest);
    case Pair(key, pad, value, layout) => PairReadsBack(toml, key, pad, value, layout, printable, rest);
  }

  predicate WritableLine(toml: Edition, l: Line) { l.Pair? ==> WritableValue(toml, l.value) }

  predicate WritableLines(toml: Edition, ls: seq<Line>) { forall l <- ls :: WritableLine(toml, l) }

  function ItemsOf(ls: seq<Line>): seq<Item> {
    if ls == [] then [] else [ItemOf(ls[0])] + ItemsOf(ls[1..])
  }

  /** A file of well-formed lines is read back as those lines exactly when every
      string in it can be spelled in TOML; one that cannot makes the whole file
      unreadable. */
  lemma {:induction false} LinesReadBack(toml: Edition, ls: seq<Line>, printable: Printable)
    requires forall l <- ls :: WellFormed(l)
    ensures ReadAll(toml, LinesText(ls, printable)) ==
            if WritableLines(toml, ls) then Some(ItemsOf(ls)) else None
  {
    if ls != [] {
      var rest := LinesText(ls[1..], printable);
      LinesReadBack(toml, ls[1..], printable);
      assert ls[0] in ls;
      LineReadsBack(toml, ls[0], printable, rest);
      assert LinesText(ls, printable) == LineText(ls[0], printable) + rest;
      assert WritableLines(toml, ls) <==> WritableLine(toml, ls[0]) && WritableLines(toml, ls[1..]) by {
        assert forall l :: l in ls <==> l == ls[0] || l in ls[1..];
      }
    }
  }
}
