/** The string helpers of Go's library the tunnels' settings pass through. */
module GoText {
  predicate IsSpace(c: char) {
    c in {'\t', '\n', '\U{B}', '\U{C}', '\r', ' ', '\U{85}', '\U{A0}', '\U{1680}', '\U{2028}', '\U{2029}',
          '\U{202F}', '\U{205F}', '\U{3000}'}
    || '\U{2000}' <= c <= '\U{200A}'
  }

  function TrimLeft(s: string): string {
    if s != [] && IsSpace(s[0]) then TrimLeft(s[1..]) else s
  }

  function TrimRight(s: string): string {
    if s != [] && IsSpace(s[|s| - 1]) then TrimRight(s[..|s| - 1]) else s
  }

  /** strings.TrimSpace. */
  function Trim(s: string): string { TrimRight(TrimLeft(s)) }

  predicate Tight(s: string) { s == [] || (!IsSpace(s[0]) && !IsSpace(s[|s| - 1])) }

  lemma {:induction false} TrimLeftTight(s: string)
    ensures TrimLeft(s) == [] || !IsSpace(TrimLeft(s)[0])
  {
    if s != [] && IsSpace(s[0]) { TrimLeftTight(s[1..]); }
  }

  lemma {:induction false} TrimRightTight(s: string)
    requires s == [] || !IsSpace(s[0])
    ensures Tight(TrimRight(s))
  {
    if s != [] && IsSpace(s[|s| - 1]) { TrimRightTight(s[..|s| - 1]); }
  }

  /** What was trimmed once is left alone by a second trimming, and trimming
      leaves alone exactly what has no space at either end. */
  lemma TrimIsTight(s: string)
    ensures Tight(Trim(s)) && Trim(Trim(s)) == Trim(s)
    ensures Trim(s) == s <==> Tight(s)
  {
    TrimLeftTight(s);
    TrimRightTight(TrimLeft(s));
  }

  /** What trimming cuts off is space at either end and nothing else. */
  lemma TrimCutsSpaces(s: string) returns (before: string, after: string)
    ensures s == before + Trim(s) + after && (forall c <- before + after :: IsSpace(c))
  {
    var t := TrimLeft(s);
    before := LeftCut(s);
    after := RightCut(t);
    assert s == before + (Trim(s) + after);
  }

  lemma {:induction false} LeftCut(s: string) returns (cut: string)
    ensures s == cut + TrimLeft(s) && forall c <- cut :: IsSpace(c)
  {
    if s != [] && IsSpace(s[0]) {
      var rest := LeftCut(s[1..]);
      cut := [s[0]] + rest;
    } else {
      cut := [];
    }
  }

  lemma {:induction false} RightCut(s: string) returns (cut: string)
    ensures s == TrimRight(s) + cut && forall c <- cut :: IsSpace(c)
  {
    if s != [] && IsSpace(s[|s| - 1]) {
      var rest := RightCut(s[..|s| - 1]);
      cut := rest + [s[|s| - 1]];
      assert s == s[..|s| - 1] + [s[|s| - 1]];
    } else {
      cut := [];
    }
  }

  /** The characters strings.EqualFold takes for a lower-case ASCII letter. */
  function Fold(c: char): char {
    if 'A' <= c <= 'Z' then c - 'A' + 'a'
    else if c == '\U{17F}' then 's'
    else if c == '\U{212A}' then 'k'
    else c
  }

  /** strings.EqualFold against lower-case ASCII text. */
  predicate FoldsTo(s: string, lower: string) {
    |s| == |lower| && forall i :: 0 <= i < |s| ==> Fold(s[i]) == lower[i]
  }

  function LastIndex(s: string, c: char): (r: int)
    ensures -1 <= r < |s|
    ensures r >= 0 ==> s[r] == c && c !in s[r + 1..]
    ensures r < 0 ==> c !in s
  {
    if s == [] then -1 else if s[|s| - 1] == c then |s| - 1 else LastIndex(s[..|s| - 1], c)
  }

  function FirstIndex(s: string, c: char): (r: int)
    ensures -1 <= r < |s|
    ensures r >= 0 ==> s[r] == c && c !in s[..r]
    ensures r < 0 ==> c !in s
  {
    if s == [] then -1 else if s[0] == c then 0
    else
      var r := FirstIndex(s[1..], c);
      if r < 0 then -1 else r + 1
  }

  lemma FirstIndexIs(s: string, c: char, i: nat)
    requires i < |s| && s[i] == c && c !in s[..i]
    ensures FirstIndex(s, c) == i
  {
    assert forall r :: 0 <= r < i ==> s[..i][r] == s[r];
  }

  /** strings.ToLower; beyond ASCII it is a table of Go's, a parameter here. */
  function Lower(s: string, beyond: char -> char): string {
    seq(|s|, i requires 0 <= i < |s| => LowerChar(s[i], beyond))
  }

  function LowerChar(c: char, beyond: char -> char): char {
    if 'A' <= c <= 'Z' then c - 'A' + 'a' else if c as int < 0x80 then c else beyond(c)
  }

  function OrDefault(v: string, other: string): string { if v == "" then other else v }

  function Trimmed(items: seq<string>): seq<string> { seq(|items|, i requires 0 <= i < |items| => Trim(items[i])) }

  lemma TrimmedTwice(items: seq<string>)
    ensures Trimmed(Trimmed(items)) == Trimmed(items)
  {
    forall i | 0 <= i < |items| ensures Trimmed(Trimmed(items))[i] == Trimmed(items)[i] { TrimIsTight(items[i]); }
  }
}
