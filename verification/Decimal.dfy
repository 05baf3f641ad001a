/** Decimal text of whole numbers, as %d writes it, and its reading back. */
module Decimal {
  import opened Wrappers

  predicate IsDigit(c: char) { '0' <= c <= '9' }

  function DigitChar(d: nat): (c: char)
    requires d < 10
    ensures IsDigit(c) && DigitValue(c) == d
  {
    '0' + d as char
  }

  function DigitValue(c: char): (d: nat)
    requires IsDigit(c)
    ensures d < 10 && '0' + d as char == c
  {
    c as int - '0' as int
  }

  predicate AllDigits(s: string) { forall c <- s :: IsDigit(c) }

  function Natural(n: nat): (s: string)
    ensures s != [] && AllDigits(s)
  {
    if n < 10 then [DigitChar(n)] else Natural(n / 10) + [DigitChar(n % 10)]
  }

  function NaturalValue(s: string): nat
    requires AllDigits(s)
  {
    if s == [] then 0 else 10 * NaturalValue(s[..|s| - 1]) + DigitValue(s[|s| - 1])
  }

  lemma {:induction false} NaturalReadsBack(n: nat)
    ensures NaturalValue(Natural(n)) == n
    ensures |Natural(n)| > 1 ==> Natural(n)[0] != '0'
  {
    if n >= 10 {
      NaturalReadsBack(n / 10);
      assert Natural(n)[..|Natural(n)| - 1] == Natural(n / 10);
      if n < 100 { assert Natural(n / 10)[0] == DigitChar(n / 10); }
    }
  }

  lemma NaturalInjective(m: nat, n: nat)
    requires Natural(m) == Natural(n)
    ensures m == n
  {
    NaturalReadsBack(m);
    NaturalReadsBack(n);
  }

  function Integer(n: int): (s: string)
    ensures s != [] && (s[0] == '-' || IsDigit(s[0]))
  {
    if n < 0 then "-" + Natural(-n) else Natural(n)
  }

  /** The eight-byte buffer of cmd/reload.go's itoa, filled from its end. Nine
      digits run off its front, an index out of range at which the Go function panics:
      None. */
  method Itoa(n: int) returns (r: Option<string>)
    ensures n < 0 ==> r == Some("")
    ensures 0 <= n < 100_000_000 ==> r == Some(Natural(n))
    ensures n >= 100_000_000 ==> r == None
  {
    if n == 0 { return Some("0"); }
    var b := new char[8];
    var i, left := 8, n;
    ghost var room := 100_000_000;
    while left > 0
      invariant 0 <= i <= 8
      invariant n < 0 ==> i == 8 && left == n
      invariant n > 0 ==> left >= 0 && (i == 8 ==> left == n)
      invariant n > 0 && left > 0 ==> Natural(n) == Natural(left) + b[i..]
      invariant n > 0 && left == 0 ==> Natural(n) == b[i..]
      invariant room == Room(i) && (n < 100_000_000 ==> left < room) && (n >= 100_000_000 ==> left >= room)
      decreases left
    {
      if i == 0 { return None; }
      i := i - 1;
      b[i] := DigitChar(left % 10);
      assert b[i..] == [DigitChar(left % 10)] + b[i + 1..];
      left, room := left / 10, room / 10;
    }
    assert n < 0 ==> b[i..] == "";
    return Some(b[i..]);
  }

  /** One more than the largest number the first `i` cells can still hold. */
  ghost function Room(i: nat): nat
    requires i <= 8
  {
    if i == 0 then 1 else 10 * Room(i - 1)
  }
}
