/** The few pieces of .NET string handling the core relies on: `Char.IsWhiteSpace` and
    `String.Trim`, decimal digits as `ulong.ToString()` prints them and `ulong.TryParse` reads
    them, and `String.Split` on one separator character. */
module Text {
  import opened Numerics
  import opened Wrappers
  import opened Seqs

  /** `Char.IsWhiteSpace`: the characters `String.Trim()` strips. */
  predicate IsWhiteSpace(c: char) {
    c == ' ' || ('\t' <= c <= '\r') || c == '\U{85}' || c == '\U{A0}' || c == '\U{1680}' ||
    ('\U{2000}' <= c <= '\U{200A}') || c == '\U{2028}' || c == '\U{2029}' || c == '\U{202F}' ||
    c == '\U{205F}' || c == '\U{3000}'
  }

  /** The white space `NumberStyles.Integer` lets `ulong.TryParse` skip around a number. */
  predicate IsNumberWhite(c: char) {
    c == ' ' || ('\t' <= c <= '\r')
  }

  /** `s` with its leading `white` characters removed. */
  function TrimStart(s: string, white: char -> bool): (r: string)
    ensures |r| <= |s| && r == s[|s| - |r|..]
    ensures forall i :: 0 <= i < |s| - |r| ==> white(s[i])
    ensures r == [] || !white(r[0])
    decreases |s|
  {
    if s != [] && white(s[0]) then TrimStart(s[1..], white) else s
  }

  /** `s` with its trailing `white` characters removed. */
  function TrimEnd(s: string, white: char -> bool): (r: string)
    ensures |r| <= |s| && r == s[..|r|]
    ensures forall i :: |r| <= i < |s| ==> white(s[i])
    ensures r == [] || !white(r[|r| - 1])
    decreases |s|
  {
    if s != [] && white(s[|s| - 1]) then TrimEnd(s[..|s| - 1], white) else s
  }

  /** `String.Trim` (with `IsWhiteSpace`): the middle of `s` between its white ends. */
  function Trim(s: string, white: char -> bool): (r: string)
    ensures r == [] || (!white(r[0]) && !white(r[|r| - 1]))
    ensures var k := |s| - |TrimStart(s, white)|;
      k + |r| <= |s| && r == s[k..k + |r|] &&
      (forall i :: 0 <= i < k ==> white(s[i])) &&
      (forall i :: k + |r| <= i < |s| ==> white(s[i]))
  {
    TrimEnd(TrimStart(s, white), white)
  }

  /** A string whose ends are not white is its own trim. */
  lemma TrimUnchanged(s: string, white: char -> bool)
    requires s == [] || (!white(s[0]) && !white(s[|s| - 1]))
    ensures Trim(s, white) == s
  {
  }

  predicate IsDigit(c: char) {
    '0' <= c <= '9'
  }

  predicate AllDigits(s: string) {
    forall i :: 0 <= i < |s| ==> IsDigit(s[i])
  }

  function DigitChar(d: nat): (c: char)
    requires d < 10
    ensures IsDigit(c)
  {
    ('0' as int + d) as char
  }

  /** The number a run of decimal digits denotes, most significant first. */
  function DigitsValue(s: string): nat
    requires AllDigits(s)
    decreases |s|
  {
    if s == [] then 0
    else DigitsValue(DropLast(s)) * 10 + (Last(s) as int - '0' as int)
  }

  /** `ulong.ToString()`: the decimal digits of `n`, without leading zeros. */
  function Decimal(n: nat): (r: string)
    ensures |r| >= 1 && AllDigits(r)
    ensures DigitsValue(r) == n
    ensures r[0] == '0' ==> r == "0"
    decreases n
  {
    if n < 10 then [DigitChar(n)]
    else
      var r := Decimal(n / 10) + [DigitChar(n % 10)];
      assert DropLast(r) == Decimal(n / 10);
      r
  }

  /** `ulong.TryParse(s, out v)` with `NumberStyles.Integer`: optional white space around an
      optional sign and at least one digit. The value must fit 64 bits, and a minus sign is
      accepted only in front of zero. */
  function ParseULong(s: string): (r: Option<ULong>)
    ensures r.Some? ==> exists i :: 0 <= i < |s| && IsDigit(s[i])
  {
    var t := Trim(s, IsNumberWhite);
    var negative := t != [] && t[0] == '-';
    var body := if t != [] && (t[0] == '-' || t[0] == '+') then t[1..] else t;
    if body == [] || !AllDigits(body) then None
    else
      var v := DigitsValue(body);
      assert IsDigit(t[|t| - 1]);
      if v >= TWO_TO_THE_64 || (negative && v != 0) then None else Some(v)
  }

  /** What `ulong.ToString()` prints, `ulong.TryParse` reads back. */
  lemma ParseDecimal(n: ULong)
    ensures ParseULong(Decimal(n)) == Some(n)
  {
    var r := Decimal(n);
    TrimUnchanged(r, IsNumberWhite);
  }

  /** A decimal number too wide for 64 bits is refused. */
  lemma ParseDecimalOverflow(n: nat)
    requires n >= TWO_TO_THE_64
    ensures ParseULong(Decimal(n)) == None
  {
    TrimUnchanged(Decimal(n), IsNumberWhite);
  }

  /** A minus sign is accepted only in front of zero. */
  lemma ParseMinus(n: nat)
    ensures ParseULong("-" + Decimal(n)) == if n == 0 then Some(0) else None
  {
    var d := Decimal(n);
    var t := "-" + d;
    assert t[0] == '-' && t[|t| - 1] == d[|d| - 1];
    TrimUnchanged(t, IsNumberWhite);
    assert t[1..] == d;
  }

  /** `s.Split(sep)`: the pieces between the separators, empty pieces included. */
  function Split(s: string, sep: char): (r: seq<string>)
    ensures |r| >= 1
    ensures forall i :: 0 <= i < |r| ==> sep !in r[i]
    decreases |s|
  {
    if s == [] then [[]]
    else
      assert s == [s[0]] + s[1..];
      var rest := Split(s[1..], sep);
      if s[0] == sep then [[]] + rest
      else [[s[0]] + rest[0]] + rest[1..]
  }

  /** One piece more than there are separators. */
  lemma {:induction false} SplitCount(s: string, sep: char)
    ensures |Split(s, sep)| == multiset(s)[sep] + 1
    decreases |s|
  {
    if s != [] {
      assert s == [s[0]] + s[1..];
      assert multiset(s) == multiset{s[0]} + multiset(s[1..]);
      SplitCount(s[1..], sep);
    }
  }

  /** `String.Join(sep, pieces)`, the inverse of `Split`. */
  function Join(pieces: seq<string>, sep: char): string
    requires |pieces| >= 1
    decreases |pieces|
  {
    if |pieces| == 1 then pieces[0] else pieces[0] + [sep] + Join(pieces[1..], sep)
  }

  lemma {:induction false} SplitJoin(s: string, sep: char)
    ensures Join(Split(s, sep), sep) == s
    decreases |s|
  {
    if s != [] {
      SplitJoin(s[1..], sep);
      assert s == [s[0]] + s[1..];
      SplitCons(s[0], s[1..], sep);
      var rest := Split(s[1..], sep);
      var r := Split(s, sep);
      if s[0] == sep {
        assert Join(r, sep) == [] + [sep] + Join(rest, sep);
      } else if |rest| > 1 {
        assert r[1..] == rest[1..];
        assert Join(r, sep) == [s[0]] + rest[0] + [sep] + Join(rest[1..], sep);
      }
    }
  }

  lemma SplitCons(c: char, s: string, sep: char)
    ensures Split([c] + s, sep) ==
      if c == sep then [[]] + Split(s, sep)
      else [[c] + Split(s, sep)[0]] + Split(s, sep)[1..]
  {
    assert ([c] + s)[1..] == s;
  }

  /** A string without the separator is one piece. */
  lemma {:induction false} SplitNoSeparator(s: string, sep: char)
    requires sep !in s
    ensures Split(s, sep) == [s]
    decreases |s|
  {
    if s != [] {
      assert s == [s[0]] + s[1..];
      SplitNoSeparator(s[1..], sep);
      SplitCons(s[0], s[1..], sep);
    }
  }

  /** A separator-free prefix followed by the separator is the first piece. */
  lemma {:induction false} SplitFirstPiece(a: string, b: string, sep: char)
    requires sep !in a
    ensures Split(a + [sep] + b, sep) == [a] + Split(b, sep)
    decreases |a|
  {
    if a == [] {
      assert a + [sep] + b == [sep] + b;
      SplitCons(sep, b, sep);
    } else {
      var tail := a[1..] + [sep] + b;
      assert a + [sep] + b == [a[0]] + tail;
      SplitFirstPiece(a[1..], b, sep);
      SplitCons(a[0], tail, sep);
      assert [a[0]] + a[1..] == a;
    }
  }
}
