/** Failure-compatible wrappers used for the error paths of the model. */
module Results {

  datatype Option<+T> = None | Some(value: T)

  datatype Result<+T, +E> = Success(value: T) | Failure(error: E)

  /** An operation that either completes or raises an error, returning nothing. */
  datatype Outcome<+E> = Pass | Fail(error: E)
}

/**
 * The textual conversions the program relies on: Python's `str()` of an
 * integer, joining columns with single spaces (and splitting them again, as a
 * reader of the log would), and the `"{:2}"` right-aligned field.
 */
module Text {

  predicate IsDigit(c: char) {
    '0' <= c <= '9'
  }

  function DigitChar(d: int): (c: char)
    requires 0 <= d < 10
    ensures IsDigit(c)
  {
    ('0' as int + d) as char
  }

  function DigitValue(c: char): (d: int)
    requires IsDigit(c)
    ensures 0 <= d < 10
  {
    c as int - '0' as int
  }

  /** Decimal digits of `n`, most significant first, without leading zeros. */
  function NatToString(n: nat): (s: string)
    ensures |s| > 0
    ensures forall i :: 0 <= i < |s| ==> IsDigit(s[i])
  {
    if n < 10 then [DigitChar(n)] else NatToString(n / 10) + [DigitChar(n % 10)]
  }

  /** Python's `str(n)` for an integer `n`. */
  function IntToString(n: int): (s: string)
    ensures |s| > 0
    ensures ' ' !in s
  {
    if n < 0 then "-" + NatToString(-n) else NatToString(n)
  }

  /** Reads back a string of decimal digits. */
  function ParseNat(s: string): (n: nat)
    requires forall i :: 0 <= i < |s| ==> IsDigit(s[i])
  {
    if s == [] then 0 else 10 * ParseNat(s[..|s| - 1]) + DigitValue(s[|s| - 1])
  }

  /** Reads back an optionally negative decimal integer. */
  function ParseInt(s: string): int
    requires |s| > 0
    requires s[0] == '-' ==> |s| > 1
    requires forall i :: 0 <= i < |s| ==> IsDigit(s[i]) || (i == 0 && s[i] == '-')
  {
    if s[0] == '-' then -(ParseNat(s[1..]) as int) else ParseNat(s)
  }

  lemma {:induction false} NatToStringRoundTrip(n: nat)
    ensures ParseNat(NatToString(n)) == n
  {
    if n >= 10 {
      var s := NatToString(n);
      assert s[..|s| - 1] == NatToString(n / 10);
      NatToStringRoundTrip(n / 10);
    }
  }

  /** The rendering of an integer column is lossless. */
  lemma IntToStringRoundTrip(n: int)
    ensures var s := IntToString(n);
      && (s[0] == '-' ==> |s| > 1)
      && (forall i :: 0 <= i < |s| ==> IsDigit(s[i]) || (i == 0 && s[i] == '-'))
      && ParseInt(s) == n
  {
    var s := IntToString(n);
    if n < 0 {
      assert s[1..] == NatToString(-n);
      NatToStringRoundTrip(-n);
    } else {
      NatToStringRoundTrip(n);
    }
  }

  /** Columns separated by single spaces, no trailing separator. */
  function Join(cols: seq<string>): string
  {
    if cols == [] then ""
    else if |cols| == 1 then cols[0]
    else cols[0] + " " + Join(cols[1..])
  }

  /** Python's `s.split(" ")`: every single space separates two fields. */
  function Split(s: string): (cols: seq<string>)
    ensures |cols| > 0
  {
    if s == [] then [""]
    else
      var rest := Split(s[1..]);
      if s[0] == ' ' then [""] + rest else [[s[0]] + rest[0]] + rest[1..]
  }

  predicate NoSpaces(cols: seq<string>) {
    forall k :: 0 <= k < |cols| ==> ' ' !in cols[k]
  }

  lemma {:induction false} SplitWord(c: string)
    requires ' ' !in c
    ensures Split(c) == [c]
  {
    if c != [] {
      SplitWord(c[1..]);
      assert [c[0]] + c[1..] == c;
    }
  }

  lemma {:induction false} SplitSeparated(c: string, rest: string)
    requires ' ' !in c
    ensures Split(c + " " + rest) == [c] + Split(rest)
  {
    var s := c + " " + rest;
    if c == [] {
      assert s == " " + rest;
      assert s[1..] == rest;
    } else {
      assert s[1..] == c[1..] + " " + rest;
      SplitSeparated(c[1..], rest);
      assert [c[0]] + c[1..] == c;
    }
  }

  /** Splitting a joined line on spaces gives back its columns. */
  lemma {:induction false} SplitJoin(cols: seq<string>)
    requires |cols| > 0
    requires NoSpaces(cols)
    ensures Split(Join(cols)) == cols
  {
    if |cols| == 1 {
      SplitWord(cols[0]);
    } else {
      SplitSeparated(cols[0], Join(cols[1..]));
      SplitJoin(cols[1..]);
      assert [cols[0]] + cols[1..] == cols;
    }
  }

  /** Python's `"{:2}".format(n)` for an integer: right-aligned in two characters. */
  function Pad2(s: string): (r: string)
    ensures |r| == if |s| < 2 then 2 else |s|
    ensures r[|r| - |s|..] == s
    ensures forall i :: 0 <= i < |r| - |s| ==> r[i] == ' '
  {
    if |s| < 2 then seq(2 - |s|, _ => ' ') + s else s
  }
}
