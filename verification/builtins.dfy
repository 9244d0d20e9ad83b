/**
 * The few Python built-ins the client and the entity rely on, as functions on
 * strings and sequences: str.strip/lstrip/rstrip with a character set,
 * str.split with a one-character separator (unbounded and at most once),
 * str() and int() on integers, list.index and list subscription.
 */
module Builtins {
  import opened Wrappers

  /** The characters str.isspace() accepts; str.strip() with no argument removes these. */
  const Whitespace: set<char> := {
    '\t', '\n', '\U{B}', '\U{C}', '\r', '\U{1C}', '\U{1D}', '\U{1E}', '\U{1F}', ' ',
    '\U{85}', '\U{A0}', '\U{1680}',
    '\U{2000}', '\U{2001}', '\U{2002}', '\U{2003}', '\U{2004}', '\U{2005}',
    '\U{2006}', '\U{2007}', '\U{2008}', '\U{2009}', '\U{200A}',
    '\U{2028}', '\U{2029}', '\U{202F}', '\U{205F}', '\U{3000}'
  }

  // ---------------------------------------------------------------------------
  // strip

  /** str.lstrip(cs): s without its leading characters of cs. */
  function LStrip(s: string, cs: set<char>): string
  {
    if s != [] && s[0] in cs then LStrip(s[1..], cs) else s
  }

  /** str.rstrip(cs): s without its trailing characters of cs. */
  function RStrip(s: string, cs: set<char>): string
  {
    if s != [] && s[|s| - 1] in cs then RStrip(s[..|s| - 1], cs) else s
  }

  /** str.strip(cs): s without its leading and trailing characters of cs. */
  function Strip(s: string, cs: set<char>): string
  {
    RStrip(LStrip(s, cs), cs)
  }

  /** lstrip leaves the longest suffix of s that does not start with a character of cs. */
  lemma {:induction false} LStripSpec(s: string, cs: set<char>)
    ensures var r := LStrip(s, cs);
      && |r| <= |s| && r == s[|s| - |r|..]
      && (forall i | 0 <= i < |s| - |r| :: s[i] in cs)
      && (r == [] || r[0] !in cs)
    decreases |s|
  {
    if s != [] && s[0] in cs {
      LStripSpec(s[1..], cs);
    }
  }

  /** rstrip leaves the longest prefix of s that does not end with a character of cs. */
  lemma {:induction false} RStripSpec(s: string, cs: set<char>)
    ensures var r := RStrip(s, cs);
      && |r| <= |s| && r == s[..|r|]
      && (forall i | |r| <= i < |s| :: s[i] in cs)
      && (r == [] || r[|r| - 1] !in cs)
    decreases |s|
  {
    if s != [] && s[|s| - 1] in cs {
      RStripSpec(s[..|s| - 1], cs);
    }
  }

  /** r is the slice of s starting at i, and everything around it is made of cs. */
  ghost predicate StrippedAt(s: string, r: string, cs: set<char>, i: nat)
  {
    && i + |r| <= |s|
    && r == s[i..i + |r|]
    && (forall k | 0 <= k < i :: s[k] in cs)
    && (forall k | i + |r| <= k < |s| :: s[k] in cs)
    && (r == [] || (r[0] !in cs && r[|r| - 1] !in cs))
  }

  /** strip removes a run of cs from each end and nothing else, and leaves alone a string whose ends are not in cs. */
  lemma StripSpec(s: string, cs: set<char>)
    ensures exists i: nat :: StrippedAt(s, Strip(s, cs), cs, i)
    ensures s == [] || (s[0] !in cs && s[|s| - 1] !in cs) ==> Strip(s, cs) == s
  {
    var l := LStrip(s, cs);
    LStripSpec(s, cs);
    RStripSpec(l, cs);
    assert StrippedAt(s, Strip(s, cs), cs, |s| - |l|);
  }

  /** A string str.strip() leaves as it is. */
  ghost predicate Trimmed(s: string)
  {
    Strip(s, Whitespace) == s
  }

  // ---------------------------------------------------------------------------
  // split

  /** sep.join(parts) for a one-character separator. */
  function Join(parts: seq<string>, sep: char): string
    requires |parts| >= 1
    decreases |parts|
  {
    if |parts| == 1 then parts[0] else parts[0] + [sep] + Join(parts[1..], sep)
  }

  /** s.split(sep): the pieces between occurrences of sep, at least one, possibly empty. */
  function Split(s: string, sep: char): (parts: seq<string>)
    ensures |parts| >= 1
    ensures forall i | 0 <= i < |parts| :: sep !in parts[i]
    ensures Join(parts, sep) == s
    decreases |s|
  {
    if s == [] then [[]]
    else
      var rest := Split(s[1..], sep);
      if s[0] == sep then
        assert ([[]] + rest)[1..] == rest;
        [[]] + rest
      else
        var parts := [[s[0]] + rest[0]] + rest[1..];
        assert |rest| > 1 ==> parts[1..] == rest[1..] && Join(rest, sep) == rest[0] + [sep] + Join(rest[1..], sep);
        parts
  }

  /** s.split(sep, 1): the text before the first sep and the text after it, or None when s has no sep. */
  function SplitOnce(s: string, sep: char): (r: Option<(string, string)>)
    ensures r.None? <==> sep !in s
    ensures r.Some? ==> sep !in r.value.0 && r.value.0 + [sep] + r.value.1 == s
  {
    if s == [] then None
    else if s[0] == sep then Some(([], s[1..]))
    else match SplitOnce(s[1..], sep)
      case None => None
      case Some((before, after)) =>
        assert [s[0]] + before + [sep] + after == [s[0]] + (before + [sep] + after);
        Some(([s[0]] + before, after))
  }

  // ---------------------------------------------------------------------------
  // str(int) and int(str)

  predicate IsDigit(c: char)
  {
    '0' <= c <= '9'
  }

  function DigitValue(c: char): nat
    requires IsDigit(c)
  {
    c as int - '0' as int
  }

  function DigitChar(d: nat): (c: char)
    requires d < 10
    ensures IsDigit(c) && DigitValue(c) == d
  {
    "0123456789"[d]
  }

  predicate AllDigits(s: string)
  {
    forall i | 0 <= i < |s| :: IsDigit(s[i])
  }

  /** str(n) for n >= 0: decimal digits, most significant first. */
  function NatToString(n: nat): (s: string)
    ensures s != [] && AllDigits(s)
    decreases n
  {
    if n < 10 then [DigitChar(n)] else NatToString(n / 10) + [DigitChar(n % 10)]
  }

  /** str(i): a '-' in front of the digits of a negative number. */
  function IntToString(i: int): string
  {
    if i < 0 then "-" + NatToString(-i) else NatToString(i)
  }

  /** The value of a string of decimal digits. */
  function ValueOf(ds: string): nat
    requires AllDigits(ds)
    decreases |ds|
  {
    if ds == [] then 0 else ValueOf(ds[..|ds| - 1]) * 10 + DigitValue(ds[|ds| - 1])
  }

  /** The digits of s, without its other characters. */
  function Digits(s: string): (ds: string)
    ensures AllDigits(ds)
    decreases |s|
  {
    if s == [] then []
    else (if IsDigit(s[0]) then [s[0]] else []) + Digits(s[1..])
  }

  /** A numeral int() accepts after the sign: digits, single '_' allowed only between two digits. */
  predicate IsNumeral(s: string)
  {
    && s != []
    && IsDigit(s[0])
    && IsDigit(s[|s| - 1])
    && (forall i | 0 <= i < |s| :: IsDigit(s[i]) || s[i] == '_')
    && (forall i | 0 <= i < |s| - 1 :: s[i] == '_' ==> IsDigit(s[i + 1]))
  }

  /** int() on text without surrounding whitespace: an optional sign, then a numeral. */
  function ParseSigned(t: string): Option<int>
  {
    if t != [] && (t[0] == '+' || t[0] == '-') then
      if IsNumeral(t[1..]) then
        var v: int := ValueOf(Digits(t[1..]));
        Some(if t[0] == '-' then -v else v)
      else None
    else if IsNumeral(t) then Some(ValueOf(Digits(t)))
    else None
  }

  /**
   * The characters int() skips around a numeral: the whitespace of str.isspace()
   * except the ASCII separators U+001C..U+001F, which int() keeps and rejects.
   */
  const IntSpace: set<char> := Whitespace - {'\U{1C}', '\U{1D}', '\U{1E}', '\U{1F}'}

  /** An optional sign followed by a numeral: the text int() accepts once IntSpace is stripped. */
  predicate IsIntLiteral(t: string)
  {
    IsNumeral(t) || (t != [] && (t[0] == '+' || t[0] == '-') && IsNumeral(t[1..]))
  }

  /** int(s) on ASCII digits: surrounding IntSpace is ignored; None stands for the ValueError. */
  function ParseInt(s: string): Option<int>
  {
    ParseSigned(Strip(s, IntSpace))
  }

  /**
   * int(s) succeeds exactly on an optionally signed numeral once IntSpace is
   * stripped, and its value is the numeral's digits read in order, negated
   * after a '-'.
   */
  lemma ParseIntSpec(s: string)
    ensures var t := Strip(s, IntSpace); var r := ParseInt(s);
      && (r.Some? <==> IsIntLiteral(t))
      && (r.Some? ==> r.value == if t[0] == '-' then -(ValueOf(Digits(t)) as int) else ValueOf(Digits(t)))
  {
    var t := Strip(s, IntSpace);
    assert t != [] && !IsDigit(t[0]) ==> Digits(t) == Digits(t[1..]);
  }

  lemma {:induction false} DigitsOfDigits(s: string)
    requires AllDigits(s)
    ensures Digits(s) == s
    decreases |s|
  {
    if s != [] {
      DigitsOfDigits(s[1..]);
      assert [s[0]] + s[1..] == s;
    }
  }

  lemma {:induction false} ValueOfNatToString(n: nat)
    ensures ValueOf(NatToString(n)) == n
    decreases n
  {
    if n >= 10 {
      var ds := NatToString(n);
      assert ds[..|ds| - 1] == NatToString(n / 10);
      ValueOfNatToString(n / 10);
    }
  }

  /** Every whitespace character is a control character, a space, or lies above U+0084. */
  lemma WhitespaceRange(c: char)
    requires c in Whitespace
    ensures c <= ' ' || c >= '\U{85}'
  {
  }

  /** str(i) has no surrounding IntSpace, so int() reads its characters as they are. */
  lemma {:induction false} IntToStringTrimmed(i: int)
    ensures Strip(IntToString(i), IntSpace) == IntToString(i)
  {
    var t := IntToString(i);
    var n: nat := if i < 0 then -i else i;
    assert t[|t| - 1] == NatToString(n)[|NatToString(n)| - 1];
    StripSpec(t, IntSpace);
    if t[0] in IntSpace { WhitespaceRange(t[0]); }
    if t[|t| - 1] in IntSpace { WhitespaceRange(t[|t| - 1]); }
  }

  /** int() of a plain run of digits, with or without a leading '-'. */
  lemma {:induction false} ParseDigits(t: string, ds: string, negative: bool)
    requires ds != [] && AllDigits(ds)
    requires t == if negative then "-" + ds else ds
    ensures ParseSigned(t) == Some(if negative then -(ValueOf(ds) as int) else ValueOf(ds))
  {
    DigitsOfDigits(ds);
    assert IsNumeral(ds);
    if negative {
      assert t[1..] == ds;
    } else {
      assert IsDigit(t[0]);
    }
  }

  /** int(str(i)) == i: the decimal text the client sends reads back as the same integer. */
  lemma {:induction false} ParseIntOfString(i: int)
    ensures ParseInt(IntToString(i)) == Some(i)
  {
    var n: nat := if i < 0 then -i else i;
    var t := IntToString(i);
    assert ParseInt(t) == ParseSigned(t) by {
      IntToStringTrimmed(i);
    }
    assert ParseSigned(t) == Some(i) by {
      ValueOfNatToString(n);
      ParseDigits(t, NatToString(n), i < 0);
    }
  }

  // ---------------------------------------------------------------------------
  // lists

  /** list.index(x): the first position of x, or None for the ValueError raised when x is absent. */
  function IndexOf<T(==)>(xs: seq<T>, x: T): (r: Option<nat>)
    ensures r.None? <==> x !in xs
    ensures r.Some? ==> r.value < |xs| && xs[r.value] == x && x !in xs[..r.value]
  {
    if xs == [] then None
    else if xs[0] == x then Some(0)
    else match IndexOf(xs[1..], x)
      case None => None
      case Some(k) =>
        assert xs[..k + 1] == [xs[0]] + xs[1..][..k];
        Some(k + 1)
  }

  /** xs[i] with Python's negative indices; None for the IndexError. */
  function Subscript<T>(xs: seq<T>, i: int): (r: Option<T>)
    ensures r.Some? <==> -|xs| <= i < |xs|
    ensures r.Some? ==> r.value == xs[i % |xs|]
  {
    if 0 <= i < |xs| then Some(xs[i])
    else if -|xs| <= i < 0 then Some(xs[|xs| + i])
    else None
  }
}
