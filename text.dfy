/**
 * The string operations of Swift and Foundation that the metadata codec and the
 * time formatter use, over Unicode scalar values (`string` is `seq<char>`).
 */
module Text {
  import opened Wrappers

  /** Foundation's `CharacterSet.whitespaces`: tab and the Unicode space separators (category Zs). */
  predicate IsWhitespace(c: char) {
    c == '\t' || c == ' ' || c == '\U{00A0}' || c == '\U{1680}' || ('\U{2000}' <= c <= '\U{200A}')
    || c == '\U{202F}' || c == '\U{205F}' || c == '\U{3000}'
  }

  predicate IsAsciiDigit(c: char) {
    '0' <= c <= '9'
  }

  /**
   * Foundation's `CharacterSet.decimalDigits` (Unicode category Nd): the ASCII digits and the
   * digits of other scripts. The ranges past ASCII listed here are a sample of category Nd.
   */
  predicate IsDecimalDigit(c: char) {
    IsAsciiDigit(c)
    || ('\U{0660}' <= c <= '\U{0669}')   // Arabic-Indic
    || ('\U{06F0}' <= c <= '\U{06F9}')   // Extended Arabic-Indic
    || ('\U{0966}' <= c <= '\U{096F}')   // Devanagari
    || ('\U{FF10}' <= c <= '\U{FF19}')   // Fullwidth
  }

  predicate AllAsciiDigits(s: string) {
    forall i :: 0 <= i < |s| ==> IsAsciiDigit(s[i])
  }

  /** Swift's `hasPrefix`. */
  predicate HasPrefix(s: string, prefix: string) {
    |prefix| <= |s| && s[..|prefix|] == prefix
  }

  // ---------------------------------------------------------------------------
  // Trimming

  function TrimStart(s: string): string {
    if s != [] && IsWhitespace(s[0]) then TrimStart(s[1..]) else s
  }

  function TrimEnd(s: string): string {
    if s != [] && IsWhitespace(s[|s| - 1]) then TrimEnd(s[..|s| - 1]) else s
  }

  /** `trimmingCharacters(in: .whitespaces)`: drops whitespace at both ends. */
  function Trim(s: string): string {
    TrimEnd(TrimStart(s))
  }

  /** A string that neither starts nor ends with whitespace is its own trimmed form. */
  lemma TrimUnchanged(s: string)
    requires s != [] && !IsWhitespace(s[0]) && !IsWhitespace(s[|s| - 1])
    ensures Trim(s) == s
  {
  }

  // ---------------------------------------------------------------------------
  // Splitting and joining

  /**
   * Swift's `split(separator:)`: the maximal runs of `s` between separators, with empty runs
   * omitted.
   */
  function Split(s: string, sep: char): seq<string> {
    SplitAfter(s, sep, [])
  }

  /** Splits `s`, where `run` holds the characters read since the last separator. */
  function SplitAfter(s: string, sep: char, run: string): seq<string>
    decreases |s|
  {
    if s == [] then
      if run == [] then [] else [run]
    else if s[0] == sep then
      (if run == [] then [] else [run]) + SplitAfter(s[1..], sep, [])
    else
      SplitAfter(s[1..], sep, run + [s[0]])
  }

  /** `parts.joined(separator: String(sep))`. */
  function Join(parts: seq<string>, sep: char): string
  {
    if |parts| == 0 then []
    else if |parts| == 1 then parts[0]
    else parts[0] + [sep] + Join(parts[1..], sep)
  }

  lemma {:induction false} SplitAfterRun(a: string, sep: char, run: string)
    requires sep !in a && run + a != []
    ensures SplitAfter(a, sep, run) == [run + a]
    decreases |a|
  {
    if a == [] {
      assert run + a == run;
    } else {
      assert a[0] in a;
      SplitAfterRun(a[1..], sep, run + [a[0]]);
      assert run + [a[0]] + a[1..] == run + a;
    }
  }

  lemma {:induction false} SplitAfterCons(a: string, sep: char, b: string, run: string)
    requires sep !in a && run + a != []
    ensures SplitAfter(a + [sep] + b, sep, run) == [run + a] + Split(b, sep)
    decreases |a|
  {
    var s := a + [sep] + b;
    if a == [] {
      assert run + a == run;
      assert s[1..] == b;
    } else {
      assert a[0] in a;
      assert s[0] == a[0] && s[1..] == a[1..] + [sep] + b;
      SplitAfterCons(a[1..], sep, b, run + [a[0]]);
      assert run + [a[0]] + a[1..] == run + a;
    }
  }

  lemma SplitWhole(s: string, sep: char)
    requires s != [] && sep !in s
    ensures Split(s, sep) == [s]
  {
    SplitAfterRun(s, sep, []);
    assert [] + s == s;
  }

  /** Splitting at the first separator peels off the text before it. */
  lemma SplitCons(a: string, sep: char, b: string)
    requires a != [] && sep !in a
    ensures Split(a + [sep] + b, sep) == [a] + Split(b, sep)
  {
    SplitAfterCons(a, sep, b, []);
    assert [] + a == a;
  }

  /** Joining non-empty, separator-free parts and splitting the result gives the parts back. */
  lemma {:induction false} SplitJoin(parts: seq<string>, sep: char)
    requires forall k :: 0 <= k < |parts| ==> parts[k] != [] && sep !in parts[k]
    ensures Split(Join(parts, sep), sep) == parts
    decreases |parts|
  {
    if |parts| == 0 {
    } else if |parts| == 1 {
      SplitWhole(parts[0], sep);
    } else {
      SplitJoin(parts[1..], sep);
      SplitCons(parts[0], sep, Join(parts[1..], sep));
      assert [parts[0]] + parts[1..] == parts;
    }
  }

  // ---------------------------------------------------------------------------
  // Digits and integers

  /** `s.components(separatedBy: CharacterSet.decimalDigits.inverted).joined()`: the digits of `s`, in order. */
  function KeepDigits(s: string): string {
    if s == [] then []
    else (if IsDecimalDigit(s[0]) then [s[0]] else []) + KeepDigits(s[1..])
  }

  /** What is kept holds only decimal digits, so in particular no sign. */
  lemma {:induction false} KeepDigitsAreDigits(s: string)
    ensures forall i :: 0 <= i < |KeepDigits(s)| ==> IsDecimalDigit(KeepDigits(s)[i])
    decreases |s|
  {
    if s != [] {
      KeepDigitsAreDigits(s[1..]);
    }
  }

  lemma {:induction false} KeepDigitsAppend(a: string, b: string)
    ensures KeepDigits(a + b) == KeepDigits(a) + KeepDigits(b)
    decreases |a|
  {
    if a != [] {
      assert (a + b)[1..] == a[1..] + b;
      KeepDigitsAppend(a[1..], b);
    } else {
      assert a + b == b;
    }
  }

  lemma {:induction false} KeepDigitsOfDigits(s: string)
    requires AllAsciiDigits(s)
    ensures KeepDigits(s) == s
    decreases |s|
  {
    if s != [] {
      KeepDigitsOfDigits(s[1..]);
      assert [s[0]] + s[1..] == s;
    }
  }

  function DigitValue(c: char): nat
    requires IsAsciiDigit(c)
  {
    c as int - '0' as int
  }

  function DigitChar(d: nat): (c: char)
    requires d < 10
    ensures IsAsciiDigit(c) && DigitValue(c) == d
  {
    ('0' as int + d) as char
  }

  /** The value of a string of ASCII digits read in base 10 (leading zeros allowed). */
  function DigitsValue(s: string): nat
    requires AllAsciiDigits(s)
  {
    if s == [] then 0 else 10 * DigitsValue(s[..|s| - 1]) + DigitValue(s[|s| - 1])
  }

  /**
   * Swift's `Int(_ text: String)` in base 10: an optional sign followed by one or more ASCII
   * digits; anything else is nil. (The nil for values beyond 64 bits is not modelled.)
   */
  function ParseInt(s: string): (r: Option<int>)
    ensures r.Some? ==> s != []
    ensures r.Some? && s[0] != '-' ==> r.value >= 0
  {
    if s == [] then None
    else if s[0] == '+' || s[0] == '-' then
      if |s| > 1 && AllAsciiDigits(s[1..]) then
        Some(if s[0] == '-' then -(DigitsValue(s[1..]) as int) else DigitsValue(s[1..]))
      else None
    else if AllAsciiDigits(s) then Some(DigitsValue(s))
    else None
  }

  /** The decimal text of a natural number, with no leading zeros. */
  function NatToString(n: nat): (s: string)
    ensures s != [] && AllAsciiDigits(s)
    ensures |s| == 1 <==> n < 10
  {
    if n < 10 then [DigitChar(n)] else NatToString(n / 10) + [DigitChar(n % 10)]
  }

  /** Reading back the text of a natural number gives the number. */
  lemma {:induction false} NatToStringValue(n: nat)
    ensures DigitsValue(NatToString(n)) == n
    decreases n
  {
    if n >= 10 {
      NatToStringValue(n / 10);
      var s := NatToString(n);
      assert s[..|s| - 1] == NatToString(n / 10);
    }
  }

  lemma ParseNatToString(n: nat)
    ensures ParseInt(NatToString(n)) == Some(n)
  {
    NatToStringValue(n);
  }

  /** Swift's string interpolation of an `Int`. */
  function IntToString(i: int): (s: string)
  {
    if i < 0 then "-" + NatToString(-i) else NatToString(i)
  }

  /** Swift's string interpolation of a `Bool`. */
  function BoolToString(b: bool): string {
    if b then "true" else "false"
  }

  /** Swift's `Bool(_ description: String)`: exactly "true" or "false", anything else is nil. */
  function ParseBool(s: string): (r: Option<bool>)
    ensures r.Some? <==> s == "true" || s == "false"
  {
    if s == "true" then Some(true) else if s == "false" then Some(false) else None
  }

  lemma ParseBoolToString(b: bool)
    ensures ParseBool(BoolToString(b)) == Some(b)
  {
  }
}
