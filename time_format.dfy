/** The `mm:ss` text the timer screen shows for a number of seconds. */
module TimeFormat {
  import opened Wrappers
  import opened Text

  /** Swift's `/` on `Int`: the quotient truncated toward zero. */
  function Quot(a: int, b: int): (q: int)
    requires b > 0
    ensures a >= 0 ==> q == a / b
    ensures a < 0 ==> q == -((-a) / b)
  {
    if a >= 0 then a / b else -((-a) / b)
  }

  /** Swift's `%` on `Int`: the remainder takes the sign of the dividend. */
  function Rem(a: int, b: int): (r: int)
    requires b > 0
    ensures a == b * Quot(a, b) + r
    ensures a >= 0 ==> 0 <= r < b
    ensures a < 0 ==> -b < r <= 0
  {
    a - b * Quot(a, b)
  }

  /** `%02d`: at least two characters, zero-padded; a negative number already has two with its sign. */
  function Pad2(n: int): (s: string)
    ensures |s| >= 2
  {
    if 0 <= n < 10 then "0" + NatToString(n)
    else if n >= 0 then NatToString(n)
    else IntToString(n)
  }

  /** `formatTime`. */
  function FormatTime(seconds: int): string {
    Pad2(Quot(seconds, 60)) + ":" + Pad2(Rem(seconds, 60))
  }

  lemma TwoDigits(n: nat)
    requires 10 <= n < 100
    ensures |NatToString(n)| == 2
  {
    assert NatToString(n) == NatToString(n / 10) + [DigitChar(n % 10)];
  }

  lemma Pad2Shape(n: int)
    ensures n < 0 ==> Pad2(n)[0] == '-'
    ensures 0 <= n < 100 ==> |Pad2(n)| == 2 && AllAsciiDigits(Pad2(n))
    ensures n >= 0 ==> AllAsciiDigits(Pad2(n)) && ':' !in Pad2(n)
  {
    if 10 <= n < 100 {
      TwoDigits(n);
    }
  }

  /** Reading a padded field back as a decimal integer gives the number. */
  lemma Pad2Value(n: nat)
    ensures ParseInt(Pad2(n)) == Some(n)
  {
    if n < 10 {
      var d := NatToString(n);
      assert d == [DigitChar(n)];
      assert Pad2(n) == ['0', DigitChar(n)];
      assert Pad2(n)[..1] == ['0'];
      assert DigitsValue(Pad2(n)) == 10 * DigitsValue(['0']) + n;
      assert DigitsValue(['0']) == 10 * DigitsValue([]) + 0;
    } else {
      ParseNatToString(n);
    }
  }

  /**
   * For a non-negative number of seconds the text is the whole minutes, a colon and the
   * remaining seconds (below 60), each at least two digits; below 100 minutes it is exactly
   * five characters.
   */
  lemma FormatTimeFields(seconds: int)
    requires seconds >= 0
    ensures FormatTime(seconds) == Pad2(seconds / 60) + ":" + Pad2(seconds % 60)
    ensures 0 <= seconds % 60 < 60
    ensures seconds < 6000 ==> |FormatTime(seconds)| == 5 && FormatTime(seconds)[2] == ':'
  {
    Pad2Shape(seconds / 60);
    Pad2Shape(seconds % 60);
  }

  /** Splitting the text at the colon and reading minutes * 60 + seconds gives the input back. */
  lemma FormatTimeReadBack(seconds: int)
    requires seconds >= 0
    ensures var fields := Split(FormatTime(seconds), ':');
      |fields| == 2 && ParseInt(fields[0]).Some? && ParseInt(fields[1]).Some?
      && ParseInt(fields[0]).value * 60 + ParseInt(fields[1]).value == seconds
  {
    var m, s := seconds / 60, seconds % 60;
    Pad2Shape(m);
    Pad2Shape(s);
    assert Pad2(m) != [] && Pad2(s) != [];
    assert FormatTime(seconds) == Pad2(m) + [':'] + Pad2(s);
    SplitCons(Pad2(m), ':', Pad2(s));
    SplitWhole(Pad2(s), ':');
    Pad2Value(m);
    Pad2Value(s);
  }

  /**
   * A negative count shows the negated minutes and seconds of its magnitude, so a field
   * is signed only when it is non-zero: -75 shows as "-1:-15", -5 as "00:-5", -60 as "-1:00".
   */
  lemma NegativeFields(seconds: int)
    requires seconds < 0
    ensures FormatTime(seconds) == Pad2(-((-seconds) / 60)) + ":" + Pad2(-((-seconds) % 60))
  {
  }
}
