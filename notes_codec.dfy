/**
 * The metadata that the app keeps in a reminder's free-text notes: estimate, remaining
 * minutes and the active flag, written as four human-readable lines and read back line by
 * line. RemindersManager, RemindersTaskProvider and the test target each carry an identical
 * copy of this codec; it is modelled once here.
 */
module NotesCodec {
  import opened Wrappers
  import opened Text

  const FriendlyHeader: string := "TicketyPom Task"
  const DefaultEstimateMinutes: int := 25
  const EstimatePrefix: string := "Estimated Total Time:"
  const RemainingPrefix: string := "Remaining Time:"
  const ActivePrefix: string := "Active:"

  datatype ReminderMetadata = ReminderMetadata(estimatedMinutes: int, remainingMinutes: int, isActive: bool)

  /** What the decoder starts from, and what absent notes decode to. */
  const Defaults: ReminderMetadata := ReminderMetadata(DefaultEstimateMinutes, DefaultEstimateMinutes, false)

  // ---------------------------------------------------------------------------
  // Encoding

  function EstimateLine(estimated: int): string {
    "Estimated Total Time: " + IntToString(estimated) + " minutes"
  }

  function RemainingLine(remaining: int): string {
    "Remaining Time: " + IntToString(remaining) + " minutes"
  }

  function ActiveLine(isActive: bool): string {
    "Active: " + BoolToString(isActive)
  }

  /** The notes written for a task: the header and three field lines, joined by newlines. */
  function EncodeMetadata(estimated: int, remaining: int, isActive: bool): string {
    Join([FriendlyHeader, EstimateLine(estimated), RemainingLine(remaining), ActiveLine(isActive)], '\n')
  }

  // ---------------------------------------------------------------------------
  // Decoding

  /** The numeric value a line carries: only its digits are read, and nil unless they form an Int. */
  function LineNumber(trimmed: string): (r: Option<int>)
    ensures r.Some? ==> r.value >= 0
  {
    var digits := KeepDigits(trimmed);
    KeepDigitsAreDigits(trimmed);
    ParseInt(digits)
  }

  /** The text of an Active line that is read as a Bool: after its last ':', trimmed. */
  function ActiveText(trimmed: string): string {
    var parts := Split(trimmed, ':');
    if parts == [] then "false" else Trim(parts[|parts| - 1])
  }

  /** How one line of the notes updates the values decoded from the lines before it. */
  function DecodeLine(m: ReminderMetadata, line: string): ReminderMetadata {
    var trimmed := Trim(line);
    if HasPrefix(trimmed, EstimatePrefix) then
      m.(estimatedMinutes := LineNumber(trimmed).GetOr(m.estimatedMinutes))
    else if HasPrefix(trimmed, RemainingPrefix) then
      m.(remainingMinutes := LineNumber(trimmed).GetOr(m.remainingMinutes))
    else if HasPrefix(trimmed, ActivePrefix) then
      m.(isActive := ParseBool(ActiveText(trimmed)).GetOr(m.isActive))
    else
      m
  }

  /** The values decoded from a sequence of lines, starting from the defaults. */
  function DecodeLines(lines: seq<string>): (m: ReminderMetadata)
    ensures m.estimatedMinutes >= 0 && m.remainingMinutes >= 0
    decreases |lines|
  {
    if lines == [] then Defaults
    else DecodeLine(DecodeLines(lines[..|lines| - 1]), lines[|lines| - 1])
  }

  /** The decoder: absent notes give the defaults, present notes are read line by line. */
  function DecodeNotes(notes: Option<string>): (m: ReminderMetadata)
    ensures notes.None? ==> m == ReminderMetadata(25, 25, false)
    ensures m.estimatedMinutes >= 0 && m.remainingMinutes >= 0
  {
    match notes
    case None => Defaults
    case Some(text) => DecodeLines(Split(text, '\n'))
  }

  // ---------------------------------------------------------------------------
  // Round trip

  function Abs(i: int): nat {
    if i < 0 then -i else i
  }

  lemma NoDigitsKept(s: string)
    requires forall i :: 0 <= i < |s| ==> !IsDecimalDigit(s[i])
    ensures KeepDigits(s) == []
  {
    if s != [] {
      NoDigitsKept(s[1..]);
    }
  }

  lemma DigitsOfIntText(i: int)
    ensures KeepDigits(IntToString(i)) == NatToString(Abs(i))
  {
    var n := NatToString(Abs(i));
    KeepDigitsOfDigits(n);
    if i < 0 {
      assert IntToString(i) == "-" + n;
      NoDigitsKept("-");
      KeepDigitsAppend("-", n);
    }
  }

  lemma DigitsBetween(caption: string, text: string, suffix: string)
    requires KeepDigits(caption) == [] && KeepDigits(suffix) == []
    ensures KeepDigits(caption + text + suffix) == KeepDigits(text)
  {
    KeepDigitsAppend(caption, text);
    KeepDigitsAppend(caption + text, suffix);
  }

  /** A line `caption + IntToString(i) + suffix` with digit-free caption and suffix carries |i|. */
  lemma NumberLineValue(caption: string, i: int, suffix: string)
    requires KeepDigits(caption) == [] && KeepDigits(suffix) == []
    ensures LineNumber(caption + IntToString(i) + suffix) == Some(Abs(i))
  {
    DigitsBetween(caption, IntToString(i), suffix);
    DigitsOfIntText(i);
    ParseNatToString(Abs(i));
  }

  lemma NumberLineTrimmed(caption: string, i: int, suffix: string)
    requires caption != [] && !IsWhitespace(caption[0])
    requires suffix != [] && !IsWhitespace(suffix[|suffix| - 1])
    ensures Trim(caption + IntToString(i) + suffix) == caption + IntToString(i) + suffix
  {
    var line := caption + IntToString(i) + suffix;
    assert line[0] == caption[0];
    assert line[|line| - 1] == suffix[|suffix| - 1];
    TrimUnchanged(line);
  }

  lemma PrefixOfConcat(prefix: string, head: string, tail: string)
    requires HasPrefix(head, prefix)
    ensures HasPrefix(head + tail, prefix)
  {
    assert (head + tail)[..|prefix|] == head[..|prefix|];
  }

  lemma NotPrefixAtFirst(s: string, prefix: string)
    requires s != [] && prefix != [] && s[0] != prefix[0]
    ensures !HasPrefix(s, prefix)
  {
  }

  /** Which branch of DecodeLine a line takes, for a line that is its own trimmed form. */
  lemma DecodeEstimateBranch(m: ReminderMetadata, line: string, n: int)
    requires Trim(line) == line && HasPrefix(line, EstimatePrefix) && LineNumber(line) == Some(n)
    ensures DecodeLine(m, line) == m.(estimatedMinutes := n)
  {
  }

  lemma DecodeRemainingBranch(m: ReminderMetadata, line: string, n: int)
    requires Trim(line) == line && !HasPrefix(line, EstimatePrefix) && HasPrefix(line, RemainingPrefix)
    requires LineNumber(line) == Some(n)
    ensures DecodeLine(m, line) == m.(remainingMinutes := n)
  {
  }

  lemma DecodeActiveBranch(m: ReminderMetadata, line: string)
    requires Trim(line) == line && !HasPrefix(line, EstimatePrefix) && !HasPrefix(line, RemainingPrefix)
    requires HasPrefix(line, ActivePrefix)
    ensures DecodeLine(m, line) == m.(isActive := ParseBool(ActiveText(line)).GetOr(m.isActive))
  {
  }

  lemma EstimateCaptionHasNoDigits()
    ensures KeepDigits("Estimated Total Time: ") == []
  {
    NoDigitsKept("Estimated Total Time: ");
  }

  lemma RemainingCaptionHasNoDigits()
    ensures KeepDigits("Remaining Time: ") == []
  {
    NoDigitsKept("Remaining Time: ");
  }

  lemma UnitHasNoDigits()
    ensures KeepDigits(" minutes") == []
  {
    NoDigitsKept(" minutes");
  }

  /** A trimmed line made of a digit-free caption, a number and a digit-free unit, seen by DecodeLine. */
  lemma NumberLineFacts(caption: string, i: int, suffix: string)
    requires KeepDigits(caption) == [] && KeepDigits(suffix) == []
    requires caption != [] && !IsWhitespace(caption[0])
    requires suffix != [] && !IsWhitespace(suffix[|suffix| - 1])
    ensures Trim(caption + IntToString(i) + suffix) == caption + IntToString(i) + suffix
    ensures LineNumber(caption + IntToString(i) + suffix) == Some(Abs(i))
  {
    NumberLineTrimmed(caption, i, suffix);
    NumberLineValue(caption, i, suffix);
  }

  lemma EstimateNumberLine(m: ReminderMetadata, caption: string, i: int, suffix: string)
    requires KeepDigits(caption) == [] && KeepDigits(suffix) == []
    requires caption != [] && !IsWhitespace(caption[0])
    requires suffix != [] && !IsWhitespace(suffix[|suffix| - 1])
    requires HasPrefix(caption, EstimatePrefix)
    ensures DecodeLine(m, caption + IntToString(i) + suffix) == m.(estimatedMinutes := Abs(i))
  {
    NumberLineFacts(caption, i, suffix);
    NumberLinePrefix(EstimatePrefix, caption, i, suffix);
    DecodeEstimateBranch(m, caption + IntToString(i) + suffix, Abs(i));
  }

  lemma RemainingNumberLine(m: ReminderMetadata, caption: string, i: int, suffix: string)
    requires KeepDigits(caption) == [] && KeepDigits(suffix) == []
    requires caption != [] && !IsWhitespace(caption[0]) && caption[0] != 'E'
    requires suffix != [] && !IsWhitespace(suffix[|suffix| - 1])
    requires HasPrefix(caption, RemainingPrefix)
    ensures DecodeLine(m, caption + IntToString(i) + suffix) == m.(remainingMinutes := Abs(i))
  {
    NumberLineFacts(caption, i, suffix);
    NumberLinePrefix(RemainingPrefix, caption, i, suffix);
    NumberLineNotPrefix(EstimatePrefix, caption, i, suffix);
    DecodeRemainingBranch(m, caption + IntToString(i) + suffix, Abs(i));
  }

  lemma NumberLinePrefix(prefix: string, caption: string, i: int, suffix: string)
    requires HasPrefix(caption, prefix)
    ensures HasPrefix(caption + IntToString(i) + suffix, prefix)
  {
    assert caption + IntToString(i) + suffix == caption + (IntToString(i) + suffix);
    PrefixOfConcat(prefix, caption, IntToString(i) + suffix);
  }

  lemma NumberLineNotPrefix(prefix: string, caption: string, i: int, suffix: string)
    requires caption != [] && prefix != [] && caption[0] != prefix[0]
    ensures !HasPrefix(caption + IntToString(i) + suffix, prefix)
  {
    NotPrefixAtFirst(caption + IntToString(i) + suffix, prefix);
  }

  lemma EstimateCaptionShape()
    ensures KeepDigits("Estimated Total Time: ") == []
    ensures "Estimated Total Time: " != [] && !IsWhitespace("Estimated Total Time: "[0])
    ensures HasPrefix("Estimated Total Time: ", EstimatePrefix)
  {
    EstimateCaptionHasNoDigits();
    EstimateCaptionPrefix();
  }

  lemma EstimateCaptionPrefix()
    ensures HasPrefix("Estimated Total Time: ", EstimatePrefix)
  {
  }

  lemma RemainingCaptionShape()
    ensures KeepDigits("Remaining Time: ") == []
    ensures "Remaining Time: " != [] && !IsWhitespace("Remaining Time: "[0]) && "Remaining Time: "[0] != 'E'
    ensures HasPrefix("Remaining Time: ", RemainingPrefix)
  {
    RemainingCaptionHasNoDigits();
    RemainingCaptionPrefix();
  }

  lemma RemainingCaptionPrefix()
    ensures HasPrefix("Remaining Time: ", RemainingPrefix)
  {
  }

  lemma UnitShape()
    ensures KeepDigits(" minutes") == []
    ensures " minutes" != [] && !IsWhitespace(" minutes"[|" minutes"| - 1])
  {
    UnitHasNoDigits();
  }

  /** The encoder's estimate line sets the estimate to the magnitude of the encoded number. */
  lemma EstimateLineDecodes(m: ReminderMetadata, e: int)
    ensures DecodeLine(m, EstimateLine(e)) == m.(estimatedMinutes := Abs(e))
  {
    EstimateCaptionShape();
    UnitShape();
    EstimateNumberLine(m, "Estimated Total Time: ", e, " minutes");
  }

  /** The encoder's remaining line sets the remaining minutes to the magnitude of the encoded number. */
  lemma RemainingLineDecodes(m: ReminderMetadata, r: int)
    ensures DecodeLine(m, RemainingLine(r)) == m.(remainingMinutes := Abs(r))
  {
    RemainingCaptionShape();
    UnitShape();
    RemainingNumberLine(m, "Remaining Time: ", r, " minutes");
  }

  lemma TrimLeadingSpace(value: string)
    requires value != [] && !IsWhitespace(value[0]) && !IsWhitespace(value[|value| - 1])
    ensures Trim(" " + value) == value
  {
    assert (" " + value)[1..] == value;
    assert TrimStart(" " + value) == TrimStart(value) == value;
    assert TrimEnd(value) == value;
  }

  lemma ActiveTextOf(value: string)
    requires value != [] && ':' !in value && !IsWhitespace(value[0]) && !IsWhitespace(value[|value| - 1])
    ensures ActiveText("Active: " + value) == value
  {
    assert "Active: " + value == "Active" + [':'] + (" " + value);
    SplitCons("Active", ':', " " + value);
    SplitWhole(" " + value, ':');
    TrimLeadingSpace(value);
  }

  lemma ActiveLineShape(a: bool)
    ensures Trim(ActiveLine(a)) == ActiveLine(a)
    ensures !HasPrefix(ActiveLine(a), EstimatePrefix) && !HasPrefix(ActiveLine(a), RemainingPrefix)
    ensures HasPrefix(ActiveLine(a), ActivePrefix)
    ensures ParseBool(ActiveText(ActiveLine(a))) == Some(a)
  {
    var line := ActiveLine(a);
    var value := BoolToString(a);
    assert line[0] == 'A' && line[|line| - 1] == 'e';
    TrimUnchanged(line);
    PrefixOfConcat(ActivePrefix, "Active: ", value);
    NotPrefixAtFirst(line, EstimatePrefix);
    NotPrefixAtFirst(line, RemainingPrefix);
    ActiveTextOf(value);
    ParseBoolToString(a);
  }

  lemma ActiveLineDecodes(m: ReminderMetadata, a: bool)
    ensures DecodeLine(m, ActiveLine(a)) == m.(isActive := a)
  {
    ActiveLineShape(a);
    DecodeActiveBranch(m, ActiveLine(a));
  }

  lemma DecodeIgnoredBranch(m: ReminderMetadata, line: string)
    requires Trim(line) == line
    requires !HasPrefix(line, EstimatePrefix) && !HasPrefix(line, RemainingPrefix) && !HasPrefix(line, ActivePrefix)
    ensures DecodeLine(m, line) == m
  {
  }

  /** A line whose first character starts none of the three prefixes leaves the values as they are. */
  lemma OtherLineIgnored(m: ReminderMetadata, line: string)
    requires line != [] && !IsWhitespace(line[0]) && !IsWhitespace(line[|line| - 1])
    requires line[0] != 'E' && line[0] != 'R' && line[0] != 'A'
    ensures DecodeLine(m, line) == m
  {
    TrimUnchanged(line);
    NotPrefixAtFirst(line, EstimatePrefix);
    NotPrefixAtFirst(line, RemainingPrefix);
    NotPrefixAtFirst(line, ActivePrefix);
    DecodeIgnoredBranch(m, line);
  }

  /** The header line is never checked: the decoder skips it like any other unknown line. */
  lemma HeaderLineIgnored(m: ReminderMetadata)
    ensures DecodeLine(m, FriendlyHeader) == m
  {
    OtherLineIgnored(m, FriendlyHeader);
  }

  lemma NoNewlineInIntText(i: int)
    ensures '\n' !in IntToString(i)
  {
    var n := NatToString(Abs(i));
    assert forall k :: 0 <= k < |n| ==> n[k] != '\n';
    assert IntToString(i) == if i < 0 then "-" + n else n;
  }

  /** The encoder emits exactly the header and the three field lines. */
  lemma EncodedLines(e: int, r: int, a: bool)
    ensures Split(EncodeMetadata(e, r, a), '\n')
         == [FriendlyHeader, EstimateLine(e), RemainingLine(r), ActiveLine(a)]
  {
    var lines := [FriendlyHeader, EstimateLine(e), RemainingLine(r), ActiveLine(a)];
    NoNewlineInIntText(e);
    NoNewlineInIntText(r);
    assert '\n' !in EstimateLine(e);
    assert '\n' !in RemainingLine(r);
    SplitJoin(lines, '\n');
  }

  lemma DecodeFourLines(lines: seq<string>)
    requires |lines| == 4
    ensures DecodeLines(lines)
         == DecodeLine(DecodeLine(DecodeLine(DecodeLine(Defaults, lines[0]), lines[1]), lines[2]), lines[3])
  {
    assert lines[..1][..0] == [] && lines[..2][..1] == lines[..1] && lines[..3][..2] == lines[..2];
    assert DecodeLines(lines[..1]) == DecodeLine(Defaults, lines[0]);
    assert DecodeLines(lines[..2]) == DecodeLine(DecodeLines(lines[..1]), lines[1]);
    assert DecodeLines(lines[..3]) == DecodeLine(DecodeLines(lines[..2]), lines[2]);
    assert lines[..4] == lines;
  }

  /**
   * Decoding the encoder's output gives back the active flag and the magnitudes of the two
   * numbers: only digits are read, so the sign of a negative number is lost, and for
   * non-negative values the round trip is exact.
   */
  lemma {:induction false} DecodeEncode(e: int, r: int, a: bool)
    ensures DecodeNotes(Some(EncodeMetadata(e, r, a))) == ReminderMetadata(Abs(e), Abs(r), a)
    ensures e >= 0 && r >= 0 ==> DecodeNotes(Some(EncodeMetadata(e, r, a))) == ReminderMetadata(e, r, a)
  {
    var lines := [FriendlyHeader, EstimateLine(e), RemainingLine(r), ActiveLine(a)];
    EncodedLines(e, r, a);
    DecodeFourLines(lines);
    HeaderLineIgnored(Defaults);
    EstimateLineDecodes(Defaults, e);
    var m2 := Defaults.(estimatedMinutes := Abs(e));
    RemainingLineDecodes(m2, r);
    var m3 := m2.(remainingMinutes := Abs(r));
    ActiveLineDecodes(m3, a);
  }

  // ---------------------------------------------------------------------------
  // The decoder loop and what the decoder promises

  /**
   * The line loop of the decoder: `estimated`, `remaining` and `active` start at the defaults
   * and each line of the notes may overwrite one of them.
   */
  method ParseNotes(notes: Option<string>) returns (m: ReminderMetadata)
    ensures m == DecodeNotes(notes)
  {
    if notes.None? {
      return ReminderMetadata(DefaultEstimateMinutes, DefaultEstimateMinutes, false);
    }
    var estimated, remaining, active := DefaultEstimateMinutes, DefaultEstimateMinutes, false;
    var lines := Split(notes.value, '\n');
    for i := 0 to |lines|
      invariant ReminderMetadata(estimated, remaining, active) == DecodeLines(lines[..i])
    {
      assert lines[..i + 1][..i] == lines[..i];
      var trimmed := Trim(lines[i]);
      if HasPrefix(trimmed, EstimatePrefix) {
        estimated := LineNumber(trimmed).GetOr(estimated);
      } else if HasPrefix(trimmed, RemainingPrefix) {
        remaining := LineNumber(trimmed).GetOr(remaining);
      } else if HasPrefix(trimmed, ActivePrefix) {
        active := ParseBool(ActiveText(trimmed)).GetOr(active);
      }
    }
    assert lines[..|lines|] == lines;
    m := ReminderMetadata(estimated, remaining, active);
  }

  /**
   * The number a line carries is read from that line's digits alone: the value of its digits when
   * they are all ASCII, and no value (the previous one is kept) when it has none or any other.
   */
  lemma LineNumberFromDigits(trimmed: string)
    ensures var d := KeepDigits(trimmed);
      LineNumber(trimmed) == if d != [] && AllAsciiDigits(d) then Some(DigitsValue(d)) else None
  {
    var d := KeepDigits(trimmed);
    KeepDigitsAreDigits(trimmed);
    if d != [] {
      assert IsDecimalDigit(d[0]);
    }
  }

  predicate SetsEstimate(line: string) {
    HasPrefix(Trim(line), EstimatePrefix)
  }

  predicate SetsRemaining(line: string) {
    !HasPrefix(Trim(line), EstimatePrefix) && HasPrefix(Trim(line), RemainingPrefix)
  }

  predicate SetsActive(line: string) {
    !HasPrefix(Trim(line), EstimatePrefix) && !HasPrefix(Trim(line), RemainingPrefix)
    && HasPrefix(Trim(line), ActivePrefix)
  }

  /** A line that is neither an estimate, a remaining nor an active line. */
  predicate Ignored(line: string) {
    !HasPrefix(Trim(line), EstimatePrefix) && !HasPrefix(Trim(line), RemainingPrefix)
    && !HasPrefix(Trim(line), ActivePrefix)
  }

  /** A line starting with `Remaining Time:` or `Active:` is never taken for one of the others. */
  lemma PrefixesExclusive(t: string)
    ensures HasPrefix(t, RemainingPrefix) ==> !HasPrefix(t, EstimatePrefix)
    ensures HasPrefix(t, ActivePrefix) ==> !HasPrefix(t, EstimatePrefix) && !HasPrefix(t, RemainingPrefix)
  {
    if HasPrefix(t, RemainingPrefix) {
      assert t[0] == 'R';
    }
    if HasPrefix(t, ActivePrefix) {
      assert t[0] == 'A';
    }
  }

  /**
   * An estimate line sets the estimate from its own digits, or keeps the previous estimate
   * when they do not form a number; it changes nothing else.
   */
  lemma EstimateLineEffect(m: ReminderMetadata, line: string)
    requires SetsEstimate(line)
    ensures var d := KeepDigits(Trim(line));
      DecodeLine(m, line)
        == m.(estimatedMinutes := if d != [] && AllAsciiDigits(d) then DigitsValue(d) else m.estimatedMinutes)
  {
    LineNumberFromDigits(Trim(line));
  }

  /** The same for a remaining line. */
  lemma RemainingLineEffect(m: ReminderMetadata, line: string)
    requires HasPrefix(Trim(line), RemainingPrefix)
    ensures var d := KeepDigits(Trim(line));
      DecodeLine(m, line)
        == m.(remainingMinutes := if d != [] && AllAsciiDigits(d) then DigitsValue(d) else m.remainingMinutes)
  {
    PrefixesExclusive(Trim(line));
    LineNumberFromDigits(Trim(line));
  }

  /**
   * An active line changes only the active flag, and only when its text is exactly "true" or
   * "false"; any other text keeps the previous flag.
   */
  lemma ActiveLineEffect(m: ReminderMetadata, line: string)
    requires HasPrefix(Trim(line), ActivePrefix)
    ensures var t := ActiveText(Trim(line));
      DecodeLine(m, line)
        == m.(isActive := if t == "true" then true else if t == "false" then false else m.isActive)
  {
    PrefixesExclusive(Trim(line));
  }

  /** Any other line, the header included, changes nothing. */
  lemma IgnoredLineEffect(m: ReminderMetadata, line: string)
    requires Ignored(line)
    ensures DecodeLine(m, line) == m
  {
  }

  lemma DecodeLinesSnoc(lines: seq<string>, line: string)
    ensures DecodeLines(lines + [line]) == DecodeLine(DecodeLines(lines), line)
  {
    assert (lines + [line])[..|lines|] == lines;
  }

  /** The last estimate line that carries a number decides the estimate. */
  lemma {:induction false} LastEstimateWins(lines: seq<string>, k: int, n: int)
    requires 0 <= k < |lines| && SetsEstimate(lines[k]) && LineNumber(Trim(lines[k])) == Some(n)
    requires forall j :: k < j < |lines| && SetsEstimate(lines[j]) ==> LineNumber(Trim(lines[j])).None?
    ensures DecodeLines(lines).estimatedMinutes == n
    decreases |lines|
  {
    var init := lines[..|lines| - 1];
    assert lines == init + [lines[|lines| - 1]];
    DecodeLinesSnoc(init, lines[|lines| - 1]);
    if k < |lines| - 1 {
      LastEstimateWins(init, k, n);
    }
  }

  /** The last remaining line that carries a number decides the remaining minutes. */
  lemma {:induction false} LastRemainingWins(lines: seq<string>, k: int, n: int)
    requires 0 <= k < |lines| && HasPrefix(Trim(lines[k]), RemainingPrefix) && LineNumber(Trim(lines[k])) == Some(n)
    requires forall j :: k < j < |lines| && HasPrefix(Trim(lines[j]), RemainingPrefix) ==> LineNumber(Trim(lines[j])).None?
    ensures DecodeLines(lines).remainingMinutes == n
    decreases |lines|
  {
    var init := lines[..|lines| - 1];
    assert lines == init + [lines[|lines| - 1]];
    DecodeLinesSnoc(init, lines[|lines| - 1]);
    PrefixesExclusive(Trim(lines[|lines| - 1]));
    if k < |lines| - 1 {
      LastRemainingWins(init, k, n);
    }
  }

  /** The last active line whose text is a Bool decides the active flag. */
  lemma {:induction false} LastActiveWins(lines: seq<string>, k: int, b: bool)
    requires 0 <= k < |lines| && HasPrefix(Trim(lines[k]), ActivePrefix)
    requires ParseBool(ActiveText(Trim(lines[k]))) == Some(b)
    requires forall j :: k < j < |lines| && HasPrefix(Trim(lines[j]), ActivePrefix) ==> ParseBool(ActiveText(Trim(lines[j]))).None?
    ensures DecodeLines(lines).isActive == b
    decreases |lines|
  {
    var init := lines[..|lines| - 1];
    assert lines == init + [lines[|lines| - 1]];
    DecodeLinesSnoc(init, lines[|lines| - 1]);
    PrefixesExclusive(Trim(lines[|lines| - 1]));
    if k < |lines| - 1 {
      LastActiveWins(init, k, b);
    }
  }

  /** A line that sets nothing can be dropped from anywhere in the notes. */
  lemma {:induction false} IgnoredLineAnywhere(a: seq<string>, line: string, b: seq<string>)
    requires Ignored(line)
    ensures DecodeLines(a + [line] + b) == DecodeLines(a + b)
    decreases |b|
  {
    if b == [] {
      assert a + [line] + b == a + [line];
      assert a + b == a;
      DecodeLinesSnoc(a, line);
    } else {
      var last := b[|b| - 1];
      var init := b[..|b| - 1];
      assert a + [line] + b == (a + [line] + init) + [last];
      assert a + b == (a + init) + [last];
      DecodeLinesSnoc(a + [line] + init, last);
      DecodeLinesSnoc(a + init, last);
      IgnoredLineAnywhere(a, line, init);
    }
  }

  lemma HeaderIgnored()
    ensures Ignored(FriendlyHeader)
  {
    TrimUnchanged(FriendlyHeader);
    NotPrefixAtFirst(FriendlyHeader, EstimatePrefix);
    NotPrefixAtFirst(FriendlyHeader, RemainingPrefix);
    NotPrefixAtFirst(FriendlyHeader, ActivePrefix);
  }

  /** The header is never checked: notes decode the same with or without it. */
  lemma HeaderIsOptional(text: string)
    ensures DecodeNotes(Some(FriendlyHeader + "\n" + text)) == DecodeNotes(Some(text))
  {
    assert FriendlyHeader + "\n" + text == FriendlyHeader + ['\n'] + text;
    SplitCons(FriendlyHeader, '\n', text);
    HeaderIgnored();
    IgnoredLineAnywhere([], FriendlyHeader, Split(text, '\n'));
    assert [] + [FriendlyHeader] + Split(text, '\n') == [FriendlyHeader] + Split(text, '\n');
    assert [] + Split(text, '\n') == Split(text, '\n');
  }
}
