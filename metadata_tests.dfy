/**
 * The test target's own copy of the decoder and its three decoding scenarios. The copy's text
 * is the production decoder's, so it shares the line step `DecodeLine`; what differs is only
 * the direction of the fold. Its reading is specified as a fold from the first line onwards,
 * and shown to agree with the production decoder (a fold ending at the last line) on every input.
 */
module MetadataTests {
  import opened Wrappers
  import opened Text
  import opened NotesCodec

  /** What the test copy reads: absent notes give 25, 25, false; otherwise the lines first to last. */
  function FriendlyReading(notes: Option<string>): (m: ReminderMetadata)
    ensures notes.None? ==> m == ReminderMetadata(25, 25, false)
  {
    match notes
    case None => ReminderMetadata(25, 25, false)
    case Some(text) => ReadFrom(ReminderMetadata(25, 25, false), Split(text, '\n'))
  }

  /** The values after reading `lines` in order, starting from `m`. */
  function ReadFrom(m: ReminderMetadata, lines: seq<string>): ReminderMetadata
    decreases |lines|
  {
    if lines == [] then m else ReadFrom(DecodeLine(m, lines[0]), lines[1..])
  }

  lemma {:induction false} ReadFromSnoc(m: ReminderMetadata, lines: seq<string>, line: string)
    ensures ReadFrom(m, lines + [line]) == DecodeLine(ReadFrom(m, lines), line)
    decreases |lines|
  {
    if lines == [] {
      assert (lines + [line])[1..] == [];
    } else {
      assert (lines + [line])[1..] == lines[1..] + [line];
      ReadFromSnoc(DecodeLine(m, lines[0]), lines[1..], line);
    }
  }

  lemma {:induction false} ReadFromAgrees(lines: seq<string>)
    ensures ReadFrom(Defaults, lines) == DecodeLines(lines)
    decreases |lines|
  {
    if lines != [] {
      var init := lines[..|lines| - 1];
      assert lines == init + [lines[|lines| - 1]];
      ReadFromSnoc(Defaults, init, lines[|lines| - 1]);
      ReadFromAgrees(init);
    }
  }

  /** The test copy and the production decoder agree on every input. */
  lemma TestCopyAgrees(notes: Option<string>)
    ensures FriendlyReading(notes) == DecodeNotes(notes)
  {
    if notes.Some? {
      ReadFromAgrees(Split(notes.value, '\n'));
    }
  }

  /** The test copy's loop, proved to compute the production decoder's reading. */
  method DecodeFriendlyMetadata(notes: Option<string>) returns (m: ReminderMetadata)
    ensures m == FriendlyReading(notes)
    ensures m == DecodeNotes(notes)
  {
    TestCopyAgrees(notes);
    if notes.None? {
      return ReminderMetadata(25, 25, false);
    }
    var estimated, remaining, active := 25, 25, false;
    var lines := Split(notes.value, '\n');
    for i := 0 to |lines|
      invariant ReminderMetadata(estimated, remaining, active) == ReadFrom(Defaults, lines[..i])
    {
      assert lines[..i + 1] == lines[..i] + [lines[i]];
      ReadFromSnoc(Defaults, lines[..i], lines[i]);
      var trimmed := Trim(lines[i]);
      if HasPrefix(trimmed, EstimatePrefix) {
        estimated := LineNumber(trimmed).GetOr(estimated);
      } else if HasPrefix(trimmed, RemainingPrefix) {
        remaining := LineNumber(trimmed).GetOr(remaining);
      } else if HasPrefix(trimmed, ActivePrefix) {
        active := ParseBool(ActiveText(trimmed)).GetOr(active);
      }
    }
    assert lines[..|lines|] == lines;
    m := ReminderMetadata(estimated, remaining, active);
  }

  lemma ThirtyText()
    ensures IntToString(30) == "30"
  {
    assert NatToString(3) == "3";
  }

  lemma TwelveText()
    ensures IntToString(12) == "12"
  {
    assert NatToString(1) == "1";
  }

  lemma FifteenText()
    ensures IntToString(15) == "15"
  {
    assert NatToString(1) == "1";
  }

  lemma FiveText()
    ensures IntToString(5) == "5"
  {
  }

  lemma ScenarioOneNotes()
    ensures Join(["TicketyPom Task", "Estimated Total Time: 30 minutes", "Remaining Time: 12 minutes", "Active: true"], '\n')
         == EncodeMetadata(30, 12, true)
  {
    ThirtyText();
    TwelveText();
    assert EstimateLine(30) == "Estimated Total Time: 30 minutes";
    assert RemainingLine(12) == "Remaining Time: 12 minutes";
    assert ActiveLine(true) == "Active: true";
  }

  lemma ScenarioThreeNotes()
    ensures Join(["TicketyPom Task", "Estimated Total Time: 15 minutes", "Remaining Time: 5 minutes", "Active: false"], '\n')
         == EncodeMetadata(15, 5, false)
  {
    FifteenText();
    FiveText();
    assert EstimateLine(15) == "Estimated Total Time: 15 minutes";
    assert RemainingLine(5) == "Remaining Time: 5 minutes";
    assert ActiveLine(false) == "Active: false";
  }

  /** Friendly notes for 30 / 12 / true decode to exactly those values. */
  lemma ParsesFriendlyNotes()
    ensures var m := FriendlyReading(Some(Join(["TicketyPom Task", "Estimated Total Time: 30 minutes",
                                                       "Remaining Time: 12 minutes", "Active: true"], '\n')));
      m.estimatedMinutes == 30 && m.remainingMinutes == 12 && m.isActive
  {
    ScenarioOneNotes();
    TestCopyAgrees(Some(EncodeMetadata(30, 12, true)));
    DecodeEncode(30, 12, true);
  }

  /** Missing notes fall back to 25 minutes estimated and remaining. */
  lemma FallsBackWhenNotesMissing()
    ensures var m := FriendlyReading(None);
      m.estimatedMinutes == 25 && m.remainingMinutes == 25
  {
  }

  /** Notes with no timestamp line still decode: 15 estimated, 5 remaining. */
  lemma HandlesMissingTimestamp()
    ensures var m := FriendlyReading(Some(Join(["TicketyPom Task", "Estimated Total Time: 15 minutes",
                                                       "Remaining Time: 5 minutes", "Active: false"], '\n')));
      m.estimatedMinutes == 15 && m.remainingMinutes == 5
  {
    ScenarioThreeNotes();
    TestCopyAgrees(Some(EncodeMetadata(15, 5, false)));
    DecodeEncode(15, 5, false);
  }
}
