/** HL7 v2 timestamps as the message code reads them with `datetime.strptime`:
    `%Y%m%d%H%M` (the encounter admit time) and `%Y%m%d%H%M%S` (the triage summary),
    checked against the calendar, and rendered back with `isoformat()`.

    `strptime` compiles each directive to a regular expression with ordered
    alternatives, takes the first match in backtracking order from the start of the
    text, and fails when that match leaves characters over ("unconverted data
    remains"). So a day may be written as a space and a digit, and a field may be a
    single digit when the text is short. */
module Timestamps {
  import opened Wrappers
  import opened Text

  datatype DateTime = DateTime(year: nat, month: nat, day: nat, hour: nat, minute: nat, second: nat)

  predicate IsLeapYear(y: nat) {
    y % 4 == 0 && (y % 100 != 0 || y % 400 == 0)
  }

  function DaysInMonth(y: nat, m: nat): nat
    requires 1 <= m <= 12
  {
    if m == 2 then (if IsLeapYear(y) then 29 else 28)
    else if m == 4 || m == 6 || m == 9 || m == 11 then 30
    else 31
  }

  /** What `datetime` accepts: year 1 to 9999 and a real calendar day and clock time. */
  predicate ValidDateTime(dt: DateTime) {
    && 1 <= dt.year <= 9999
    && 1 <= dt.month <= 12
    && 1 <= dt.day <= DaysInMonth(dt.year, dt.month)
    && dt.hour < 24 && dt.minute < 60 && dt.second < 60
  }

  /** One character position of a directive's pattern: a decimal digit, a digit in a
      range, or a space. */
  datatype CharClass = AnyDigit | DigitRange(lo: char, hi: char) | OneSpace

  predicate InClass(c: char, k: CharClass) {
    match k
    case AnyDigit => IsDigit(c)
    case DigitRange(lo, hi) => lo <= c <= hi
    case OneSpace => c == ' '
  }

  /** One alternative of a directive's pattern: a fixed run of character classes. */
  type Alternative = seq<CharClass>

  /** `%Y`: `\d\d\d\d` */
  const YearPattern: seq<Alternative> := [[AnyDigit, AnyDigit, AnyDigit, AnyDigit]]

  /** `%m`: `1[0-2]|0[1-9]|[1-9]` */
  const MonthPattern: seq<Alternative> :=
    [[DigitRange('1', '1'), DigitRange('0', '2')], [DigitRange('0', '0'), DigitRange('1', '9')],
     [DigitRange('1', '9')]]

  /** `%d`: `3[0-1]|[1-2]\d|0[1-9]|[1-9]| [1-9]` */
  const DayPattern: seq<Alternative> :=
    [[DigitRange('3', '3'), DigitRange('0', '1')], [DigitRange('1', '2'), AnyDigit],
     [DigitRange('0', '0'), DigitRange('1', '9')], [DigitRange('1', '9')],
     [OneSpace, DigitRange('1', '9')]]

  /** `%H`: `2[0-3]|[0-1]\d|\d` */
  const HourPattern: seq<Alternative> :=
    [[DigitRange('2', '2'), DigitRange('0', '3')], [DigitRange('0', '1'), AnyDigit], [AnyDigit]]

  /** `%M`: `[0-5]\d|\d` */
  const MinutePattern: seq<Alternative> := [[DigitRange('0', '5'), AnyDigit], [AnyDigit]]

  /** `%S`: `6[0-1]|[0-5]\d|\d` */
  const SecondPattern: seq<Alternative> :=
    [[DigitRange('6', '6'), DigitRange('0', '1')], [DigitRange('0', '5'), AnyDigit], [AnyDigit]]

  /** The directives of `%Y%m%d%H%M`, and `%S` after them when `withSeconds`. */
  function Directives(withSeconds: bool): seq<seq<Alternative>> {
    [YearPattern, MonthPattern, DayPattern, HourPattern, MinutePattern]
      + (if withSeconds then [SecondPattern] else [])
  }

  /** Text that one alternative matches whole. */
  predicate Fits(c: string, alt: Alternative) {
    |c| == |alt| && forall i :: 0 <= i < |c| ==> InClass(c[i], alt[i])
  }

  /** Text that some alternative of a pattern matches whole. */
  predicate FitsSome(c: string, alts: seq<Alternative>) {
    alts != [] && (Fits(c, alts[0]) || FitsSome(c, alts[1..]))
  }

  /** Python's `re.match` of the directives' patterns one after another from `pos`:
      the captured texts of the first match in backtracking order, each directive
      trying its alternatives left to right. Nothing anchors the end. */
  function Match(s: string, pos: nat, directives: seq<seq<Alternative>>): Option<seq<string>>
    decreases |directives|, 0
  {
    if directives == [] then Some([])
    else TryAlternatives(s, pos, directives[0], directives[1..])
  }

  /** The first of `alts`, in order, after which the `rest` of the directives match. */
  function TryAlternatives(s: string, pos: nat, alts: seq<Alternative>, rest: seq<seq<Alternative>>): Option<seq<string>>
    decreases |rest|, |alts|
  {
    if alts == [] then None
    else
      var alt := alts[0];
      var after := if pos + |alt| <= |s| && Fits(s[pos..pos + |alt|], alt) then Match(s, pos + |alt|, rest) else None;
      if after.Some? then Some([s[pos..pos + |alt|]] + after.value)
      else TryAlternatives(s, pos, alts[1..], rest)
  }

  /** `int()` of a captured field: its digits as a number (a capture is digits, or a
      space and a digit). */
  function FieldValue(c: string): nat
    decreases |c|
  {
    if c == [] then 0
    else if IsDigit(c[|c| - 1]) then FieldValue(c[..|c| - 1]) * 10 + DigitValue(c[|c| - 1])
    else FieldValue(c[..|c| - 1])
  }

  function Capture(caps: seq<string>, i: nat): nat {
    if i < |caps| then FieldValue(caps[i]) else 0
  }

  /** `datetime.strptime(s, "%Y%m%d%H%M%S")` when `withSeconds`, else with format
      `"%Y%m%d%H%M"`; `None` is the `ValueError` for text the patterns do not match,
      text left over after the match, and a date or time the calendar does not have. */
  function ParseStamp(s: string, withSeconds: bool): (r: Option<DateTime>)
    ensures r.Some? ==> ValidDateTime(r.value)
    ensures r.Some? && !withSeconds ==> r.value.second == 0
  {
    match Match(s, 0, Directives(withSeconds))
    case None => None
    case Some(caps) =>
      if |Concat(caps)| != |s| then None
      else
        var dt := DateTime(Capture(caps, 0), Capture(caps, 1), Capture(caps, 2), Capture(caps, 3),
                           Capture(caps, 4), if withSeconds then Capture(caps, 5) else 0);
        if ValidDateTime(dt) then Some(dt) else None
  }

  /** `dt.isoformat()` for a time with no microseconds: `YYYY-MM-DDTHH:MM:SS`. */
  function IsoFormat(dt: DateTime): (r: string)
    ensures |r| == 19
  {
    Pad(dt.year, 4) + "-" + Pad(dt.month, 2) + "-" + Pad(dt.day, 2) + "T"
      + Pad(dt.hour, 2) + ":" + Pad(dt.minute, 2) + ":" + Pad(dt.second, 2)
  }

  /** A match's captures are consecutive pieces of the text from `pos`, one for each
      directive, each matched whole by one of that directive's alternatives. */
  lemma {:induction false} MatchCaptures(s: string, pos: nat, directives: seq<seq<Alternative>>, caps: seq<string>)
    requires pos <= |s| && Match(s, pos, directives) == Some(caps)
    ensures |caps| == |directives|
    ensures pos + |Concat(caps)| <= |s| && Concat(caps) == s[pos..pos + |Concat(caps)|]
    ensures forall i :: 0 <= i < |caps| ==> FitsSome(caps[i], directives[i])
    decreases |directives|, 0
  {
    if directives != [] {
      TryAlternativesCaptures(s, pos, directives[0], directives[1..], caps);
    }
  }

  lemma {:induction false} TryAlternativesCaptures(s: string, pos: nat, alts: seq<Alternative>,
                                                   rest: seq<seq<Alternative>>, caps: seq<string>)
    requires pos <= |s| && TryAlternatives(s, pos, alts, rest) == Some(caps)
    ensures |caps| == 1 + |rest|
    ensures pos + |Concat(caps)| <= |s| && Concat(caps) == s[pos..pos + |Concat(caps)|]
    ensures FitsSome(caps[0], alts)
    ensures forall i :: 1 <= i < |caps| ==> FitsSome(caps[i], rest[i - 1])
    decreases |rest|, |alts|
  {
    var alt := alts[0];
    var end := pos + |alt|;
    if end <= |s| && Fits(s[pos..end], alt) && Match(s, end, rest).Some? {
      var tail := Match(s, end, rest).value;
      MatchCaptures(s, end, rest, tail);
      assert caps == [s[pos..end]] + tail;
      assert caps[1..] == tail;
      assert Concat(caps) == s[pos..end] + Concat(tail);
      assert s[pos..end] + s[end..end + |Concat(tail)|] == s[pos..end + |Concat(tail)|];
    } else {
      TryAlternativesCaptures(s, pos, alts[1..], rest, caps);
      forall i | 1 <= i < |caps|
        ensures FitsSome(caps[i], rest[i - 1])
      {
      }
    }
  }

  /** Which alternative of a pattern some text fits. */
  lemma {:induction false} FitsSomeIndex(c: string, alts: seq<Alternative>) returns (k: nat)
    requires FitsSome(c, alts)
    ensures k < |alts| && Fits(c, alts[k])
    decreases |alts|
  {
    if Fits(c, alts[0]) {
      k := 0;
    } else {
      var j := FitsSomeIndex(c, alts[1..]);
      k := j + 1;
    }
  }

  /** A year capture is four digits. */
  lemma YearCapture(c: string)
    requires FitsSome(c, YearPattern)
    ensures |c| == 4 && AllDigits(c)
  {
    var k := FitsSomeIndex(c, YearPattern);
    assert Fits(c, [AnyDigit, AnyDigit, AnyDigit, AnyDigit]);
  }

  /** A month, hour, minute or second capture is one or two characters, digits when two. */
  lemma DigitCapture(c: string, alts: seq<Alternative>)
    requires alts == MonthPattern || alts == HourPattern || alts == MinutePattern || alts == SecondPattern
    requires FitsSome(c, alts)
    ensures 1 <= |c| <= 2 && (|c| == 2 ==> AllDigits(c))
  {
    var k := FitsSomeIndex(c, alts);
    assert Fits(c, alts[k]);
  }

  /** A day capture is one or two characters: two digits, or a space and a digit. */
  lemma DayCapture(c: string)
    requires FitsSome(c, DayPattern)
    ensures 1 <= |c| <= 2 && (|c| == 2 ==> AllDigits(c) || (c[0] == ' ' && IsDigit(c[1])))
  {
    var k := FitsSomeIndex(c, DayPattern);
    assert Fits(c, DayPattern[k]);
  }

  /** On digits, a field's value is the number they denote. */
  lemma {:induction false} FieldValueOfDigits(c: string)
    requires AllDigits(c)
    ensures FieldValue(c) == DigitsValue(c)
    decreases |c|
  {
    if c != [] {
      FieldValueOfDigits(c[..|c| - 1]);
    }
  }

  /** Digits rendered back at their own width are themselves. */
  lemma PadDigits(d: string)
    requires AllDigits(d)
    ensures Pad(FieldValue(d), |d|) == d
  {
    FieldValueOfDigits(d);
    PadValue(d);
  }

  /** A captured field rendered back at its own width is its text, a leading space
      turned into `0`. */
  lemma PadCapture(c: string)
    requires |c| >= 1 && (AllDigits(c) || (|c| == 2 && c[0] == ' ' && IsDigit(c[1])))
    ensures Pad(FieldValue(c), |c|) == ReplaceChar(c, ' ', '0')
  {
    if AllDigits(c) {
      PadDigits(c);
      ReplaceCharAbsent(c, ' ', '0');
    } else {
      PadSpacedDigit(c);
    }
  }

  lemma PadSpacedDigit(c: string)
    requires |c| == 2 && c[0] == ' ' && IsDigit(c[1])
    ensures Pad(FieldValue(c), 2) == ['0', c[1]]
    ensures ReplaceChar(c, ' ', '0') == ['0', c[1]]
  {
    assert c[..1] == [' '] && !IsDigit(' ') && [' '][..0] == [];
    assert FieldValue(c[..1]) == FieldValue([]) == 0;
    var v := FieldValue(c);
    assert v == DigitValue(c[1]);
    assert Pad(v, 2) == Pad(v / 10, 1) + [DigitChar(v % 10)];
    assert Pad(0, 1) == "0";
  }

  /** The captures behind a parsed stamp: they cover the whole text, and the stamp is
      what they denote. */
  lemma StampCaptures(s: string, withSeconds: bool) returns (caps: seq<string>)
    requires ParseStamp(s, withSeconds).Some?
    ensures |caps| == |Directives(withSeconds)| && Concat(caps) == s
    ensures forall i :: 0 <= i < |caps| ==> FitsSome(caps[i], Directives(withSeconds)[i])
    ensures ParseStamp(s, withSeconds).value ==
      DateTime(FieldValue(caps[0]), FieldValue(caps[1]), FieldValue(caps[2]), FieldValue(caps[3]),
               FieldValue(caps[4]), if withSeconds then FieldValue(caps[5]) else 0)
  {
    caps := Match(s, 0, Directives(withSeconds)).value;
    MatchCaptures(s, 0, Directives(withSeconds), caps);
  }

  /** Pieces of at most the widths four, two, two, ... that make up text of full
      width are its fixed slices. */
  lemma {:induction false} FullWidthPieces(s: string, caps: seq<string>, withSeconds: bool)
    requires |caps| == (if withSeconds then 6 else 5) && Concat(caps) == s
    requires |s| == (if withSeconds then 14 else 12)
    requires |caps[0]| <= 4 && forall i :: 1 <= i < |caps| ==> |caps[i]| <= 2
    ensures caps[0] == s[0..4] && caps[1] == s[4..6] && caps[2] == s[6..8]
    ensures caps[3] == s[8..10] && caps[4] == s[10..12] && (withSeconds ==> caps[5] == s[12..14])
  {
    var tail := if withSeconds then caps[5] else "";
    if withSeconds {
      assert caps[5..][1..] == [];
      assert Concat(caps[5..]) == caps[5];
    } else {
      assert caps[5..] == [];
    }
    assert Concat(caps[4..]) == caps[4] + tail by {
      assert caps[4..][1..] == caps[5..];
    }
    assert Concat(caps[3..]) == caps[3] + Concat(caps[4..]) by {
      assert caps[3..][1..] == caps[4..];
    }
    assert Concat(caps[2..]) == caps[2] + Concat(caps[3..]) by {
      assert caps[2..][1..] == caps[3..];
    }
    assert Concat(caps[1..]) == caps[1] + Concat(caps[2..]) by {
      assert caps[1..][1..] == caps[2..];
    }
    assert s == caps[0] + caps[1] + caps[2] + caps[3] + caps[4] + tail;
  }

  /** Text of full width (12 characters without seconds, 14 with) parses only with
      every field at full width: four year digits, then two characters per field, all
      digits except that the day may be a space and a digit; the stamp is what those
      fields denote. */
  lemma FullWidthStamp(s: string, withSeconds: bool)
    requires |s| == (if withSeconds then 14 else 12) && ParseStamp(s, withSeconds).Some?
    ensures AllDigits(s[0..4]) && AllDigits(s[4..6]) && AllDigits(s[8..10]) && AllDigits(s[10..12])
    ensures withSeconds ==> AllDigits(s[12..14])
    ensures AllDigits(s[6..8]) || (s[6] == ' ' && IsDigit(s[7]))
    ensures ParseStamp(s, withSeconds).value ==
      DateTime(FieldValue(s[0..4]), FieldValue(s[4..6]), FieldValue(s[6..8]), FieldValue(s[8..10]),
               FieldValue(s[10..12]), if withSeconds then FieldValue(s[12..14]) else 0)
  {
    var caps := StampCaptures(s, withSeconds);
    YearCapture(caps[0]);
    DigitCapture(caps[1], MonthPattern);
    DayCapture(caps[2]);
    DigitCapture(caps[3], HourPattern);
    DigitCapture(caps[4], MinutePattern);
    if withSeconds {
      DigitCapture(caps[5], SecondPattern);
    }
    FullWidthPieces(s, caps, withSeconds);
  }

  /** The ISO rendering of the time that full-width fields denote is their text,
      punctuated, a space-padded day zero-filled. */
  lemma IsoOfFields(s: string, dt: DateTime, withSeconds: bool)
    requires |s| == (if withSeconds then 14 else 12)
    requires AllDigits(s[0..4]) && AllDigits(s[4..6]) && AllDigits(s[8..10]) && AllDigits(s[10..12])
    requires withSeconds ==> AllDigits(s[12..14])
    requires AllDigits(s[6..8]) || (s[6] == ' ' && IsDigit(s[7]))
    requires dt == DateTime(FieldValue(s[0..4]), FieldValue(s[4..6]), FieldValue(s[6..8]), FieldValue(s[8..10]),
                            FieldValue(s[10..12]), if withSeconds then FieldValue(s[12..14]) else 0)
    ensures IsoFormat(dt) ==
      s[0..4] + "-" + s[4..6] + "-" + ReplaceChar(s[6..8], ' ', '0') + "T" + s[8..10] + ":" + s[10..12] + ":"
        + (if withSeconds then s[12..14] else "00")
  {
    var sec := if withSeconds then s[12..14] else "00";
    if !withSeconds {
      assert "00"[..1] == "0" && "0"[..0] == "";
      assert FieldValue(sec) == 0;
    }
    IsoOfPieces(s[0..4], s[4..6], s[6..8], s[8..10], s[10..12], sec);
  }

  /** The same, field by field. */
  lemma IsoOfPieces(y: string, mo: string, d: string, h: string, mi: string, sec: string)
    requires |y| == 4 && AllDigits(y)
    requires |mo| == 2 && AllDigits(mo) && |h| == 2 && AllDigits(h)
    requires |mi| == 2 && AllDigits(mi) && |sec| == 2 && AllDigits(sec)
    requires |d| == 2 && (AllDigits(d) || (d[0] == ' ' && IsDigit(d[1])))
    ensures IsoFormat(DateTime(FieldValue(y), FieldValue(mo), FieldValue(d), FieldValue(h), FieldValue(mi), FieldValue(sec)))
      == y + "-" + mo + "-" + ReplaceChar(d, ' ', '0') + "T" + h + ":" + mi + ":" + sec
  {
    PadDigits(y);
    PadDigits(mo);
    PadCapture(d);
    PadDigits(h);
    PadDigits(mi);
    PadDigits(sec);
  }

  /** A parsed admit time of 12 characters renders as the text it was read from,
      punctuated, a space-padded day zero-filled: `YYYY-MM-DDTHH:MM:00`. */
  lemma IsoFormatOfMinuteStamp(s: string)
    requires |s| == 12 && ParseStamp(s, false).Some?
    ensures IsoFormat(ParseStamp(s, false).value) ==
      s[0..4] + "-" + s[4..6] + "-" + ReplaceChar(s[6..8], ' ', '0') + "T" + s[8..10] + ":" + s[10..12] + ":00"
  {
    FullWidthStamp(s, false);
    IsoOfFields(s, ParseStamp(s, false).value, false);
  }

  /** A parsed summary time of 14 characters renders as the text it was read from,
      punctuated, a space-padded day zero-filled: `YYYY-MM-DDTHH:MM:SS`. */
  lemma IsoFormatOfSecondStamp(s: string)
    requires |s| == 14 && ParseStamp(s, true).Some?
    ensures IsoFormat(ParseStamp(s, true).value) ==
      s[0..4] + "-" + s[4..6] + "-" + ReplaceChar(s[6..8], ' ', '0') + "T" + s[8..10] + ":" + s[10..12] + ":" + s[12..14]
  {
    FullWidthStamp(s, true);
    IsoOfFields(s, ParseStamp(s, true).value, true);
  }

  /** The first alternative that fits, followed by a match of the rest, is taken. */
  lemma TakeFirst(s: string, pos: nat, alts: seq<Alternative>, rest: seq<seq<Alternative>>, tail: seq<string>)
    requires alts != [] && pos + |alts[0]| <= |s| && Fits(s[pos..pos + |alts[0]|], alts[0])
    requires Match(s, pos + |alts[0]|, rest) == Some(tail)
    ensures Match(s, pos, [alts] + rest) == Some([s[pos..pos + |alts[0]|]] + tail)
  {
    assert ([alts] + rest)[1..] == rest;
  }

  /** An alternative that does not fit is passed over. */
  lemma SkipFirst(s: string, pos: nat, alts: seq<Alternative>, rest: seq<seq<Alternative>>)
    requires alts != [] && !(pos + |alts[0]| <= |s| && Fits(s[pos..pos + |alts[0]|], alts[0]))
    ensures Match(s, pos, [alts] + rest) == Match(s, pos, [alts[1..]] + rest)
  {
    assert ([alts] + rest)[1..] == rest;
    assert ([alts[1..]] + rest)[1..] == rest;
  }

  /** An admit time written with a space-padded day. */
  const SpacedStamp: string := "202501 11200"

  lemma SpacedClock()
    ensures Match(SpacedStamp, 8, [HourPattern, MinutePattern]) == Some(["12", "00"])
  {
    var s := SpacedStamp;
    assert s[10..12] == "00" && s[8..10] == "12";
    assert Match(s, 12, []) == Some([]);
    TakeFirst(s, 10, MinutePattern, [], []);
    assert [MinutePattern] + [] == [MinutePattern] && [s[10..12]] + [] == ["00"];
    assert Match(s, 10, [MinutePattern]) == Some(["00"]);
    assert !InClass(s[8..10][0], HourPattern[0][0]);
    SkipFirst(s, 8, HourPattern, [MinutePattern]);
    assert |HourPattern[1..][0]| == 2;
    TakeFirst(s, 8, HourPattern[1..], [MinutePattern], ["00"]);
    assert [HourPattern] + [MinutePattern] == [HourPattern, MinutePattern];
    assert [s[8..10]] + ["00"] == ["12", "00"];
  }

  /** The two-digit day alternatives do not fit the space at position 6. */
  lemma SpacedDayTwoDigits(rest: seq<seq<Alternative>>)
    ensures Match(SpacedStamp, 6, [DayPattern] + rest) == Match(SpacedStamp, 6, [DayPattern[2..]] + rest)
  {
    var s := SpacedStamp;
    assert s[6..8] == " 1";
    assert !InClass(s[6..8][0], DayPattern[0][0]);
    SkipFirst(s, 6, DayPattern, rest);
    assert DayPattern[1..][0] == DayPattern[1] && !InClass(s[6..8][0], DayPattern[1][0]);
    SkipFirst(s, 6, DayPattern[1..], rest);
    assert DayPattern[1..][1..] == DayPattern[2..];
  }

  /** Nor do the zero-padded and the one-digit day alternatives. */
  lemma SpacedDayOneDigit(rest: seq<seq<Alternative>>)
    ensures Match(SpacedStamp, 6, [DayPattern[2..]] + rest) == Match(SpacedStamp, 6, [DayPattern[4..]] + rest)
  {
    var s := SpacedStamp;
    assert s[6..8] == " 1" && s[6..7] == " ";
    assert DayPattern[2..][1..] == DayPattern[3..] && DayPattern[3..][1..] == DayPattern[4..];
    assert DayPattern[2..][0] == DayPattern[2] && !InClass(s[6..8][0], DayPattern[2][0]);
    SkipFirst(s, 6, DayPattern[2..], rest);
    assert DayPattern[3..][0] == DayPattern[3] && !InClass(s[6..7][0], DayPattern[3][0]);
    SkipFirst(s, 6, DayPattern[3..], rest);
  }

  lemma SpacedDay()
    ensures Match(SpacedStamp, 6, [DayPattern, HourPattern, MinutePattern]) == Some([" 1", "12", "00"])
  {
    var s := SpacedStamp;
    assert s[6..8] == " 1";
    var rest := [HourPattern, MinutePattern];
    SpacedClock();
    SpacedDayTwoDigits(rest);
    SpacedDayOneDigit(rest);
    assert DayPattern[4..][0] == DayPattern[4] && |DayPattern[4]| == 2;
    TakeFirst(s, 6, DayPattern[4..], rest, ["12", "00"]);
    assert [DayPattern] + rest == [DayPattern, HourPattern, MinutePattern];
    assert [s[6..8]] + ["12", "00"] == [" 1", "12", "00"];
  }

  lemma SpacedMatch()
    ensures Match(SpacedStamp, 0, Directives(false)) == Some(["2025", "01", " 1", "12", "00"])
  {
    var s := SpacedStamp;
    assert s[4..6] == "01" && s[0..4] == "2025";
    var rest := [DayPattern, HourPattern, MinutePattern];
    SpacedDay();
    assert !InClass(s[4..6][0], MonthPattern[0][0]);
    SkipFirst(s, 4, MonthPattern, rest);
    assert |MonthPattern[1..][0]| == 2;
    TakeFirst(s, 4, MonthPattern[1..], rest, [" 1", "12", "00"]);
    assert [s[4..6]] + [" 1", "12", "00"] == ["01", " 1", "12", "00"];
    rest := [MonthPattern] + rest;
    TakeFirst(s, 0, YearPattern, rest, ["01", " 1", "12", "00"]);
    assert Directives(false) == [YearPattern] + rest;
    assert [s[0..4]] + ["01", " 1", "12", "00"] == ["2025", "01", " 1", "12", "00"];
  }

  lemma SpacedValues()
    ensures Concat(["2025", "01", " 1", "12", "00"]) == SpacedStamp
    ensures FieldValue("2025") == 2025 && FieldValue("01") == 1 && FieldValue(" 1") == 1
    ensures FieldValue("12") == 12 && FieldValue("00") == 0
  {
    assert "2025"[..3] == "202" && "202"[..2] == "20" && "20"[..1] == "2" && "2"[..0] == "";
    assert "01"[..1] == "0" && "0"[..0] == "" && " 1"[..1] == " " && " "[..0] == "";
    assert "12"[..1] == "1" && "1"[..0] == "" && "00"[..1] == "0";
  }

  /** `strptime` reads a space-padded day: `202501 11200` is 2025-01-01 12:00. */
  lemma SpacePaddedDay()
    ensures ParseStamp(SpacedStamp, false) == Some(DateTime(2025, 1, 1, 12, 0, 0))
  {
    SpacedMatch();
    SpacedValues();
  }
}
