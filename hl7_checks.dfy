/** Structural validation and analyst triage over raw HL7 v2 text
    (`validate_hl7_message`, `extract_hl7_summary`, `extract_source_context_from_msh`
    in example/hl7_utils.py). Field positions follow chapters 2 (MSH) and 3 (PID, PV1)
    of HL7 v2.x. */
module Hl7Checks {
  import opened Wrappers
  import opened Text
  import opened Hl7Segments
  import opened Timestamps

  /** The table `parse_hl7` builds for `text`. */
  function ParsedTable(text: string): SegmentTable {
    Table(Records(SegmentLines(text)))
  }

  const MissingMsh: string := "Missing MSH segment (message must start with MSH)"
  const MissingMsh9: string := "Missing MSH-9 (message type)"
  const AdtRequiresPid: string := "ADT requires PID segment"
  const MissingPid3: string := "Missing PID-3 (Patient Identifier)"
  const MissingPv1: string := "Missing PV1 segment (Encounter will not be generated)"

  /** Errors block the clinical transform; warnings are informational. */
  datatype Validation = Validation(errors: seq<string>, warnings: seq<string>)

  /** MSH-9 of the first MSH segment in the table, or empty. */
  function TableMessageType(t: SegmentTable): string {
    var msh: Fields := if "MSH" in t && |t["MSH"]| > 0 then t["MSH"][0] else ["MSH"];
    Field(msh, 8)
  }

  /** The checks `validate_hl7_message` runs once the text starts with MSH: MSH-9 must
      be present, and an ADT message must carry a PID with PID-3 and should carry a PV1. */
  function ValidateSegments(t: SegmentTable): (r: Validation)
    ensures |r.errors| <= 1
    ensures forall x :: x in r.errors ==> x == MissingMsh9 || x == AdtRequiresPid || x == MissingPid3
    ensures MissingMsh !in r.errors
    ensures MissingMsh9 in r.errors <==> TableMessageType(t) == ""
    ensures AdtRequiresPid in r.errors <==> "ADT" <= TableMessageType(t) && "PID" !in t
    ensures MissingPid3 in r.errors <==>
      "ADT" <= TableMessageType(t) && "PID" in t && (|t["PID"]| == 0 || Field(t["PID"][0], 3) == "")
    ensures r.warnings == [MissingPv1] <==> "ADT" <= TableMessageType(t) && "PV1" !in t
    ensures r.warnings == [] <==> !("ADT" <= TableMessageType(t)) || "PV1" in t
  {
    var msgType := TableMessageType(t);
    var typeErrors := if msgType == "" then [MissingMsh9] else [];
    if "ADT" <= msgType then
      var pidErrors :=
        if "PID" !in t then [AdtRequiresPid]
        else if |t["PID"]| == 0 || Field(t["PID"][0], 3) == "" then [MissingPid3]
        else [];
      Validation(typeErrors + pidErrors, if "PV1" !in t then [MissingPv1] else [])
    else
      Validation(typeErrors, [])
  }

  /** On a parsed message the checks read off the segments themselves: PID is missing
      exactly when no line is a PID segment, and PID-3 is read from the first PID line. */
  lemma ValidateRecords(recs: seq<Fields>)
    ensures var r := ValidateSegments(Table(recs));
      var pids := WithName(recs, "PID");
      var adt := "ADT" <= TableMessageType(Table(recs));
      && (AdtRequiresPid in r.errors <==> adt && pids == [])
      && (MissingPid3 in r.errors <==> adt && pids != [] && Field(pids[0], 3) == "")
      && (r.warnings == [MissingPv1] <==> adt && WithName(recs, "PV1") == [])
    ensures WithName(recs, "MSH") != [] ==> TableMessageType(Table(recs)) == Field(WithName(recs, "MSH")[0], 8)
    ensures WithName(recs, "MSH") == [] ==> TableMessageType(Table(recs)) == ""
  {
    TableGroups(recs);
    ValidateGrouped(Table(recs), WithName(recs, "PID"), WithName(recs, "PV1"));
    MessageTypeOfRecords(recs);
  }

  /** The checks on a table whose PID entry is `pids` and whose PV1 entry is `pv1s`. */
  lemma ValidateGrouped(t: SegmentTable, pids: seq<Fields>, pv1s: seq<Fields>)
    requires ("PID" in t <==> pids != []) && ("PID" in t ==> t["PID"] == pids)
    requires "PV1" in t <==> pv1s != []
    ensures var r := ValidateSegments(t);
      var adt := "ADT" <= TableMessageType(t);
      && (AdtRequiresPid in r.errors <==> adt && pids == [])
      && (MissingPid3 in r.errors <==> adt && pids != [] && Field(pids[0], 3) == "")
      && (r.warnings == [MissingPv1] <==> adt && pv1s == [])
  {
  }

  /** MSH-9 of the table is MSH-9 of the first MSH record. */
  lemma MessageTypeOfRecords(recs: seq<Fields>)
    ensures WithName(recs, "MSH") != [] ==> TableMessageType(Table(recs)) == Field(WithName(recs, "MSH")[0], 8)
    ensures WithName(recs, "MSH") == [] ==> TableMessageType(Table(recs)) == ""
  {
    TableGroups(recs);
    var msh := WithName(recs, "MSH");
    if msh != [] {
      assert "MSH" in Table(recs) && Table(recs)["MSH"] == msh;
    } else {
      assert "MSH" !in Table(recs);
    }
  }

  /** `validate_hl7_message(text)`: a text that does not start with MSH gets that one
      error and nothing else; otherwise the segment checks run on the parsed table. */
  function ValidateHl7(text: string): (r: Validation)
    ensures !("MSH" <= Strip(text)) ==> r == Validation([MissingMsh], [])
    ensures "MSH" <= Strip(text) ==> r == ValidateSegments(ParsedTable(text))
  {
    if !("MSH" <= Strip(text)) then Validation([MissingMsh], [])
    else ValidateSegments(ParsedTable(text))
  }

  /** The lines the triage code scans: line endings normalised to "\n", blank lines
      dropped, the rest kept as they are. */
  function TriageLines(text: string): seq<string> {
    NonBlank(Split(ReplaceChar(ReplaceCrLf(text), '\r', '\n'), '\n'))
  }

  /** `[l for l in lines if l.strip()]` */
  function NonBlank(lines: seq<string>): (r: seq<string>)
    ensures forall i :: 0 <= i < |r| ==> !IsBlank(r[i])
  {
    if lines == [] then []
    else
      var l := lines[|lines| - 1];
      NonBlank(lines[..|lines| - 1]) + (if IsBlank(l) then [] else [l])
  }

  /** Field `idx` of the last line named `name` that has more than `idx` fields. */
  function LastField(lines: seq<string>, name: string, idx: nat): Option<string> {
    if lines == [] then None
    else
      var f := Split(lines[|lines| - 1], '|');
      if f[0] == name && |f| > idx then Some(f[idx]) else LastField(lines[..|lines| - 1], name, idx)
  }

  /** The timestamp one line contributes: MSH-7 of an MSH line with MSH-9 present, or
      PV1-44 of a PV1 line, when non-empty and read by `strptime` with `%Y%m%d%H%M%S`. */
  function LineStamp(line: string): Option<DateTime> {
    var f := Split(line, '|');
    if f[0] == "MSH" && |f| > 8 && f[6] != "" then ParseStamp(f[6], true)
    else if f[0] == "PV1" && |f| > 44 && f[44] != "" then ParseStamp(f[44], true)
    else None
  }

  /** The stamp of the last line that contributes one. */
  function LastStamp(lines: seq<string>): Option<DateTime> {
    if lines == [] then None
    else
      var s := LineStamp(lines[|lines| - 1]);
      if s.Some? then s else LastStamp(lines[..|lines| - 1])
  }

  /** Whether some line is a PV1 segment. */
  predicate HasPv1(lines: seq<string>) {
    exists i :: 0 <= i < |lines| && Split(lines[i], '|')[0] == "PV1"
  }

  lemma TriageLinesOfEmpty()
    ensures TriageLines("") == []
  {
    assert Split("", '\n') == [""];
  }

  datatype Hl7Summary = Hl7Summary(messageType: string, patientId: string, patientClass: string,
                                   encounterPresent: bool, eventTime: Option<DateTime>)

  const NoSummary: Hl7Summary := Hl7Summary("", "", "", false, None)

  /** What one line changes in the summary: an MSH line with MSH-9 sets the message
      type and, when MSH-7 parses, the event time; a PID line with PID-3 sets the
      patient id; a PV1 line marks the encounter present, sets the patient class from
      PV1-2 and, when PV1-44 parses, the event time. */
  function ScanLine(s: Hl7Summary, line: string): Hl7Summary {
    var f := Split(line, '|');
    if f[0] == "MSH" && |f| > 8 then
      var t := if f[6] != "" then ParseStamp(f[6], true) else None;
      s.(messageType := f[8], eventTime := if t.Some? then t else s.eventTime)
    else if f[0] == "PID" then
      if |f| > 3 then s.(patientId := f[3]) else s
    else if f[0] == "PV1" then
      var t := if |f| > 44 && f[44] != "" then ParseStamp(f[44], true) else None;
      s.(encounterPresent := true, patientClass := if |f| > 2 then f[2] else s.patientClass,
         eventTime := if t.Some? then t else s.eventTime)
    else s
  }

  /** The summary after scanning `lines` in order. */
  function ScanLines(lines: seq<string>): Hl7Summary {
    if lines == [] then NoSummary else ScanLine(ScanLines(lines[..|lines| - 1]), lines[|lines| - 1])
  }

  lemma HasPv1Snoc(lines: seq<string>, l: string)
    ensures HasPv1(lines + [l]) <==> HasPv1(lines) || Split(l, '|')[0] == "PV1"
  {
    if HasPv1(lines) {
      var i :| 0 <= i < |lines| && Split(lines[i], '|')[0] == "PV1";
      assert (lines + [l])[i] == lines[i];
    }
    if HasPv1(lines + [l]) {
      var i :| 0 <= i < |lines + [l]| && Split((lines + [l])[i], '|')[0] == "PV1";
      if i < |lines| {
        assert (lines + [l])[i] == lines[i];
      }
    }
    if Split(l, '|')[0] == "PV1" {
      assert (lines + [l])[|lines|] == l;
    }
  }

  /** Scanning keeps, for each field, the value of the last line that sets it. */
  lemma {:induction false} ScanLinesReads(lines: seq<string>)
    ensures var s := ScanLines(lines);
      && s.messageType == LastField(lines, "MSH", 8).GetOr("")
      && s.patientId == LastField(lines, "PID", 3).GetOr("")
      && s.patientClass == LastField(lines, "PV1", 2).GetOr("")
      && (s.encounterPresent <==> HasPv1(lines))
      && s.eventTime == LastStamp(lines)
  {
    if lines != [] {
      var front := lines[..|lines| - 1];
      var l := lines[|lines| - 1];
      ScanLinesReads(front);
      assert lines == front + [l];
      HasPv1Snoc(front, l);
    } else {
      assert !HasPv1(lines);
    }
  }

  /** `extract_hl7_summary(text)`: total, it never fails. Every line is scanned and later
      lines overwrite earlier ones, so the last MSH-9, the last PID-3 and the last PV1-2
      win; the event time is the last stamp that parses, whether MSH-7 or PV1-44. */
  method ExtractHl7Summary(text: string) returns (s: Hl7Summary)
    ensures text == "" ==> s == NoSummary
    ensures s.messageType == LastField(TriageLines(text), "MSH", 8).GetOr("")
    ensures s.patientId == LastField(TriageLines(text), "PID", 3).GetOr("")
    ensures s.patientClass == LastField(TriageLines(text), "PV1", 2).GetOr("")
    ensures s.encounterPresent <==> HasPv1(TriageLines(text))
    ensures s.eventTime == LastStamp(TriageLines(text))
  {
    s := NoSummary;
    if text == "" {
      TriageLinesOfEmpty();
      ScanLinesReads([]);
      return;
    }
    var lines := TriageLines(text);
    var i := 0;
    while i < |lines|
      invariant 0 <= i <= |lines|
      invariant s == ScanLines(lines[..i])
    {
      assert lines[..i + 1][..i] == lines[..i];
      assert ScanLines(lines[..i + 1]) == ScanLine(s, lines[i]);
      var fields := Split(lines[i], '|');
      var segment := fields[0];
      if segment == "MSH" && |fields| > 8 {
        s := s.(messageType := fields[8]);
        if |fields| > 6 && fields[6] != "" {
          var t := ParseStamp(fields[6], true);
          if t.Some? {
            s := s.(eventTime := t);
          }
        }
      } else if segment == "PID" {
        if |fields| > 3 {
          s := s.(patientId := fields[3]);
        }
      } else if segment == "PV1" {
        s := s.(encounterPresent := true);
        if |fields| > 2 {
          s := s.(patientClass := fields[2]);
        }
        if |fields| > 44 && fields[44] != "" {
          var t := ParseStamp(fields[44], true);
          if t.Some? {
            s := s.(eventTime := t);
          }
        }
      }
      i := i + 1;
    }
    assert lines[..|lines|] == lines;
    ScanLinesReads(lines);
  }

  datatype SourceContext = SourceContext(standard: string, interfaceType: string,
                                         sendingApplication: string, sendingFacility: string)

  /** `extract_source_context_from_msh(text)`: who sent the message, from the first MSH
      line (MSH-3 and MSH-4), and the interface type, the part of MSH-9 before any `^`. */
  function ExtractSourceContext(text: string): (r: SourceContext)
    ensures r.standard == "HL7 v2"
    ensures '^' !in r.interfaceType
    ensures FirstWithPrefix(TriageLines(text), "MSH").None? ==> r == SourceContext("HL7 v2", "", "", "")
    ensures FirstWithPrefix(TriageLines(text), "MSH").Some? ==>
      var f := Split(FirstWithPrefix(TriageLines(text), "MSH").value, '|');
      && r.sendingApplication == Field(f, 2)
      && r.sendingFacility == Field(f, 3)
      && r.interfaceType <= Field(f, 8)
      && (r.interfaceType == Field(f, 8) || Field(f, 8)[|r.interfaceType|] == '^')
  {
    var none := SourceContext("HL7 v2", "", "", "");
    if text == "" then none
    else
      match FirstWithPrefix(TriageLines(text), "MSH")
      case None => none
      case Some(msh) =>
        var f := Split(msh, '|');
        var msgType := Field(f, 8);
        SplitHeadIsPrefix(msgType, '^');
        SourceContext("HL7 v2", if msgType != "" then Split(msgType, '^')[0] else "", Field(f, 2), Field(f, 3))
  }
}
