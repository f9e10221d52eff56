/** The lab-result converter (`hl7_oru_to_fhir` in example/hl7_utils.py): an HL7 v2
    ORU^R01 message becomes one FHIR Observation per OBX segment and a
    DiagnosticReport that lists them. Segments are recognised by prefix; PID, OBR and
    OBX field positions follow chapters 3 and 7 of HL7 v2.x. */
module Hl7Oru {
  import opened Wrappers
  import opened Text
  import opened Hl7Segments

  /** What the converter keeps of a PID segment. */
  datatype PidInfo = PidInfo(id: string, family: string, given: string, dob: string, sex: string)

  /** What the converter keeps of an OBR segment: OBR-3, OBR-4 split into code and
      description, and OBR-7 verbatim. */
  datatype ObrInfo = ObrInfo(id: string, code: string, description: string, date: string)

  /** One OBX segment; `abnormal` is `None` when OBX-8 is not there at all. */
  datatype ObxRow = ObxRow(setId: string, valueType: string, code: string, description: string,
                           value: string, unit: string, refRange: string, abnormal: Option<string>)

  /** A FHIR Observation (status "final", coded in LOINC). */
  datatype Observation = Observation(id: string, code: string, display: string, valueString: string,
                                     note: Option<string>, subject: Option<string>,
                                     effective: Option<string>)

  /** A FHIR DiagnosticReport (status "final"); code and display are `None` when the
      message has no OBR. */
  datatype DiagnosticReport = DiagnosticReport(code: Option<string>, display: Option<string>,
                                               result: seq<string>, subject: Option<string>,
                                               effective: Option<string>)

  datatype OruResult = OruResult(messageType: string, rawHl7: string, patientId: Option<string>,
                                 report: DiagnosticReport, observations: seq<Observation>)

  const DefaultOruType: string := "ORU^R01"

  /** The message type: MSH-9 of the first line starting with MSH when that is
      non-empty, otherwise `ORU^R01`. */
  function OruMessageType(lines: seq<string>): (t: string)
    ensures t != ""
    ensures FirstWithPrefix(lines, "MSH").None? ==> t == DefaultOruType
    ensures FirstWithPrefix(lines, "MSH").Some? && Field(Split(FirstWithPrefix(lines, "MSH").value, '|'), 8) != "" ==>
      t == Field(Split(FirstWithPrefix(lines, "MSH").value, '|'), 8)
  {
    match FirstWithPrefix(lines, "MSH")
    case None => DefaultOruType
    case Some(msh) =>
      var t := Field(Split(msh, '|'), 8);
      if t != "" then t else DefaultOruType
  }

  /** The code and description in a `code^description` field. */
  function CodePart(field: string): string {
    if field == "" then "" else Field(Split(field, '^'), 0)
  }

  function DescriptionPart(field: string): string {
    if field == "" then "" else Field(Split(field, '^'), 1)
  }

  function PidOf(line: string): PidInfo {
    var f := Split(line, '|');
    PidInfo(Field(f, 3), CodePart(Field(f, 5)), DescriptionPart(Field(f, 5)), Field(f, 7), Field(f, 8))
  }

  function ObrOf(line: string): ObrInfo {
    var f := Split(line, '|');
    ObrInfo(Field(f, 3), CodePart(Field(f, 4)), DescriptionPart(Field(f, 4)), Field(f, 7))
  }

  function ObxOf(line: string): ObxRow {
    var f := Split(line, '|');
    ObxRow(Field(f, 1), Field(f, 2), CodePart(Field(f, 3)), DescriptionPart(Field(f, 3)),
           Field(f, 5), Field(f, 6), Field(f, 7), if |f| > 8 then Some(f[8]) else None)
  }

  /** The PID of the last line starting with PID: every such line overwrites the last. */
  function LastPid(lines: seq<string>): Option<PidInfo> {
    if lines == [] then None
    else if "PID" <= lines[|lines| - 1] then Some(PidOf(lines[|lines| - 1]))
    else LastPid(lines[..|lines| - 1])
  }

  /** The OBR of the last line starting with OBR. */
  function LastObr(lines: seq<string>): Option<ObrInfo> {
    if lines == [] then None
    else if "OBR" <= lines[|lines| - 1] then Some(ObrOf(lines[|lines| - 1]))
    else LastObr(lines[..|lines| - 1])
  }

  /** One row per line starting with OBX, in input order. */
  function ObxRows(lines: seq<string>): (rows: seq<ObxRow>)
    ensures |rows| <= |lines|
  {
    if lines == [] then []
    else
      var l := lines[|lines| - 1];
      ObxRows(lines[..|lines| - 1]) + (if "OBX" <= l then [ObxOf(l)] else [])
  }

  /** The number of lines starting with `p`. */
  function CountWithPrefix(lines: seq<string>, p: string): nat {
    if lines == [] then 0
    else CountWithPrefix(lines[..|lines| - 1], p) + (if p <= lines[|lines| - 1] then 1 else 0)
  }

  /** `obx-<n>`, the id of the `n`-th observation (counted from 1). */
  function ObservationId(n: nat): string {
    "obx-" + NatStr(n)
  }

  /** `Patient/<id>` when the patient id is present and non-empty. */
  function SubjectRef(patientId: Option<string>): (r: Option<string>)
    ensures r.Some? <==> patientId.Some? && patientId.value != ""
    ensures r.Some? ==> r.value == "Patient/" + patientId.value
  {
    if patientId.Some? && patientId.value != "" then Some("Patient/" + patientId.value) else None
  }

  /** OBR-7 when an OBR is there and its date is non-empty. */
  function EffectiveOf(obr: Option<ObrInfo>): (r: Option<string>)
    ensures r.Some? <==> obr.Some? && obr.value.date != ""
    ensures r.Some? ==> r.value == obr.value.date
  {
    if obr.Some? && obr.value.date != "" then Some(obr.value.date) else None
  }

  /** The note an OBX row carries when it has a unit or a reference range. */
  function NoteOf(row: ObxRow): (r: Option<string>)
    ensures r.None? <==> row.unit == "" && row.refRange == ""
  {
    if row.unit != "" || row.refRange != "" then Some("Unit: " + row.unit + "  RefRange: " + row.refRange)
    else None
  }

  /** The `n`-th observation, built from its OBX row. */
  function ObservationOf(row: ObxRow, n: nat, patientId: Option<string>, obr: Option<ObrInfo>): Observation {
    Observation(ObservationId(n), row.code, row.description, row.value, NoteOf(row),
                SubjectRef(patientId), EffectiveOf(obr))
  }

  lemma LastPidSnoc(lines: seq<string>, l: string)
    ensures LastPid(lines + [l]) == if "PID" <= l then Some(PidOf(l)) else LastPid(lines)
  {
    assert (lines + [l])[..|lines|] == lines;
  }

  lemma LastObrSnoc(lines: seq<string>, l: string)
    ensures LastObr(lines + [l]) == if "OBR" <= l then Some(ObrOf(l)) else LastObr(lines)
  {
    assert (lines + [l])[..|lines|] == lines;
  }

  lemma ObxRowsSnoc(lines: seq<string>, l: string)
    ensures ObxRows(lines + [l]) == ObxRows(lines) + if "OBX" <= l then [ObxOf(l)] else []
  {
    assert (lines + [l])[..|lines|] == lines;
  }

  /** The loop that finds the message type: MSH-9 of the first MSH line, when present. */
  method FindOruType(lines: seq<string>) returns (msgType: string)
    ensures msgType == OruMessageType(lines)
  {
    msgType := DefaultOruType;
    var i := 0;
    while i < |lines|
      invariant 0 <= i <= |lines|
      invariant forall j :: 0 <= j < i ==> !("MSH" <= lines[j])
      invariant msgType == DefaultOruType
    {
      if "MSH" <= lines[i] {
        var fields := Split(lines[i], '|');
        if |fields| > 8 && fields[8] != "" {
          msgType := fields[8];
        }
        break;
      }
      i := i + 1;
    }
    assert msgType == OruMessageType(lines) by {
      if i < |lines| {
        assert FirstIndexWithPrefix(lines, "MSH") == i;
      }
    }
  }

  /** The loop over the segments: the last PID and OBR lines win, and every OBX line
      gives one row, in order. */
  method ScanOru(lines: seq<string>) returns (pid: Option<PidInfo>, obr: Option<ObrInfo>, rows: seq<ObxRow>)
    ensures pid == LastPid(lines) && obr == LastObr(lines) && rows == ObxRows(lines)
  {
    pid := None;
    obr := None;
    rows := [];
    var i := 0;
    while i < |lines|
      invariant 0 <= i <= |lines|
      invariant pid == LastPid(lines[..i])
      invariant obr == LastObr(lines[..i])
      invariant rows == ObxRows(lines[..i])
    {
      assert lines[..i + 1] == lines[..i] + [lines[i]];
      LastPidSnoc(lines[..i], lines[i]);
      LastObrSnoc(lines[..i], lines[i]);
      ObxRowsSnoc(lines[..i], lines[i]);
      var seg := lines[i];
      if "PID" <= seg {
        pid := Some(PidOf(seg));
      }
      if "OBR" <= seg {
        obr := Some(ObrOf(seg));
      }
      if "OBX" <= seg {
        rows := rows + [ObxOf(seg)];
      }
      i := i + 1;
    }
    assert lines[..|lines|] == lines;
  }

  /** The loop that numbers the observations from 1 and lists a reference to each. */
  method BuildObservations(rows: seq<ObxRow>, patientId: Option<string>, obr: Option<ObrInfo>)
    returns (observations: seq<Observation>, refs: seq<string>)
    ensures |observations| == |rows| && |refs| == |rows|
    ensures forall j :: 0 <= j < |rows| ==> observations[j] == ObservationOf(rows[j], j + 1, patientId, obr)
    ensures forall j :: 0 <= j < |rows| ==> refs[j] == "Observation/" + observations[j].id
  {
    observations := [];
    refs := [];
    var k := 0;
    while k < |rows|
      invariant 0 <= k <= |rows|
      invariant |observations| == k && |refs| == k
      invariant forall j :: 0 <= j < k ==> observations[j] == ObservationOf(rows[j], j + 1, patientId, obr)
      invariant forall j :: 0 <= j < k ==> refs[j] == "Observation/" + observations[j].id
    {
      var obs := ObservationOf(rows[k], k + 1, patientId, obr);
      observations := observations + [obs];
      refs := refs + ["Observation/" + ObservationId(k + 1)];
      k := k + 1;
    }
  }

  /** The conversion proper, over the stripped, non-blank lines of the message. */
  method OruFromLines(text: string, lines: seq<string>) returns (r: OruResult)
    ensures r.rawHl7 == text
    ensures r.messageType == OruMessageType(lines)
    ensures LastPid(lines).None? ==> r.patientId.None?
    ensures LastPid(lines).Some? ==> r.patientId == Some(LastPid(lines).value.id)
    ensures |r.observations| == |ObxRows(lines)|
    ensures forall k :: 0 <= k < |r.observations| ==>
      r.observations[k] == ObservationOf(ObxRows(lines)[k], k + 1, r.patientId, LastObr(lines))
    ensures |r.report.result| == |r.observations|
    ensures forall k :: 0 <= k < |r.report.result| ==> r.report.result[k] == "Observation/" + r.observations[k].id
    ensures r.report.subject == SubjectRef(r.patientId)
    ensures r.report.effective == EffectiveOf(LastObr(lines))
    ensures LastObr(lines).None? ==> r.report.code.None? && r.report.display.None?
    ensures LastObr(lines).Some? ==>
      r.report.code == Some(LastObr(lines).value.code) &&
      r.report.display == Some(LastObr(lines).value.description)
  {
    var msgType := FindOruType(lines);
    var pid, obr, rows := ScanOru(lines);
    var patientId := if pid.Some? then Some(pid.value.id) else None;
    var observations, refs := BuildObservations(rows, patientId, obr);
    var report := DiagnosticReport(
      if obr.Some? then Some(obr.value.code) else None,
      if obr.Some? then Some(obr.value.description) else None,
      refs, SubjectRef(patientId), EffectiveOf(obr));
    r := OruResult(msgType, text, patientId, report, observations);
  }

  /** `hl7_oru_to_fhir(text)`. The k-th observation (from 0) is built from the k-th OBX
      line and is named `obx-<k+1>`; the report lists exactly those observations, in
      order; patient and OBR details come from the last PID and OBR lines. */
  method OruToFhir(text: string) returns (r: OruResult)
    ensures r.rawHl7 == text
    ensures r.messageType == OruMessageType(SegmentLines(text))
    ensures LastPid(SegmentLines(text)).None? ==> r.patientId.None?
    ensures LastPid(SegmentLines(text)).Some? ==> r.patientId == Some(LastPid(SegmentLines(text)).value.id)
    ensures |r.observations| == |ObxRows(SegmentLines(text))|
    ensures forall k :: 0 <= k < |r.observations| ==>
      r.observations[k] == ObservationOf(ObxRows(SegmentLines(text))[k], k + 1, r.patientId, LastObr(SegmentLines(text)))
    ensures |r.report.result| == |r.observations|
    ensures forall k :: 0 <= k < |r.report.result| ==> r.report.result[k] == "Observation/" + r.observations[k].id
    ensures r.report.subject == SubjectRef(r.patientId)
    ensures r.report.effective == EffectiveOf(LastObr(SegmentLines(text)))
    ensures LastObr(SegmentLines(text)).None? ==> r.report.code.None? && r.report.display.None?
    ensures LastObr(SegmentLines(text)).Some? ==>
      r.report.code == Some(LastObr(SegmentLines(text)).value.code) &&
      r.report.display == Some(LastObr(SegmentLines(text)).value.description)
  {
    r := OruFromLines(text, SegmentLines(text));
  }

  /** The OBX lines, and only they, become observations. */
  lemma {:induction false} ObxRowsCount(lines: seq<string>)
    ensures |ObxRows(lines)| == CountWithPrefix(lines, "OBX")
  {
    if lines != [] {
      ObxRowsCount(lines[..|lines| - 1]);
    }
  }

  /** Rows come out in input order: the rows of a message are the rows of its first
      part followed by those of the rest. */
  lemma {:induction false} ObxRowsAppend(a: seq<string>, b: seq<string>)
    ensures ObxRows(a + b) == ObxRows(a) + ObxRows(b)
  {
    if b == [] {
      assert a + b == a;
    } else {
      var front := b[..|b| - 1];
      assert a + b == (a + front) + [b[|b| - 1]];
      ObxRowsAppend(a, front);
      ObxRowsSnoc(a + front, b[|b| - 1]);
      ObxRowsSnoc(front, b[|b| - 1]);
      assert b == front + [b[|b| - 1]];
    }
  }

  /** A later PID line overrides every earlier one: the patient details come from the
      last PID of the message, not the first. */
  lemma {:induction false} LastPidAppend(a: seq<string>, b: seq<string>)
    ensures LastPid(a + b) == if LastPid(b).Some? then LastPid(b) else LastPid(a)
  {
    if b == [] {
      assert a + b == a;
    } else {
      var front := b[..|b| - 1];
      assert a + b == (a + front) + [b[|b| - 1]];
      LastPidAppend(a, front);
      LastPidSnoc(a + front, b[|b| - 1]);
      LastPidSnoc(front, b[|b| - 1]);
      assert b == front + [b[|b| - 1]];
    }
  }

  /** Likewise a later OBR line overrides every earlier one. */
  lemma {:induction false} LastObrAppend(a: seq<string>, b: seq<string>)
    ensures LastObr(a + b) == if LastObr(b).Some? then LastObr(b) else LastObr(a)
  {
    if b == [] {
      assert a + b == a;
    } else {
      var front := b[..|b| - 1];
      assert a + b == (a + front) + [b[|b| - 1]];
      LastObrAppend(a, front);
      LastObrSnoc(a + front, b[|b| - 1]);
      LastObrSnoc(front, b[|b| - 1]);
      assert b == front + [b[|b| - 1]];
    }
  }

  /** Distinct positions get distinct observation ids, so every reference in the report
      names exactly one observation. */
  lemma ObservationIdsDistinct(m: nat, n: nat)
    requires m != n
    ensures ObservationId(m) != ObservationId(n)
  {
    if ObservationId(m) == ObservationId(n) {
      assert NatStr(m) == ObservationId(m)[4..];
      assert NatStr(n) == ObservationId(n)[4..];
      NatStrValue(m);
      NatStrValue(n);
    }
  }

  /** The observations `OruToFhir` numbers one after another have pairwise distinct ids. */
  lemma ObservationIdsUnique(obs: seq<Observation>)
    requires forall k :: 0 <= k < |obs| ==> obs[k].id == ObservationId(k + 1)
    ensures forall j, k :: 0 <= j < k < |obs| ==> obs[j].id != obs[k].id
  {
    forall j, k | 0 <= j < k < |obs|
      ensures obs[j].id != obs[k].id
    {
      ObservationIdsDistinct(j + 1, k + 1);
    }
  }
}
