/** The PID and PV1 extractors (`hl7_to_fhir_patient`, `hl7_to_fhir_encounter` in
    example/hl7_utils.py): the first PID segment of a parsed message becomes a FHIR
    Patient and the first PV1 segment a FHIR Encounter. Field positions follow
    chapter 3 of HL7 v2.x; a field or component that is not there reads as empty. */
module Hl7Fhir {
  import opened Wrappers
  import opened Text
  import opened Hl7Segments
  import opened Timestamps

  datatype Gender = Male | Female | Unknown

  /** The FHIR administrative-gender code. */
  function GenderCode(g: Gender): string {
    match g
    case Male => "male"
    case Female => "female"
    case Unknown => "unknown"
  }

  datatype Identifier = Identifier(system: string, value: string)

  /** `{"family": ..., "given": [...]}`; the source always builds exactly one name. */
  datatype HumanName = HumanName(family: string, given: seq<string>)

  /** `{"line": [...], "city": ..., "state": ..., "postalCode": ...}`; absent parts are `None`. */
  datatype Address = Address(line: seq<string>, city: Option<string>, state: Option<string>,
                             postalCode: Option<string>)

  datatype Patient = Patient(id: Option<string>, identifier: seq<Identifier>, name: HumanName,
                             gender: Gender, birthDate: Option<string>, address: Address)

  const MrnSystem: string := "urn:example:hospital-mrn"

  /** `field.split('^') if field else []` */
  function Components(field: string): seq<string> {
    if field == "" then [] else Split(field, '^')
  }

  /** Python's `s or None`. */
  function NonEmpty(s: string): (r: Option<string>)
    ensures r.None? <==> s == ""
    ensures r.Some? ==> r.value == s
  {
    if s == "" then None else Some(s)
  }

  /** The first segment under `name`, if the table lists any (`segments.get(name)` truthy). */
  function FirstSegment(table: SegmentTable, name: string): Option<Fields> {
    if name in table && |table[name]| > 0 then Some(table[name][0]) else None
  }

  /** `YYYYMMDD -> YYYY-MM-DD` by slicing alone: no calendar check. */
  function BirthDate(raw: string): (r: Option<string>)
    ensures r.None? <==> raw == ""
    ensures r.Some? ==> r.value == Slice(raw, 0, 4) + "-" + Slice(raw, 4, 6) + "-" + Slice(raw, 6, 8)
  {
    if raw == "" then None
    else Some(Slice(raw, 0, 4) + "-" + Slice(raw, 4, 6) + "-" + Slice(raw, 6, 8))
  }

  function GenderOf(code: string): (g: Gender)
    ensures g == Male <==> code == "M"
    ensures g == Female <==> code == "F"
  {
    if code == "M" then Male else if code == "F" then Female else Unknown
  }

  /** `hl7_to_fhir_patient(segments)`. PID-3 gives the identifier (its first
      component), PID-5 the name, PID-7 the birth date, PID-8 the gender and PID-11 the
      address (components 0, 2, 3 and 4). */
  function PatientFrom(table: SegmentTable): (r: Option<Patient>)
    ensures r.None? <==> FirstSegment(table, "PID").None?
    ensures r.Some? ==>
      var pid := FirstSegment(table, "PID").value;
      var p := r.value;
      && (p.identifier == [] <==> Split(Field(pid, 3), '^')[0] == "")
      && (p.id.None? <==> p.identifier == [])
      && (p.id.Some? ==> p.identifier == [Identifier(MrnSystem, p.id.value)])
      && (p.gender == Male <==> Field(pid, 8) == "M")
      && (p.gender == Female <==> Field(pid, 8) == "F")
      && p.id == NonEmpty(Split(Field(pid, 3), '^')[0])
      && (p.birthDate.None? <==> Field(pid, 7) == "")
      && p.birthDate == BirthDate(Field(pid, 7))
      && p.name.family == Field(Split(Field(pid, 5), '^'), 0)
      && p.name.given == (if Field(Split(Field(pid, 5), '^'), 1) != "" then [Field(Split(Field(pid, 5), '^'), 1)] else [])
      && p.address.line == (if Field(Split(Field(pid, 11), '^'), 0) != "" then [Field(Split(Field(pid, 11), '^'), 0)] else [])
      && p.address.city == NonEmpty(Field(Split(Field(pid, 11), '^'), 2))
      && p.address.state == NonEmpty(Field(Split(Field(pid, 11), '^'), 3))
      && p.address.postalCode == NonEmpty(Field(Split(Field(pid, 11), '^'), 4))
  {
    match FirstSegment(table, "PID")
    case None => None
    case Some(pid) =>
      var idParts := Components(Field(pid, 3));
      var patientId := if idParts != [] then idParts[0] else "";
      var nameParts := Components(Field(pid, 5));
      var family := Field(nameParts, 0);
      var given := Field(nameParts, 1);
      var addr := Components(Field(pid, 11));
      var line1 := Field(addr, 0);
      Some(Patient(
        id := NonEmpty(patientId),
        identifier := if patientId != "" then [Identifier(MrnSystem, patientId)] else [],
        name := HumanName(family, if given != "" then [given] else []),
        gender := GenderOf(Field(pid, 8)),
        birthDate := BirthDate(Field(pid, 7)),
        address := Address(if line1 != "" then [line1] else [], NonEmpty(Field(addr, 2)),
                           NonEmpty(Field(addr, 3)), NonEmpty(Field(addr, 4)))))
  }

  datatype ClassCode = IMP | AMB | EMER

  /** The v3 ActCode for a PV1-2 patient class; anything unlisted is ambulatory. */
  function ClassFor(cls: string): (c: ClassCode)
    ensures c == IMP <==> cls == "I"
    ensures c == EMER <==> cls == "E"
    ensures c == AMB <==> cls != "I" && cls != "E"
  {
    if cls == "I" then IMP else if cls == "O" then AMB else if cls == "E" then EMER else AMB
  }

  /** The encounter's status is always "in-progress"; `subject` is `Patient/<id>`,
      `periodStart` the ISO admit time, `location` the PV1-3 display text. */
  datatype Encounter = Encounter(classCode: ClassCode, subject: Option<string>,
                                 periodStart: Option<string>, location: Option<string>)

  /** The admit time when PV1-44 holds at least 12 characters: `Success(None)` when it is
      shorter, `Failure` for the `ValueError` that `strptime` raises on the first 12. */
  function AdmitStart(raw: string): (r: Result<Option<string>, string>)
    ensures r.Failure? <==> |raw| >= 12 && ParseStamp(raw[..12], false).None?
    ensures r.Success? && r.value.Some? ==>
      |raw| >= 12 && r.value.value ==
        raw[0..4] + "-" + raw[4..6] + "-" + ReplaceChar(raw[6..8], ' ', '0') + "T" + raw[8..10] + ":" + raw[10..12] + ":00"
  {
    if |raw| >= 12 then
      match ParseStamp(raw[..12], false)
      case None => Failure("ValueError: PV1-44 does not match format %Y%m%d%H%M")
      case Some(dt) =>
        AdmitIso(raw);
        Success(Some(IsoFormat(dt)))
    else Success(None)
  }

  /** The first 12 characters of PV1-44, once parsed, render as that text punctuated,
      a space-padded day zero-filled. */
  lemma AdmitIso(raw: string)
    requires |raw| >= 12 && ParseStamp(raw[..12], false).Some?
    ensures IsoFormat(ParseStamp(raw[..12], false).value) ==
      raw[0..4] + "-" + raw[4..6] + "-" + ReplaceChar(raw[6..8], ' ', '0') + "T" + raw[8..10] + ":" + raw[10..12] + ":00"
  {
    var s := raw[..12];
    IsoFormatOfMinuteStamp(s);
    assert s[0..4] == raw[0..4] && s[4..6] == raw[4..6] && s[6..8] == raw[6..8];
    assert s[8..10] == raw[8..10] && s[10..12] == raw[10..12];
  }

  /** `hl7_to_fhir_encounter(segments, patient_id)`. The result is `Success(None)`
      exactly when there is no PV1, and `Failure` exactly when the admit time is
      malformed; the location is PV1-3 verbatim, since splitting on `^` and joining
      again changes nothing. */
  function EncounterFrom(table: SegmentTable, patientId: Option<string>): (r: Result<Option<Encounter>, string>)
    ensures r == Success(None) <==> FirstSegment(table, "PV1").None?
    ensures r.Failure? <==> FirstSegment(table, "PV1").Some? && AdmitStart(Field(FirstSegment(table, "PV1").value, 44)).Failure?
    ensures r.Success? && r.value.Some? ==>
      var pv1 := FirstSegment(table, "PV1").value;
      var e := r.value.value;
      && e.classCode == ClassFor(Field(pv1, 2))
      && (e.subject.None? <==> patientId.None? || patientId.value == "")
      && (e.subject.Some? ==> e.subject.value == "Patient/" + patientId.value)
      && e.location == NonEmpty(Field(pv1, 3))
      && e.periodStart == AdmitStart(Field(pv1, 44)).value
      && (e.periodStart.None? <==> |Field(pv1, 44)| < 12)
  {
    match FirstSegment(table, "PV1")
    case None => Success(None)
    case Some(pv1) =>
      var locParts := Components(Field(pv1, 3));
      var location := if locParts != [] then Some(Join(locParts, '^')) else None;
      JoinSplit(Field(pv1, 3), '^');
      match AdmitStart(Field(pv1, 44))
      case Failure(e) => Failure(e)
      case Success(start) =>
        var subject := if patientId.Some? && patientId.value != "" then Some("Patient/" + patientId.value) else None;
        Success(Some(Encounter(ClassFor(Field(pv1, 2)), subject, start, location)))
  }
}
