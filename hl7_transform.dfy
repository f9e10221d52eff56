/** The end-to-end HL7 transform (`hl7_to_all`, example/hl7_utils.py): the message type
    in MSH-9 picks the pipeline. An ADT message becomes a FHIR Patient and Encounter
    and, when both exist, an 837 claim, the 835 remittance of a "paid" outcome and
    their reconciliation; an ORU message goes to the ORU converter; any other type is
    reported as unsupported. */
module Hl7Transform {
  import opened Wrappers
  import opened Text
  import opened Hl7Segments
  import opened Hl7Fhir
  import opened Hl7Oru
  import opened X12Money
  import opened X12Document
  import opened X12Claim
  import opened X12Remit

  /** The billing artefacts of an admission. */
  datatype ClaimChain = ClaimChain(x837: string, x835: string, reconciliation: Reconciliation)

  datatype Transform =
    | Undetermined(rawHl7: string)
    | Admission(messageType: string, rawHl7: string, patient: Option<Patient>,
                encounter: Option<Encounter>, claim: Option<ClaimChain>)
    | Observations(result: OruResult)
    | Unsupported(messageType: string, rawHl7: string)

  /** The lines `hl7_to_all` scans for MSH: the stripped text split on newlines, each
      line kept as it is. */
  function TransformLines(text: string): seq<string> {
    Split(Strip(text), '\n')
  }

  /** MSH-9 of the first line starting with MSH; empty when there is no such line or it
      has no MSH-9 (both read as "not determined"). */
  function MshType(lines: seq<string>): (t: string)
    ensures FirstWithPrefix(lines, "MSH").None? ==> t == ""
    ensures t != "" ==> exists k :: 0 <= k < |lines| && "MSH" <= lines[k] && Field(Split(lines[k], '|'), 8) == t
  {
    match FirstWithPrefix(lines, "MSH")
    case None => ""
    case Some(msh) => Field(Split(msh, '|'), 8)
  }

  /** The loop that finds the message type: it stops at the first MSH line. */
  method FindMessageType(lines: seq<string>) returns (t: string)
    ensures t == MshType(lines)
  {
    t := "";
    var i := 0;
    while i < |lines|
      invariant 0 <= i <= |lines|
      invariant forall j :: 0 <= j < i ==> !("MSH" <= lines[j])
    {
      if "MSH" <= lines[i] {
        var fields := Split(lines[i], '|');
        t := if |fields| > 8 then fields[8] else "";
        FirstWithPrefixAt(lines, "MSH", i);
        return;
      }
      i := i + 1;
    }
  }

  /** `(patient.get("identifier") or [{}])[0].get("value") or patient.get("id")`: the
      identifier's value, which is the id whenever there is one. */
  function PatientIdOf(patient: Option<Patient>): Option<string> {
    if patient.Some? then patient.value.id else None
  }

  /** What an ADT message becomes: the Patient and Encounter of its parsed segments,
      then, when both exist, the claim, the remittance for a "paid" outcome and their
      reconciliation. A malformed admit time, a remittance that cannot be generated and
      a reconciliation that fails all fail the transform. */
  function AdmissionOf(messageType: string, text: string, table: SegmentTable): Result<Transform, string> {
    var patient := PatientFrom(table);
    match EncounterFrom(table, PatientIdOf(patient))
    case Failure(e) => Failure(e)
    case Success(encounter) =>
      if patient.Some? && encounter.Some? then
        var x837 := Claim837(patient.value, encounter.value);
        match Generate835(x837, "paid")
        case Failure(e) => Failure(e)
        case Success(x835) =>
          match Reconciled(x837, x835)
          case Failure(e) => Failure(e)
          case Success(rec) =>
            Success(Admission(messageType, text, patient, encounter, Some(ClaimChain(x837, x835, rec))))
      else Success(Admission(messageType, text, patient, encounter, None))
  }

  /** `hl7_to_all(text)`. */
  method Hl7ToAll(text: string) returns (r: Result<Transform, string>)
    ensures var t := MshType(TransformLines(text));
      && (t == "" ==> r == Success(Undetermined(text)))
      && (t != "" && "ADT" <= t ==> r == AdmissionOf(t, text, Table(Records(SegmentLines(text)))))
      && (t != "" && !("ADT" <= t) && "ORU" <= t ==>
            && r.Success? && r.value.Observations?
            && r.value.result.rawHl7 == text
            && r.value.result.messageType == OruMessageType(SegmentLines(text))
            && |r.value.result.observations| == |ObxRows(SegmentLines(text))|)
      && (t != "" && !("ADT" <= t) && !("ORU" <= t) ==> r == Success(Unsupported(t, text)))
  {
    var t := FindMessageType(TransformLines(text));
    if t == "" {
      return Success(Undetermined(text));
    }
    if "ADT" <= t {
      var table := ParseHl7(text);
      var patient := PatientFrom(table);
      var encounter := EncounterFrom(table, PatientIdOf(patient));
      if encounter.Failure? {
        return Failure(encounter.error);
      }
      if patient.Some? && encounter.value.Some? {
        var x837 := Claim837(patient.value, encounter.value.value);
        var x835 := Generate835(x837, "paid");
        if x835.Failure? {
          return Failure(x835.error);
        }
        var rec := Reconcile837835(x837, x835.value);
        if rec.Failure? {
          return Failure(rec.error);
        }
        return Success(Admission(t, text, patient, encounter.value, Some(ClaimChain(x837, x835.value, rec.value))));
      }
      return Success(Admission(t, text, patient, encounter.value, None));
    }
    if "ORU" <= t {
      var result := OruToFhir(text);
      return Success(Observations(result));
    }
    return Success(Unsupported(t, text));
  }

  /** An admission without a PID, or without a PV1, carries no claim. */
  lemma AdmissionWithoutClaim(messageType: string, text: string, table: SegmentTable)
    requires FirstSegment(table, "PID").None? || FirstSegment(table, "PV1").None?
    ensures var r := AdmissionOf(messageType, text, table);
      r.Success? ==> r.value.Admission? && r.value.claim.None?
  {
  }

  /** The transform of an ADT message fails whenever its admit time is malformed. */
  lemma AdmissionFailsOnAdmitTime(messageType: string, text: string, table: SegmentTable)
    requires FirstSegment(table, "PV1").Some?
    requires AdmitStart(Field(FirstSegment(table, "PV1").value, 44)).Failure?
    ensures AdmissionOf(messageType, text, table).Failure?
  {
  }

  /** The patient's share of the demonstration claim's 150.00: the payer pays 80%. */
  lemma DemoAdjudication()
    ensures Adjudicate(15000, "paid") ==
      Adjudication(Processed, 12000, 3000, [["CAS", "PR", "1", FormatCents(3000)]])
  {
  }

  /** A claim for 150.00 answered with a "paid" remittance reconciles to a payment of
      120.00, the patient owing 30.00 as one PR adjustment, and nothing left for the payer
      to settle. */
  lemma PaidRemitOf(doc837: string, id: string)
    requires Parse837(doc837) == Success(Some(ClaimInfo(id, 15000)))
    ensures Generate835(doc837, "paid").Success?
    ensures Reconciled(doc837, Generate835(doc837, "paid").value) ==
      Success(Reconciliation(id, "paid", 15000, 12000, 3000, [Body(["CAS", "PR", "1", FormatCents(3000)])], 0))
  {
    var a := Adjudicate(15000, "paid");
    ReconcileOwnRemit(doc837, "paid");
    assert Reconciled(doc837, Generate835(doc837, "paid").value) ==
      Success(Reconciliation(id, "paid", 15000, a.paid, a.patientResp, BodiesOf(a.cas), 0));
    DemoAdjudication();
    CasBodies();
  }

  lemma CasBodies()
    ensures BodiesOf(Adjudicate(15000, "paid").cas) == [Body(["CAS", "PR", "1", FormatCents(3000)])]
  {
    DemoAdjudication();
    assert BodiesOf([["CAS", "PR", "1", FormatCents(3000)]]) == [Body(["CAS", "PR", "1", FormatCents(3000)])];
  }

  /** The claim written for a patient whose details fit in X12 elements reconciles, once
      paid, as `PaidRemitOf` states, under the patient's MRN. */
  lemma PaidClaimChain(p: Patient, e: Encounter)
    requires ClaimSafe(p)
    ensures Generate835(Claim837(p, e), "paid").Success?
    ensures Reconciled(Claim837(p, e), Generate835(Claim837(p, e), "paid").value) ==
      Success(Reconciliation(ClaimIdOf(p), "paid", 15000, 12000, 3000,
                             [Body(["CAS", "PR", "1", FormatCents(3000)])], 0))
  {
    ParseClaim837(p, e);
    PaidRemitOf(Claim837(p, e), ClaimIdOf(p));
  }

  /** An admission whose patient and encounter are both present, and whose patient's
      details fit in X12 elements, carries the whole claim chain, reconciled as
      `PaidClaimChain` states. */
  lemma AdmissionClaimChain(messageType: string, text: string, table: SegmentTable)
    requires PatientFrom(table).Some? && ClaimSafe(PatientFrom(table).value)
    requires EncounterFrom(table, PatientIdOf(PatientFrom(table))).Success?
    requires EncounterFrom(table, PatientIdOf(PatientFrom(table))).value.Some?
    ensures var r := AdmissionOf(messageType, text, table);
      && r.Success? && r.value.Admission? && r.value.claim.Some?
      && r.value.claim.value.reconciliation ==
           Reconciliation(ClaimIdOf(PatientFrom(table).value), "paid", 15000, 12000, 3000,
                          [Body(["CAS", "PR", "1", FormatCents(3000)])], 0)
  {
    var p := PatientFrom(table).value;
    var e := EncounterFrom(table, PatientIdOf(PatientFrom(table))).value.value;
    PaidClaimChain(p, e);
  }
}
