/** The 837 professional claim: `fhir_to_837_claim` renders a one-line claim from a FHIR
    Patient, `parse_837_basic` reads its CLM segment back (example/hl7_utils.py). */
module X12Claim {
  import opened Wrappers
  import opened Text
  import opened Hl7Fhir
  import opened X12Money
  import opened X12Document

  /** What `parse_837_basic` extracts: CLM01 and CLM02. */
  datatype ClaimInfo = ClaimInfo(claimId: string, billed: int)

  /** PID-3 as the claim's patient and claim number, `12345` when there is none. */
  function ClaimIdOf(p: Patient): string {
    if p.identifier != [] then p.identifier[0].value else "12345"
  }

  function GivenOf(p: Patient): string {
    if p.name.given != [] then p.name.given[0] else ""
  }

  function Line1Of(p: Patient): string {
    if p.address.line != [] then p.address.line[0] else ""
  }

  /** An absent address part as an f-string renders it. */
  function ShowOpt(o: Option<string>): string {
    if o.Some? then o.value else "None"
  }

  const ClaimTotal: Datum := "150"

  const ClaimControl: Element := "000000001"
  const GsClaim: seq<Element> := ["GS", "HC", Sender, Receiver, "20250101", "1200", "1", "X", "005010X222A1"]
  const StClaim: seq<Element> := ["ST", "837", "0001", "005010X222A1"]
  const Bht: seq<Element> := ["BHT", "0019", "00", "0123", "20250102", "1200", "CH"]
  const BillingName: seq<Element> := ["NM1", "85", "2", ClinicName, "", "", "", "", "XX", ClinicNpi]
  const BillingStreet: seq<Element> := ["N3", "123 MAIN ST"]
  const BillingCity: seq<Element> := ["N4", "DALLAS", "TX", "75001"]
  const HlSubscriber: seq<Element> := ["HL", "1", "", "20", "1"]
  const HlPatient: seq<Element> := ["HL", "2", "1", "22", "0"]
  const Sbr: seq<Element> := ["SBR", "P", "18", "", "", "", "", "", "", "MC"]
  const Lx: seq<Element> := ["LX", "1"]
  const Sv1: seq<Element> := ["SV1", "HC:99213", "150", "UN", "1", "", "", "1"]

  /** Interchange, group and transaction headers of the claim, then the fixed billing
      provider and the subscriber hierarchy. */
  const ClaimHeader: seq<seq<string>> :=
    [Isa(ClaimControl), GsClaim, StClaim, Bht, BillingName, BillingStreet, BillingCity, HlSubscriber, HlPatient, Sbr]

  /** The one service line and the trailers. */
  const ClaimTrailer: seq<seq<string>> := [Lx, Sv1, Se("12"), Ge, Iea(ClaimControl)]

  /** CLM02 to CLM09: the total, the place of service 11 (office) with its frequency
      code, and the provider's signature, assignment and release indicators. */
  const ClmId: Datum := "CLM"
  const ClmTail: seq<Datum> := [ClaimTotal, "", "", "11:B:1", "Y", "A", "Y", "Y"]

  /** CLM: the claim, numbered by the patient id. */
  function ClmFields(id: string): seq<string> {
    [ClmId, id] + ClmTail
  }

  /** The patient's name, address and claim segments. */
  function PatientSegments(p: Patient): seq<seq<string>> {
    [ ["NM1", "IL", "1", p.name.family, GivenOf(p), "", "", "", "MI", ClaimIdOf(p)],
      ["N3", Line1Of(p)],
      ["N4", ShowOpt(p.address.city), ShowOpt(p.address.state), ShowOpt(p.address.postalCode)],
      ClmFields(ClaimIdOf(p)) ]
  }

  /** The 19 segments of the claim; CLM is the fourteenth. */
  function ClaimSegments(p: Patient): seq<seq<string>> {
    ClaimHeader + PatientSegments(p) + ClaimTrailer
  }

  /** `fhir_to_837_claim(patient, encounter)`: the encounter is not consulted. */
  function Claim837(p: Patient, e: Encounter): string {
    Render(ClaimSegments(p))
  }

  /** `parse_837_basic(doc)`: `Success(None)` is the empty dict (empty text or no CLM
      segment), `Failure` the `ValueError` of a CLM02 that is not a number. The claim id
      read back never holds an X12 delimiter or a newline. */
  function Parse837(doc: string): (r: Result<Option<ClaimInfo>, string>)
    ensures doc == "" ==> r == Success(None)
    ensures FirstWithPrefix(Segments(doc), "CLM*").None? ==> r == Success(None)
    ensures r.Success? && r.value.Some? ==>
      && '*' !in r.value.value.claimId && '~' !in r.value.value.claimId && '\n' !in r.value.value.claimId
  {
    if doc == "" then Success(None)
    else
      match FirstWithPrefix(Segments(doc), "CLM*")
      case None => Success(None)
      case Some(clm) =>
        var parts := Split(clm, '*');
        ClaimIdClean(doc, clm);
        var id := Field(parts, 1);
        if |parts| > 2 && parts[2] != "" then
          match ParseAmount(parts[2])
          case None => Failure("ValueError: could not convert CLM02 to float")
          case Some(b) => Success(Some(ClaimInfo(id, b)))
        else Success(Some(ClaimInfo(id, 0)))
  }

  /** Every element of every segment of a document is free of `*`, `~` and newlines. */
  lemma ClaimIdClean(doc: string, seg: string)
    requires FirstWithPrefix(Segments(doc), "CLM*") == Some(seg)
    ensures forall i :: 0 <= i < |Split(seg, '*')| ==>
      '*' !in Split(seg, '*')[i] && '~' !in Split(seg, '*')[i] && '\n' !in Split(seg, '*')[i]
  {
    var pieces := Split(RemoveChar(doc, '\n'), '~');
    SplitExcludes(RemoveChar(doc, '\n'), '~', '\n');
    StripNonBlankExcludes(pieces, '~');
    StripNonBlankExcludes(pieces, '\n');
    var segs := Segments(doc);
    var k := FirstIndexWithPrefix(segs, "CLM*");
    assert seg == segs[k];
    SplitExcludes(seg, '*', '~');
    SplitExcludes(seg, '*', '\n');
  }

  /** Patient data whose claim reads back whole: the claim id holds no X12 delimiter
      and no newline, and no other patient element holds the segment terminator `~`
      (such an element splits off a segment of its own, which may start with `CLM*`). */
  predicate ClaimSafe(p: Patient) {
    && Clean(ClaimIdOf(p)) && '*' !in ClaimIdOf(p)
    && '~' !in p.name.family && '~' !in GivenOf(p) && '~' !in Line1Of(p)
    && '~' !in ShowOpt(p.address.city) && '~' !in ShowOpt(p.address.state)
    && '~' !in ShowOpt(p.address.postalCode)
  }

  lemma EnvelopeWellFormed()
    ensures WellFormed(Isa(ClaimControl)) && WellFormed(GsClaim) && WellFormed(StClaim) && WellFormed(Bht)
  {
  }

  lemma PartiesWellFormed()
    ensures WellFormed(BillingName) && WellFormed(BillingStreet) && WellFormed(BillingCity)
    ensures WellFormed(HlSubscriber) && WellFormed(HlPatient) && WellFormed(Sbr)
  {
  }

  lemma ClaimHeaderWellFormed()
    ensures forall i :: 0 <= i < |ClaimHeader| ==> WellFormed(ClaimHeader[i]) && ClaimHeader[i][0] != "CLM"
  {
    EnvelopeWellFormed();
    PartiesWellFormed();
  }

  lemma ClaimTrailerWellFormed()
    ensures forall i :: 0 <= i < |ClaimTrailer| ==> WellFormed(ClaimTrailer[i])
  {
  }

  lemma PatientSegmentsReadable(p: Patient)
    requires ClaimSafe(p)
    ensures forall i :: 0 <= i < 3 ==> Readable(PatientSegments(p)[i]) && PatientSegments(p)[i][0] != "CLM"
    ensures WellFormed(PatientSegments(p)[3])
  {
  }

  /** The claim's segments are all readable, and the CLM segment, well formed, is the
      first with id CLM. */
  lemma ClaimSegmentsReadable(p: Patient)
    requires ClaimSafe(p)
    ensures forall i :: 0 <= i < |ClaimSegments(p)| ==> Readable(ClaimSegments(p)[i])
    ensures ClaimSegments(p)[13] == ClmFields(ClaimIdOf(p)) && WellFormed(ClaimSegments(p)[13])
    ensures forall j :: 0 <= j < 13 ==> ClaimSegments(p)[j][0] != "CLM"
  {
    ClaimHeaderWellFormed();
    ClaimTrailerWellFormed();
    WellFormedReadable(ClaimHeader);
    WellFormedReadable(ClaimTrailer);
    PatientSegmentsReadable(p);
    ReadBackOfWellFormed(PatientSegments(p)[3]);
    var segs := ClaimSegments(p);
    forall i | 0 <= i < |segs|
      ensures Readable(segs[i])
    {
      if i < 10 {
        assert segs[i] == ClaimHeader[i];
      } else if i < 14 {
        assert segs[i] == PatientSegments(p)[i - 10];
      } else {
        assert segs[i] == ClaimTrailer[i - 14];
      }
    }
  }

  lemma DigitsOf150()
    ensures ParseAmount(ClaimTotal) == Some(15000)
  {
    SplitWithout("150", '.');
    assert "150"[..2] == "15" && "15"[..1] == "1" && "1"[..0] == "";
  }

  /** A document whose first CLM segment has a readable CLM02 reads back as CLM01 and
      that amount. */
  lemma ParseClm(doc: string, clm: string, parts: seq<string>, cents: int)
    requires doc != "" && FirstWithPrefix(Segments(doc), "CLM*") == Some(clm)
    requires Split(clm, '*') == parts && |parts| > 2 && parts[2] != ""
    requires ParseAmount(parts[2]) == Some(cents)
    ensures Parse837(doc) == Success(Some(ClaimInfo(parts[1], cents)))
  {
  }

  /** A document whose first CLM segment is a claim's own reads back as that claim. */
  lemma ParseOwnClm(doc: string, id: string)
    requires doc != "" && Clean(id) && '*' !in id
    requires FirstWithPrefix(Segments(doc), "CLM*") == Some(Body(ClmFields(id)))
    ensures Parse837(doc) == Success(Some(ClaimInfo(id, 15000)))
  {
    var d: Datum := id;
    var fields: seq<Datum> := [ClmId, d] + ClmTail;
    assert fields == ClmFields(id);
    SplitJoinData(fields);
    assert fields[1] == id && fields[2] == ClaimTotal;
    DigitsOf150();
    ParseClm(doc, Body(ClmFields(id)), fields, 15000);
  }

  /** A rendered document of readable segments whose first CLM segment is a claim's
      own, well formed, reads back as that claim. */
  lemma ParseRendered(segs: seq<seq<string>>, id: string)
    requires forall i :: 0 <= i < |segs| ==> Readable(segs[i])
    requires 13 < |segs| && segs[13] == ClmFields(id) && WellFormed(segs[13])
    requires forall j :: 0 <= j < 13 ==> |segs[j]| > 0 && segs[j][0] != "CLM"
    requires Clean(id) && '*' !in id
    ensures Parse837(Render(segs)) == Success(Some(ClaimInfo(id, 15000)))
  {
    FirstTagged(segs, "CLM", 13);
    RenderNonEmpty(segs);
    ParseOwnClm(Render(segs), id);
  }

  /** Parsing the claim rendered for a patient gives back its claim id and the fixed
      total of 150.00. */
  lemma ParseClaim837(p: Patient, e: Encounter)
    requires ClaimSafe(p)
    ensures Parse837(Claim837(p, e)) == Success(Some(ClaimInfo(ClaimIdOf(p), 15000)))
  {
    ClaimSegmentsReadable(p);
    ParseRendered(ClaimSegments(p), ClaimIdOf(p));
  }

  /** A patient without an address (no PID-11) gets `N3*` and `N4*None*None*None`, and
      the claim still reads back. */
  lemma AddresslessClaim(p: Patient, e: Encounter)
    requires p.address == Address([], None, None, None)
    requires Clean(ClaimIdOf(p)) && '*' !in ClaimIdOf(p) && '~' !in p.name.family && '~' !in GivenOf(p)
    ensures PatientSegments(p)[1] == ["N3", ""] && PatientSegments(p)[2] == ["N4", "None", "None", "None"]
    ensures Parse837(Claim837(p, e)) == Success(Some(ClaimInfo(ClaimIdOf(p), 15000)))
  {
    ParseClaim837(p, e);
  }
}
