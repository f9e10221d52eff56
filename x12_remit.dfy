/** The 835 remittance that answers a claim (`generate_835_from_837`) and the
    reconciliation of the two (`reconcile_837_835`, example/hl7_utils.py). */
module X12Remit {
  import opened Wrappers
  import opened Text
  import opened X12Money
  import opened X12Document
  import opened X12Claim

  /** CLP02, the claim status: processed as primary, or denied. */
  const Processed: Datum := "1"
  const Denied: Datum := "4"

  const ClpId: Datum := "CLP"

  /** The claim id a remittance carries when the 837 has no CLM. */
  const UnknownClaimId: Datum := "UNKNOWN"

  /** CLP06 to CLP08: the Medicare Part B filing indicator, the payer's claim control
      number and the facility code 11 (office). */
  const ClpTail: seq<Datum> := ["MC", "PCN123", "11"]

  /** CLP: the claim payment, with the billed total, the amount paid and the patient's
      responsibility. */
  function ClpFields(id: string, status: string, billed: int, paid: int, resp: int): seq<string> {
    [ClpId, id, status, FormatCents(billed), FormatCents(paid), FormatCents(resp)] + ClpTail
  }

  /** The payer's figures for a claim: paid and patient responsibility, and the CAS
      adjustment segment, if any. */
  datatype Adjudication = Adjudication(status: string, paid: int, patientResp: int, cas: seq<seq<string>>)

  /** An outcome other than "paid" or "denied" is treated as "paid". A denial pays
      nothing and adjusts the whole amount away (group CO, reason 45); a payment splits
      the billed amount into the payer's share and the patient's, with a CAS PR-1
      segment for the patient's part when it is positive. */
  function Adjudicate(billed: int, outcome: string): (a: Adjudication)
    ensures outcome == "denied" ==>
      && a.status == Denied && a.paid == 0 && a.patientResp == 0
      && a.cas == [["CAS", "CO", "45", FormatCents(billed)]]
    ensures outcome != "denied" ==>
      && a.status == Processed && a.paid + a.patientResp == billed
      && a.cas == if a.patientResp > 0 then [["CAS", "PR", "1", FormatCents(a.patientResp)]] else []
    ensures outcome != "denied" && billed >= 0 ==> 0 <= a.paid <= billed && a.patientResp >= 0
  {
    if outcome == "denied" then
      Adjudication(Denied, 0, 0, [["CAS", "CO", "45", FormatCents(billed)]])
    else
      var paid := PaidShare(billed);
      var resp := billed - paid;
      Adjudication(Processed, paid, resp, if resp > 0 then [["CAS", "PR", "1", FormatCents(resp)]] else [])
  }

  const RemitControl: Element := "000000905"
  const GsRemit: seq<Element> := ["GS", "HP", Sender, Receiver, "20250101", "1200", "1", "X", "005010X221A1"]
  const StRemit: seq<Element> := ["ST", "835", "0001"]
  const Bpr: seq<Element> := ["BPR", "I", "0", "C", "CHK", "", "", "", "", "", "", "", "", "", "", "", "20250101"]
  const Trn: seq<Element> := ["TRN", "1", "12345", "9876543210"]
  const PayerName: seq<Element> := ["N1", "PR", "DEMO PAYER", "PI", "99999"]
  const PayeeName: seq<Element> := ["N1", "PE", ClinicName, "XX", ClinicNpi]

  /** Headers of the remittance, the payment order, the trace number, payer and payee. */
  const RemitHeader: seq<seq<string>> := [Isa(RemitControl), GsRemit, StRemit, Bpr, Trn, PayerName, PayeeName]

  const RemitTrailer: seq<seq<string>> := [Se("9"), Ge, Iea(RemitControl)]

  /** The remittance's segments: headers, the CLP, the adjustments, the trailers. */
  function RemitSegments(id: string, billed: int, a: Adjudication): seq<seq<string>> {
    RemitHeader + [ClpFields(id, a.status, billed, a.paid, a.patientResp)] + a.cas + RemitTrailer
  }

  /** `generate_835_from_837(doc, outcome)`: the claim id and total come from the 837
      ("UNKNOWN" and 0 when it has no CLM); a malformed CLM02 fails as the parse does. */
  function Generate835(doc837: string, outcome: string): (r: Result<string, string>)
    ensures r.Failure? <==> Parse837(doc837).Failure?
  {
    match Parse837(doc837)
    case Failure(e) => Failure(e)
    case Success(info) =>
      var id := if info.Some? then info.value.claimId else UnknownClaimId;
      var billed := if info.Some? then info.value.billed else 0;
      Success(Render(RemitSegments(id, billed, Adjudicate(billed, outcome))))
  }

  // ---------------------------------------------------------------- reconciliation

  datatype Reconciliation = Reconciliation(claimId: string, status: string, billed: int, paid: int,
                                           patientResp: int, adjustments: seq<string>, balance: int)

  function Max0(x: int): (m: int)
    ensures m >= 0 && m >= x && (m == 0 || m == x)
  {
    if x > 0 then x else 0
  }

  /** CLP02 as the reconciliation reports it. */
  function StatusName(code: string): (s: string)
    ensures s == "paid" <==> code == "1"
    ensures s == "denied" <==> code == "4"
  {
    if code == "1" then "paid" else if code == "4" then "denied" else "other"
  }

  /** `float(parts[i]) if len(parts) > i and parts[i] else default`. */
  function AmountAt(parts: seq<string>, i: nat, default: int): Option<int> {
    if i < |parts| && parts[i] != "" then ParseAmount(parts[i]) else Some(default)
  }

  /** Element `i` is present and `float()` refuses it. */
  predicate BadAmount(parts: seq<string>, i: nat) {
    Field(parts, i) != "" && ParseAmount(Field(parts, i)).None?
  }

  /** The payer's figures read from the first CLP segment: status, billed total (CLP03,
      the 837's total when empty), paid (CLP04) and patient responsibility (CLP05);
      "unknown" and nothing paid without a CLP; `None` for an amount that is not a number. */
  function ClpFigures(segs: seq<string>, billed: int): (f: Option<(string, int, int, int)>)
    ensures FirstWithPrefix(segs, "CLP*").None? ==> f == Some(("unknown", billed, 0, 0))
    ensures f.Some? ==> f.value.0 in {"paid", "denied", "other", "unknown"}
    ensures FirstWithPrefix(segs, "CLP*").Some? ==>
      var parts := Split(FirstWithPrefix(segs, "CLP*").value, '*');
      && (f.None? <==> BadAmount(parts, 3) || BadAmount(parts, 4) || BadAmount(parts, 5))
      && (f.Some? ==>
            f.value == (StatusName(Field(parts, 2)),
                        if Field(parts, 3) == "" then billed else ParseAmount(Field(parts, 3)).value,
                        if Field(parts, 4) == "" then 0 else ParseAmount(Field(parts, 4)).value,
                        if Field(parts, 5) == "" then 0 else ParseAmount(Field(parts, 5)).value))
  {
    match FirstWithPrefix(segs, "CLP*")
    case None => Some(("unknown", billed, 0, 0))
    case Some(clp) =>
      var parts := Split(clp, '*');
      match (AmountAt(parts, 3, billed), AmountAt(parts, 4, 0), AmountAt(parts, 5, 0))
      case (Some(b), Some(p), Some(resp)) => Some((StatusName(Field(parts, 2)), b, p, resp))
      case _ => None
  }

  const BadClpAmount: string := "ValueError: could not convert CLP amount to float"

  /** The 835's segments; none for an empty text. */
  function RemitSegs(doc835: string): seq<string> {
    if doc835 == "" then [] else Segments(doc835)
  }

  /** The reconciliation of the payer's figures: the balance due is what remains billed,
      never below 0. */
  function ReconciliationOf(claimId: string, figures: (string, int, int, int), adjustments: seq<string>): Reconciliation {
    Reconciliation(claimId, figures.0, figures.1, figures.2, figures.3, adjustments,
                   Max0(figures.1 - figures.2 - figures.3))
  }

  /** `s_info.get("claim_id", "")` */
  function InfoClaimId(info: Option<ClaimInfo>): string {
    if info.Some? then info.value.claimId else ""
  }

  /** `float(s_info.get("billed_total", 0.0))` */
  function InfoBilled(info: Option<ClaimInfo>): int {
    if info.Some? then info.value.billed else 0
  }

  /** The reconciliation of a parsed claim (`None` when the 837 has no CLM) with an 835
      text. The 835's CLP03 overrides the billed total; every CAS segment is listed; the
      balance due is what remains billed, never below 0. */
  function ReconcileClaim(info: Option<ClaimInfo>, doc835: string): (r: Result<Reconciliation, string>)
    ensures r.Success? ==> r.value.balance == Max0(r.value.billed - r.value.paid - r.value.patientResp)
    ensures r.Success? ==> r.value.status in {"paid", "denied", "other", "unknown"}
    ensures r.Success? && (doc835 == "" || FirstWithPrefix(Segments(doc835), "CLP*").None?) ==>
      r.value.status == "unknown" && r.value.paid == 0 && r.value.patientResp == 0
    ensures r.Failure? <==> ClpFigures(RemitSegs(doc835), InfoBilled(info)).None?
    ensures r.Success? ==>
      && r.value.claimId == InfoClaimId(info)
      && (r.value.status, r.value.billed, r.value.paid, r.value.patientResp)
         == ClpFigures(RemitSegs(doc835), InfoBilled(info)).value
      && r.value.adjustments == WithPrefixAll(RemitSegs(doc835), "CAS*")
  {
    var segs := RemitSegs(doc835);
    match ClpFigures(segs, InfoBilled(info))
    case None => Failure(BadClpAmount)
    case Some(figures) => Success(ReconciliationOf(InfoClaimId(info), figures, WithPrefixAll(segs, "CAS*")))
  }

  /** `reconcile_837_835(doc837, doc835)` as a value: the 837's parse errors propagate. */
  function Reconciled(doc837: string, doc835: string): (r: Result<Reconciliation, string>)
    ensures r.Failure? <==>
      Parse837(doc837).Failure? || ClpFigures(RemitSegs(doc835), InfoBilled(Parse837(doc837).value)).None?
    ensures Parse837(doc837).Success? ==> r == ReconcileClaim(Parse837(doc837).value, doc835)
  {
    match Parse837(doc837)
    case Failure(e) => Failure(e)
    case Success(info) => ReconcileClaim(info, doc835)
  }

  /** The CAS collection loop of `reconcile_837_835`. */
  method CasAdjustments(segs: seq<string>) returns (adjustments: seq<string>)
    ensures adjustments == WithPrefixAll(segs, "CAS*")
  {
    adjustments := [];
    var i := 0;
    while i < |segs|
      invariant 0 <= i <= |segs|
      invariant adjustments == WithPrefixAll(segs[..i], "CAS*")
    {
      WithPrefixAllSnoc(segs[..i], segs[i], "CAS*");
      assert segs[..i + 1] == segs[..i] + [segs[i]];
      if "CAS*" <= segs[i] {
        adjustments := adjustments + [segs[i]];
      }
      i := i + 1;
    }
    assert segs[..|segs|] == segs;
  }

  /** `reconcile_837_835(doc837, doc835)` */
  method Reconcile837835(doc837: string, doc835: string) returns (r: Result<Reconciliation, string>)
    ensures r == Reconciled(doc837, doc835)
  {
    var info := Parse837(doc837);
    if info.Failure? {
      return Failure(info.error);
    }
    r := ReconcileParsed(info.value, doc835);
  }

  /** The body of `reconcile_837_835` once the 837 has been parsed. */
  method ReconcileParsed(info: Option<ClaimInfo>, doc835: string) returns (r: Result<Reconciliation, string>)
    ensures r == ReconcileClaim(info, doc835)
  {
    var claimId := if info.Some? then info.value.claimId else "";
    var billed := if info.Some? then info.value.billed else 0;
    var segs := RemitSegs(doc835);
    var figures := ClpFigures(segs, billed);
    if figures.None? {
      return Failure(BadClpAmount);
    }
    var adjustments := CasAdjustments(segs);
    r := Success(ReconciliationOf(claimId, figures.value, adjustments));
  }

  // ---------------------------------------------------------------- round trip

  lemma RemitHeaderWellFormed()
    ensures forall i :: 0 <= i < |RemitHeader| ==>
      WellFormed(RemitHeader[i]) && RemitHeader[i][0] != "CLP" && RemitHeader[i][0] != "CAS"
  {
  }

  lemma RemitTrailerWellFormed()
    ensures forall i :: 0 <= i < |RemitTrailer| ==> WellFormed(RemitTrailer[i]) && RemitTrailer[i][0] != "CAS"
  {
  }

  /** An amount element ends in a digit and holds no delimiter. */
  lemma AmountElement(c: int)
    ensures FormatCents(c) != "" && !IsSpace(FormatCents(c)[|FormatCents(c)| - 1])
    ensures Clean(FormatCents(c)) && '*' !in FormatCents(c)
  {
    FormatCentsClean(c);
  }

  lemma AdjudicationWellFormed(billed: int, outcome: string)
    ensures Adjudicate(billed, outcome).status in {Processed, Denied}
    ensures forall i :: 0 <= i < |Adjudicate(billed, outcome).cas| ==>
      WellFormed(Adjudicate(billed, outcome).cas[i]) && Adjudicate(billed, outcome).cas[i][0] == "CAS"
  {
    var a := Adjudicate(billed, outcome);
    AmountElement(billed);
    AmountElement(a.patientResp);
  }

  /** The CLP segment of a claim id free of delimiters is well formed and made of data
      elements only. */
  lemma ClpWellFormed(id: string, status: Datum, billed: int, paid: int, resp: int)
    requires Clean(id) && '*' !in id
    ensures WellFormed(ClpFields(id, status, billed, paid, resp))
    ensures Split(Body(ClpFields(id, status, billed, paid, resp)), '*') == ClpFields(id, status, billed, paid, resp)
  {
    AmountElement(billed);
    AmountElement(paid);
    AmountElement(resp);
    var d: Datum := id;
    var b: Datum := FormatCents(billed);
    var p: Datum := FormatCents(paid);
    var r: Datum := FormatCents(resp);
    var fields: seq<Datum> := [ClpId, d, status, b, p, r] + ClpTail;
    assert fields == ClpFields(id, status, billed, paid, resp);
    SplitJoinData(fields);
  }

  lemma BodiesOfAppend(a: seq<seq<string>>, b: seq<seq<string>>)
    ensures BodiesOf(a + b) == BodiesOf(a) + BodiesOf(b)
  {
  }

  /** The CAS segments read back from a middle stretch of CAS segments between stretches
      with none. */
  lemma CasOfMiddle(head: seq<seq<string>>, cas: seq<seq<string>>, tail: seq<seq<string>>)
    requires WithPrefixAll(BodiesOf(head), "CAS*") == []
    requires WithPrefixAll(BodiesOf(cas), "CAS*") == BodiesOf(cas)
    requires WithPrefixAll(BodiesOf(tail), "CAS*") == []
    ensures WithPrefixAll(BodiesOf(head + cas + tail), "CAS*") == BodiesOf(cas)
  {
    BodiesOfAppend(head + cas, tail);
    BodiesOfAppend(head, cas);
    WithPrefixAllAppend(BodiesOf(head) + BodiesOf(cas), BodiesOf(tail), "CAS*");
    WithPrefixAllAppend(BodiesOf(head), BodiesOf(cas), "CAS*");
  }

  lemma WellFormedAppend(a: seq<seq<string>>, b: seq<seq<string>>)
    requires forall i :: 0 <= i < |a| ==> WellFormed(a[i])
    requires forall i :: 0 <= i < |b| ==> WellFormed(b[i])
    ensures forall i :: 0 <= i < |a + b| ==> WellFormed((a + b)[i])
  {
    forall i | 0 <= i < |a + b|
      ensures WellFormed((a + b)[i])
    {
      if i < |a| {
        assert (a + b)[i] == a[i];
      } else {
        assert (a + b)[i] == b[i - |a|];
      }
    }
  }

  /** Read back, the first CLP segment of a document is the first segment with id CLP. */
  lemma ClpReadBack(lead: seq<seq<string>>, clp: seq<string>, rest: seq<seq<string>>)
    requires forall i :: 0 <= i < |lead| ==> WellFormed(lead[i]) && lead[i][0] != "CLP"
    requires WellFormed(clp) && clp[0] == "CLP"
    requires forall i :: 0 <= i < |rest| ==> WellFormed(rest[i])
    ensures Render(lead + [clp] + rest) != ""
    ensures FirstWithPrefix(Segments(Render(lead + [clp] + rest)), "CLP*") == Some(Body(clp))
  {
    WellFormedAppend(lead, [clp]);
    WellFormedAppend(lead + [clp], rest);
    var doc := lead + [clp] + rest;
    RenderNonEmpty(doc);
    forall j | 0 <= j < |lead|
      ensures |doc[j]| > 0 && doc[j][0] != "CLP"
    {
      assert doc[j] == lead[j];
    }
    assert doc[|lead|] == clp;
    assert "CLP" + "*" == "CLP*";
    WellFormedReadable(doc);
    FirstTagged(doc, "CLP", |lead|);
  }

  /** Read back, the CAS segments of a document whose only CAS segments form one
      stretch are the texts of that stretch. */
  lemma CasReadBack(head: seq<seq<string>>, cas: seq<seq<string>>, tail: seq<seq<string>>)
    requires forall i :: 0 <= i < |head| ==> WellFormed(head[i]) && head[i][0] != "CAS"
    requires forall i :: 0 <= i < |cas| ==> WellFormed(cas[i]) && cas[i][0] == "CAS"
    requires forall i :: 0 <= i < |tail| ==> WellFormed(tail[i]) && tail[i][0] != "CAS"
    ensures WithPrefixAll(Segments(Render(head + cas + tail)), "CAS*") == BodiesOf(cas)
  {
    assert "CAS" + "*" == "CAS*";
    TaggedStretch(head, "CAS", false);
    TaggedStretch(cas, "CAS", true);
    TaggedStretch(tail, "CAS", false);
    CasOfMiddle(head, cas, tail);
    WellFormedAppend(head, cas);
    WellFormedAppend(head + cas, tail);
    SegmentsOfRender(head + cas + tail);
  }

  lemma LeadWithClp(lead: seq<seq<string>>, clp: seq<string>)
    requires forall i :: 0 <= i < |lead| ==> WellFormed(lead[i]) && lead[i][0] != "CAS"
    requires WellFormed(clp) && clp[0] == "CLP"
    ensures forall i :: 0 <= i < |lead + [clp]| ==> WellFormed((lead + [clp])[i]) && (lead + [clp])[i][0] != "CAS"
  {
    forall i | 0 <= i < |lead + [clp]|
      ensures WellFormed((lead + [clp])[i]) && (lead + [clp])[i][0] != "CAS"
    {
      if i < |lead| {
        assert (lead + [clp])[i] == lead[i];
      }
    }
  }

  /** A document made of a lead, one CLP segment, CAS segments and a tail: read back, its
      first CLP segment is that one and its CAS segments are exactly those. */
  lemma ReadBackParts(lead: seq<seq<string>>, clp: seq<string>, cas: seq<seq<string>>, tail: seq<seq<string>>)
    requires forall i :: 0 <= i < |lead| ==> WellFormed(lead[i]) && lead[i][0] != "CLP" && lead[i][0] != "CAS"
    requires WellFormed(clp) && clp[0] == "CLP"
    requires forall i :: 0 <= i < |cas| ==> WellFormed(cas[i]) && cas[i][0] == "CAS"
    requires forall i :: 0 <= i < |tail| ==> WellFormed(tail[i]) && tail[i][0] != "CAS"
    ensures var doc := lead + [clp] + cas + tail;
      && Render(doc) != ""
      && FirstWithPrefix(Segments(Render(doc)), "CLP*") == Some(Body(clp))
      && WithPrefixAll(Segments(Render(doc)), "CAS*") == BodiesOf(cas)
  {
    ClpBeforeRest(lead, clp, cas, tail);
    LeadWithClp(lead, clp);
    CasReadBack(lead + [clp], cas, tail);
  }

  lemma ClpBeforeRest(lead: seq<seq<string>>, clp: seq<string>, cas: seq<seq<string>>, tail: seq<seq<string>>)
    requires forall i :: 0 <= i < |lead| ==> WellFormed(lead[i]) && lead[i][0] != "CLP"
    requires WellFormed(clp) && clp[0] == "CLP"
    requires forall i :: 0 <= i < |cas| ==> WellFormed(cas[i])
    requires forall i :: 0 <= i < |tail| ==> WellFormed(tail[i])
    ensures var doc := lead + [clp] + cas + tail;
      && Render(doc) != ""
      && FirstWithPrefix(Segments(Render(doc)), "CLP*") == Some(Body(clp))
  {
    WellFormedAppend(cas, tail);
    ClpReadBack(lead, clp, cas + tail);
    SegmentsAssoc(lead + [clp], cas, tail);
  }

  lemma SegmentsAssoc(a: seq<seq<string>>, b: seq<seq<string>>, c: seq<seq<string>>)
    ensures a + (b + c) == a + b + c
  {
  }

  /** Read back, a remittance's first CLP is its own and its CAS segments are its
      adjustments. */
  lemma RemitReadBack(id: string, billed: int, outcome: string)
    requires Clean(id) && '*' !in id
    ensures var a := Adjudicate(billed, outcome);
      var doc := RemitSegments(id, billed, a);
      && Render(doc) != ""
      && FirstWithPrefix(Segments(Render(doc)), "CLP*") == Some(Body(ClpFields(id, a.status, billed, a.paid, a.patientResp)))
      && WithPrefixAll(Segments(Render(doc)), "CAS*") == BodiesOf(a.cas)
  {
    var a := Adjudicate(billed, outcome);
    RemitHeaderWellFormed();
    RemitTrailerWellFormed();
    AdjudicationWellFormed(billed, outcome);
    ClpWellFormed(id, a.status, billed, a.paid, a.patientResp);
    ReadBackParts(RemitHeader, ClpFields(id, a.status, billed, a.paid, a.patientResp), a.cas, RemitTrailer);
  }

  /** The figures read from a CLP segment are the ones written into it. */
  lemma ClpFiguresOf(segs: seq<string>, id: string, status: Datum, billed: int, paid: int, resp: int, default: int)
    requires Clean(id) && '*' !in id
    requires FirstWithPrefix(segs, "CLP*") == Some(Body(ClpFields(id, status, billed, paid, resp)))
    ensures ClpFigures(segs, default) == Some((StatusName(status), billed, paid, resp))
  {
    var fields := ClpFields(id, status, billed, paid, resp);
    ClpWellFormed(id, status, billed, paid, resp);
    AmountElement(billed);
    AmountElement(paid);
    AmountElement(resp);
    ParseFormatCents(billed);
    ParseFormatCents(paid);
    ParseFormatCents(resp);
    assert AmountAt(fields, 3, default) == Some(billed);
    assert AmountAt(fields, 4, 0) == Some(paid);
    assert AmountAt(fields, 5, 0) == Some(resp);
    assert Field(fields, 2) == status;
  }

  /** An 835 whose CLP figures and CAS segments are known reconciles to them. */
  lemma ReconcileFigures(info: Option<ClaimInfo>, doc835: string, figures: (string, int, int, int), cas: seq<string>)
    requires doc835 != ""
    requires ClpFigures(Segments(doc835), if info.Some? then info.value.billed else 0) == Some(figures)
    requires WithPrefixAll(Segments(doc835), "CAS*") == cas
    ensures ReconcileClaim(info, doc835) ==
      Success(ReconciliationOf(if info.Some? then info.value.claimId else "", figures, cas))
  {
    assert RemitSegs(doc835) == Segments(doc835);
  }

  lemma FiguresReconciled(claimId: string, figures: (string, int, int, int), cas: seq<string>)
    ensures ReconciliationOf(claimId, figures, cas) ==
      Reconciliation(claimId, figures.0, figures.1, figures.2, figures.3, cas, Max0(figures.1 - figures.2 - figures.3))
  {
  }

  /** Generating the remittance for a parsed claim. */
  lemma GeneratedRemit(doc837: string, outcome: string)
    requires Parse837(doc837).Success?
    ensures var info := Parse837(doc837).value;
      var id := if info.Some? then info.value.claimId else UnknownClaimId;
      var billed := if info.Some? then info.value.billed else 0;
      && Clean(id) && '*' !in id
      && Generate835(doc837, outcome) == Success(Render(RemitSegments(id, billed, Adjudicate(billed, outcome))))
  {
  }

  /** Reconciling a parsed claim with the remittance written for claim `id` and total
      `billed`: the decision comes back, and the balance is what the adjudication left. */
  lemma ReconcileRemitOf(info: Option<ClaimInfo>, id: string, billed: int, outcome: string)
    requires Clean(id) && '*' !in id
    ensures var a := Adjudicate(billed, outcome);
      ReconcileClaim(info, Render(RemitSegments(id, billed, a))) ==
        Success(Reconciliation(if info.Some? then info.value.claimId else "",
                               if outcome == "denied" then "denied" else "paid",
                               billed, a.paid, a.patientResp, BodiesOf(a.cas),
                               if outcome == "denied" then Max0(billed) else 0))
  {
    var a := Adjudicate(billed, outcome);
    RemitReadBack(id, billed, outcome);
    AdjudicationWellFormed(billed, outcome);
    var doc835 := Render(RemitSegments(id, billed, a));
    var figures := (StatusName(a.status), billed, a.paid, a.patientResp);
    ClpFiguresOf(Segments(doc835), id, a.status, billed, a.paid, a.patientResp, if info.Some? then info.value.billed else 0);
    ReconcileFigures(info, doc835, figures, BodiesOf(a.cas));
    FiguresReconciled(if info.Some? then info.value.claimId else "", figures, BodiesOf(a.cas));
    DecisionOf(billed, outcome);
  }

  /** The status a reconciliation reports for an adjudication, and the balance it
      leaves: nothing after a payment, the whole billed amount after a denial. */
  lemma DecisionOf(billed: int, outcome: string)
    ensures var a := Adjudicate(billed, outcome);
      && StatusName(a.status) == (if outcome == "denied" then "denied" else "paid")
      && Max0(billed - a.paid - a.patientResp) == (if outcome == "denied" then Max0(billed) else 0)
  {
    if outcome == "denied" {
      assert StatusName(Denied) == "denied";
    } else {
      assert StatusName(Processed) == "paid";
    }
  }

  /** Reconciling a claim with the remittance generated for it recovers the payer's
      decision: the status, the billed amount, the figures of the adjudication and its
      adjustments; a paid claim owes the provider nothing more, a denied one the whole
      (non-negative part of the) billed amount. */
  lemma ReconcileOwnRemit(doc837: string, outcome: string)
    requires Parse837(doc837).Success?
    ensures Generate835(doc837, outcome).Success?
    ensures var info := Parse837(doc837).value;
      var billed := if info.Some? then info.value.billed else 0;
      var a := Adjudicate(billed, outcome);
      Reconciled(doc837, Generate835(doc837, outcome).value) ==
        Success(Reconciliation(if info.Some? then info.value.claimId else "",
                               if outcome == "denied" then "denied" else "paid",
                               billed, a.paid, a.patientResp, BodiesOf(a.cas),
                               if outcome == "denied" then Max0(billed) else 0))
  {
    var info := Parse837(doc837).value;
    var id := if info.Some? then info.value.claimId else UnknownClaimId;
    var billed := if info.Some? then info.value.billed else 0;
    GeneratedRemit(doc837, outcome);
    ReconcileRemitOf(info, id, billed, outcome);
  }
}
