/** Message-type labels (`build_trigger_event`, `build_message_profile` in
    example/hl7_utils.py): an HL7 v2 MSH-9 value such as `ADT^A01` is split on `^`
    into message family and trigger event, and looked up in fixed tables. */
module Hl7MessageType {
  import opened Wrappers
  import opened Text

  /** The ADT trigger-event labels. */
  function AdtEventLabel(evt: string): (r: Option<string>)
    ensures r.Some? ==> r.value != ""
  {
    match evt
    case "A01" => Some("Admission (Inpatient/ER → Admit)")
    case "A02" => Some("Transfer (Bed/Unit Change)")
    case "A03" => Some("Discharge")
    case "A04" => Some("Registration (Outpatient/ER)")
    case "A08" => Some("Update Patient Info")
    case _ => None
  }

  /** The ORU trigger-event labels. */
  function OruEventLabel(evt: string): (r: Option<string>)
    ensures r.Some? ==> r.value != ""
  {
    match evt
    case "R01" => Some("Lab Result (Observation Report)")
    case _ => None
  }

  /** Why an ADT event matters to the business. */
  function AdtEventReason(evt: string): Option<string> {
    match evt
    case "A01" => Some("Start inpatient workflow: care coordination + billing")
    case "A03" => Some("Close encounter: discharge workflow + billing finalization")
    case "A08" => Some("Update demographics/visit data; downstream reconciliation")
    case _ => None
  }

  /** Why an ORU event matters to the business. */
  function OruEventReason(evt: string): Option<string> {
    match evt
    case "R01" => Some("Publish lab results: clinical review + charge capture")
    case _ => None
  }

  /** The message family: the first `^`-component of MSH-9. */
  function Family(messageType: string): string {
    Split(messageType, '^')[0]
  }

  /** The trigger event: the second `^`-component of MSH-9, or empty. */
  function Event(messageType: string): string {
    Field(Split(messageType, '^'), 1)
  }

  /** The generic label for an event missing from the family's table. */
  function FallbackLabel(family: string, evt: string): (r: string)
    ensures family <= r
    ensures |r| > |family|
  {
    family + " Event " + (if evt == "" then "(unknown)" else evt)
  }

  /** The label for `evt` within family `ADT` or `ORU`. */
  function EventLabel(family: string, evt: string): (r: string)
    requires family == "ADT" || family == "ORU"
    ensures r != ""
  {
    var known := if family == "ADT" then AdtEventLabel(evt) else OruEventLabel(evt);
    known.GetOr(FallbackLabel(family, evt))
  }

  datatype TriggerEvent = TriggerEvent(code: string, description: string, businessReason: string)

  /** `build_trigger_event(message_type)`: only the ADT and ORU families are described;
      an event missing from their tables gets the generic label and no reason. */
  function BuildTriggerEvent(messageType: string): (r: TriggerEvent)
    ensures r.code == Event(messageType)
    ensures r.description == "" <==> Family(messageType) != "ADT" && Family(messageType) != "ORU"
    ensures Family(messageType) != "ADT" && Family(messageType) != "ORU" ==> r.businessReason == ""
  {
    var family := Family(messageType);
    var evt := Event(messageType);
    if family == "ADT" then
      TriggerEvent(evt, EventLabel(family, evt), AdtEventReason(evt).GetOr(""))
    else if family == "ORU" then
      TriggerEvent(evt, EventLabel(family, evt), OruEventReason(evt).GetOr(""))
    else
      TriggerEvent(evt, "", "")
  }

  /** `build_message_profile(message_type)`: always an "HL7 v2" label; for the ADT and
      ORU families it wraps the very description `build_trigger_event` gives. */
  function BuildMessageProfile(messageType: string): (r: string)
    ensures "HL7 v2 " <= r
    ensures messageType == "" ==> r == "HL7 v2 (Unknown)"
    ensures messageType != "" && (Family(messageType) == "ADT" || Family(messageType) == "ORU") ==>
      r == "HL7 v2 " + Family(messageType) + " (" + BuildTriggerEvent(messageType).description + ")"
    ensures messageType != "" && Family(messageType) != "ADT" && Family(messageType) != "ORU" ==>
      r == "HL7 v2 " + Family(messageType) + (if Event(messageType) != "" then " (" + Event(messageType) + ")" else "")
  {
    if messageType == "" then "HL7 v2 (Unknown)"
    else
      var family := Family(messageType);
      var evt := Event(messageType);
      if family == "ADT" || family == "ORU" then
        "HL7 v2 " + family + " (" + EventLabel(family, evt) + ")"
      else if evt != "" then "HL7 v2 " + family + " (" + evt + ")"
      else "HL7 v2 " + family
  }

  /** A type written `family^event`, possibly followed by further `^`-components,
      has exactly that family and event. */
  lemma {:induction false} FamilyAndEvent(family: string, evt: string, tail: string)
    requires '^' !in family && '^' !in evt
    requires tail == [] || tail[0] == '^'
    ensures Family(family + "^" + evt + tail) == family
    ensures Event(family + "^" + evt + tail) == evt
  {
    assert family + "^" + evt + tail == family + ['^'] + (evt + tail);
    SplitAtFirst(family, evt + tail, '^');
    if tail == [] {
      assert evt + tail == evt;
      SplitWithout(evt, '^');
    } else {
      assert evt + tail == evt + ['^'] + tail[1..];
      SplitAtFirst(evt, tail[1..], '^');
    }
  }

  /** An ADT or ORU event missing from the tables is described as
      "<family> Event <event>", or "<family> Event (unknown)" when the event part is empty,
      and carries no business reason. */
  lemma UnlistedEventDescription(family: string, evt: string, tail: string)
    requires family == "ADT" || family == "ORU"
    requires '^' !in evt && (tail == [] || tail[0] == '^')
    requires family == "ADT" ==> AdtEventLabel(evt).None? && AdtEventReason(evt).None?
    requires family == "ORU" ==> OruEventLabel(evt).None? && OruEventReason(evt).None?
    ensures BuildTriggerEvent(family + "^" + evt + tail) ==
      TriggerEvent(evt, family + " Event " + (if evt == "" then "(unknown)" else evt), "")
  {
    FamilyAndEvent(family, evt, tail);
  }
}
