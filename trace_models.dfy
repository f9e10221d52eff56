/** The trace log of one ingested payload and its steps (logtrace/models.py), with the
    analyst-facing properties the UI shows: the message type, the source system,
    whether the log needs review, its processing status and its business impact. The
    database row becomes a value; its `steps` relation is the sequence of its steps. */
module TraceModels {
  import opened Wrappers
  import opened Text

  /** `TraceLog.InputType` */
  datatype InputType = HL7 | JSON | EDI | OTHER

  function InputTypeName(t: InputType): string {
    match t
    case HL7 => "HL7"
    case JSON => "JSON"
    case EDI => "EDI"
    case OTHER => "OTHER"
  }

  /** `TraceLog.Status` */
  datatype LogStatus = RECEIVED | PROCESSED | FAILED

  function LogStatusName(s: LogStatus): string {
    match s
    case RECEIVED => "RECEIVED"
    case PROCESSED => "PROCESSED"
    case FAILED => "FAILED"
  }

  /** `TraceStep.StepStatus` */
  datatype StepStatus = OK | WARN | ERROR

  /** The parsed preview stored on a log: one shape per input type, and the fallback
      `{"type": ..., "message_type": "", "warnings": ["Preview parse failed"]}` written
      when parsing raised. */
  datatype Preview =
    | JsonObjectPreview(keys: seq<string>)
    | JsonListPreview(len: nat)
    | Hl7Preview(messageType: string, sendingApp: string, sendingFacility: string, receivingApp: string,
                 receivingFacility: string, controlId: string, patientId: string, dob: string,
                 warnings: seq<string>)
    | EdiPreview(hasIsa: bool, len: nat)
    | OtherPreview(len: nat)
    | FailedPreview(kind: InputType)

  /** `preview["type"]`: the input type a preview was made for. */
  function PreviewKind(p: Preview): InputType {
    match p
    case JsonObjectPreview(_) => JSON
    case JsonListPreview(_) => JSON
    case Hl7Preview(_, _, _, _, _, _, _, _, _) => HL7
    case EdiPreview(_, _) => EDI
    case OtherPreview(_) => OTHER
    case FailedPreview(kind) => kind
  }

  /** `preview.get("message_type")`: only HL7 previews and the fallback carry one. */
  function PreviewMessageType(p: Preview): Option<string> {
    match p
    case Hl7Preview(mt, _, _, _, _, _, _, _, _) => Some(mt)
    case FailedPreview(_) => Some("")
    case _ => None
  }

  const PreviewParseFailed: string := "Preview parse failed"

  /** `preview.get("warnings") or []` */
  function PreviewWarnings(p: Preview): seq<string> {
    match p
    case Hl7Preview(_, _, _, _, _, _, _, _, warnings) => warnings
    case FailedPreview(_) => [PreviewParseFailed]
    case _ => []
  }

  /** A step's `details` dictionary, one shape per kind of step. */
  datatype Details =
    | NoDetails
    | PreviewOf(preview: Preview)
    | ErrorText(error: string)
    | ErrorList(errors: seq<string>)
    | Kind(kind: string)
    | Target(target: string)
    | Path(path: string)

  /** A row of `TraceStep`. */
  datatype TraceStep = TraceStep(sequence: int, stepName: string, status: StepStatus, message: string,
                                 details: Details)

  /** A row of `TraceLog` with its steps. Timestamps are not modelled. */
  datatype TraceLog = TraceLog(traceId: string, inputType: InputType, outputType: string, status: LogStatus,
                               summary: string, errorCount: int, durationMs: Option<int>, rawPayload: string,
                               parsedPreview: Option<Preview>, meta: map<string, string>, steps: seq<TraceStep>)

  /** `meta.get(key) or ""` on a dictionary of strings. */
  function MetaGet(meta: map<string, string>, key: string): (v: string)
    ensures v != "" <==> key in meta && meta[key] != ""
  {
    if key in meta then meta[key] else ""
  }

  /** Whether some step has one of the given statuses (`steps.filter(status__in=...).exists()`). */
  predicate HasStepIn(steps: seq<TraceStep>, statuses: set<StepStatus>) {
    exists i :: 0 <= i < |steps| && steps[i].status in statuses
  }

  /** The preview's message type when it is non-empty, otherwise empty. */
  function PreviewMessageTypeOf(log: TraceLog): string {
    if log.parsedPreview.Some? then PreviewMessageType(log.parsedPreview.value).GetOr("") else ""
  }

  /** `TraceLog.message_type`: the preview's message type, then the one in `meta`,
      then `-`. */
  function MessageType(log: TraceLog): (r: string)
    ensures r != ""
    ensures PreviewMessageTypeOf(log) != "" ==> r == PreviewMessageTypeOf(log)
    ensures PreviewMessageTypeOf(log) == "" && MetaGet(log.meta, "message_type") != "" ==> r == log.meta["message_type"]
    ensures PreviewMessageTypeOf(log) == "" && MetaGet(log.meta, "message_type") == "" ==> r == "-"
  {
    if PreviewMessageTypeOf(log) != "" then PreviewMessageTypeOf(log)
    else if MetaGet(log.meta, "message_type") != "" then log.meta["message_type"]
    else "-"
  }

  /** `TraceLog.source_system`: `meta["source_system"]`, then `meta["source"]`, then `-`. */
  function SourceSystem(log: TraceLog): (r: string)
    ensures r != ""
    ensures MetaGet(log.meta, "source_system") != "" ==> r == log.meta["source_system"]
    ensures MetaGet(log.meta, "source_system") == "" && MetaGet(log.meta, "source") != "" ==> r == log.meta["source"]
    ensures MetaGet(log.meta, "source_system") == "" && MetaGet(log.meta, "source") == "" ==> r == "-"
  {
    if MetaGet(log.meta, "source_system") != "" then log.meta["source_system"]
    else if MetaGet(log.meta, "source") != "" then log.meta["source"]
    else "-"
  }

  /** `TraceLog.trace_available`: the log has at least one step. */
  predicate TraceAvailable(log: TraceLog) {
    |log.steps| > 0
  }

  /** `TraceLog.review_required`: failed, errors counted, or a step that warned or erred. */
  predicate ReviewRequired(log: TraceLog) {
    if log.status == FAILED then true
    else if log.errorCount > 0 then true
    else HasStepIn(log.steps, {WARN, ERROR})
  }

  const FailedTransformation: string := "FAILED_TRANSFORMATION"
  const SuccessWithWarnings: string := "SUCCESS_WITH_WARNINGS"
  const Success: string := "SUCCESS"

  /** `TraceLog.processing_status`: the analyst-facing outcome. */
  function ProcessingStatus(log: TraceLog): (r: string)
    ensures r in {FailedTransformation, SuccessWithWarnings, Success}
    ensures r == FailedTransformation <==> log.status == FAILED
    ensures r == SuccessWithWarnings <==> log.status != FAILED && HasStepIn(log.steps, {WARN})
    ensures r == Success <==> log.status != FAILED && !HasStepIn(log.steps, {WARN})
  {
    if log.status == FAILED then FailedTransformation
    else if HasStepIn(log.steps, {WARN}) then SuccessWithWarnings
    else Success
  }

  const Impacts: set<string> := {"Low", "Medium", "High"}

  /** `TraceLog.business_impact`: `meta["business_impact"]` when it names a level;
      otherwise High for an ADT message that needs review, Medium for any other that
      needs review, Low for the rest. */
  function BusinessImpact(log: TraceLog): (r: string)
    ensures r in Impacts
    ensures MetaGet(log.meta, "business_impact") in Impacts ==> r == log.meta["business_impact"]
    ensures MetaGet(log.meta, "business_impact") !in Impacts ==>
      && (r == "Low" <==> !ReviewRequired(log))
      && (r == "High" <==> ReviewRequired(log) && "ADT" <= Upper(MessageType(log)))
  {
    if MetaGet(log.meta, "business_impact") in Impacts then log.meta["business_impact"]
    else if "ADT" <= Upper(MessageType(log)) && ReviewRequired(log) then "High"
    else if ReviewRequired(log) then "Medium"
    else "Low"
  }

  /** A failed log always needs review, reports a failed transformation, and, unless
      `meta` sets the impact, is never of low impact. */
  lemma FailedLogNeedsReview(log: TraceLog)
    requires log.status == FAILED
    ensures ReviewRequired(log)
    ensures ProcessingStatus(log) == FailedTransformation
    ensures MetaGet(log.meta, "business_impact") !in Impacts ==> BusinessImpact(log) != "Low"
  {
  }

  /** Any outcome other than a clean success needs review. */
  lemma UnsuccessfulNeedsReview(log: TraceLog)
    requires ProcessingStatus(log) != Success
    ensures ReviewRequired(log)
  {
    if log.status != FAILED {
      var i :| 0 <= i < |log.steps| && log.steps[i].status in {WARN};
      assert log.steps[i].status in {WARN, ERROR};
    }
  }
}
