/** The ingest engine (logtrace/services.py): one entry point takes a raw payload,
    guesses its kind, extracts a small preview, validates it, records an ordered
    timeline of steps and derives the log's status, error count, summary and
    normalised metadata from those steps. `json.loads` is an oracle passed in; the
    trace id and the measured duration are inputs. */
module TraceServices {
  import opened Wrappers
  import opened Text
  import opened TraceModels

  /** A step before it is persisted. */
  datatype StepResult = StepResult(stepName: string, status: StepStatus, message: string, details: Details)

  /** What `json.loads` gives for a payload: a dictionary (its keys in order), a value
      `len()` accepts (a list or a string), one it refuses (a number, boolean or null),
      or a parse error. The two failures carry the exception text. */
  datatype JsonOutcome =
    | JsonObject(keys: seq<string>)
    | JsonSized(len: nat)
    | JsonUnsized(error: string)
    | JsonMalformed(error: string)

  // ---------------------------------------------------------------- input type

  /** A declared type the engine accepts as is. */
  predicate Declared(declared: Option<string>) {
    declared.Some? && declared.value in {"HL7", "JSON", "EDI"}
  }

  /** Stripped text that opens like a JSON object or array. */
  predicate LooksJson(raw: string) {
    "{" <= Strip(raw) || "[" <= Strip(raw)
  }

  /** Text that carries an MSH segment. */
  predicate LooksHl7(raw: string) {
    Contains(raw, "MSH|")
  }

  /** Stripped text that opens with an ISA envelope or holds `*00*`. */
  predicate LooksEdi(raw: string) {
    "ISA" <= Strip(raw) || Contains(Strip(raw), "*00*")
  }

  /** `_guess_input_type(raw, declared)`: a declared HL7, JSON or EDI wins; otherwise
      the first of JSON, HL7, EDI whose shape the payload has, else OTHER. */
  function GuessInputType(raw: string, declared: Option<string>): (r: InputType)
    ensures Declared(declared) ==> InputTypeName(r) == declared.value
    ensures !Declared(declared) ==>
      && (r == JSON <==> LooksJson(raw))
      && (r == HL7 <==> !LooksJson(raw) && LooksHl7(raw))
      && (r == EDI <==> !LooksJson(raw) && !LooksHl7(raw) && LooksEdi(raw))
      && (r == OTHER <==> !LooksJson(raw) && !LooksHl7(raw) && !LooksEdi(raw))
  {
    if Declared(declared) then
      (if declared.value == "HL7" then HL7 else if declared.value == "JSON" then JSON else EDI)
    else if LooksJson(raw) then JSON
    else if LooksHl7(raw) then HL7
    else if LooksEdi(raw) then EDI
    else OTHER
  }

  // ---------------------------------------------------------------- preview

  const MissingPid3Warning: string := "Missing PID-3 Patient Identifier"
  const InvalidDobWarning: string := "Invalid PID-7 DOB format (expected YYYYMMDD)"

  /** The analyst warnings of an HL7 preview, in this order: a blank PID-3, then a
      PID-7 that is present but not eight digits. */
  function Hl7Warnings(patientId: string, dob: string): (w: seq<string>)
    ensures MissingPid3Warning in w <==> IsBlank(patientId)
    ensures InvalidDobWarning in w <==> dob != "" && (|dob| != 8 || !AllDigits(dob))
    ensures |w| <= 2
    ensures |w| == 1 ==> w == [MissingPid3Warning] || w == [InvalidDobWarning]
    ensures |w| == 2 ==> w == [MissingPid3Warning, InvalidDobWarning]
  {
    assert MissingPid3Warning[0] != InvalidDobWarning[0];
    (if Strip(patientId) == "" then [MissingPid3Warning] else [])
    + (if dob != "" && (|dob| != 8 || !AllDigits(dob)) then [InvalidDobWarning] else [])
  }

  /** The `|`-separated fields of the first line that starts with `prefix`, or none. */
  function FirstFields(lines: seq<string>, prefix: string): (f: seq<string>)
    ensures FirstWithPrefix(lines, prefix).None? <==> f == []
  {
    match FirstWithPrefix(lines, prefix)
    case None => []
    case Some(line) => Split(line, '|')
  }

  /** The HL7 preview: MSH-3, -4, -5, -6, -9 and -10 of the first `MSH|` line, PID-3 and
      PID-7 of the first `PID|` line, and the warnings about those two. */
  function Hl7PreviewOf(raw: string): (p: Preview)
    ensures p.Hl7Preview?
    ensures p.warnings == Hl7Warnings(p.patientId, p.dob)
    ensures FirstWithPrefix(SplitLines(raw), "MSH|").None? ==>
      && p.messageType == "" && p.sendingApp == "" && p.sendingFacility == ""
      && p.receivingApp == "" && p.receivingFacility == "" && p.controlId == ""
    ensures FirstWithPrefix(SplitLines(raw), "MSH|").Some? ==>
      var msh := Split(FirstWithPrefix(SplitLines(raw), "MSH|").value, '|');
      && p.sendingApp == Field(msh, 2) && p.sendingFacility == Field(msh, 3)
      && p.receivingApp == Field(msh, 4) && p.receivingFacility == Field(msh, 5)
      && p.messageType == Field(msh, 8) && p.controlId == Field(msh, 9)
    ensures FirstWithPrefix(SplitLines(raw), "PID|").None? ==>
      p.patientId == "" && p.dob == "" && p.warnings == [MissingPid3Warning]
    ensures FirstWithPrefix(SplitLines(raw), "PID|").Some? ==>
      var pid := Split(FirstWithPrefix(SplitLines(raw), "PID|").value, '|');
      p.patientId == Field(pid, 3) && p.dob == Field(pid, 7)
  {
    var lines := SplitLines(raw);
    var msh := FirstFields(lines, "MSH|");
    var pid := FirstFields(lines, "PID|");
    var patientId := Field(pid, 3);
    var dob := Field(pid, 7);
    Hl7Preview(Field(msh, 8), Field(msh, 2), Field(msh, 3), Field(msh, 4), Field(msh, 5), Field(msh, 9),
               patientId, dob, Hl7Warnings(patientId, dob))
  }

  /** `list(obj.keys())[:20]` */
  function FirstKeys(keys: seq<string>): (r: seq<string>)
    ensures |r| <= 20 && r <= keys
    ensures |keys| <= 20 ==> r == keys
  {
    if |keys| <= 20 then keys else keys[..20]
  }

  const ParseName: string := "parse"
  const ValidateName: string := "validate"
  const TransformName: string := "transform"

  function ParseStep(status: StepStatus, message: string, details: Details): StepResult {
    StepResult(ParseName, status, message, details)
  }

  /** The JSON branch of `_parse_preview`: the first 20 keys of an object, the length of
      anything else `len()` accepts, and the fallback preview with an ERROR step when
      `json.loads` or `len()` raised. */
  function JsonParse(json: JsonOutcome): (r: (Preview, seq<StepResult>))
    ensures |r.1| == 1 && r.1[0].stepName == ParseName && PreviewKind(r.0) == JSON
    ensures r.1[0].status == ERROR <==> json.JsonUnsized? || json.JsonMalformed?
    ensures r.1[0].status != ERROR ==> r.1[0].status == OK && r.1[0].details == PreviewOf(r.0)
    ensures r.1[0].status == ERROR ==> r.0 == FailedPreview(JSON) && r.1[0].details == ErrorText(json.error)
    ensures json.JsonObject? ==> r.0 == JsonObjectPreview(FirstKeys(json.keys))
    ensures json.JsonSized? ==> r.0 == JsonListPreview(json.len)
  {
    match json
    case JsonObject(keys) =>
      var p := JsonObjectPreview(FirstKeys(keys));
      (p, [ParseStep(OK, "JSON parsed", PreviewOf(p))])
    case JsonSized(n) =>
      var p := JsonListPreview(n);
      (p, [ParseStep(OK, "JSON parsed", PreviewOf(p))])
    case JsonUnsized(e) => (FailedPreview(JSON), [ParseStep(ERROR, "Parsing failed", ErrorText(e))])
    case JsonMalformed(e) => (FailedPreview(JSON), [ParseStep(ERROR, "Parsing failed", ErrorText(e))])
  }

  /** The HL7 branch of `_parse_preview`. */
  function Hl7Parse(raw: string): (r: (Preview, seq<StepResult>))
    ensures r.0 == Hl7PreviewOf(raw) && r.1 == [ParseStep(OK, "HL7 preview extracted (MSH/PID)", PreviewOf(r.0))]
  {
    var p := Hl7PreviewOf(raw);
    (p, [ParseStep(OK, "HL7 preview extracted (MSH/PID)", PreviewOf(p))])
  }

  /** The EDI branch of `_parse_preview`: whether the stripped text opens with ISA, and
      the payload's length. */
  function EdiParse(raw: string): (r: (Preview, seq<StepResult>))
    ensures r.0 == EdiPreview("ISA" <= Strip(raw), |raw|)
    ensures r.1 == [ParseStep(OK, "EDI envelope preview extracted", PreviewOf(r.0))]
  {
    var p := EdiPreview("ISA" <= Strip(raw), |raw|);
    (p, [ParseStep(OK, "EDI envelope preview extracted", PreviewOf(p))])
  }

  /** `_parse_preview(input_type, raw)`: the preview and its single `parse` step. The
      step is OK for JSON, HL7 and EDI, WARN for any other type, and ERROR when the JSON
      branch raised, in which case the fallback preview is returned. */
  function ParsePreview(inputType: InputType, raw: string, json: JsonOutcome): (r: (Preview, seq<StepResult>))
    ensures |r.1| == 1 && r.1[0].stepName == ParseName
    ensures PreviewKind(r.0) == inputType
    ensures r.1[0].status == ERROR <==> inputType == JSON && (json.JsonUnsized? || json.JsonMalformed?)
    ensures r.1[0].status == WARN <==> inputType == OTHER
    ensures r.1[0].status != ERROR ==> r.1[0].details == PreviewOf(r.0)
    ensures r.1[0].status == ERROR ==> r.0 == FailedPreview(JSON) && r.1[0].details == ErrorText(json.error)
    ensures inputType == HL7 ==> r.0 == Hl7PreviewOf(raw)
  {
    match inputType
    case JSON => JsonParse(json)
    case HL7 => Hl7Parse(raw)
    case EDI => EdiParse(raw)
    case OTHER =>
      var p := OtherPreview(|raw|);
      (p, [ParseStep(WARN, "Unknown input type; stored as raw", PreviewOf(p))])
  }

  // ---------------------------------------------------------------- validation

  const MissingMshError: string := "Missing MSH segment"
  const JsonPreviewError: string := "JSON preview missing or invalid (parse likely failed)"
  const MissingIsaError: string := "Missing ISA segment"

  /** The failed checks: an HL7 payload without `MSH|`, a JSON payload whose preview
      is not of type JSON, an EDI payload that does not open with ISA. */
  function ValidationErrors(preview: Preview, inputType: InputType, raw: string): (e: seq<string>)
    ensures |e| <= 1
    ensures forall x :: x in e ==> x == MissingMshError || x == JsonPreviewError || x == MissingIsaError
    ensures MissingMshError in e <==> inputType == HL7 && !LooksHl7(raw)
    ensures JsonPreviewError in e <==> inputType == JSON && PreviewKind(preview) != JSON
    ensures MissingIsaError in e <==> inputType == EDI && !("ISA" <= Strip(raw))
    ensures inputType == OTHER ==> e == []
  {
    (if inputType == HL7 && !LooksHl7(raw) then [MissingMshError] else [])
    + (if inputType == JSON && PreviewKind(preview) != JSON then [JsonPreviewError] else [])
    + (if inputType == EDI && !("ISA" <= Strip(raw)) then [MissingIsaError] else [])
  }

  /** `_validate(preview, input_type, raw)`: one `validate` step, ERROR listing every
      failed check when there is one, OK otherwise. */
  function Validate(preview: Preview, inputType: InputType, raw: string): (r: seq<StepResult>)
    ensures |r| == 1 && r[0].stepName == ValidateName
    ensures r[0].status == ERROR <==> ValidationErrors(preview, inputType, raw) != []
    ensures r[0].status == OK <==> ValidationErrors(preview, inputType, raw) == []
    ensures r[0].status == ERROR ==> r[0].details == ErrorList(ValidationErrors(preview, inputType, raw))
  {
    var errors := ValidationErrors(preview, inputType, raw);
    if errors != [] then [StepResult(ValidateName, ERROR, "Validation errors found", ErrorList(errors))]
    else [StepResult(ValidateName, OK, "Validation passed", NoDetails)]
  }

  /** The JSON check of `_validate` never fires on a preview `_parse_preview` made: even
      the fallback written after a parse failure has type JSON. A failed JSON parse is
      reported by the parse step alone. */
  lemma JsonCheckNeverFires(raw: string, json: JsonOutcome)
    ensures ValidationErrors(ParsePreview(JSON, raw, json).0, JSON, raw) == []
  {
  }

  /** A payload guessed to be HL7 always passes the MSH check. */
  lemma GuessedHl7Validates(raw: string, json: JsonOutcome)
    requires GuessInputType(raw, None) == HL7
    ensures Validate(ParsePreview(HL7, raw, json).0, HL7, raw)[0].status == OK
  {
  }

  /** A payload guessed to be EDI only because it holds `*00*` fails the ISA check. */
  lemma GuessedEdiWithoutIsa(raw: string, json: JsonOutcome)
    requires GuessInputType(raw, None) == EDI && !("ISA" <= Strip(raw))
    ensures Validate(ParsePreview(EDI, raw, json).0, EDI, raw)[0].status == ERROR
    ensures Contains(Strip(raw), "*00*")
  {
  }

  // ---------------------------------------------------------------- summary

  /** `s.endswith(suffix)` */
  predicate EndsWith(s: string, suffix: string) {
    |suffix| <= |s| && s[|s| - |suffix|..] == suffix
  }

  const ErrorsSuffix: string := " error(s)"

  /** The summary before any error count: the type and status, then ` (<message type>)`
      for HL7 with a non-empty message type. */
  function SummaryHead(inputType: InputType, preview: Preview, status: LogStatus): (h: string)
    ensures InputTypeName(inputType) + " " + LogStatusName(status) <= h
    ensures h == InputTypeName(inputType) + " " + LogStatusName(status) <==>
      inputType != HL7 || PreviewMessageType(preview).GetOr("") == ""
    ensures inputType == HL7 && PreviewMessageType(preview).GetOr("") != "" ==>
      h == InputTypeName(inputType) + " " + LogStatusName(status) + " (" + PreviewMessageType(preview).GetOr("") + ")"
  {
    var base := InputTypeName(inputType) + " " + LogStatusName(status);
    var mt := PreviewMessageType(preview).GetOr("");
    if inputType == HL7 && mt != "" then base + " (" + mt + ")" else base
  }

  /** ` - <n> error(s)` */
  function CountSuffix(n: nat): string {
    " - " + NatStr(n) + ErrorsSuffix
  }

  /** The count written into a summary reads back as the count. */
  lemma CountSuffixReadBack(n: nat)
    ensures var t := CountSuffix(n);
      && 3 + |ErrorsSuffix| < |t| && EndsWith(t, ErrorsSuffix)
      && AllDigits(t[3..|t| - |ErrorsSuffix|]) && DigitsValue(t[3..|t| - |ErrorsSuffix|]) == n
  {
    var t := CountSuffix(n);
    assert t[3..|t| - |ErrorsSuffix|] == NatStr(n);
    assert t[|t| - |ErrorsSuffix|..] == ErrorsSuffix;
    NatStrValue(n);
  }

  /** `_build_summary(input_type, preview, status, error_count)`: the head, followed by
      the error count exactly when there are errors. */
  function BuildSummary(inputType: InputType, preview: Preview, status: LogStatus, errorCount: nat): (r: string)
    ensures SummaryHead(inputType, preview, status) <= r
    ensures errorCount == 0 <==> r == SummaryHead(inputType, preview, status)
    ensures errorCount > 0 ==> r == SummaryHead(inputType, preview, status) + CountSuffix(errorCount)
  {
    var head := SummaryHead(inputType, preview, status);
    if errorCount != 0 then head + CountSuffix(errorCount) else head
  }

  // ---------------------------------------------------------------- timeline

  const ValidationWarningKind: string := "validation_warning"

  /** The WARN step recorded for one HL7 preview warning. */
  function WarningStep(w: string): StepResult {
    StepResult(ValidateName, WARN, w, Kind(ValidationWarningKind))
  }

  /** One WARN `validate` step per warning, in order. */
  function WarningSteps(ws: seq<string>): (r: seq<StepResult>)
    ensures |r| == |ws|
    ensures forall i :: 0 <= i < |r| ==> r[i] == WarningStep(ws[i])
  {
    if ws == [] then [] else WarningSteps(ws[..|ws| - 1]) + [WarningStep(ws[|ws| - 1])]
  }

  predicate HasErrorStep(steps: seq<StepResult>) {
    exists i :: 0 <= i < |steps| && steps[i].status == ERROR
  }

  /** The final `transform` step: skipped (WARN) after an error, planned (OK) otherwise. */
  function TransformStep(failed: bool, inputType: InputType, outputType: string): (s: StepResult)
    ensures s.stepName == TransformName && s.status != ERROR
    ensures s.status == WARN <==> failed
  {
    if failed then StepResult(TransformName, WARN, "Transform skipped due to prior errors", Target(outputType))
    else StepResult(TransformName, OK, "Transform planned (MVP)", Path(InputTypeName(inputType) + " -> " + outputType))
  }

  /** The steps that follow a parse: one WARN per warning of an HL7 preview, then the
      validate step. */
  function CheckSteps(inputType: InputType, preview: Preview, raw: string): seq<StepResult> {
    (if inputType == HL7 then WarningSteps(PreviewWarnings(preview)) else []) + Validate(preview, inputType, raw)
  }

  /** The steps before the transform: parse, one WARN per HL7 preview warning, validate. */
  function EarlySteps(inputType: InputType, raw: string, json: JsonOutcome): seq<StepResult> {
    var parsed := ParsePreview(inputType, raw, json);
    parsed.1 + CheckSteps(inputType, parsed.0, raw)
  }

  /** The early steps followed by the transform step they decide. */
  function Finished(early: seq<StepResult>, inputType: InputType, outputType: string): seq<StepResult> {
    early + [TransformStep(HasErrorStep(early), inputType, outputType)]
  }

  /** The whole timeline of an ingest. */
  function Timeline(inputType: InputType, raw: string, json: JsonOutcome, outputType: string): seq<StepResult> {
    Finished(EarlySteps(inputType, raw, json), inputType, outputType)
  }

  /** The number of warnings an ingest turns into steps. */
  function WarningCount(inputType: InputType, raw: string, json: JsonOutcome): nat {
    if inputType == HL7 then |PreviewWarnings(ParsePreview(inputType, raw, json).0)| else 0
  }

  // ---------------------------------------------------------------- counting and persistence

  /** The number of ERROR steps. */
  function CountErrors(steps: seq<StepResult>): (n: nat)
    ensures n <= |steps|
    ensures n > 0 <==> HasErrorStep(steps)
  {
    if steps == [] then 0
    else
      var front := steps[..|steps| - 1];
      var n := CountErrors(front);
      assert HasErrorStep(steps) <==> HasErrorStep(front) || steps[|steps| - 1].status == ERROR by {
        if HasErrorStep(steps) {
          var i :| 0 <= i < |steps| && steps[i].status == ERROR;
          if i < |front| {
            assert front[i] == steps[i];
          }
        }
        if HasErrorStep(front) {
          var i :| 0 <= i < |front| && front[i].status == ERROR;
          assert steps[i] == front[i];
        }
      }
      n + (if steps[|steps| - 1].status == ERROR then 1 else 0)
  }

  lemma {:induction false} CountErrorsAppend(a: seq<StepResult>, b: seq<StepResult>)
    ensures CountErrors(a + b) == CountErrors(a) + CountErrors(b)
    decreases |b|
  {
    if b == [] {
      assert a + b == a;
    } else {
      var front := b[..|b| - 1];
      assert (a + b)[..|a + b| - 1] == a + front;
      CountErrorsAppend(a, front);
    }
  }

  /** `(message or "")[:255]` */
  function Truncate(s: string, n: nat): (r: string)
    ensures |r| <= n && r <= s
    ensures |s| <= n ==> r == s
  {
    if |s| <= n then s else s[..n]
  }

  const MessageMax: nat := 255

  /** The rows the ingest writes: sequence numbers 1 to n in list order, messages cut to
      255 characters. */
  function Persisted(steps: seq<StepResult>): (r: seq<TraceStep>)
    ensures |r| == |steps|
    ensures forall i :: 0 <= i < |r| ==>
      r[i] == TraceStep(i + 1, steps[i].stepName, steps[i].status, Truncate(steps[i].message, MessageMax),
                        steps[i].details)
  {
    if steps == [] then []
    else
      var s := steps[|steps| - 1];
      Persisted(steps[..|steps| - 1]) + [TraceStep(|steps|, s.stepName, s.status, Truncate(s.message, MessageMax), s.details)]
  }

  // ---------------------------------------------------------------- timeline properties

  /** Parse, then WARN validate steps, then one validate step: only the first and the
      last can be errors. */
  lemma EarlyShape(parse: seq<StepResult>, warnings: seq<StepResult>, validate: seq<StepResult>)
    requires |parse| == 1 && parse[0].stepName == ParseName
    requires |validate| == 1 && validate[0].stepName == ValidateName
    requires forall i :: 0 <= i < |warnings| ==> warnings[i].stepName == ValidateName && warnings[i].status == WARN
    ensures var e := parse + warnings + validate;
      && |e| == |warnings| + 2 && e[0] == parse[0] && e[|e| - 1] == validate[0]
      && (forall i :: 1 <= i < |e| ==> e[i].stepName == ValidateName)
      && (forall i :: 1 <= i < |e| - 1 ==> e[i].status == WARN)
      && CountErrors(e) <= 2
  {
    var e := parse + warnings + validate;
    forall i | 1 <= i < |e|
      ensures e[i].stepName == ValidateName
      ensures i < |e| - 1 ==> e[i].status == WARN
    {
      if i < |e| - 1 {
        assert e[i] == warnings[i - 1];
      }
    }
    assert !HasErrorStep(warnings);
    CountErrorsAppend(parse, warnings);
    CountErrorsAppend(parse + warnings, validate);
  }

  /** The transform step closes the timeline; it is skipped exactly when an earlier step
      erred and is never an error itself. */
  lemma FinishedOutcome(early: seq<StepResult>, inputType: InputType, outputType: string)
    ensures var t := Finished(early, inputType, outputType);
      && |t| == |early| + 1 && t[..|early|] == early && t[|t| - 1].stepName == TransformName
      && (t[|t| - 1].status == WARN <==> HasErrorStep(early))
      && CountErrors(t) == CountErrors(early)
      && (HasErrorStep(t) <==> HasErrorStep(early))
  {
    var t := Finished(early, inputType, outputType);
    assert t[..|t| - 1] == early;
  }

  /** The shape of every timeline: a `parse` step, then `validate` steps, the first
      `warnings` of which warn, then a `transform` step that is skipped exactly when some
      step erred; at most two steps are errors. */
  predicate WellShaped(t: seq<StepResult>, warnings: nat) {
    && |t| == 3 + warnings
    && t[0].stepName == ParseName
    && (forall i :: 1 <= i < |t| - 1 ==> t[i].stepName == ValidateName)
    && t[|t| - 1].stepName == TransformName
    && (forall i :: 1 <= i < |t| - 2 ==> t[i].status == WARN)
    && CountErrors(t) <= 2
    && (t[|t| - 1].status == WARN <==> HasErrorStep(t))
  }

  /** Whatever the parse found, the steps built on it are well shaped. */
  lemma ChecksShape(inputType: InputType, preview: Preview, parse: seq<StepResult>, raw: string, outputType: string)
    requires |parse| == 1 && parse[0].stepName == ParseName
    ensures WellShaped(Finished(parse + CheckSteps(inputType, preview, raw), inputType, outputType),
                       if inputType == HL7 then |PreviewWarnings(preview)| else 0)
  {
    var warnings := if inputType == HL7 then WarningSteps(PreviewWarnings(preview)) else [];
    var validate := Validate(preview, inputType, raw);
    var early := parse + CheckSteps(inputType, preview, raw);
    assert early == parse + warnings + validate;
    EarlyShape(parse, warnings, validate);
    FinishedOutcome(early, inputType, outputType);
    var t := Finished(early, inputType, outputType);
    forall i | 1 <= i < |t| - 1
      ensures t[i].stepName == ValidateName
      ensures i < |t| - 2 ==> t[i].status == WARN
    {
      assert t[i] == early[i];
    }
  }

  /** The timeline of every ingest is well shaped, with one WARN step per HL7 preview
      warning. */
  lemma TimelineShape(inputType: InputType, raw: string, json: JsonOutcome, outputType: string)
    ensures WellShaped(Timeline(inputType, raw, json, outputType), WarningCount(inputType, raw, json))
  {
    var parsed := ParsePreview(inputType, raw, json);
    ChecksShape(inputType, parsed.0, parsed.1, raw, outputType);
  }

  // ---------------------------------------------------------------- metadata

  predicate UiName(s: string) {
    s in {"trace_ui", "ui", "web"}
  }

  /** Source names the UI puts in when the caller gave none. */
  predicate Placeholder(source: string) {
    source == "" || UiName(Lower(source))
  }

  const SourceSystemKey: string := "source_system"
  const SourceKey: string := "source"
  const MessageTypeKey: string := "message_type"

  /** The caller's source: `(meta.get("source_system") or meta.get("source") or "").strip()` */
  function CallerSource(meta: map<string, string>): string {
    Strip(if MetaGet(meta, SourceSystemKey) != "" then MetaGet(meta, SourceSystemKey) else MetaGet(meta, SourceKey))
  }

  /** `app:fac` from the HL7 preview's stripped MSH-3 and MSH-4, with UNKNOWN_APP or
      UNKNOWN_FAC for a missing half; empty when both are missing. */
  function DerivedSource(inputType: InputType, preview: Preview): (d: string)
    ensures d == "" <==>
      (inputType != HL7 || !preview.Hl7Preview? || (IsBlank(preview.sendingApp) && IsBlank(preview.sendingFacility)))
    ensures d != "" ==>
      d == (if IsBlank(preview.sendingApp) then "UNKNOWN_APP" else Strip(preview.sendingApp)) + ":"
        + (if IsBlank(preview.sendingFacility) then "UNKNOWN_FAC" else Strip(preview.sendingFacility))
  {
    var app := if inputType == HL7 && preview.Hl7Preview? then Strip(preview.sendingApp) else "";
    var fac := if inputType == HL7 && preview.Hl7Preview? then Strip(preview.sendingFacility) else "";
    if app == "" && fac == "" then ""
    else (if app != "" then app else "UNKNOWN_APP") + ":" + (if fac != "" then fac else "UNKNOWN_FAC")
  }

  /** The stored `source_system`: the caller's source unless that is missing or a UI
      placeholder, else the source derived from MSH, else "unknown". Never empty. */
  function NormalizedSource(meta: map<string, string>, inputType: InputType, preview: Preview): (s: string)
    ensures s != ""
    ensures !Placeholder(CallerSource(meta)) ==> s == CallerSource(meta)
    ensures Placeholder(CallerSource(meta)) && DerivedSource(inputType, preview) != "" ==> s == DerivedSource(inputType, preview)
    ensures Placeholder(CallerSource(meta)) && DerivedSource(inputType, preview) == "" ==> s == "unknown"
  {
    var caller := CallerSource(meta);
    if Placeholder(caller) then
      var derived := DerivedSource(inputType, preview);
      if derived != "" then derived else "unknown"
    else caller
  }

  /** The metadata the ingest stores: `source_system` normalised, an HL7 message type
      added unless `message_type` is already there, every other key kept as it was. */
  function NormalizedMeta(meta: map<string, string>, inputType: InputType, preview: Preview): (m: map<string, string>)
    ensures SourceSystemKey in m && m[SourceSystemKey] == NormalizedSource(meta, inputType, preview)
    ensures MessageTypeKey in meta ==> MessageTypeKey in m && m[MessageTypeKey] == meta[MessageTypeKey]
    ensures MessageTypeKey !in meta ==>
      && (MessageTypeKey in m <==> inputType == HL7 && PreviewMessageType(preview).GetOr("") != "")
      && (MessageTypeKey in m ==> m[MessageTypeKey] == PreviewMessageType(preview).GetOr(""))
    ensures forall k :: k in meta && k != SourceSystemKey && k != MessageTypeKey ==> k in m && m[k] == meta[k]
    ensures forall k :: k in m ==> k in meta || k == SourceSystemKey || k == MessageTypeKey
  {
    assert SourceSystemKey[0] != MessageTypeKey[0];
    var m := meta[SourceSystemKey := NormalizedSource(meta, inputType, preview)];
    var mt := PreviewMessageType(preview).GetOr("");
    if inputType == HL7 && mt != "" && MessageTypeKey !in m then m[MessageTypeKey := mt] else m
  }

  // ---------------------------------------------------------------- ingest

  /** The log stored for a payload of the given type and preview whose steps before the
      transform are `early`. */
  function StoredLog(traceId: string, inputType: InputType, outputType: string, raw: string, preview: Preview,
                     early: seq<StepResult>, meta: map<string, string>, durationMs: int): TraceLog
  {
    var status := if HasErrorStep(early) then FAILED else PROCESSED;
    var steps := Finished(early, inputType, outputType);
    var errorCount := CountErrors(steps);
    TraceLog(traceId, inputType, outputType, status, BuildSummary(inputType, preview, status, errorCount),
             errorCount, Some(durationMs), raw, Some(preview), NormalizedMeta(meta, inputType, preview),
             Persisted(steps))
  }

  /** The log an ingest leaves behind. */
  function Ingested(raw: string, declared: Option<string>, outputType: string, meta: map<string, string>,
                    traceId: string, json: JsonOutcome, durationMs: int): TraceLog
  {
    var inputType := GuessInputType(raw, declared);
    StoredLog(traceId, inputType, outputType, raw, ParsePreview(inputType, raw, json).0,
              EarlySteps(inputType, raw, json), meta, durationMs)
  }

  /** Step 2 of the ingest: one WARN `validate` step per preview warning, appended. */
  method AppendWarnings(steps: seq<StepResult>, warnings: seq<string>) returns (r: seq<StepResult>)
    ensures r == steps + WarningSteps(warnings)
  {
    r := steps;
    var i := 0;
    while i < |warnings|
      invariant 0 <= i <= |warnings|
      invariant r == steps + WarningSteps(warnings[..i])
    {
      assert warnings[..i + 1][..i] == warnings[..i];
      r := r + [WarningStep(warnings[i])];
      i := i + 1;
    }
    assert warnings[..|warnings|] == warnings;
  }

  /** Steps 2 and 3 of the ingest: the steps that follow the parse. */
  method CollectChecks(inputType: InputType, preview: Preview, raw: string) returns (checks: seq<StepResult>)
    ensures checks == CheckSteps(inputType, preview, raw)
  {
    checks := [];
    if inputType == HL7 {
      checks := AppendWarnings(checks, PreviewWarnings(preview));
    }
    checks := checks + Validate(preview, inputType, raw);
  }

  /** Step 5 of the ingest: one row per step, numbered from 1, while counting errors. */
  method PersistSteps(steps: seq<StepResult>) returns (rows: seq<TraceStep>, errorCount: nat)
    ensures rows == Persisted(steps)
    ensures errorCount == CountErrors(steps)
  {
    errorCount := 0;
    var sequence := 1;
    rows := [];
    var j := 0;
    while j < |steps|
      invariant 0 <= j <= |steps|
      invariant sequence == j + 1
      invariant errorCount == CountErrors(steps[..j])
      invariant rows == Persisted(steps[..j])
    {
      var s := steps[j];
      assert steps[..j + 1][..j] == steps[..j];
      if s.status == ERROR {
        errorCount := errorCount + 1;
      }
      rows := rows + [TraceStep(sequence, s.stepName, s.status, Truncate(s.message, MessageMax), s.details)];
      sequence := sequence + 1;
      j := j + 1;
    }
    assert steps[..|steps|] == steps;
  }

  /** `ingest_payload(raw_payload=raw, declared_input_type=declared, output_type=...,
      meta=...)`, with the trace id, the JSON parse and the duration given. */
  method IngestPayload(raw: string, declared: Option<string>, outputType: string, meta: map<string, string>,
                       traceId: string, json: JsonOutcome, durationMs: int) returns (log: TraceLog)
    ensures log == Ingested(raw, declared, outputType, meta, traceId, json, durationMs)
  {
    var inputType := GuessInputType(raw, declared);
    log := TraceLog(traceId, inputType, outputType, RECEIVED, "Received payload", 0, None, raw, None, meta, []);

    var parsed := ParsePreview(inputType, raw, json);
    var preview := parsed.0;
    var checks := CollectChecks(inputType, preview, raw);
    var allSteps := parsed.1 + checks;
    var failed := HasErrorStep(allSteps);
    if failed {
      allSteps := allSteps + [TransformStep(true, inputType, outputType)];
      log := log.(status := FAILED);
    } else {
      allSteps := allSteps + [TransformStep(false, inputType, outputType)];
      log := log.(status := PROCESSED);
    }

    var rows, errorCount := PersistSteps(allSteps);

    log := log.(steps := rows, meta := NormalizedMeta(meta, inputType, preview), parsedPreview := Some(preview),
                errorCount := errorCount, summary := BuildSummary(inputType, preview, log.status, errorCount),
                durationMs := Some(durationMs));
  }

  // ---------------------------------------------------------------- the log as analysts see it

  /** A log whose status, error count and rows are those the ingest derives from the
      early steps fails exactly when it counts errors, exactly when an early step erred;
      it then needs review, reports a failed transformation and ends with the skipped
      transform. */
  lemma FinishedLogStatus(log: TraceLog, early: seq<StepResult>, inputType: InputType, outputType: string)
    requires log.status == (if HasErrorStep(early) then FAILED else PROCESSED)
    requires log.errorCount == CountErrors(Finished(early, inputType, outputType))
    requires log.steps == Persisted(Finished(early, inputType, outputType))
    ensures log.status == FAILED <==> log.errorCount > 0
    ensures log.status == FAILED <==> HasErrorStep(early)
    ensures log.status == FAILED ==> ReviewRequired(log) && ProcessingStatus(log) == FailedTransformation
    ensures |log.steps| > 0 && (log.status == FAILED <==> log.steps[|log.steps| - 1].status == WARN)
  {
    FinishedOutcome(early, inputType, outputType);
    if log.status == FAILED {
      FailedLogNeedsReview(log);
    }
  }

  /** Every stored log has the status `FinishedLogStatus` describes. */
  lemma StoredLogStatus(traceId: string, inputType: InputType, outputType: string, raw: string, preview: Preview,
                        early: seq<StepResult>, meta: map<string, string>, durationMs: int)
    ensures var log := StoredLog(traceId, inputType, outputType, raw, preview, early, meta, durationMs);
      && (log.status == FAILED <==> log.errorCount > 0)
      && (log.status == FAILED ==> ReviewRequired(log) && ProcessingStatus(log) == FailedTransformation)
      && |log.steps| > 0 && (log.status == FAILED <==> log.steps[|log.steps| - 1].status == WARN)
  {
    var log := StoredLog(traceId, inputType, outputType, raw, preview, early, meta, durationMs);
    FinishedLogStatus(log, early, inputType, outputType);
  }

  /** Analysts see a stored log's normalised source system, and the message type of its
      preview whenever that is non-empty. */
  lemma StoredLogView(traceId: string, inputType: InputType, outputType: string, raw: string, preview: Preview,
                      early: seq<StepResult>, meta: map<string, string>, durationMs: int)
    ensures var log := StoredLog(traceId, inputType, outputType, raw, preview, early, meta, durationMs);
      && SourceSystem(log) == NormalizedSource(meta, inputType, preview)
      && (PreviewMessageType(preview).GetOr("") != "" ==> MessageType(log) == PreviewMessageType(preview).value)
  {
  }

  /** The log of any ingest: failed exactly when it counts errors, which are at most
      two; a failed one needs review and ends with the skipped transform; its source
      system is the caller's when the caller named one; an HL7 log whose MSH carries a
      message type shows that type. */
  lemma IngestedOutcome(raw: string, declared: Option<string>, outputType: string, meta: map<string, string>,
                        traceId: string, json: JsonOutcome, durationMs: int)
    ensures var log := Ingested(raw, declared, outputType, meta, traceId, json, durationMs);
      && (log.status == FAILED <==> log.errorCount > 0)
      && log.errorCount <= 2
      && (log.status == FAILED ==> ReviewRequired(log) && ProcessingStatus(log) == FailedTransformation)
      && |log.steps| >= 3 && TraceAvailable(log)
      && (log.status == FAILED <==> log.steps[|log.steps| - 1].status == WARN)
      && (!Placeholder(CallerSource(meta)) ==> SourceSystem(log) == CallerSource(meta))
      && (log.inputType == HL7 && Hl7PreviewOf(raw).messageType != "" ==> MessageType(log) == Hl7PreviewOf(raw).messageType)
  {
    var inputType := GuessInputType(raw, declared);
    var preview := ParsePreview(inputType, raw, json).0;
    TimelineShape(inputType, raw, json, outputType);
    StoredLogStatus(traceId, inputType, outputType, raw, preview, EarlySteps(inputType, raw, json), meta, durationMs);
    StoredLogView(traceId, inputType, outputType, raw, preview, EarlySteps(inputType, raw, json), meta, durationMs);
  }

  lemma UnrecognisedLog(log: TraceLog, preview: Preview, parse: seq<StepResult>, raw: string, outputType: string)
    requires |parse| == 1 && parse[0].status == WARN
    requires var early := parse + CheckSteps(OTHER, preview, raw);
      && log.status == (if HasErrorStep(early) then FAILED else PROCESSED)
      && log.errorCount == CountErrors(Finished(early, OTHER, outputType))
      && log.steps == Persisted(Finished(early, OTHER, outputType))
    ensures log.status == PROCESSED && log.errorCount == 0
    ensures ReviewRequired(log) && ProcessingStatus(log) == SuccessWithWarnings
  {
    var early := parse + CheckSteps(OTHER, preview, raw);
    assert early == parse + Validate(preview, OTHER, raw);
    assert !HasErrorStep(early);
    FinishedLogStatus(log, early, OTHER, outputType);
    assert log.steps[0].status == WARN;
  }

  /** A payload of no recognised type is stored without failing but always needs review:
      its parse step warns. */
  lemma UnrecognisedPayloadNeedsReview(raw: string, declared: Option<string>, outputType: string,
                                       meta: map<string, string>, traceId: string, json: JsonOutcome,
                                       durationMs: int)
    requires GuessInputType(raw, declared) == OTHER
    ensures var log := Ingested(raw, declared, outputType, meta, traceId, json, durationMs);
      && log.status == PROCESSED && log.errorCount == 0
      && ReviewRequired(log) && ProcessingStatus(log) == SuccessWithWarnings
  {
    var pp := ParsePreview(OTHER, raw, json);
    var log := Ingested(raw, declared, outputType, meta, traceId, json, durationMs);
    UnrecognisedLog(log, pp.0, pp.1, raw, outputType);
  }
}
