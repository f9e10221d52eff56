# HL7 v2 / FHIR / X12 demo pipeline and ingest trace log, in Dafny

This project models the core of a small healthcare-interoperability demo. It has two halves.

**The clinical transforms** live in `example/hl7_utils.py`:

- Raw HL7 v2 text is split into segments and fields (`parse_hl7`).
- Analysts get quick triage views of a message:
  - the validation errors and warnings;
  - a summary of its type, patient, class, encounter and event time;
  - the MSH sender context;
  - its trigger event and message profile.
- An ADT message becomes a FHIR Patient and Encounter. When both exist, the pipeline also produces:
  - a demonstration 837 professional claim;
  - the 835 remittance for a "paid" outcome;
  - the reconciliation of the two.
- An ORU message becomes a FHIR DiagnosticReport with one Observation per OBX segment.

**The ingest trace log** lives in `logtrace/services.py` and `logtrace/models.py`. One entry point takes a payload and does the following:

1. Guesses its kind (HL7, JSON, EDI, OTHER).
2. Builds a small preview.
3. Turns the HL7 preview's warnings into steps.
4. Validates the payload.
5. Records a transform step.
6. Persists the numbered steps.
7. Derives the log's status, error count, summary and normalised metadata.

The log then offers analyst-facing views: message type, source system, whether review is required, processing status and business impact.

Modules, one concept each:

| module | file | what it holds |
|---|---|---|
| `Wrappers` | wrappers.dfy | `Option`, `Result` |
| `Text` | text.dfy | the Python `str` operations the code relies on: `strip`, `split`, `splitlines`, `startswith`, `isdigit`, `lower`/`upper`, slicing |
| `Timestamps` | timestamps.dfy | `strptime` for `%Y%m%d%H%M[%S]` and `isoformat` |
| `Hl7Segments` | hl7_segments.dfy | `parse_hl7` |
| `Hl7MessageType` | hl7_message_type.dfy | `build_trigger_event`, `build_message_profile` and the event tables |
| `Hl7Checks` | hl7_checks.dfy | `validate_hl7_message`, `extract_hl7_summary`, `extract_source_context_from_msh` |
| `Hl7Fhir` | hl7_fhir.dfy | `hl7_to_fhir_patient`, `hl7_to_fhir_encounter` |
| `Hl7Oru` | hl7_oru.dfy | `hl7_oru_to_fhir` |
| `X12Money` | x12_money.dfy | amounts in whole cents: `f"{x:.2f}"`, `float()`, the 80% payer share |
| `X12Document` | x12_document.dfy | X12 segments: `*`-separated elements, `~`-terminated, joined by newlines |
| `X12Claim` | x12_claim.dfy | `fhir_to_837_claim`, `parse_837_basic` |
| `X12Remit` | x12_remit.dfy | `generate_835_from_837`, `reconcile_837_835` |
| `Hl7Transform` | hl7_transform.dfy | `hl7_to_all` |
| `TraceModels` | trace_models.dfy | `TraceLog`, `TraceStep` and the analyst properties |
| `TraceServices` | trace_services.dfy | `StepResult`, `_guess_input_type`, `_parse_preview`, `_validate`, `_build_summary`, `ingest_payload` |

**Form.** The form follows the source:

- Pure mappings are functions.
- The loops of the source are methods proved against a specification function. The method's loop invariant ties the state after a prefix of the input to that function:
  - `parse_hl7`'s line loop;
  - `extract_hl7_summary`'s scan;
  - `hl7_to_all`'s MSH search;
  - `hl7_oru_to_fhir`'s three loops;
  - `reconcile_837_835`'s CAS loop;
  - `ingest_payload`'s warning loop and persistence loop.
- `ingest_payload` itself is a method. It updates a `TraceLog` value step by step, as the source updates the database row.
- Properties across operations are lemmas, including:
  - the claim read back from the claim that was written;
  - the remittance reconciled against the claim;
  - the step timeline an ingest produces;
  - the review status of every stored log.

**Behaviour worth noting**, as the code has it:

- **`hl7_oru_to_fhir`:** the segment loop overwrites `pid` and `obr`. So the *last* PID and OBR segments win, not the first (`Hl7Oru.LastPidAppend`, `Hl7Oru.LastObrAppend`).
- **`_validate`'s JSON check never fires:**
  - When `json.loads` raises, the fallback preview still has `type == "JSON"`.
  - So a malformed JSON payload gets an ERROR parse step but an OK validate step.
  - It therefore ends with one error, not two (`TraceServices.JsonCheckNeverFires`).
- **`extract_hl7_summary`'s event time:** it is the stamp of the *last* MSH-7 or PV1-44 that parses. PV1-44 is preferred only when the PV1 comes after the MSH (`Hl7Checks.ScanLinesReads`).
- **`fhir_to_837_claim`:** the encounter is not consulted. The claim number is PID-3, or `12345` without one.

## Model

| member | source | states |
|---|---|---|
| Hl7Segments.ParseHl7 | example/hl7_utils.py:259-277 | the table maps each segment name to the field lists of the stripped, non-blank lines of that name, in message order |
| Hl7Segments.TableGroups | example/hl7_utils.py:269-277 | a name is in the table exactly when some line carries it, and its entry is every record of that name in order |
| Hl7Segments.TableEntriesNonEmpty | example/hl7_utils.py:276 | every name in the table lists at least one segment (`setdefault(...).append`) |
| Hl7Segments.TableOfLinesIsTable | example/hl7_utils.py:270-276 | folding the loop body over the raw lines gives the grouping of the stripped non-blank lines |
| Hl7MessageType.BuildTriggerEvent | example/hl7_utils.py:26-43 | the code is the event part of MSH-9; the description is empty exactly when the family is neither ADT nor ORU, and then there is no business reason |
| Hl7MessageType.FamilyAndEvent | example/hl7_utils.py:27-29 | `FAMILY^EVENT^...` splits into its family and its event |
| Hl7MessageType.UnlistedEventDescription | example/hl7_utils.py:34-35 | an ADT or ORU event missing from the tables is described as `<family> Event <event>`, or `(unknown)` when empty, with no business reason |
| Hl7MessageType.BuildMessageProfile | example/hl7_utils.py:45-64 | the profile always starts with `HL7 v2 `; an empty type gives `HL7 v2 (Unknown)`; ADT and ORU name the trigger event's description; any other family gives `HL7 v2 <family>`, followed by ` (<event>)` when there is an event |
| Hl7Checks.ValidateHl7 | example/hl7_utils.py:232-255 | text that does not start with MSH after stripping has exactly the missing-MSH error and no warning; otherwise the segment checks apply to the parsed table |
| Hl7Checks.ValidateSegments | example/hl7_utils.py:238-255 | each error and the warning is reported exactly when its condition holds: MSH-9 empty; ADT without PID; ADT whose first PID lacks PID-3; ADT without PV1. There is at most one error and no other message, so a missing PV1 is only a warning |
| Hl7Checks.ValidateRecords | example/hl7_utils.py:238-255 | the same checks stated over the message's segments in order: the first PID and the first MSH are the ones consulted |
| Hl7Checks.ExtractHl7Summary | example/hl7_utils.py:137-191 | the message type, patient id and class come from the last MSH, PID and PV1 line carrying the field; the encounter is present iff a PV1 line exists; the event time is the last stamp that parses; empty text gives the empty summary |
| Hl7Checks.ScanLinesReads | example/hl7_utils.py:158-189 | scanning lines in order leaves each summary field equal to the last value any line supplied |
| Hl7Checks.ExtractSourceContext | example/hl7_utils.py:194-228 | without an MSH line, only the standard is set; otherwise the sender application and facility are MSH-3 and MSH-4, and the interface type is the part of MSH-9 before the first `^` |
| Timestamps.ParseStamp | example/hl7_utils.py:384 | `strptime` takes the first backtracking match of the directives' patterns, fails on unconverted text, and checks the calendar: a parsed stamp is a valid date and time, and a minutes-only stamp has second 0 |
| Timestamps.MatchCaptures | example/hl7_utils.py:384 | a match cuts consecutive pieces off the text from the start position, each fitting some alternative of its directive's pattern |
| Timestamps.FullWidthStamp | example/hl7_utils.py:384 | a parsed stamp of full width (12 or 14 characters) is digits, except that the day may be a space and a digit, and its fields are the numbers those slices denote |
| Timestamps.IsoFormatOfMinuteStamp | example/hl7_utils.py:384-385 | `isoformat` of a parsed 12-character stamp is `YYYY-MM-DDTHH:MM:00` built from the input's own characters, a space-padded day zero-filled |
| Timestamps.IsoFormatOfSecondStamp | example/hl7_utils.py:169 | `isoformat` of a parsed 14-character stamp is `YYYY-MM-DDTHH:MM:SS` built from the input's own characters, a space-padded day zero-filled |
| Timestamps.SpacePaddedDay | example/hl7_utils.py:384 | `strptime` reads `202501 11200` as 2025-01-01 12:00 |
| Hl7Fhir.PatientFrom | example/hl7_utils.py:280-352 | no Patient exactly when there is no PID; the id is PID-3's first component when non-empty, and the identifier is present exactly then; the family and given names are PID-5's first two components, a missing given name giving none; the address line, city, state and postal code are components 1, 3, 4 and 5 of PID-11, empty ones absent; the birth date is `BirthDate` of PID-7 and the gender follows PID-8 |
| Hl7Fhir.BirthDate | example/hl7_utils.py:306-310 | an empty PID-7 gives no birth date; otherwise `YYYY-MM-DD` by slicing, without a calendar check |
| Hl7Fhir.GenderOf | example/hl7_utils.py:313-315 | `M` is male, `F` is female, anything else unknown |
| Hl7Fhir.ClassFor | example/hl7_utils.py:366-373 | PV1-2 `I` is inpatient, `E` emergency, anything else ambulatory |
| Hl7Fhir.AdmitStart | example/hl7_utils.py:380-385 | an admit time of 12 characters or more fails exactly when its first 12 do not parse as a timestamp; a parsed one is rendered `YYYY-MM-DDTHH:MM:00` from its characters, a space-padded day zero-filled |
| Hl7Fhir.EncounterFrom | example/hl7_utils.py:355-411 | no Encounter exactly when there is no PV1; failure exactly when PV1-44's admit time is malformed; the class follows PV1-2, the subject refers to the patient id when one is given, the location is PV1-3 when non-empty, and the period start is `AdmitStart` of PV1-44, absent exactly when PV1-44 is shorter than 12 characters |
| Hl7Oru.OruMessageType | example/hl7_utils.py:483-490 | MSH-9 of the first MSH line when that is non-empty, else `ORU^R01`; never empty |
| Hl7Oru.FindOruType | example/hl7_utils.py:483-490 | the loop finds the message type `OruMessageType` defines |
| Hl7Oru.ScanOru | example/hl7_utils.py:496-562 | the loop ends with the last PID, the last OBR and every OBX row in order |
| Hl7Oru.BuildObservations | example/hl7_utils.py:567-596 | one Observation per OBX row, the k-th numbered `obx-k`, with one `Observation/obx-k` reference each |
| Hl7Oru.OruFromLines | example/hl7_utils.py:483-629 | message type, patient id, one Observation per OBX in order, the report's result references, subject, effective time and code, all tied to the last PID and OBR |
| Hl7Oru.OruToFhir | example/hl7_utils.py:469-629 | `OruFromLines` applied to the stripped, non-blank lines of the text |
| Hl7Oru.SubjectRef | example/hl7_utils.py:590-591 | a subject reference `Patient/<id>` exists exactly when the patient id is non-empty |
| Hl7Oru.EffectiveOf | example/hl7_utils.py:593-594 | an effective time exists exactly when the OBR carries a non-empty date, and it is that date |
| Hl7Oru.NoteOf | example/hl7_utils.py:585-588 | a note is written exactly when the OBX has a unit or a reference range |
| Hl7Oru.ObxRowsCount | example/hl7_utils.py:496-562 | there are as many observation rows as lines starting with OBX |
| Hl7Oru.ObxRowsAppend | example/hl7_utils.py:496-562 | the rows of two stretches of lines are the rows of each, concatenated |
| Hl7Oru.LastPidAppend | example/hl7_utils.py:496-562 | a PID in a later stretch overrides any earlier one |
| Hl7Oru.LastObrAppend | example/hl7_utils.py:496-562 | an OBR in a later stretch overrides any earlier one |
| Hl7Oru.ObservationIdsUnique | example/hl7_utils.py:568-571 | observations numbered from 1 have pairwise distinct ids |
| Hl7Oru.ObservationIdsDistinct | example/hl7_utils.py:571 | different positions give different `obx-n` ids |
| X12Money.FormatCents | example/hl7_utils.py:690 | `%.2f` of an amount is at least four characters of digits, sign and point, ending in a digit |
| X12Money.ParseAmount | example/hl7_utils.py:648 | `float("")` has no value |
| X12Money.ParseFormatCents | example/hl7_utils.py:690-723 | every amount written with `%.2f` reads back with `float()` as exactly the same number of cents |
| X12Money.PaidShare | example/hl7_utils.py:669-670 | the payer's share is 80% of the billed amount to the nearest cent (within half a cent of it), and lies between 0 and the billed amount when that is non-negative |
| X12Document.SegmentsOfRender | example/hl7_utils.py:640 | splitting a rendered document on `~` after removing newlines, stripping and dropping blanks gives back exactly the segments written |
| X12Document.SegmentsOfReadable | example/hl7_utils.py:640 | the reader gives one piece per readable segment: its text without newlines, stripped |
| X12Document.ReadableTag | example/hl7_utils.py:641 | a readable segment's piece starts with `<tag>*` exactly when the segment's id is the tag |
| X12Document.FirstTagged | example/hl7_utils.py:640-641 | the first piece starting with `<tag>*` is the text of the first segment with that id, when that one is well formed |
| X12Document.WithPrefixAll | example/hl7_utils.py:729-730 | the CAS adjustments collected all start with the prefix and are no more than the segments |
| X12Claim.Parse837 | example/hl7_utils.py:631-650 | empty text or no CLM segment gives the empty result; a claim id read back never contains `*`, `~` or a newline |
| X12Claim.ParseClaim837 | example/hl7_utils.py:414-466 | the claim written for a patient reads back with `parse_837_basic` as the patient's claim id and a total of 150.00 |
| X12Claim.ClaimSegmentsReadable | example/hl7_utils.py:437-462 | every segment of the claim is readable, and the CLM segment, the fourteenth, is well formed and the first with id CLM |
| X12Claim.AddresslessClaim | example/hl7_utils.py:452-456 | a patient without PID-11 gets `N3*` and `N4*None*None*None`, and the claim still reads back |
| X12Remit.Adjudicate | example/hl7_utils.py:665-678 | a denial pays nothing, charges the patient nothing and adjusts the whole bill as CO-45; otherwise the payer and patient shares add up to the bill, and a PR adjustment is present exactly when the patient owes something |
| X12Remit.Generate835 | example/hl7_utils.py:653-698 | the remittance fails exactly when the claim's CLM02 is not a number |
| X12Remit.StatusName | example/hl7_utils.py:726 | CLP02 `1` is paid and `4` is denied |
| X12Remit.Max0 | example/hl7_utils.py:739 | the balance is never negative, and it is either zero or the raw difference |
| X12Remit.ClpFigures | example/hl7_utils.py:716-726 | without a CLP segment the figures are `unknown` with the claim's billed amount and nothing paid; with one, they fail exactly when CLP03, CLP04 or CLP05 is present and not a number, and otherwise are the status named by CLP02, CLP03 (the claim's amount when empty), CLP04 and CLP05 (0 when empty) |
| X12Remit.ReconcileClaim | example/hl7_utils.py:705-740 | fails exactly when the CLP figures do not parse; otherwise the claim id is the 837's (empty without a CLM), the status and amounts are the CLP figures, the adjustments are every CAS segment in order, and the balance due is the non-negative rest of billed minus paid minus patient responsibility; an empty remittance or one without CLP reconciles as unknown with nothing paid |
| X12Remit.Reconciled | example/hl7_utils.py:701-740 | reconciliation fails exactly when the claim's amount does not parse or a CLP amount of the remittance does not, and otherwise reconciles its CLM against the remittance |
| X12Remit.Reconcile837835 | example/hl7_utils.py:701-740 | the method computes `Reconciled` |
| X12Remit.ReconcileParsed | example/hl7_utils.py:709-740 | the method computes `ReconcileClaim` |
| X12Remit.CasAdjustments | example/hl7_utils.py:729-730 | the loop collects every CAS segment, in order |
| X12Remit.RemitReadBack | example/hl7_utils.py:680-698 | the remittance written for a claim reads back its own CLP segment and exactly its own CAS adjustments |
| X12Remit.ReconcileRemitOf | example/hl7_utils.py:653-740 | reconciling a generated remittance gives back the billed amount, the adjudicated shares and adjustments, the status paid or denied, and a balance that is zero when paid and the whole bill when denied |
| X12Remit.DecisionOf | example/hl7_utils.py:665-678 | an outcome other than denied is paid in full between payer and patient, and a denial leaves the whole bill due |
| X12Remit.ReconcileOwnRemit | example/hl7_utils.py:653-740 | for every claim that parses, generating its 835 succeeds and reconciling the two gives the claim's id and bill, the adjudication and the expected balance |
| Hl7Transform.MshType | example/hl7_utils.py:67-76 | the message type comes from MSH-9 of the first MSH line, and is empty when there is none |
| Hl7Transform.FindMessageType | example/hl7_utils.py:71-76 | the loop stops at the first MSH line and returns `MshType` |
| Hl7Transform.Hl7ToAll | example/hl7_utils.py:66-135 | undetermined without MSH-9; ADT builds the admission; ORU goes to the ORU converter with its message type and one observation per OBX; any other type is unsupported |
| Hl7Transform.AdmissionWithoutClaim | example/hl7_utils.py:107-121 | without a PID or without a PV1, no claim is produced |
| Hl7Transform.AdmissionFailsOnAdmitTime | example/hl7_utils.py:91 | a malformed PV1-44 admit time fails the whole ADT transform |
| Hl7Transform.PaidRemitOf | example/hl7_utils.py:701-740 | a 150.00 claim answered with its paid remittance reconciles to 120.00 paid, 30.00 owed by the patient, one adjustment and no balance |
| Hl7Transform.PaidClaimChain | example/hl7_utils.py:107-111 | the claim written for a patient, paid and reconciled, reconciles under the patient's MRN as `PaidRemitOf` states |
| Hl7Transform.AdmissionClaimChain | example/hl7_utils.py:85-121 | an admission with both Patient and Encounter carries the whole claim chain with that reconciliation |
| TraceModels.MetaGet | logtrace/models.py:46 | a metadata value reads non-empty exactly when the key is present with a non-empty value |
| TraceModels.MessageType | logtrace/models.py:38-46 | the preview's message type, else `meta["message_type"]`, else `-`; never empty |
| TraceModels.SourceSystem | logtrace/models.py:48-51 | `meta["source_system"]`, else `meta["source"]`, else `-`; never empty |
| TraceModels.ProcessingStatus | logtrace/models.py:67-79 | failed transformation exactly when the log failed; success with warnings exactly when it did not fail and some step warned; success otherwise |
| TraceModels.BusinessImpact | logtrace/models.py:81-97 | a valid metadata override wins; otherwise Low exactly when no review is required, and High exactly when review is required and the message type starts with ADT |
| TraceModels.FailedLogNeedsReview | logtrace/models.py:58-97 | a failed log needs review, reports a failed transformation and, without an override, is never of low impact |
| TraceModels.UnsuccessfulNeedsReview | logtrace/models.py:58-79 | every log whose processing status is not a clean success needs review |
| TraceServices.GuessInputType | logtrace/services.py:29-39 | a declared HL7, JSON or EDI wins; otherwise JSON, HL7, EDI and OTHER each exactly when the payload has that shape and none of the earlier ones |
| TraceServices.Hl7Warnings | logtrace/services.py:101-108 | the PID-3 warning exactly when the patient id is blank, and the DOB warning exactly when a non-empty DOB is not eight digits; each at most once, the PID-3 warning first |
| TraceServices.FirstFields | logtrace/services.py:64-65 | no fields exactly when no line starts with the prefix |
| TraceServices.Hl7PreviewOf | logtrace/services.py:62-108 | the preview's warnings are those of its patient id and DOB; the header fields are MSH-3, 4, 5, 6, 9 and 10 of the first MSH line, all empty without one; the patient id and DOB are PID-3 and PID-7 of the first PID line, empty without one, and then the PID-3 warning is raised |
| TraceServices.FirstKeys | logtrace/services.py:56 | at most 20 keys, a prefix of the object's keys, and all of them when there are 20 or fewer |
| TraceServices.JsonParse | logtrace/services.py:52-60 | one parse step; it errs exactly when `json.loads` raises, and then the preview is the failure fallback carrying the exception text; otherwise an object previews its first 20 keys and a list or other value its length |
| TraceServices.Hl7Parse | logtrace/services.py:62-111 | one OK parse step carrying the HL7 preview |
| TraceServices.EdiParse | logtrace/services.py:113-116 | one OK parse step; the preview records whether the stripped payload starts with ISA, and its length |
| TraceServices.ParsePreview | logtrace/services.py:42-127 | one parse step whose preview has the input type; ERROR exactly for a JSON payload `json.loads` refuses, WARN exactly for OTHER |
| TraceServices.ValidationErrors | logtrace/services.py:130-146 | at most one error, one of the three messages, and each exactly when its check fails: HL7 without an MSH segment, JSON with a non-JSON preview, EDI not starting with ISA; OTHER is never checked |
| TraceServices.Validate | logtrace/services.py:130-152 | one validate step: ERROR listing the errors exactly when there are some, OK otherwise |
| TraceServices.JsonCheckNeverFires | logtrace/services.py:139-141 | the JSON preview check never reports an error, whatever `json.loads` does |
| TraceServices.GuessedHl7Validates | logtrace/services.py:135-137 | a payload guessed as HL7 always passes HL7 validation |
| TraceServices.GuessedEdiWithoutIsa | logtrace/services.py:143-145 | a payload guessed as EDI that does not start with ISA was guessed by its `*00*` and fails EDI validation |
| TraceServices.SummaryHead | logtrace/services.py:156-160 | the head is `<type> <status>`, followed by ` (<message type>)` exactly for an HL7 preview with a message type, and then that is the text appended |
| TraceServices.BuildSummary | logtrace/services.py:155-163 | the summary extends its head, equals it exactly when there are no errors, and otherwise appends ` - <n> error(s)` |
| TraceServices.CountSuffixReadBack | logtrace/services.py:161-162 | the error suffix ends in ` error(s)` and its digits read back as the error count |
| TraceServices.WarningSteps | logtrace/services.py:196-205 | one WARN validate step per preview warning, in order |
| TraceServices.AppendWarnings | logtrace/services.py:196-205 | the loop appends exactly `WarningSteps` |
| TraceServices.CollectChecks | logtrace/services.py:195-209 | the warning steps of an HL7 preview followed by the validate step |
| TraceServices.TransformStep | logtrace/services.py:211-231 | the transform step never errs, and it warns exactly when an earlier step erred |
| TraceServices.CountErrors | logtrace/services.py:234-238 | the error count is at most the number of steps, and positive exactly when some step erred |
| TraceServices.CountErrorsAppend | logtrace/services.py:234-238 | counting errors distributes over concatenated timelines |
| TraceServices.Truncate | logtrace/services.py:245 | a persisted message is a prefix of the original of at most 255 characters, and whole when it fits |
| TraceServices.Persisted | logtrace/services.py:233-248 | the rows are the steps in order, numbered from 1, with messages truncated |
| TraceServices.PersistSteps | logtrace/services.py:233-248 | the loop writes exactly `Persisted` and counts exactly `CountErrors` |
| TraceServices.EarlyShape | logtrace/services.py:191-209 | before the transform, the timeline is the parse step, WARN validate steps and the validate step, with at most two errors |
| TraceServices.FinishedOutcome | logtrace/services.py:211-231 | the transform step is appended last, warns exactly when an earlier step erred, and adds no error |
| TraceServices.ChecksShape | logtrace/services.py:189-231 | every finished timeline has the shape parse, warnings, validate, transform |
| TraceServices.TimelineShape | logtrace/services.py:166-231 | the timeline of every ingest has that shape with one warning step per HL7 preview warning |
| TraceServices.DerivedSource | logtrace/services.py:257-259 | a source is derived exactly for an HL7 preview whose MSH-3 or MSH-4 is not blank, and it is `<app>:<facility>`, each stripped, with `UNKNOWN_APP` or `UNKNOWN_FAC` for a blank half |
| TraceServices.NormalizedSource | logtrace/services.py:255-265 | the caller's source unless it is missing or a UI placeholder, then the derived source, then `unknown`; never empty |
| TraceServices.NormalizedMeta | logtrace/services.py:250-273 | `source_system` is normalised; an HL7 message type is added only when `message_type` is absent; every other key is kept and none is added |
| TraceServices.IngestPayload | logtrace/services.py:166-282 | the stored log is `Ingested` of the payload, the oracle's parse and the given trace id and duration |
| TraceServices.FinishedLogStatus | logtrace/services.py:211-238 | a log fails exactly when it counts errors and exactly when an early step erred; it then needs review, and its last step is the skipped transform |
| TraceServices.StoredLogStatus | logtrace/services.py:211-280 | the stored log's status, error count, review and last step agree as `FinishedLogStatus` states |
| TraceServices.StoredLogView | logtrace/services.py:250-278 | the stored log shows the normalised source and the preview's message type |
| TraceServices.IngestedOutcome | logtrace/services.py:166-282 | every ingest has at least three steps, so its trace is available; it fails exactly when it counts errors, counts at most two, and a failed log needs review; the caller's source and an HL7 message type show through |
| TraceServices.UnrecognisedLog | logtrace/services.py:118-121 | a log whose parse step warned, as OTHER's does, is processed with no error but needs review and reports success with warnings |
| TraceServices.UnrecognisedPayloadNeedsReview | logtrace/services.py:29-39 | every payload that is not recognised is stored processed, without errors, as success with warnings and in need of review |

## Left out

- The `json.loads` call of `_parse_preview` is an input: the outcome of parsing the payload (`TraceServices.JsonOutcome`). JSON syntax is not modelled.
- The trace id (`uuid.uuid4()`), the clock used for `duration_ms` and the rows' creation timestamps are not modelled. The trace id and the duration are parameters of `TraceServices.IngestPayload`.
- Database persistence is not modelled.
  - A `TraceLog` is a value with its steps as a sequence.
  - `TraceStep.objects.create` is the numbered row list.
  - Model field lengths other than the 255-character step message, and the `__str__` methods, are not modelled.
- The `trace_available` property is `TraceModels.TraceAvailable`, a predicate. What it states about stored logs is proved in `TraceServices.IngestedOutcome`.
- Metadata values are strings. The case where `meta` is not a dictionary, and `meta` values of other JSON types, are not modelled.
- A `None` payload and `None` step messages or details are not modelled: strings are never absent here.
- Exceptions become `Failure` values with a fixed text, not Python's exact message:
  - `ValueError` from `strptime` and `float`;
  - the exception caught in `_parse_preview`.
- Timestamps.ParseStamp: `\d` in the patterns of `strptime` matches any Unicode decimal digit, and `int()` reads such digits too. The model reads ASCII digits only, so a stamp written with other decimal digits (full-width ones, say) parses in Python and not here. Space-padded days and single-digit fields are modelled.
- Hl7Fhir.AdmitStart: for the same reason, an admit time written with non-ASCII decimal digits fails here and parses in Python.
- X12Money.ParseAmount: accepts an optional sign, digits and at most two decimals. `float()` also accepts exponents, `inf`/`nan`, surrounding whitespace, underscores and more decimals, which the model reports as not a number.
  - This matters only for claims or remittances written by hand. Every amount the code itself writes has the `%.2f` form (`X12Money.ParseFormatCents`).
- X12Money.PaidShare: money is integer cents, and the 80% share is the nearest cent (no tie can arise). Python's `round(x * 0.8, 2)` on binary floats can differ by a cent on some amounts; 150.00 gives 120.00 either way.
- Hl7Transform.Hl7ToAll: the ORU branch states the message type, the raw text and the observation count. The full ORU result is stated by `Hl7Oru.OruToFhir`, which the method calls.
- X12Claim.Parse837: the contract states the empty results and that a claim id never holds a delimiter. What it reads from a CLM segment is stated for the claims the code writes, through `X12Claim.ParseClaim837` and `X12Claim.ParseClm`, not as a separate postcondition.
- X12Claim.ParseClaim837: under `X12Claim.ClaimSafe`, the round trip is proved for patients whose claim fields hold no segment terminator: no `~` in any patient element, and no `~`, newline or `*` in the claim id. Empty elements, missing addresses and spaces are covered. The code does not escape these characters: a claim id with `*` reads back cut short, and a family name such as `X~CLM*1*2` splits off a piece starting `CLM*1*2*` that the reader takes for the claim (id 1, total 2.00). Patients whose `~` splits off a piece not starting with `CLM*` still read back, but the model does not prove it.
- Hl7Transform.PaidClaimChain: requires `X12Claim.ClaimSafe` of the patient, so it shares the exclusion of `X12Claim.ParseClaim837` above.
- Hl7Transform.AdmissionClaimChain: requires `X12Claim.ClaimSafe` of the admission's Patient, with the same exclusion.
- `lower`, `upper` and `isdigit` are modelled on ASCII only. Non-ASCII letters keep their case, and non-ASCII digits are not digits. This affects only the `ADT` prefix test of `business_impact`, the UI placeholder test and the DOB warning.
- The commented-out block of `hl7_to_all` is not modelled.
- The remaining code of the repository (views, URLs, templates, settings, management commands) is not part of this model.
