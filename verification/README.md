# Forgery-verdict response service, modelled in Dafny

This project models the decision logic of a document-forgery detector's
response service. A multimodal reasoning service returns free text. The
response service turns that text into a typed forgery verdict, and defines
two rules that may rewrite the verdict afterwards.

- **Payload location** (`ResponseParser.FindSpan`, `ResponseParser.Candidate`):
  the service searches the raw text for the regular expression `\{.*\}` with
  DOTALL. The model takes the span from the first `{` to the last `}`. It
  proves this span is exactly the leftmost, longest match that a regex search
  reports, and that there is no match when no `{` comes before a `}`.
- **Validation** (`Validator.DecodeForgery`): the decoded JSON value is built
  into the three records `VisualAnalysis`, `LogicalAnalysis` and
  `ForgeryAnalysis`. Every field is required and must have its JSON type.
  Keys the records do not name are ignored.
- **Parse with fallback** (`ResponseParser.ParseLlmResponse`): the parse is
  total. Any failure gives the fixed ERROR verdict, whose summary starts with
  `"Parsing Error: "`. JSON text decoding (`json.loads`) is a parameter
  `loads: string -> Result<Json>`.
- **Quality gate** (`VerdictRules.VerifyConfidence`): suppose the visual
  quality note contains "low", ignoring case, and there is no hard evidence.
  Hard evidence means a logical contradiction, or tampering scored above
  `threshold` (90 by default). In that case the verdict is forced to
  ORIGINAL, confidence 100, with a fixed summary.
- **Phase discipline** (`VerdictRules.EnforcePhaseDiscipline`): FORGED without
  confirmed visual tampering (tampered and score at least 85) becomes
  SUSPICIOUS. Its confidence is capped at 70 and a fixed note is appended to
  the summary. Logical contradictions without confirmed tampering force
  SUSPICIOUS, with confidence capped at 75.

The two rules are pure functions from verdict to verdict. The service defines
both rules but never applies them: its route only calls the parse. The composed
`VerdictRules.Reconcile` (quality gate, then phase discipline) is this model's
own choice, not behaviour of the service.

Modules: `Wrappers` (Option, Result), `Text` (lower-casing, substring search,
first/last index), `Json` (the decoded JSON value), `Records` (the verdict
records and their JSON form), `Validator`, `ResponseParser`, `VerdictRules`.

### Behaviour not in the code (not modelled)

- Confidence clamping to [0, 100], legacy field aliases
  (`classification` / `final_classification`), envelope unwrapping,
  side-channel pattern overrides, weak-signal suppression and a fixed rule
  order do not occur in app/services/response_service.py. None of them is
  modelled, and confidence is an unbounded integer.
- The code requires `final_classification` and `final_confidence`. The
  response schema sent to the reasoning service asks for `classification`
  and `confidence` (app/services/llm_service.py:33-34). A payload that follows
  that schema therefore fails validation and yields the ERROR verdict
  (`Validator.SchemaAnswerFails`). The model keeps this mismatch as it is.
- The fallback verdict has empty lists, quality note `"Error"`, and summary
  `"Parsing Error: "` followed by the exception text. It carries no evidence
  item of its own.
- The classification is free text, so a payload whose
  `final_classification` is `"ERROR"` validates as it stands; ERROR does not
  come only from the failure path. `VerdictRules.RulesNeverIntroduceError`
  proves that neither rule produces ERROR.
- The quality gate tests `is_tampered and score > threshold`. Phase
  discipline tests `score >= 85`. These are two different bars, and the model
  keeps both.

## Model

| member | source | states |
|---|---|---|
| Text.Lower | app/services/response_service.py:30 | Lower-casing keeps the length, and the result holds `l`, `o` or `w` exactly where the input holds that letter in either case; characters other than A-Z are kept. |
| Text.ContainsIff | app/services/response_service.py:30 | The substring test `pat in s` is true exactly when the pattern occurs at some position (both directions). |
| Text.FirstIndexOf | app/services/response_service.py:45 | The returned position holds the character and no earlier position does; None means the character is absent. |
| Text.LastIndexOf | app/services/response_service.py:45 | The returned position holds the character and no later position does; None means the character is absent. |
| ResponseParser.FindSpan | app/services/response_service.py:45-47 | Any span returned opens with `{`, closes with a later `}`, and lies within the text, so it is a match of `\{.*\}`. |
| ResponseParser.FindSpanIsSearchResult | app/services/response_service.py:45-47 | The span is the leftmost-start, longest match that the regex search reports; when there is no span, no substring matches the pattern at all. |
| ResponseParser.SearchResultIsFindSpan | app/services/response_service.py:45-47 | Conversely, whenever the regex search has a match, FindSpan returns exactly that match. |
| ResponseParser.Candidate | app/services/response_service.py:45-48 | The candidate payload is at least two characters long and starts with `{` and ends with `}`. |
| ResponseParser.CandidateOfWrapped | app/services/response_service.py:45-48 | Prose or fences around the payload that contain no `{` before it and no `}` after it are stripped: the candidate is exactly the payload. |
| ResponseParser.CandidateSplits | app/services/response_service.py:45-48 | Every candidate sits in the raw text between a prefix with no `{` and a suffix with no `}`, so it runs from the first `{` to the last `}`. |
| Validator.DecodeVisual | app/services/response_service.py:6-10 | Validation of `visual_analysis` succeeds exactly when all four fields are present with the right JSON types, and the record returned is the one the object spells out. |
| Validator.DecodeLogical | app/services/response_service.py:12-16 | Validation of `logical_analysis` succeeds exactly when all four fields are present with the right JSON types, and the record returned is the one the object spells out. |
| Validator.DecodeForgery | app/services/response_service.py:18-23 | Building a ForgeryAnalysis from the payload succeeds exactly when the payload has the full schema shape (nested records included); on success every field of the result equals the payload's value for that key. |
| Validator.DecodeToJson | app/services/response_service.py:18-23 | Writing a verdict as its JSON object and validating that object gives the same verdict back. |
| Validator.SchemaAnswerFails | app/services/response_service.py:18-23 | An answer keyed `classification`/`confidence` (the names the request schema asks for) instead of `final_classification`/`final_confidence` fails validation, whatever its values. |
| Validator.DecodeIgnoresExtraKeys | app/services/response_service.py:49 | Adding or replacing a key outside the schema does not change the outcome of validation. |
| ResponseParser.ParseLlmResponse | app/services/response_service.py:43-58 | The parse is total. When the candidate decodes and validates, the result is that record. Otherwise it is the ERROR verdict: confidence 0, not tampered, no contradictions, scores 0, empty lists, quality note "Error", summary starting "Parsing Error: ". With no candidate the summary is "Parsing Error: No JSON found". A decoder failure's message follows the prefix. |
| ResponseParser.ParseWrapped | app/services/response_service.py:45-49 | A verdict whose payload decodes to its `ToJson` form, wrapped in prose without stray braces, is parsed back exactly. |
| ResponseParser.ParseWithoutBracesFails | app/services/response_service.py:45-47 | Text in which no `{` precedes a `}` always gives the "No JSON found" fallback. |
| VerdictRules.LowQualityIff | app/services/response_service.py:30 | Lower-casing the note and searching for "low" is true exactly when three consecutive characters spell l-o-w in any mix of cases. |
| VerdictRules.VerifyConfidence | app/services/response_service.py:25-41 | If the note contains "low" (any case) and there is neither a contradiction nor tampering scored above the threshold, the result is ORIGINAL, confidence 100, with the fixed summary. Otherwise the verdict is unchanged. The sub-analyses are never modified. |
| VerdictRules.VerifyConfidenceIdempotent | app/services/response_service.py:36-41 | Applying the quality gate twice equals applying it once. |
| VerdictRules.DegradedCaptureIsOriginal | app/services/response_service.py:29-39 | A low-quality note with no tampering flag and no contradictions ends ORIGINAL at confidence 100, whatever the threshold. |
| VerdictRules.DefaultThresholdGate | app/services/response_service.py:25-39 | At the default threshold 90, a low-quality note without contradictions ends ORIGINAL at 100 with the fixed summary whenever the tampering score is at most 90, even if tampering is reported. |
| VerdictRules.EnforcePhaseDiscipline | app/services/response_service.py:60-89 | After the rule, FORGED implies tampered with score at least 85. An illegal FORGED becomes SUSPICIOUS with confidence min(c, 70) and the note appended. Logic-only evidence gives SUSPICIOUS with confidence at most 75. Confidence never rises. The classification either stays or becomes SUSPICIOUS. The summary changes only by the note. Nothing else changes. |
| VerdictRules.EnforcePhaseDisciplineIdempotent | app/services/response_service.py:76-87 | A second pass of phase discipline changes nothing, so the downgrade note is never appended twice. |
| VerdictRules.ConfirmedForgedKept | app/services/response_service.py:66-82 | FORGED with confirmed visual tampering passes through unchanged. |
| VerdictRules.RulesNeverIntroduceError | app/services/response_service.py:36-87 | Neither rule turns a non-ERROR verdict into ERROR. |
| VerdictRules.RulesKeepFallback | app/services/response_service.py:53-57 | The parse fallback is a fixed point of both rules. |
| VerdictRules.Reconcile | app/services/response_service.py:25-89 | The composition chosen by this model (gate, then discipline) never yields FORGED without confirmed tampering. Logic-only evidence ends SUSPICIOUS at most 75. When the gate fires, its ORIGINAL/100 verdict survives. |
| VerdictRules.ReconcileIdempotent | app/services/response_service.py:25-89 | A second pass of the composed rules changes nothing. |

## Left out

- JSON text decoding (`json.loads`): it is the parameter `loads` of the parse. Only its success or failure, and its value, matter to the model.
- Pydantic's lax coercions, such as `"95"` or `95.0` for an int, or `"true"` or `1` for a bool: the model's validation is strict, so such payloads fall back to ERROR in the model, while the service would accept them.
- Validator.DecodeForgery: pydantic reports every failing field at once, with its own message text. The model stops at the first failing field and uses its own wording. Only the `"Parsing Error: "` prefix of the fallback summary is modelled exactly, apart from "No JSON found" and decoder messages.
- Text.Lower: only A-Z are folded. Python's `str.lower` also folds other letters, but none of them folds to `l`, `o` or `w`, so whether "low" occurs is unaffected.
- The network call to the reasoning service (app/services/llm_service.py), PDF/OCR extraction (app/services/file_service.py), and the prompt template (app/services/prompt_service.py): these are I/O, foreign libraries, or a text template with no logic.
- HTTP routing and application wiring (app/routes/analyze.py, app/main.py) and environment configuration (config.py): plumbing with no decision logic.
- In-place mutation: both rules mutate their argument and return it (app/services/response_service.py:37-39, 78-87); the model returns a new value and never changes the argument. The code never calls either rule. A caller that relied on the argument being mutated, or ignored the return value, would see a change the model does not represent.
