# Page-content split skill, modelled in Dafny

This project models an Azure AI Search custom skill (`custom_skill/function_app.py`). It is an HTTP endpoint that receives a batch of records. Each record carries a `page_content` text made of blank-line separated `id:`, `question:` and `answer:` fields. The skill answers with one output record per input record, holding the extracted fields, record-level errors and warnings.

The model has three layers, each in the form of the source:

- **`extract_field`** (`extract.dfy`, module `Extract`) is a pure function. The source runs one `re.search` in DOTALL mode and strips the captured group. The model replaces the regular expression with an explicit left-to-right scan: find the label, skip whitespace greedily, then run lazily to the next boundary. The predicate `IsLeftmostMatch` states declaratively which match Python reports:
  - the leftmost `<name>:` with at least one character after it;
  - `\s*` greedy, giving one character back when the whitespace runs to the end of the text;
  - the capture ends at the first blank line followed by `id:`, `question:` or `answer:`, or at `$`, which also matches just before a final line feed.

  The scan is proved to agree with `IsLeftmostMatch`. The returned value is proved trimmed and free of blank-line separated labels. Worked examples pin down individual behaviours:
  - the three-field page;
  - a label inside a word (`paid:`);
  - a whitespace-only value giving `""`;
  - an empty `question:` whose greedy whitespace skip runs over the blank line and captures the answer line.
- **`process_record`** (`records.dfy`, module `Records`) is a pure function from a decoded JSON record and its index to either an output record or an escaping exception. `WellFormed` states the shape every output record has:
  - an error comes alone, with empty `data` and no warnings;
  - otherwise the warnings are exactly those owed for a missing question or answer;
  - the `data` keys are among `id`, `question` and `answer`;
  - each value is non-empty, trimmed and label-free.

  Separate lemmas cover the `recordId` rule, the missing-content error, the caught exceptions and the extraction path.
- **The HTTP handler** (`handler.dfy`, module `Handler`) is a method. It runs the request-level checks in the source's order. It then processes the records in a `while` loop whose invariant ties every result to `ProcessRecord` of the record at the same index. The first record that is not an object turns the whole request into a 500.

`pystr.dfy` holds the Python string built-ins the skill relies on:
- the whitespace class shared by `\s` and `str.strip()` (`str.isspace()`);
- `str.strip()`;
- the decimal rendering of an index inside `f'record_{index}'`.

`json.dfy` holds the decoded JSON value and Python truthiness. `wrappers.dfy` holds `Option`.

Behaviours of the code worth spelling out:
- A record that carries `recordId` keeps it whatever its value, even `null` or `""`. The rule is at line 44.
- A record that is not a JSON object does not become a per-record error. `record.get` fails at line 44, and the handler's `except` branch fails again at line 93 for the same reason. The exception escapes `process_record`, and the whole request ends in the 500 branch at lines 184-192.
- A truthy `page_content` that is not a string (a number, a list) reaches `re.search`. That raises a TypeError, which becomes the record's single error. A `data` that is not an object likewise gives a single AttributeError error.
- "Request body is required" is the answer to a decoded body that is falsy: `{}`, `[]`, `null`, `""`, `0` or `false`. A body that is not JSON at all, including an empty HTTP body, takes the "Invalid JSON in request body" branch. That branch is entered when the request object's `get_json` raises `ValueError`.

## Model

| member | source | states |
|---|---|---|
| PyStr.SkipLeading | custom_skill/function_app.py:22-26 | the first non-whitespace position at or after `i`, everything skipped being whitespace: greedy `\s*` in the pattern, and the leading cut of `str.strip()` |
| PyStr.SkipTrailing | custom_skill/function_app.py:26 | the end of `s[lo..j]` without its trailing whitespace; everything dropped is whitespace and the last kept character is not |
| PyStr.Strip | custom_skill/function_app.py:26 | `str.strip()`: the result is trimmed at both ends and is a piece of the input with only whitespace cut away on either side |
| PyStr.StripAt | custom_skill/function_app.py:26 | the stripped text sits in the input at `StripOffset`, framed by whitespace |
| PyStr.StripEmptyIffAllSpace | custom_skill/function_app.py:26 | stripping gives `""` exactly when the input is all whitespace |
| PyStr.StripTrimmed | custom_skill/function_app.py:26 | stripping an already trimmed string returns it unchanged |
| PyStr.DecimalString | custom_skill/function_app.py:44 | the f-string rendering of an index is non-empty, all digits, with no leading zero |
| PyStr.DecimalRoundTrip | custom_skill/function_app.py:44 | reading the rendering of `n` back as a decimal gives `n` |
| PyStr.DecimalStringInjective | custom_skill/function_app.py:44 | different indices render differently |
| Extract.FindStart | custom_skill/function_app.py:22-23 | the first position at or after `from` where `<name>:` occurs with a character after it; nothing before it qualifies; `None` when no position does |
| Extract.FindBoundary | custom_skill/function_app.py:22 | lazy `.+?` with its lookahead: the first position at or after `from` where the lookahead holds |
| Extract.Locate | custom_skill/function_app.py:22-25 | the scan finds the leftmost match as IsLeftmostMatch defines it, and finds none exactly when no start position exists |
| Extract.LeftmostMatchUnique | custom_skill/function_app.py:23 | at most one match fits the definition, so the search result is determined |
| Extract.NoMarkerInCapture | custom_skill/function_app.py:22 | no blank-line separated label starts inside the lazy capture |
| Extract.CaptureHasNoMarker | custom_skill/function_app.py:22-26 | any piece of the capture is free of blank-line separated labels |
| Extract.StrippedCaptureIsClean | custom_skill/function_app.py:22-26 | the stripped capture is trimmed and label-free |
| Extract.ExtractField | custom_skill/function_app.py:10-27 | `None` exactly when `<name>:` never occurs with a character after it; otherwise a trimmed value that never spans a blank line followed by a known label |
| Extract.ExtractFieldIsLeftmostMatch | custom_skill/function_app.py:22-26 | the value returned is the stripped group of the leftmost match, so the scan agrees with the pattern |
| ExtractExamples.ExtractScenarioId | custom_skill/function_app.py:22-26 | on `id: 1` / `question: What is 2+2?` / `answer: 4` the id is `"1"` |
| ExtractExamples.ExtractScenarioQuestion | custom_skill/function_app.py:22-26 | on the same page the question is `"What is 2+2?"`, cut at the blank line before `answer:` |
| ExtractExamples.ExtractScenarioAnswer | custom_skill/function_app.py:22-26 | on the same page the answer is `"4"` |
| ExtractExamples.GreedySkipCrossesBlankLine | custom_skill/function_app.py:22-26 | for `question:` followed by a blank line and `answer: 4`, the question extracted is `"answer: 4"` |
| ExtractExamples.LabelInsideWord | custom_skill/function_app.py:22-23 | the label is matched anywhere: `paid: 5` gives the id `"5"` |
| ExtractExamples.WhitespaceOnlyValue | custom_skill/function_app.py:22-26 | a label followed only by whitespace gives `""`, not `None` |
| ExtractExamples.MissingLabels | custom_skill/function_app.py:25-27 | on `answer: 42`, which holds no `id:` and no `question:`, both extractions give `None` |
| ExtractExamples.AnswerOnlyAnswer | custom_skill/function_app.py:22-26 | `answer: 42` gives the answer `"42"` |
| ExtractExamples.FirstLetterAbsent | custom_skill/function_app.py:22-23 | a label whose first letter appears nowhere in the text has no match start |
| Records.Failure | custom_skill/function_app.py:51-56 | a record-level failure carries exactly its one error, empty data and no warnings, and is well-formed |
| Records.Assemble | custom_skill/function_app.py:63-89 | each field is in `data` exactly when its extraction found a non-empty value, holding that value; no errors; warnings are those owed for the missing question and answer |
| Records.ExtractAll | custom_skill/function_app.py:58-89 | the success record over the three extractions of the page content, with the same guarantees |
| Records.ProcessRecord | custom_skill/function_app.py:30-97 | raises exactly when the record is not an object, with the AttributeError of `.get` on it; otherwise a well-formed output record whose id follows the `recordId` rule |
| Records.RecordIdRule | custom_skill/function_app.py:44 | an object record keeps its `recordId` whatever its value; without one it is named `record_<index>` |
| Records.DefaultRecordIdsDistinct | custom_skill/function_app.py:44 | synthesised ids of different positions differ |
| Records.MissingPageContent | custom_skill/function_app.py:48-56 | absent or falsy `page_content` gives exactly the one error "page_content field is required", empty data and no warnings |
| Records.CaughtFaults | custom_skill/function_app.py:91-97 | a `data` that is not an object, or truthy non-string content, gives one error carrying that exception, empty data and no warnings, and the record is still returned |
| Records.WarningsNameMissingFields | custom_skill/function_app.py:77-81 | the question warning is present exactly when the question is missing from `data`, and likewise for the answer |
| Records.PageContentIsExtracted | custom_skill/function_app.py:48-61 | non-empty string content takes the extraction path |
| Records.ExtractedRecord | custom_skill/function_app.py:58-89 | on the extraction path: no errors; each of id, question and answer is in `data` exactly when found non-empty, with that value; each warning present exactly when its field was not found |
| Records.NoQuestionIsWarned | custom_skill/function_app.py:59-81 | content with no `question:` anywhere gives the question warning and no question in `data` |
| RecordExamples.FullRecord | custom_skill/function_app.py:30-89 | record `r1` with the three-field page gives all three fields, no errors, no warnings |
| RecordExamples.RecordWithoutPageContent | custom_skill/function_app.py:44-56 | a record without id or content at index 0 is `record_0` with the one error |
| RecordExamples.AnswerOnlyRecord | custom_skill/function_app.py:58-89 | content `answer: 42` gives data with only the answer and only the question warning |
| Handler.HandleRequest | custom_skill/function_app.py:133-192 | request-level checks in the source's order, each with its message. On success, one output per input, in order, each equal to ProcessRecord of the record at the same index and well-formed. Success exactly when every record is an object. Otherwise a 500 for the first record that is not one |
| HandlerExamples.SingleRecordRequest | custom_skill/function_app.py:158-173 | a batch of one processed record answers 200 with exactly its output |
| HandlerExamples.FullRequest | custom_skill/function_app.py:158-173 | the request holding record `r1` and the three-field page answers with its one complete output record |
| HandlerExamples.EmptyObjectRequest | custom_skill/function_app.py:137-144 | `{}` is refused with 400 "Request body is required" |
| HandlerExamples.ValuesNotAList | custom_skill/function_app.py:147-156 | `{"values": "not-a-list"}` is refused with 400 and the invalid-format message |
| HandlerExamples.NonObjectRecord | custom_skill/function_app.py:184-192 | a number among the records turns the request into a 500, even after a good record |

## Left out

- JSON decoding and encoding (`req.get_json`, `json.dumps`): the body is given already decoded, or as a marker that it is not JSON. The response carries its status and payload, not the serialised text, mime type or `ensure_ascii` setting.
- JSON numbers are modelled as `real`, without Python's int/float distinction. Truthiness (zero is falsy) is the same for both.
- Output key order: `data` is a map. The order in which the source inserts `id`, `question` and `answer`, and the key order of the serialised output, are not modelled.
- The Azure Functions app object, route, auth level and request/response types are framework plumbing.
- Logging on entry and on failure is a side effect only.
- Exception texts (`str(e)`) are Python's own wording: a `Fault` records the exception's kind and the value it was raised on, not its message.
- Extract.ExtractField: the field name is matched literally. The source interpolates it into the pattern unescaped, so regular-expression metacharacters in a name would change the pattern. Only `id`, `question` and `answer` are ever passed.
- Idempotence of the skill (same input, same output) holds by construction: every operation is a function of its inputs and no lemma states it.
