# Plant disease detection: a Dafny model of its analysis path

The system takes a photograph of a plant, from a file upload or a live camera,
and sends it to a backend. The backend asks a Gemini model for a diagnosis as
JSON and returns a `DiseaseAnalysis`: disease name, confidence, severity,
symptoms, treatment and prevention. The browser then shows it with a coloured
severity badge and a coloured confidence figure. A test script exercises the
backend and turns the checks it logs into a pass rate and an exit code.

This project models three pieces of sequential logic from that system.

- **The client screen state** (`App` in `app.dfy`, from
  `frontend/src/App.js`). The seven React state variables are the fields of
  one `Screen` object. The handlers are methods on it:
  - file upload, guarded by the MIME type;
  - camera start and stop;
  - photo capture and its `toBlob` callback;
  - the analyze request.

  Each method's frame lists the fields it may change. `Screen.Valid()` is the
  state invariant every handler keeps:
  - the camera view is shown exactly while a live stream is held;
  - no analysis is in flight between events;
  - a selected image always has an `image/` type.

  Two pure classifiers go with the class: the case-insensitive severity badge
  and the confidence colour band.
- **Backend result normalisation** (`Server` in `server.dfy`, from
  `backend/server.py`), using the string operations in `Text`
  (`text.dfy`):
  - the model reply is cleaned of a "```json" fence;
  - a `DiseaseAnalysis` is built from the decoded JSON, with per-field
    defaults;
  - a fixed analysis is used when decoding fails;
  - each endpoint's outcome becomes an `AnalysisResponse` or an HTTP error.

  `/analyze` never raises, and a failed database write does not change its
  response. `/analyze-upload` re-raises the analysis's HTTP error unchanged.
  It also reports a missing or failing store as `success=False`, even when
  the analysis itself succeeded.
- **The test tally** (`ApiTests` in `api_tests.dfy`, from `backend_test.py`).
  It covers the tester's counters and record list, `log_test`, the early stop
  when the root check fails, and the 70% pass-rate verdict behind the exit
  code.

`Diagnosis` (`diagnosis.dfy`) holds the record both sides exchange and the
`image/` test both sides apply. `Wrappers` (`wrappers.dfy`) holds `Option`
and `Result`.

Every outcome that comes from outside is a parameter of the operation that
consumes it:
- the Gemini reply, or its error;
- `json.loads`, as a function `decode: string -> Decoded`;
- whether the API key is set;
- the database write;
- `getUserMedia`, `FileReader`, the canvas and `fetch`;
- the test script's HTTP checks and its file write.

## Model

| member | source | states |
|---|---|---|
| `Text.Strip` | backend/server.py:103 | `str.strip()`: no whitespace at either end, empty exactly when the input is all whitespace, identity on already-trimmed text |
| `Text.StripIdempotent` | backend/server.py:103 | stripping twice equals stripping once |
| `Text.RemoveAll` | backend/server.py:105 | `replace(pat, "")` only deletes characters (never longer, multiset included in the input) |
| `Text.RemoveAllAbsent` | backend/server.py:105 | where the pattern does not occur, `replace(pat, "")` returns the text unchanged |
| `Text.RemoveAllPrefix` | backend/server.py:105 | an occurrence at the front is deleted, and the scan resumes right after it |
| `Text.RemoveAllKeepsPlain` | backend/server.py:105 | characters that cannot start the pattern are kept, in order, ahead of whatever the rest becomes |
| `Text.StripSurrounded` | backend/server.py:103 | `strip()` recovers exactly any text with non-space ends from between arbitrary whitespace |
| `Text.RemoveFencesLeavesNone` | backend/server.py:105 | after `replace("```", "")` no "```" is left anywhere in the text, even where deletions join backticks |
| `Text.StripKeepsNoFence` | backend/server.py:105 | stripping fence-free text cannot create a fence |
| `Text.Lower` | frontend/src/App.js:198 | `toLowerCase` keeps the length and lowers each ASCII letter in place |
| `Server.CleanReply` | backend/server.py:103-105 | the cleaned reply never has surrounding whitespace; a reply opening with "```json" ends with no "```" at all; any other reply is exactly the stripped reply |
| `Server.CleanReplyUnwraps` | backend/server.py:103-105 | a reply of whitespace, "```json", a backtick-free JSON body, "```" and whitespace is cleaned to exactly the stripped body: everything between the fences is kept |
| `Server.RemoveFencesAround` | backend/server.py:105 | the two deletions turn "```json" + body + "```" back into the body |
| `Server.CleanReplyIdempotent` | backend/server.py:103-105 | cleaning an already cleaned reply changes nothing |
| `Server.FloatOf` | backend/server.py:112 | `float()` succeeds exactly on numbers and booleans |
| `Server.StringsOf` | backend/server.py:114-116 | a `List[str]` field is accepted exactly when every item is a string, and keeps every item in order |
| `Server.StringsRoundTrip` | backend/server.py:114-116 | a list of strings sent as a JSON array comes back unchanged |
| `Server.BuildAnalysis` | backend/server.py:110-117 | a non-object reply fails. An object succeeds exactly when its present fields are well typed (string name and severity, number or boolean confidence, arrays of strings for the lists). On success a missing key takes its default ("Unknown", 0.0, "Unknown", [], [], []), so an empty object gives all defaults. A present value is the one stored: confidence is not clamped, and the lists keep every string |
| `Server.BuildAnalysisEmptyObject` | backend/server.py:110-117 | an empty reply object yields "Unknown", 0.0, "Unknown" and three empty lists |
| `Server.BuildAnalysisRoundTrip` | backend/server.py:84-117 | a reply in exactly the prompt's format yields that analysis for every value, even a confidence outside [0, 1] |
| `Server.AnalyzePlantImage` | backend/server.py:63-134 | every failure, a missing or empty key included, is an HTTP 500 whose detail starts with "Analysis failed: ". An undecodable reply gives the fixed fallback ("Analysis completed", 0.8, "Moderate", fixed lists). A decoded reply gives what `BuildAnalysis` gives |
| `Server.MissingKeyText` | backend/server.py:71 | the missing-key exception reads "500: API key not configured" as text |
| `Server.MissingKeyDetail` | backend/server.py:69-134 | with no usable key the result is HTTP 500 "Analysis failed: 500: API key not configured", whatever the reply |
| `Server.AnalysisStore.InsertOne` | backend/server.py:175 | the record is appended exactly when the write does not fail; the failure is reported back |
| `Server.AnalyzePlantDisease` | backend/server.py:165-190 | `success` holds exactly when the analysis succeeded. Success gives the analysis and "Analysis completed successfully". Failure gives no analysis and "Analysis failed: " + the error text. The response does not depend on the store; it is written only on success and only if the write works |
| `Server.AnalyzeUploadedImage` | backend/server.py:192-224 | a non-image type gives HTTP 400 "File must be an image". The analysis's HTTP error is re-raised unchanged. No type, a failed read, no store or a failed write each give `success=False` with a "Analysis failed: " message. `success` holds exactly when an analysis is returned and stored |
| `App.MediaStream.StopTracks` | frontend/src/App.js:132 | the stream is no longer live |
| `App.FailureText` | frontend/src/App.js:186 | the server's message when present and non-empty, else "Analysis failed" |
| `App.Screen.constructor` | frontend/src/App.js:18-24 | initial state: nothing selected, no preview or result, camera hidden with no stream, not analysing or capturing; the invariant holds |
| `App.Screen.HandleFileUpload` | frontend/src/App.js:102-111 | a file is taken only if its type starts with "image/", with the reader's preview and a success toast. Otherwise image, preview and toast are unchanged. No other field changes |
| `App.Screen.StartCamera` | frontend/src/App.js:114-127 | success holds the new stream and shows the camera view; failure changes no field and shows the error toast. A stream already held stays live: it is replaced without being stopped |
| `App.Screen.StopCamera` | frontend/src/App.js:130-136 | afterwards no stream and camera hidden. A held stream's tracks are stopped. With no stream held nothing at all changes, so stopping again is a no-op |
| `App.Screen.CapturePhoto` | frontend/src/App.js:139-149 | a capture starts (`isCapturing`) exactly when both the video and the canvas element exist; nothing else changes |
| `App.Screen.FinishCapture` | frontend/src/App.js:150-157 | the frame becomes the selected "camera-capture.jpg" of type "image/jpeg" with its preview. The camera is stopped (tracks included) and `isCapturing` is false |
| `App.Screen.AnalyzeImage` | frontend/src/App.js:162-194 | with no image it reports an error and changes nothing. Otherwise the old result is cleared and a new one is kept only when `success && analysis` holds. On failure the toast is "Analysis failed: " + the server message or fallback. `isAnalyzing` is always false at the end |
| `App.SeverityColor` | frontend/src/App.js:197-205 | healthy/mild/moderate/severe, in any letter case, map to green/yellow/orange/red; any other value or no value maps to gray |
| `App.LowerIdempotent` | frontend/src/App.js:198 | lower-casing twice is lower-casing once |
| `App.SeverityCaseInsensitive` | frontend/src/App.js:197-205 | the badge of a severity equals the badge of its lower-cased form |
| `App.PromptSeveritiesStyled` | frontend/src/App.js:197-205 | the capitalised severities the backend prompt asks for get their own colours; "Unknown" (the backend default) gets gray |
| `App.ConfidenceColor` | frontend/src/App.js:208-212 | green exactly from 0.8, yellow exactly on [0.6, 0.8), red exactly below 0.6 |
| `App.ConfidenceColorMonotone` | frontend/src/App.js:208-212 | a higher confidence never gets a lower colour band |
| `ApiTests.PassedCount` | backend_test.py:22-23 | the number of passed records never exceeds the number of records; it equals it exactly when all passed |
| `ApiTests.PassedCountAppend` | backend_test.py:22-33 | appending a record adds one to the passed count exactly when it passed |
| `ApiTests.SuccessRate` | backend_test.py:245 | 0 when no test ran; otherwise within [0, 100] when passes do not exceed runs |
| `ApiTests.VerdictThreshold` | backend_test.py:245-248 | the verdict holds exactly when some test ran and `passed * 100 >= 70 * run` |
| `ApiTests.Tester.constructor` | backend_test.py:12-17 | both counters start at 0, with no records, and `api_url` is the base URL + "/api" |
| `ApiTests.Tester.LogTest` | backend_test.py:19-33 | `tests_run` grows by exactly 1. `tests_passed` grows by 1 exactly when `success`. One record with the given name, outcome and details is appended. `tests_passed <= tests_run == |test_results|` is kept |
| `ApiTests.Tester.RunAllTests` | backend_test.py:209-248 | a failing root check logs one record and returns false at once. Otherwise all later records are logged in order and the verdict is the 70% threshold over every logged test |
| `ApiTests.RunMain` | backend_test.py:250-279 | the exit code is 0 or 1. It is 0 exactly when the root check passed, the results were saved, and at least 70% of all logged tests passed |

## Left out

- Rendering: JSX, `HeroSection`, styling and the toast display. Each handler returns the toast it would show.
- Browser and network I/O (`getUserMedia`, `FileReader`, canvas `drawImage`/`toBlob`/`toDataURL`, `fetch`): each is the outcome it delivers, given as a parameter. The `srcObject` assignment and the canvas sizing are left out.
- `App.Screen.FinishCapture`: `toBlob` handing the callback a `null` blob is not modelled; the blob is always bytes.
- `App.Screen.HandleFileUpload`: the `FileReader` load is folded into the same step rather than arriving as a later event.
- `App.Screen.AnalyzeImage`: the request is atomic, so the in-flight state (`isAnalyzing` true, result cleared) is not observable between steps. Two overlapping analyses cannot be expressed; the page disables the button while one runs.
- React closure staleness (the `stopCamera` captured by `capturePhoto`) and re-entrant handlers are framework concerns; every handler is atomic.
- `Text.Lower`: only ASCII letters are lowered. For the four severity keywords this gives the same badge as full Unicode lower-casing. The only non-ASCII character that lowers to ASCII letters alone is the Kelvin sign, which becomes `k`, and no keyword contains `k`. Others that lower to a string beginning with an ASCII letter, such as U+0130 to "i" plus U+0307, keep a non-ASCII mark, so they match no keyword either way.
- `App.ConfidenceColor`: confidence is a real number, which is what the backend always sends. JavaScript's `>=` first converts its operand to a number, so a boolean or a numeric string is banded by its numeric value. A missing value (`undefined` or `null`) or one that converts to `NaN` is red. These conversions, the rounded percentage and the progress bar are not modelled.
- `Server.FloatOf`: a confidence sent as a numeric JSON string (which Python's `float()` parses) is treated as a conversion failure. Decimal-string parsing is not modelled.
- `Server.BuildAnalysis`: the exact exception texts of a failed construction are replaced by short descriptive messages. Field validation follows strict typing: a `str` field takes only strings, a `List[str]` only arrays of strings.
- `DiseaseAnalysis` `id` and `timestamp`: generated from a UUID source and the clock.
- The Gemini client, prompt and `json.loads`: a foreign library. The reply and the decoder are parameters, and so is whether the key is set.
- `Server.AnalyzePlantDisease`: `if db:` is taken as "a store is configured" (a non-null store). The database handle's truth test is not modelled.
- `Server.AnalyzeUploadedImage`: the image bytes and their base64 encoding are not modelled; only whether reading failed.
- MongoDB connection setup, CORS, logging, the shutdown hook, the root route, and the `/status` and `/analyses` routes: database and framework I/O. So is the request-body validation that FastAPI does before a handler runs.
- `ApiTests.TestRecord`: the `timestamp` of each record (backend_test.py:32) is left out, since it comes from the clock.
- backend_test.py: the HTTP requests of each check are not modelled. So are the printed summary (including the AI-endpoint warning) and the JSON file contents; only whether the write succeeded is kept. The interrupt handling in `main` is left out too.
- `ApiTests.SuccessRate`: the rate is computed over exact rationals, so float rounding at the 70% boundary is not modelled.
- backend/test_models.py and backend/test_api.py: I/O scripts with no logic.
