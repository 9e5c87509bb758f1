# PDF summary form: file ids and request outcomes

This project models the logic inside the three versions of the PDF summary
form (`ucware-llm-website`). A user pastes a PDF URL and asks a remote
endpoint (`POST {API}/api/summary`) for a summary. They can then ask follow-up
questions about the same document. Setting presentation aside, each version
has two pieces:

- **File-id derivation.** `hash32` is a Horner-style rolling hash over the
  UTF-16 code units of a string, reduced to 32 bits at every step
  (`h = (h*31 + code) >>> 0`) and printed in lower-case hex.
  `genId`/`generateFileId` trims and lower-cases the URL. It then builds
  `fid_<hex hash>_<base>`, where `<base>` is the last `/`-segment with every
  non-word character replaced by `_`, or `file` when that segment is empty.
  The timestamp version (`src/components/PdfSummaryForm.tsx`, the one
  `src/app/page.tsx` renders) uses `fid_<Date.now()>_<base>` instead. It
  takes `<base>` from the raw URL.
- **Request-outcome reducer.** `callApi` sets a loading indicator, sends the
  request, and reduces the outcome to new form state. The outcome is a
  transport failure, a non-OK HTTP status, or a JSON body with optional
  `error`, `answer` and `summary` fields. The new state covers the error
  text, the summary, the follow-up log and (hash-based version only) the
  view phase.

The three versions are called here by what sets them apart:

- the hash-based version, `src/components/PdfSummaryForm/PdfSummaryForm.tsx`;
- the beta version, `src/components/PdfSummaryForm-beta.tsx`;
- the timestamp version, `src/components/PdfSummaryForm.tsx`.

Files:

- `js_text.dfy`: module `Wrappers` (Option) and module `JsText`. JavaScript
  strings are sequences of UTF-16 code units. The module holds the built-ins
  the form uses: `trim`, `toLowerCase`, `split('/')` with `pop()` and
  `replace(/\W/g, '_')`. It also has `IndexOf`, which the forms do not call;
  it serves `FileId.SplitId`, the read-back of an id.
- `numerals.dfy`: `Number.prototype.toString(radix)` on non-negative
  integers, with its read-back and length bound.
- `file_id.dfy`: `hash32` (a loop proved against a fold), the normalisation,
  the base name, and `genId`. It also has `SplitId`, which reads an id back
  into its tag and base name, as the partner of `genId`.
- `api.dfy`: the request, the response (as a datatype the caller supplies),
  JavaScript truthiness and the log-entry format.
- `summary_form.dfy`, `beta_summary_form.dfy`, `timestamp_summary_form.dfy`:
  one module per version. Each has a `State` snapshot and pure transition
  functions (`AfterCallApi` and the handlers) with lemmas about them. Each
  also has a `Form` class whose fields are the component's state, and whose
  methods follow the source's setter calls step by step. Every method is
  proved to produce exactly the spec function's state.

The three versions differ as follows, and the model follows each one's code:

- Follow-up entries go to the front of the log in the hash-based and beta
  versions, and to the back in the timestamp version.
- The hash-based version picks the result with `??`, the timestamp version
  with `||`.
- The beta version stores `data.summary ?? ''` as the initial summary, not
  the answer-first result.
- Errors go to `error`/`errorMsg` in the hash-based and beta versions. The
  timestamp version overwrites `summary` (and ignores HTTP failures of
  follow-ups).
- Only the beta and timestamp versions give 422 its own message. The
  hash-based version reports it as `서버 오류 (422)`.
- The timestamp version looks at neither `data.error` nor `data.answer`.
- The hash-based version shows a transport failure's own message. The other
  two show a fixed network message.

## Model

| member | source | states |
|---|---|---|
| JsText.Trim | src/components/PdfSummaryForm/PdfSummaryForm.tsx:42 | `trim()` returns a slice of the input with only whitespace cut off at either end, and the result has no whitespace at its ends |
| JsText.TrimOfTrimmed | src/components/PdfSummaryForm/PdfSummaryForm.tsx:42 | trimming a string without whitespace at its ends returns it unchanged |
| JsText.ToLower | src/components/PdfSummaryForm/PdfSummaryForm.tsx:42 | `toLowerCase()` keeps the length and maps each code unit on its own (ASCII capitals to small letters) |
| JsText.LowerKeepsTrimmed | src/components/PdfSummaryForm/PdfSummaryForm.tsx:42 | lower-casing keeps a trimmed string trimmed |
| JsText.ToLowerIdempotent | src/components/PdfSummaryForm/PdfSummaryForm.tsx:42 | for every string, lower-casing twice equals lower-casing once |
| JsText.Split | src/components/PdfSummaryForm/PdfSummaryForm.tsx:43 | `split('/')` yields at least one part, no part holds a slash, and joining the parts with `/` gives the input back |
| JsText.LastSegment | src/components/PdfSummaryForm/PdfSummaryForm.tsx:43 | `split('/').pop()` holds no slash and is a suffix of the input |
| JsText.LastSegmentIsSuffix | src/components/PdfSummaryForm/PdfSummaryForm.tsx:43 | the popped segment is the longest slash-free suffix: all of the input, or preceded by a slash |
| JsText.ReplaceNonWord | src/components/PdfSummaryForm/PdfSummaryForm.tsx:43 | `replace(/\W/g, '_')` keeps the length, keeps every word character and puts `_` for every other code unit |
| Numerals.ValueOfDigits | src/components/PdfSummaryForm/PdfSummaryForm.tsx:39 | the digits `toString(radix)` prints denote the number again |
| Numerals.DigitsLength | src/components/PdfSummaryForm/PdfSummaryForm.tsx:39 | a number below radix^k prints with at most k digits |
| Numerals.ParseToString | src/components/PdfSummaryForm/PdfSummaryForm.tsx:39 | parsing the printed digits gives the number back |
| Numerals.ToStringRadix | src/components/PdfSummaryForm/PdfSummaryForm.tsx:39 | `toString(radix)` prints one character per digit of `n`, each a valid digit of that radix, with no leading zero, and never `_` |
| Numerals.Hex | src/components/PdfSummaryForm/PdfSummaryForm.tsx:39 | `toString(16)` is non-empty, all lower-case hex digits, has no leading zero, and parses back to the number |
| Numerals.Decimal | src/components/PdfSummaryForm-beta.tsx:72 | `${res.status}` (and `${Date.now()}`) prints non-empty decimal digits without a leading zero that parse back to the number |
| Numerals.ToStringInjective | src/components/PdfSummaryForm.tsx:25 | distinct numbers print as distinct digit strings |
| Numerals.HexOf32Bits | src/components/PdfSummaryForm/PdfSummaryForm.tsx:39 | a 32-bit value prints as 1 to 8 lower-case hex digits, with no leading zero unless it is 0, and 0 prints as "0" |
| FileId.Hash | src/components/PdfSummaryForm/PdfSummaryForm.tsx:37-38 | the value the `hash32` loop leaves in `h` is always below 2^32 |
| FileId.Hash32 | src/components/PdfSummaryForm/PdfSummaryForm.tsx:36-40 | the loop returns the hex form of the fold `Hash`: 1 to 8 lower-case hex digits, and "0" for the empty string |
| FileId.HashEmpty | src/components/PdfSummaryForm/PdfSummaryForm.tsx:37 | the empty string hashes to 0 |
| FileId.HashAppend | src/components/PdfSummaryForm-beta.tsx:34-36 | hashing `s + [c]` is one step `(hash(s)*31 + c) mod 2^32` |
| FileId.HashIsPolynomialMod | src/components/PdfSummaryForm/PdfSummaryForm.tsx:38 | reducing after every step equals reducing the unreduced base-31 polynomial once |
| FileId.Normalize | src/components/PdfSummaryForm/PdfSummaryForm.tsx:42 | the normalised URL is the trimmed URL unit for unit, each capital moved to its small letter and every other unit kept; no ASCII capital is left, and trimming or lower-casing it again changes nothing |
| FileId.NormalizeIdempotent | src/components/PdfSummaryForm/PdfSummaryForm.tsx:42 | normalising twice equals normalising once |
| FileId.BaseName | src/components/PdfSummaryForm/PdfSummaryForm.tsx:43 | the base is never empty and holds only word characters; it is "file" when the last segment is empty, and otherwise as long as the segment |
| FileId.BaseNameOfSegment | src/components/PdfSummaryForm/PdfSummaryForm.tsx:43 | a non-empty segment maps code unit by code unit: word characters kept, all others `_` |
| FileId.BaseNameDefault | src/components/PdfSummaryForm-beta.tsx:42-43 | an empty last segment (empty URL or trailing slash) gives exactly "file" |
| FileId.SplitCompose | src/components/PdfSummaryForm/PdfSummaryForm.tsx:44 | an id `fid_<tag>_<base>` whose tag has no `_` reads back into that tag and base |
| FileId.Compose | src/components/PdfSummaryForm/PdfSummaryForm.tsx:44 | `fid_${tag}_${base}` is the prefix `fid_`, the tag, one `_`, and the base name at the end |
| FileId.IdOf | src/components/PdfSummaryForm/PdfSummaryForm.tsx:41-45 | the id reads back into the hex hash of the normalised URL and its base name |
| FileId.GenId | src/components/PdfSummaryForm/PdfSummaryForm.tsx:44 | the id built with the looping `hash32` is `IdOf(url)` |
| FileId.IdOfNormalized | src/components/PdfSummaryForm/PdfSummaryForm.tsx:41-44 | the id depends only on the trimmed, lower-cased URL |
| FileId.IdOfDeterminesParts | src/components/PdfSummaryForm/PdfSummaryForm.tsx:44 | equal ids mean equal hashes and equal base names of the normalised URLs |
| Api.Entry | src/components/PdfSummaryForm/PdfSummaryForm.tsx:77 | a log entry starts with "Q: " and the question, and ends with a line break, "A: " and the answer |
| Api.Reverse | src/components/PdfSummaryForm/PdfSummaryForm.tsx:77 | reversal: position i holds the element at position n-1-i, for a log kept newest first |
| SummaryForm.AfterCallApi | src/components/PdfSummaryForm/PdfSummaryForm.tsx:48-90 | `callApi` never changes the URL, language or stored id; with no id it changes nothing; otherwise it ends with status idle |
| SummaryForm.Evaluate | src/components/PdfSummaryForm/PdfSummaryForm.tsx:67-84 | an answer exactly for an OK reply without a truthy `error`, namely `answer ?? summary ?? stringify(data)`; otherwise the status message, the truthy `data.error`, or the thrown message of fetch or `res.json()` |
| SummaryForm.AfterHandleSummary | src/components/PdfSummaryForm/PdfSummaryForm.tsx:93-96 | `handleSummary` stores the id of the current URL and ends idle |
| SummaryForm.AfterHandleAsk | src/components/PdfSummaryForm/PdfSummaryForm.tsx:97 | `handleAsk` never changes the summary, the phase, the URL, the language or the stored id |
| SummaryForm.CallApiWithoutFileId | src/components/PdfSummaryForm/PdfSummaryForm.tsx:51 | with no stored id nothing changes and no request is sent |
| SummaryForm.CallApiForgetsErrorAndStatus | src/components/PdfSummaryForm/PdfSummaryForm.tsx:53-54 | the old error and the old status have no effect on the new state, which is idle |
| SummaryForm.HttpFailureReported | src/components/PdfSummaryForm/PdfSummaryForm.tsx:67-70 | non-OK: 404 shows "❗ PDF를 찾을 수 없습니다.", any other status "❗ 서버 오류 (<status>)"; summary, log and phase unchanged |
| SummaryForm.Http422IsServerError | src/components/PdfSummaryForm/PdfSummaryForm.tsx:69 | 422 gets the generic server-error message |
| SummaryForm.ErrorFieldReported | src/components/PdfSummaryForm/PdfSummaryForm.tsx:73 | a truthy `data.error` sets the error to "❗ " + that text and changes nothing else |
| SummaryForm.TransportFailureReported | src/components/PdfSummaryForm/PdfSummaryForm.tsx:83-84 | a rejected fetch or unreadable body sets the error to "❗ " + the thrown message and changes nothing else |
| SummaryForm.AnswerPreference | src/components/PdfSummaryForm/PdfSummaryForm.tsx:75 | the result is `answer ?? summary ?? stringify(data)`, so a present empty answer is still used |
| SummaryForm.FollowupPrepends | src/components/PdfSummaryForm/PdfSummaryForm.tsx:76-77 | a successful follow-up puts its entry first, keeps the old entries in order after it, and leaves summary, phase and error empty/unchanged |
| SummaryForm.SummaryReplaces | src/components/PdfSummaryForm/PdfSummaryForm.tsx:78-82 | a successful summary sets the summary, empties the log and switches to the summary phase |
| SummaryForm.HandleSummarySends | src/components/PdfSummaryForm/PdfSummaryForm.tsx:93-95 | `handleSummary` always gets past the guard and sends the new id |
| SummaryForm.AskAllNewestFirst | src/components/PdfSummaryForm/PdfSummaryForm.tsx:77 | after any number of answered follow-ups the log is the new entries newest first, then the old log |
| SummaryForm.Form.constructor | src/components/PdfSummaryForm/PdfSummaryForm.tsx:18-26 | the form starts in phase input, idle, with everything empty and no id |
| SummaryForm.Form.CallApi | src/components/PdfSummaryForm/PdfSummaryForm.tsx:48-90 | the step-by-step setters end in exactly the state `AfterCallApi` gives, and send the request the guard allows |
| SummaryForm.Form.HandleSummary | src/components/PdfSummaryForm/PdfSummaryForm.tsx:93-96 | stores `genId(pdfUrl)` and runs the summary request |
| SummaryForm.Form.HandleAsk | src/components/PdfSummaryForm/PdfSummaryForm.tsx:97 | runs a follow-up request with the question |
| BetaSummaryForm.AfterCallApi | src/components/PdfSummaryForm-beta.tsx:48-100 | `callApi` never changes URL, question, language or id; it lowers its own loading flag and leaves the other one alone |
| BetaSummaryForm.Evaluate | src/components/PdfSummaryForm-beta.tsx:66-96 | the data exactly for an OK reply without a truthy `error`; 404/422/other messages for non-OK replies; "❗ " + `data.error` for an OK reply with a truthy `error`; the fixed network message for a rejected fetch or `res.json()` |
| BetaSummaryForm.GenerateFileId | src/components/PdfSummaryForm-beta.tsx:40-45 | yields the same id as `genId` in the hash-based form, and the id reads back into the hex hash and the base name of the trimmed, lower-cased URL |
| BetaSummaryForm.AfterHandleInitialSummary | src/components/PdfSummaryForm-beta.tsx:103-107 | stores the generated id before the request |
| BetaSummaryForm.AfterHandleFollowup | src/components/PdfSummaryForm-beta.tsx:110-113 | with no stored id nothing changes |
| BetaSummaryForm.LoadingFlags | src/components/PdfSummaryForm-beta.tsx:54-55 | only the flag of the request's kind is raised, the other keeps its value, and the raised flag is down again on every way out |
| BetaSummaryForm.CallApiForgetsError | src/components/PdfSummaryForm-beta.tsx:56 | the old error message has no effect on the new state |
| BetaSummaryForm.HttpFailureReported | src/components/PdfSummaryForm-beta.tsx:66-75 | non-OK: 404, 422 and other statuses get their three messages; summary and log unchanged |
| BetaSummaryForm.ErrorFieldReported | src/components/PdfSummaryForm-beta.tsx:80-83 | a truthy `data.error` sets `errorMsg` to "❗ " + that text, and only the loading flag changes besides |
| BetaSummaryForm.TransportFailureReported | src/components/PdfSummaryForm-beta.tsx:94-96 | failures in fetch or `res.json()` set the fixed network message; summary and log unchanged |
| BetaSummaryForm.InitialSummaryUsesSummaryField | src/components/PdfSummaryForm-beta.tsx:90-92 | an initial summary stores `data.summary ?? ''` and clears the log; an answer-only reply leaves the summary empty |
| BetaSummaryForm.FollowupPrepends | src/components/PdfSummaryForm-beta.tsx:86-89 | a follow-up prepends `Q: <q>\nA: <answer ?? summary ?? stringify>`, and the summary is untouched |
| BetaSummaryForm.HandleFollowupGuard | src/components/PdfSummaryForm-beta.tsx:110-113 | with no stored id nothing changes; otherwise the typed question is asked |
| BetaSummaryForm.FollowAllNewestFirst | src/components/PdfSummaryForm-beta.tsx:89 | after answered follow-ups the log is the new entries newest first, then the old log |
| BetaSummaryForm.Form.constructor | src/components/PdfSummaryForm-beta.tsx:19-29 | fresh form: everything empty, both flags down, no id |
| BetaSummaryForm.Form.SetLoading | src/components/PdfSummaryForm-beta.tsx:54 | `setLoading` changes exactly the flag `isFollowup` selects |
| BetaSummaryForm.Form.CallApi | src/components/PdfSummaryForm-beta.tsx:48-100 | the step-by-step setters end in exactly the state `AfterCallApi` gives, and send the given id |
| BetaSummaryForm.Form.HandleInitialSummary | src/components/PdfSummaryForm-beta.tsx:103-107 | stores `generateFileId(pdfUrl)` and sends it with `SUMMARY_ALL` |
| BetaSummaryForm.Form.HandleFollowup | src/components/PdfSummaryForm-beta.tsx:110-113 | sends nothing without an id, otherwise the typed question with the stored id |
| TimestampSummaryForm.GenerateFileId | src/components/PdfSummaryForm.tsx:22-25 | the id reads back into the decimal timestamp and the base name of the raw URL |
| TimestampSummaryForm.GenerateFileIdDeterminesParts | src/components/PdfSummaryForm.tsx:25 | equal ids mean equal timestamps and equal base names |
| TimestampSummaryForm.GenerateFileIdIsCaseSensitive | src/components/PdfSummaryForm.tsx:24 | the URL is not lower-cased: "A" and "a" give different ids |
| TimestampSummaryForm.AfterCallApi | src/components/PdfSummaryForm.tsx:31-73 | `callApi` never changes URL, question, language or id; it lowers its own loading flag and leaves the other alone |
| TimestampSummaryForm.Evaluate | src/components/PdfSummaryForm.tsx:47-69 | an answer exactly for every parsed OK reply, whatever `error` and `answer` hold, namely `summary \|\| stringify(data)`; the status message for non-OK replies; the `catch` for a rejected fetch or `res.json()` |
| TimestampSummaryForm.AfterHandleInitialSummary | src/components/PdfSummaryForm.tsx:75-79 | stores the timestamp id before the request |
| TimestampSummaryForm.AfterHandleFollowup | src/components/PdfSummaryForm.tsx:81-84 | with no stored id nothing changes |
| TimestampSummaryForm.LoadingFlags | src/components/PdfSummaryForm.tsx:37-38 | only the matching flag is raised, and it is lowered on every exit; the other keeps its value |
| TimestampSummaryForm.HttpFailureReported | src/components/PdfSummaryForm.tsx:47-56 | non-OK on an initial request writes the 404/422/"❗ 요약 요청 실패" message into the summary; on a follow-up only the flag changes |
| TimestampSummaryForm.TransportFailureOverwritesSummary | src/components/PdfSummaryForm.tsx:67-69 | a transport or parse failure overwrites the summary with the network message, follow-up or not |
| TimestampSummaryForm.ResultFallsBack | src/components/PdfSummaryForm.tsx:59 | the result is `data.summary \|\| stringify(data)`: an empty summary falls back, and `data.error` makes no difference |
| TimestampSummaryForm.FollowupAppends | src/components/PdfSummaryForm.tsx:61-62 | a follow-up appends: the log grows by one, earlier entries are unchanged and in order, and the summary is untouched |
| TimestampSummaryForm.InitialSummaryReplaces | src/components/PdfSummaryForm.tsx:63-65 | a successful initial request sets the summary and clears the log |
| TimestampSummaryForm.HandleFollowupGuard | src/components/PdfSummaryForm.tsx:81-83 | with no stored id nothing changes; otherwise the typed question is asked |
| TimestampSummaryForm.FollowAllInOrder | src/components/PdfSummaryForm.tsx:62 | after answered follow-ups the log is the old log, then the new entries in the order asked |
| TimestampSummaryForm.EntriesAt | src/components/PdfSummaryForm.tsx:62 | the `i`-th new entry is `Q: <i-th question>\nA: <result of its reply>` |
| TimestampSummaryForm.Form.constructor | src/components/PdfSummaryForm.tsx:12-20 | fresh form: everything empty, both flags down, no id |
| TimestampSummaryForm.Form.SetLoading | src/components/PdfSummaryForm.tsx:37 | `setLoading` changes exactly the flag `isFollowup` selects |
| TimestampSummaryForm.Form.CallApi | src/components/PdfSummaryForm.tsx:31-73 | the step-by-step setters end in exactly the state `AfterCallApi` gives, and send the given id |
| TimestampSummaryForm.Form.HandleInitialSummary | src/components/PdfSummaryForm.tsx:75-79 | stores `generateFileId(pdfUrl, now)` and sends it with `SUMMARY_ALL` |
| TimestampSummaryForm.Form.HandleFollowup | src/components/PdfSummaryForm.tsx:81-84 | sends nothing without an id, otherwise the typed question with the stored id |

## Left out

- `fetch`, `res.json()` and the `NEXT_PUBLIC_API_URL` base are not modelled. The outcome of a request is a `Response` value the caller supplies: a rejected fetch with its message, or a status with a body that is unreadable (with the parse error's message) or parsed.
- `JSON.stringify(data)` is not computed. Its text is carried as the `text` field of the parsed reply.
- JSON fields that are neither strings nor null/absent (a numeric `error`, say), and replies that are not objects, are not modelled.
- JsText.ToLower: lower-cases only the ASCII letters. Unicode case mapping is not modelled, including the cases where it changes the length.
- JsText.FromString: covers only literals inside the Basic Multilingual Plane. Every literal of the form is.
- `Date.now()` in `src/components/PdfSummaryForm.tsx` is a parameter (`now`). The `catch` branch of `generateFileId` there (lines 26-28) cannot be reached and is left out.
- Overlapping requests and React's batching of state updates are not modelled. Each `callApi` is one atomic transition. The raised loading flag is visible only through `Begin` and the lemmas about it.
- `console.error`, `alert`, the feedback modal state and `submitFeedback` (a stubbed timer) are left out. So are all JSX rendering and `disabled` expressions. `src/components/common/Spinner.tsx`, `src/app/page.tsx` and `src/components/PdfSummaryForm/FollowUpModal.tsx` are presentation and are not part of this model; that includes the last file's blank-question guard before `onAsk`.
- `FollowUpCard` and `FeedbackModal` are not part of this model.
- The `onChange` setters for the URL, the question and the language are not modelled as operations. The corresponding `Form` fields are assigned directly. In two versions `lang` is typed as a string, but only its two select options (`KO`, `EN`) are modelled.
