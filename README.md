# Call-recording batch pipeline (viva-tool `new_dashboard.py`)

A Dafny model of the non-interface logic of the Streamlit dashboard
`new_dashboard.py`. The dashboard reads an exported Voipfone call-recordings page
and, for each call, downloads the recording, transcribes it with Whisper,
summarises the transcript, and appends a row to `calls_summary.csv`.

The model covers:

- **Filenames** (`filenames.dfy`): `sanitize_filename`, the one-pass substitution
  of `< > : " / \ | ? *` and space by `_`.
- **Listing** (`listing.dfy`): `parse_html_calls`. Each HTML row is an abstract
  `Row` value: its `data-id`, the date text, and three cells that may hold a
  phone-number span (rec, from, and the fifth cell). The module also holds the
  fixed extension-to-owner table and the space removal applied to the numbers.
  `ParseHtmlCalls` is a loop proved against the specification function `Records`.
- **AudioCache** (`audiocache.dfy`): the filename built from a record,
  `os.path.join` into `temp_recordings` (POSIX), the download URL, and the
  download step `Download`. The file system is a `set<string>` of existing paths
  and the network is a log of requested URLs. The responses come from an oracle
  indexed by the number of earlier requests.
- **Adapters** (`adapters.dfy`): `transcribe_audio` and `summarize_text`. Each
  engine is an oracle returning `Some(text)`, or `None` when it raises.
- **Pipeline** (`pipeline.dfy`): lines 112–138.
  - It writes the header if the report file is missing, then loops over the
    calls in order.
  - It does fetch, then transcribe, then summarise, then appends a CSV row.
  - It logs and skips a call whose stage raises.
  - It advances the progress count for every call.
  - The specification is the function `Run` (built from `Step` and `RunLoop`).
  - The class `Dashboard` holds the mutable environment: files, report lines,
    request log, error log, progress. Its methods `DownloadAudio`,
    `ProcessCall` and `ProcessCalls` are proved against `Download`, `Step` and
    `Run`.

Inside the `try` block at lines 123–137, only the download can raise in this
model. `transcribe_audio` and `summarize_text` catch every exception, and
writing the report is not modelled as failing (see "Left out"). A download
can fail in two ways:

- a refused request (a network error or a 4xx/5xx status, which
  `raise_for_status` turns into an exception), which creates no file;
- a broken body stream, which leaves the opened file behind.

A third failure is not modelled: when a number or the id holds a `/`,
the path names a subdirectory of `temp_recordings` that the program never
creates, so `open` at line 65 raises after the request was sent. The source
then behaves as for a refused request: the request is logged, no file is
created, and the call counts as failed (see "Left out").

The second case shows the known gap of the cache: the file's existence is the
only cache-hit test, so a truncated file is served as a hit later
(`InterruptedDownloadIsCached`).

Only the date is sanitised. An unsafe character in the numbers or the id
reaches the filename as it is; the owner tag never holds one
(`OwnerTagIsSafe`). `CacheFileNameFields` states that the numbers and the tag
appear verbatim, and `UnsafeNumberReachesFileName` shows a filename that keeps
an unsafe character from a phone number.

## Model

| member | source | states |
|---|---|---|
| `Filenames.SanitizePointwise` | new_dashboard.py:21-22 | the sanitised name has the input's length; each unsafe character becomes `_`; every other character is unchanged at the same index |
| `Filenames.SanitizeIsSafe` | new_dashboard.py:21-22 | no path-unsafe character (the nine punctuation characters of the pattern, or space) survives sanitising |
| `Filenames.SanitizeKeepsSafe` | new_dashboard.py:21-22 | a name with no unsafe character is returned unchanged |
| `Filenames.SanitizeIdempotent` | new_dashboard.py:21-22 | sanitising twice gives the same result as sanitising once |
| `Filenames.SanitizeConcat` | new_dashboard.py:21-22 | the substitution works per character, so it distributes over concatenation |
| `Listing.OwnerTag` | new_dashboard.py:39-44 | the tag is "Vikki" iff the extension is `*200`, "Assistant" iff it is `*201`, "UnknownUser" iff it is neither (including "") |
| `Listing.RemoveSpaces` | new_dashboard.py:35-37 | `.replace(" ", "")` yields no space and is never longer than its input |
| `Listing.RemoveSpacesConcat` | new_dashboard.py:35-37 | space removal distributes over concatenation |
| `Listing.RemoveSpacesKeepsSpaceFree` | new_dashboard.py:35-37 | a number without spaces is unchanged (so removal is idempotent) |
| `Listing.RemoveSpacesKeepsOthers` | new_dashboard.py:35-37 | the result holds exactly the input's non-space characters, each as often as in the input |
| `Listing.BuildRecord` | new_dashboard.py:29-53 | the record's id is the row's non-empty `data-id`; a missing date, from or fifth cell gives ""; a missing rec cell gives "UnknownUser"; both numbers are the cell text minus its spaces and contain no space; the tag is the owner-table entry of the rec number |
| `Listing.RecordsConcat` | new_dashboard.py:28 | parsing a concatenated listing gives the two parts' records concatenated, so rows are never reordered |
| `Listing.RecordsOfOneRow` | new_dashboard.py:46-53 | one row yields exactly its record when it has a non-empty `data-id`, and nothing otherwise |
| `Listing.RecordsCount` | new_dashboard.py:46-53 | the number of records equals the number of rows with a non-empty `data-id` |
| `Listing.RecordsComeFromRows` | new_dashboard.py:46-53 | every record is built from some row of the listing that has a non-empty `data-id` |
| `Listing.ParseHtmlCalls` | new_dashboard.py:24-55 | the parse raises exactly when some present rec/from/fifth cell lacks its number span, and reports the first such row; otherwise it returns `Records(rows)` |
| `AudioCache.CacheFileName` | new_dashboard.py:58 | the filename starts with the sanitised date, which is free of unsafe characters; an `_` follows it; the name ends with `"_" + id + ".mp3"`; its length is the sum of the field lengths plus the separators and extension |
| `AudioCache.CacheFileNameFields` | new_dashboard.py:58 | after the sanitised date and its `_`, the from number, the to number and the owner tag appear verbatim, each followed by `_`: only the date is sanitised |
| `AudioCache.OwnerTagIsSafe` | new_dashboard.py:39-44 | the owner tag never holds a path-unsafe character, so it cannot redirect or break the cache filename |
| `AudioCache.CachePath` | new_dashboard.py:59 | because the sanitised date never starts with `/`, the join always gives `temp_recordings/` followed by the filename |
| `AudioCache.CachePathSeparatesIds` | new_dashboard.py:58-59 | two records that agree on date, numbers and tag share a cache path only if they have the same id |
| `AudioCache.UnsafeNumberReachesFileName` | new_dashboard.py:58 | only the date is sanitised: a `:` in the from number stays in the filename |
| `AudioCache.RecordingUrl` | new_dashboard.py:62 | the URL is the fixed endpoint prefix followed by `id + ".mp3"` |
| `AudioCache.RecordingUrlIdentifiesCall` | new_dashboard.py:62 | two calls are fetched from the same URL iff they have the same id |
| `AudioCache.Download` | new_dashboard.py:57-68 | an existing file is returned with no request and no change; otherwise exactly one request for the call's URL is logged; the step raises iff the response is not complete; on success the path exists; files change only by adding the cache path; a refused request adds no file and raises the HTTP error, a broken stream raises the stream error |
| `AudioCache.DownloadTwice` | new_dashboard.py:60-61 | after a successful download, a second one for the same record returns the same path with no request: at most one request for the two |
| `AudioCache.InterruptedDownloadIsCached` | new_dashboard.py:60-61 | a download whose stream breaks raises, but it leaves a file that the next call serves as a cache hit without a request |
| `Pipeline.Dashboard.DownloadAudio` | new_dashboard.py:57-68 | the imperative download updates the file set and request log, and returns the result, exactly as `Download` says |
| `Adapters.TranscribeAudio` | new_dashboard.py:70-77 | an engine failure gives "" instead of an exception; a successful engine result is returned as it is, and a non-empty transcript is always the engine's text |
| `Adapters.EngineInput` | new_dashboard.py:82-83 | the summariser input is the input text's prefix whose length is the smaller of its length and 1000 |
| `Adapters.SummarizeText` | new_dashboard.py:79-89 | empty text gives "No transcript available"; otherwise the result is the engine's summary of the truncated text, or "Error in summarization" when the engine raises |
| `Adapters.SummarizeEmptyIgnoresEngine` | new_dashboard.py:80-81 | for empty text the result does not depend on the engine: the engine is not consulted |
| `Adapters.SummarizeSeesOnlyPrefix` | new_dashboard.py:83-85 | engines that agree on the first 1000 characters give the same result |
| `Adapters.SummarizeIgnoresTail` | new_dashboard.py:83 | text after the first 1000 characters never changes the summary |
| `Adapters.SummarizeShortTextWhole` | new_dashboard.py:83-89 | non-empty text of at most 1000 characters reaches the engine whole |
| `Adapters.TranscriptionFailureSummary` | new_dashboard.py:75-81 | a transcription failure becomes the "No transcript available" summary |
| `Pipeline.ReportRow` | new_dashboard.py:124-135 | a report row holds the call's date, from and to numbers, plus the summary of the transcript of its cached recording; a failed transcription gives "No transcript available" |
| `Pipeline.Step` | new_dashboard.py:122-138 | one iteration advances progress by one; it adds at most the call's cache file; it logs at most one request; it appends exactly the call's report row when the download succeeds, and otherwise logs the call's id and leaves the report unchanged |
| `Pipeline.Outcomes` | new_dashboard.py:121-137 | every call receives an outcome: one per call |
| `Pipeline.SelectPartition` | new_dashboard.py:123-137 | the calls are split exactly between those that produce a row and those logged as failed: the two selections' sizes add up to the number of calls, and together they hold every call as often as the batch does |
| `Pipeline.RunLoopSplit` | new_dashboard.py:121 | the loop over `a + b` is the loop over `a` followed by the loop over `b`, and the outcomes concatenate |
| `Pipeline.RunLoopSnoc` | new_dashboard.py:121 | one more call is one more iteration at the end |
| `Pipeline.RunLoopRows` | new_dashboard.py:121-135 | the appended rows are the report rows of exactly the calls whose download succeeded, in input order |
| `Pipeline.RunLoopFailures` | new_dashboard.py:136-137 | the logged ids are exactly those of the calls whose download raised, in input order |
| `Pipeline.RunLoopProgress` | new_dashboard.py:138 | the progress count rises by one per call whatever happens to the call, and no file disappears |
| `Pipeline.RunWritesHeaderOnce` | new_dashboard.py:112-117 | if the report was missing, it becomes the single header followed only by data rows; if it existed, its lines are kept and no header is added; either way the file exists afterwards, even with no rows |
| `Pipeline.RunAccountsForEveryCall` | new_dashboard.py:119-138 | after the batch, the progress count equals the number of calls, and rows written plus failures logged equal the number of calls |
| `Pipeline.StepShift` | new_dashboard.py:122-138 | an iteration behaves alike in two worlds with the same files and report, given the same future network responses |
| `Pipeline.RunLoopShift` | new_dashboard.py:121-138 | the loop keeps such worlds alike and gives them the same outcomes |
| `Pipeline.RefusedCallIsIsolated` | new_dashboard.py:123-137 | a call whose download is refused does not stop or change later calls: they get the same outcomes, rows and files as if it had not been in the batch |
| `Pipeline.CsvPathIsNotCachePath` | new_dashboard.py:59 | no cached recording path is the report file's path |
| `Pipeline.ScenarioParse` | new_dashboard.py:28-53 | a three-row listing on extensions `*200`, `*201`, `*199` parses to calls A1, A2, A3 tagged Vikki, Assistant, UnknownUser |
| `Pipeline.ThreeCallRun` | new_dashboard.py:112-138 | three calls with distinct cache files and only the second download refused: the new report holds the header and the first and third rows, one failure is logged, progress is 3 |
| `Pipeline.ScenarioEndToEnd` | new_dashboard.py:99-138 | end to end, that listing with only A2's download refused yields rows for A1 (Vikki) and A3 (UnknownUser) and one failure, A2 |
| `Pipeline.Dashboard.ProcessCall` | new_dashboard.py:122-138 | the imperative iteration updates the environment exactly as `Step` says |
| `Pipeline.Dashboard.WriteHeader` | new_dashboard.py:112-116 | the report file and its single header line are created exactly when the file is missing; an existing report is left as it is |
| `Pipeline.Dashboard.ProcessEach` | new_dashboard.py:120-138 | the loop processes the calls in order and leaves the environment exactly as `RunLoop` says |
| `Pipeline.Dashboard.ProcessCalls` | new_dashboard.py:112-138 | the imperative batch, made of the header write, the progress reset and the loop, updates the environment exactly as `Run` says |

## Left out

- Streamlit presentation is left out: title, uploader, text inputs, button, `st.write` messages, `st.success`, download button. The `st.error` at line 137 is modelled only as the log of failed call ids (the message text is dropped). The `st.error` calls at lines 76 and 88 are not modelled.
- BeautifulSoup parsing is left out. A row is an abstract value holding what the DOM queries return. Cell texts are taken as already `.strip()`ped, because Python's whitespace set is not modelled.
- The fifth cell is taken positionally and independently of the class-named cells. The case where the fifth `td` is itself the date, rec or from cell is not distinguished.
- `requests` details are left out: the session, the cookie, streaming and `iter_content` chunking. A request is one oracle response, and file contents are not modelled (a file is only a path in the set).
- Whisper and transformers loading (lines 15–19 and 106–110) is left out. So is the fatal `st.stop` on a failed load. Inference is an oracle.
- `os.makedirs` (line 12) is left out: the directory is assumed to exist.
- `os.path.join` is modelled for POSIX paths only.
- `Download`: an `open` failure at new_dashboard.py:65 is not modelled; the model lets the file be created even when a `/` in a number or the id makes the path point into a missing subdirectory, where the source logs the request, creates no file and raises, as for a `Refused` response.
- Writing the report is not modelled as failing. An I/O error while appending the row would also be caught by the handler at line 136. The model shows only the download as a raising stage.
- CSV quoting, escaping, UTF-8 encoding and reading the file back are left out. The report is a sequence of header and four-field data lines.
- The `(i + 1) / len(calls)` progress fraction is floating point, so only the integer count of finished calls is tracked.
- In `transcribe_audio`, `result.get("text", "").strip()` is folded into the oracle's value.
