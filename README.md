# Invoice scanner handler, modelled in Dafny

This project models the HTTP handler of the invoice scanner
(`api/invoice-scanner/index.js`). The handler accepts one multipart upload and
checks the request method, the uploaded file and its MIME type, and the
analyzer configuration. It then submits the bytes to the document-analysis
service's `prebuilt-invoice:analyze` endpoint and polls the returned
`operation-location` until the operation is no longer running or 15 polls have
been made. It answers with the last poll's JSON body.

The handler's collaborators become inputs:

- the multipart parser's result is `Multipart`: an error, or the file events it fired, each with its MIME type and its data chunks;
- the two environment variables are `Env` (`None` when unset);
- the analyzer's reply to the submission is `AnalyzeOutcome`: an exception, or a status, a text body and an optional `operation-location` header;
- its replies to the polls are `PollService`, a function from the poll number to a decoded body or an exception.

One call returns an `Outcome`:

- the response;
- whether the body reached the parser;
- the one `Submission` sent to the analyzer, if any (Content-Type, subscription key, bytes);
- the number of poll requests issued.

Files:

- `wrappers.dfy`: `Option`.
- `http.dfy`: the response and the catch-all `ServerError`.
- `media_types.dfy`: the seven-entry allow-list.
- `upload.dfy`: file parts, `Buffer.concat` (`Concat`) and the forwarded payload.
- `polling.dfy`: classifying one poll reply, and the do-while loop's specification: `PollCount`, the stopping rule `StopsAt` and `PollResult`.
- `invoice_scanner.dfy`: the whole handler. `Scan` specifies it as one decision chain. `Handle` is the step-by-step method proved equal to `Scan`. `CollectFiles` and `PollUntilSettled` are the two loops. Lemmas state the handler's contract gate by gate.

The model follows the handler as written:

- There is no `application/octet-stream` + `.pdf` filename fallback, and there is no raw or base64 body path. The allow-list has exactly seven entries, and the body always goes to the multipart parser.
- The endpoint and key are read and checked only after parsing and MIME validation.
- With several file parts, the last part's MIME type is used and the bytes of all parts are concatenated.
- A file part with no data still counts as "file found". Its empty payload is forwarded; the handler never checks the payload's length.

## Model

| member | source | states |
|---|---|---|
| InvoiceScanner.Handle | api/invoice-scanner/index.js:6-109 | The handler, with its local state updated step by step, has exactly the outcome the decision chain `Scan` prescribes. This covers the response, parser use, submission and poll count. |
| InvoiceScanner.CollectFiles | api/invoice-scanner/index.js:12-24 | After the file events, `fileFound` is true exactly when at least one event fired. `mimeType` is the last event's type, or "" if none fired. `fileBuffer` holds every chunk of every part, in arrival order. |
| InvoiceScanner.PollUntilSettled | api/invoice-scanner/index.js:86-105 | The do-while loop issues exactly `PollCount` polls and leads to exactly `PollResult`: the last body with 200, or the exception as a 500. |
| InvoiceScanner.NonPostRefused | api/invoice-scanner/index.js:7-10 | Any method other than "POST" gives 405 "Method Not Allowed". The body is not parsed, nothing is submitted and no poll is made. |
| InvoiceScanner.LocalMethodNotAllowedIff | api/invoice-scanner/index.js:7-10 | The handler produces a 405 with nothing submitted if and only if the method is not "POST". |
| InvoiceScanner.ParseFailureIsServerError | api/invoice-scanner/index.js:106-108 | A parser error becomes 500 "Server error: " + its message. Nothing is submitted. |
| InvoiceScanner.NoFileRefused | api/invoice-scanner/index.js:30-33 | A POST with no file event gets 400 "No file uploaded", whatever the configuration and the analyzer. No remote call is made. |
| InvoiceScanner.UnsupportedTypeRefused | api/invoice-scanner/index.js:36-48 | If the last part's MIME type is not on the allow-list, the answer is 415 "Unsupported file type". This holds for any configuration and whatever earlier parts declared. No remote call is made. |
| InvoiceScanner.MissingConfigRefused | api/invoice-scanner/index.js:52-57 | Once the upload passes, an unset or empty endpoint or key gives 500 "Missing Document Intelligence config". No remote call is made. |
| InvoiceScanner.SubmissionIff | api/invoice-scanner/index.js:50-70 | The analyzer is called if and only if every local gate passes. The call carries the last part's MIME type as Content-Type and the configured key. Its body is every part's bytes joined in arrival order. |
| InvoiceScanner.RejectedSubmissionMirrored | api/invoice-scanner/index.js:72-76 | A non-2xx analyze reply is returned with the analyzer's own status and text, unchanged. No poll is made. |
| InvoiceScanner.MissingOperationLocationRefused | api/invoice-scanner/index.js:78-83 | An accepted submission without a non-empty `operation-location` gives 500 "No operation-location header in response". No poll is made. |
| InvoiceScanner.SubmissionExceptionIsServerError | api/invoice-scanner/index.js:106-108 | An exception from the analyze call becomes 500 "Server error: " + its message. No poll is made. |
| InvoiceScanner.ScanWhenPolling | api/invoice-scanner/index.js:85-105 | Once a 2xx reply with a job handle arrives, the outcome is the poll loop's response and poll count, and the submission is as sent. |
| InvoiceScanner.ScanWithoutPolling | api/invoice-scanner/index.js:7-83 | Every early exit makes no poll and never answers 200. |
| InvoiceScanner.PollsBounded | api/invoice-scanner/index.js:86-99 | There are never more than 15 polls. Polls happen if and only if a 2xx analyze reply with a job handle arrived. When they happen, their number fits the loop's stopping rule. |
| InvoiceScanner.OkIsLastPollBody | api/invoice-scanner/index.js:101-105 | The answer is 200 if and only if polling was reached and ended without an exception. The 200 body is the last poll's body. That poll either settled or was the 15th, so a still-running body after 15 tries is returned as a success. |
| InvoiceScanner.PollOkIsLastBody | api/invoice-scanner/index.js:95-105 | The poll loop answers 200 if and only if its last poll did not throw. Its body is then that poll's body, and that poll either settled or was the 15th. |
| InvoiceScanner.PollExceptionIsServerError | api/invoice-scanner/index.js:106-108 | An exception in the last poll becomes 500 "Server error: " + its message. This covers a failed fetch, an undecodable body and a non-string truthy status. |
| InvoiceScanner.EndToEndSingleUpload | api/invoice-scanner/index.js:6-109 | A PDF upload, a 202 with a job handle and a first poll that reports "succeeded" give 200 with that poll's body after one poll. The submission carries exactly the uploaded bytes. |
| MediaTypes.SupportedExactly | api/invoice-scanner/index.js:36-45 | A MIME type is accepted if and only if it is one of the seven listed strings. |
| MediaTypes.NoLooseMatches | api/invoice-scanner/index.js:36-45 | The match on the MIME type as the parser reports it is literal. `application/octet-stream`, an upper-case spelling, a type with parameters, `image/jpg` and "" are all refused. |
| Upload.ConcatAppend | api/invoice-scanner/index.js:50 | Concatenating the chunk list distributes over appending chunk lists. |
| Upload.ChunkPlacement | api/invoice-scanner/index.js:50 | Each chunk appears unchanged in the concatenated buffer, right after the bytes of the chunks before it. |
| Upload.ForwardedAppendPart | api/invoice-scanner/index.js:20-24 | A further file part adds its own bytes after everything collected so far. |
| Upload.ForwardedIsPartsInOrder | api/invoice-scanner/index.js:20-24 | The forwarded payload is the parts' own byte strings, joined in arrival order. |
| Polling.ToLower | api/invoice-scanner/index.js:97 | Lower-casing keeps the length and maps each character by itself (ASCII letters only). |
| Polling.LowersToRunning | api/invoice-scanner/index.js:97 | A string lower-cases to "running" if and only if it is that word in any mix of upper and lower case. |
| Polling.KeepPollingIff | api/invoice-scanner/index.js:96-97 | The loop condition's status test holds if and only if the status is a string equal to "running", ignoring case. A missing, empty or other status stops the loop. |
| Polling.ThrewIff | api/invoice-scanner/index.js:90-97 | A poll ends in an exception if and only if the poll itself threw or its status is a truthy non-string. In that case `toLowerCase` is not a function. |
| Polling.PollCountFrom | api/invoice-scanner/index.js:88-99 | After `done` polls, the loop makes more polls but never goes past the ceiling of 15. |
| Polling.PollCount | api/invoice-scanner/index.js:87-99 | The do-while makes at least one poll and at most 15. |
| Polling.PollCountFromStops | api/invoice-scanner/index.js:88-99 | When every earlier reply read "running", the count reached from `done` fits the stopping rule. |
| Polling.StopsAtUnique | api/invoice-scanner/index.js:95-99 | At most one poll count fits the stopping rule. |
| Polling.PollCountCharacterised | api/invoice-scanner/index.js:88-99 | The loop makes exactly `n` polls if and only if three things hold: 1 <= n <= 15, every reply before the n-th read "running", and either the n-th did not read "running" or n is 15. |
| Polling.PollResultIsLastBody | api/invoice-scanner/index.js:101-105 | The loop's response is the last poll's body with 200 unless that poll threw. If it threw, the response is that exception as a server error. |
| Polling.TimeoutIsBestEffort | api/invoice-scanner/index.js:85-105 | A service that always reads "running" is polled exactly 15 times. Its still-running body is returned with 200, and no timeout error is raised. |
| Polling.SettlesOnLastTry | api/invoice-scanner/index.js:88-105 | Fourteen "running" replies and then a string-status reply lead to exactly 15 polls and the 15th body. |
| Polling.SettlesOnFirstReply | api/invoice-scanner/index.js:88-99 | A first reply that does not read "running" ends the loop after one poll. |

## Left out

- Multipart parsing itself is not modelled. The parser is a library, so its result is an input: an error, or the file events with their MIME types and chunks. Which argument of the `file` callback carries the MIME type depends on the parser's version, so the MIME type is taken as given.
- The fetch calls, header lookups, text reads and JSON decoding are not modelled. Their results are inputs: `AnalyzeOutcome` and `PollService`. An exception from reading the analyze reply's text counts as an exception of the analyze call. A poll body that decodes to `null` counts as an exception of that poll.
- The 2000 ms wait before each poll and the promise plumbing are left out. Only the number of polls is modelled, not time.
- Environment reads are not modelled. The endpoint and key are parameters.
- The analyze URL built from the endpoint is not modelled, because it is a fixed template.
- The subscription key sent with each poll is not modelled.
- Polling.ToLower: only ASCII letters are lower-cased, not full Unicode case mapping. This cannot change the comparison with "running". The only non-ASCII characters whose lower case contains an ASCII letter are the Kelvin sign, which maps to "k", and U+0130, which lowers to "i" followed by U+0307.
- The message of the TypeError for a truthy non-string status is fixed to the V8 wording ("pollData.status.toLowerCase is not a function"). An exception that is not an `Error` object, which would give "Server error: undefined", is not modelled. Each exception comes with a message string.
- `Outcome.polls` counts the poll requests issued, including one whose fetch or decoding threw. The source's `tries` counter is not incremented for such a poll.
