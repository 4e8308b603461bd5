# toolkit — a verified model of its request handlers and schedulers

The toolkit is a small Rust web service with four parts:

- a **browser service**, one shared Selenium/WebDriver session that renders pages and returns
  their HTML, body text, a PNG screenshot as a base64 data URL, or the list of their images;
- a **notification scheduler** for Firebase Cloud Messaging: users create, list, update and
  delete cron-driven push schedules, and a background worker sends the due ones every minute
  and moves each one to its next execution time;
- **Instagram link recognition** for the yt-dlp downloader;
- the **shared plumbing**: the JSON `data`/`error` envelope, HTTP status mapping, the API-key
  and Basic-auth checks.

An older revision of the scheduler and plumbing (the `backend/` tree, over SQLite) is modelled
next to the current one.

The model is written in Dafny, one module per source file:

| module | models |
|---|---|
| `Wrappers`, `Json` | Option/Result, and the JSON values payloads are made of |
| `Utils` | src/utils.rs |
| `BackendUtils` | backend/src/utils.rs |
| `YtDlpUtils` | src/yt_dlp/utils.rs |
| `FcmUtils` | src/fcm/utils.rs |
| `FcmModel` | src/fcm/model.rs, and the `fcm_schedule` table as a class over `map<int, Schedule>` |
| `FcmHandler` | src/fcm/handler.rs |
| `SchedulerPass` | a pass of either sender over the due schedules, independent of what it sends |
| `FcmWorker` | src/fcm/worker.rs |
| `BackendFcm` | backend/src/fcm.rs |
| `BackendFcmLoop` | backend/src/fcm_loop.rs |
| `Base64` | the padded base64 of section 4 of RFC 4648, as the screenshot endpoint uses it |
| `BrowserImages` | the image listing of src/browser/handler.rs and src/browser/model.rs |
| `Browser` | src/browser/handler.rs: the WebDriver session class and the `Selenium` endpoints |

Everything outside the program is a parameter:

- WebDriver's answers are `DriverFaults` flags plus per-element read results; on top of these, New Window, Navigate To and Close Window fail while the window in focus is closed, and Switch To Window fails for a closed handle (the "no such window" error of the W3C WebDriver standard);
- the JWT decoder, cron parser, token source, HTTP client and JSON parser/printer are
  function-typed arguments;
- each SQL statement's failure is an optional error text.

State the source changes in place is a `class`:

- `Browser.WebDriver`, the session's windows, focus and lock;
- `FcmModel.ScheduleTable` and `BackendFcm.BackendTable`, the tables.

Each state-changing method is proved equal to a specification function: `Cleanup`, `Setup`,
`Serve`, `HealthCheck`, `DeleteWhereOwned`, `UpdateWhereOwned`, `AdvanceWhere`, `Run`/`Apply`.
The properties are proved about those functions.

## Model

| member | source | states |
|---|---|---|
| Utils.RespondOk | src/utils.rs:66-71 | `ok` is a 200 answer whose envelope holds the data and no error |
| Utils.RespondCreated | src/utils.rs:73-78 | `created` is a 201 answer whose envelope holds the data and no error |
| Utils.ErrorAnswers | src/utils.rs:80-106 | `bad_request`, `unauthorized`, `not_found` and `internal_server_error` answer 400, 401, 404 and 500 with no data and exactly the message |
| Utils.SuccessStatus | src/utils.rs:109-115 | successful answers are 2xx, 200 exactly for Ok and 201 for Created |
| Utils.ErrorStatus | src/utils.rs:117-128 | failed answers are 4xx/5xx; below 500 exactly when the failure is not an internal error |
| Utils.ErrorStatusDistinguishesKinds | src/utils.rs:117-128 | two failed answers share a status exactly when they are the same kind |
| Utils.EnvelopeHasOneOf | src/utils.rs:66-106 | every constructor's envelope holds exactly one of data and error |
| Utils.BadRequestHandlerStatus | src/utils.rs:139-151 | a payload-parse error is 400, every other error 500, both carrying the error text and no data |
| Utils.FromAnyhow | src/utils.rs:130-137 | an internal error becomes a 500 carrying its text and no data |
| Utils.VerifyApiKey | src/utils.rs:205-218 | succeeds iff the header equals the key; a missing header and a wrong key give their two messages |
| Utils.BasicAuthCall | src/utils.rs:189-202 | the inner endpoint's output comes through iff both user name and password match; otherwise 401 with a Basic challenge |
| Utils.GetPort | src/utils.rs:54-57 | `PORT` when set, else "3000" |
| BackendUtils.RespondOk | backend/src/utils.rs:72-77 | Ok answer with the data and no error |
| BackendUtils.RespondCreated | backend/src/utils.rs:79-84 | Created answer with the data and no error |
| BackendUtils.FixedAnswers | backend/src/utils.rs:86-116 | the file answer is a 200 passing the attachment through unchanged; the four error answers are 400, 401, 404 and 500 with no data and exactly the message |
| BackendUtils.Status | backend/src/utils.rs:119-136 | 200 exactly for Ok and file answers, 201 for Created, 2xx exactly these three, 4xx exactly the three client errors, 500 exactly the internal error |
| BackendUtils.EnvelopeHasOneOf | backend/src/utils.rs:71-117 | every JSON envelope holds exactly one of data and error |
| BackendUtils.BadRequestHandlerStatus | backend/src/utils.rs:138-150 | a payload-parse error is 400, every other error 500, both carrying its text and no data |
| BackendUtils.TrimStartMatches | backend/src/utils.rs:39 | the result is a suffix of the input that no longer starts with the pattern |
| BackendUtils.TrimStartMatchesRemovesRepeats | backend/src/utils.rs:39 | any number of leading copies of the pattern are all removed, and nothing else |
| BackendUtils.DatabaseFileName | backend/src/utils.rs:34-39 | the file opened is a suffix of the URL that does not start with "sqlite:" |
| BackendUtils.DatabaseFileNameDropsEveryScheme | backend/src/utils.rs:34-39 | "sqlite:" repeated k times before a file name opens that file |
| YtDlpUtils.IdRun | src/yt_dlp/utils.rs:91-92 | the greedy `[a-zA-Z0-9_-]+` run: a prefix of id characters followed by a non-id character or the end |
| YtDlpUtils.MatchHost | src/yt_dlp/utils.rs:91-92 | the matched `https://(www.)instagram.com/` host is a prefix of the URL |
| YtDlpUtils.GetPostId | src/yt_dlp/utils.rs:90-108 | a returned id is non-empty and made of id characters, only for URLs starting "https://"; otherwise "Instagram post/reel ID was not found" |
| YtDlpUtils.IdRunOfId | src/yt_dlp/utils.rs:91-92 | an id followed by anything that does not extend it is taken whole |
| YtDlpUtils.AfterHostOf | src/yt_dlp/utils.rs:91-92 | both host spellings are recognised and stripped |
| YtDlpUtils.CaptureAfterOf | src/yt_dlp/utils.rs:91-92 | the capture group after a path is exactly the id |
| YtDlpUtils.GetPostIdOfLink | src/yt_dlp/utils.rs:90-108 | every post, reel or reels link yields its id, whatever follows the id |
| YtDlpUtils.LinksToOf | src/yt_dlp/utils.rs:91-92 | such a URL is a link to that id |
| YtDlpUtils.CaptureIsLink | src/yt_dlp/utils.rs:91-92 | a capture after a recognised host and path is a link to the captured id |
| YtDlpUtils.GetPostIdIsLink | src/yt_dlp/utils.rs:90-108 | an id is returned only for a post or reel link that carries it |
| YtDlpUtils.Contains | src/yt_dlp/utils.rs:113 | true iff the substring occurs at some index |
| YtDlpUtils.IsInstagramUrl | src/yt_dlp/utils.rs:110-114 | a parse error is passed on; no domain gives "Failed to get domain"; otherwise true iff the domain contains "instagram.com" |
| FcmUtils.ExtractClaims | src/fcm/utils.rs:12-36 | no header: "unable to extract token"; no "Bearer " prefix or a decode failure: "invalid token"; success iff the text after the prefix decodes, with its claims |
| FcmUtils.ExtractClaimsOfBearer | src/fcm/utils.rs:20-35 | exactly the text after "Bearer " reaches the decoder, and its claims come back unchanged |
| FcmUtils.DecodeCron | src/fcm/utils.rs:38-54 | success iff the parser gives a next time, which is returned; a panic and a parse error both give "Invalid cron pattern" |
| FcmModel.NewRow | src/fcm/handler.rs:68-87 | the inserted row takes owner and project from the claims, the fields from the body, and one instant for last execution, creation and update |
| FcmModel.UpdatedRow | src/fcm/handler.rs:247-257 | the update changes name, token, pattern, payload, next execution and update time, and leaves id, owner, project, last execution and creation time alone |
| FcmModel.AdvancedRow | src/fcm/worker.rs:191-197 | the worker's update moves next execution, last execution and update time, and nothing else |
| FcmModel.DeleteWhereOwned | src/fcm/handler.rs:174-180 | only the caller's row with that id goes; every other row, and every row of another user, stays |
| FcmModel.UpdateWhereOwned | src/fcm/handler.rs:247-259 | only the caller's row with that id changes, as UpdatedRow says; nothing changes when the caller does not own it |
| FcmModel.AdvanceWhere | src/fcm/worker.rs:191-197 | only the row with that id moves, as AdvancedRow says |
| FcmModel.AffectedOwned | src/fcm/handler.rs:189 | at most one row is affected, and one exactly when the caller owns the id |
| FcmModel.Due | src/fcm/worker.rs:79-85 | the worker's filter holds exactly for rows whose next execution is before the database's now |
| FcmModel.ScheduleTable.constructor | src/fcm/model.rs:21-66 | an empty table whose ids start at 1 |
| FcmModel.ScheduleTable.Insert | src/fcm/handler.rs:70-96 | `INSERT ... RETURNING *`: the row stored under a fresh id and returned, or the error and no change |
| FcmModel.ScheduleTable.SelectWhere | src/fcm/worker.rs:79-85 | lists exactly the rows satisfying the filter, once each |
| FcmModel.ScheduleTable.SelectOwned | src/fcm/handler.rs:158-172 | a row comes back iff the lookup works and the caller owns the id |
| FcmModel.ScheduleTable.DeleteOwned | src/fcm/handler.rs:174-187 | the rows become DeleteWhereOwned, and the affected count AffectedOwned |
| FcmModel.ScheduleTable.UpdateOwned | src/fcm/handler.rs:247-266 | the rows become UpdateWhereOwned, and the affected count AffectedOwned |
| FcmModel.ScheduleTable.Advance | src/fcm/worker.rs:191-197 | the rows become AdvanceWhere, or stay on error |
| FcmHandler.CreateChecks | src/fcm/handler.rs:39-66 | in order: claims (401 with the claims error itself, "unable to extract token" without a header), project in the configured list (401 "Invalid project id"), object payload (400 "Invalid payload"), cron (400 "Invalid cron pattern"); success iff all pass, with the claims and the first time |
| FcmHandler.DeleteChecks | src/fcm/handler.rs:149-172 | 401 iff the claims fail; else 404 "Schedule not found" unless the caller owns the id; the project list is not consulted |
| FcmHandler.UpdateChecks | src/fcm/handler.rs:206-243 | ownership is checked before payload and cron, so a foreign id is 404 even with a bad payload; the project list is not consulted; a claims failure is a 401 with the claims error, a missing or foreign id is a 404 "Schedule not found", and every other failure is a 400 |
| FcmHandler.FirebaseMessaging.constructor | src/fcm/handler.rs:26-28 | the endpoints serve the given projects |
| FcmHandler.FirebaseMessaging.CreateSchedule | src/fcm/handler.rs:32-99 | a failed check answers it and writes nothing; otherwise the NewRow under a fresh id is stored and returned as Created |
| FcmHandler.FirebaseMessaging.FindAllSchedules | src/fcm/handler.rs:103-134 | exactly the caller's rows, once each |
| FcmHandler.FirebaseMessaging.DeleteSchedule | src/fcm/handler.rs:142-194 | a failed check changes nothing; otherwise exactly that row goes and is returned as it was |
| FcmHandler.FirebaseMessaging.UpdateSchedule | src/fcm/handler.rs:198-289 | a failed check changes nothing; otherwise only that row becomes UpdatedRow and is read back |
| SchedulerPass.Run | src/fcm/worker.rs:89-207 | a pass sends and moves at most one request and row per schedule |
| SchedulerPass.RunGrows | src/fcm/worker.rs:89-207 | what the pass sent and moved over a prefix of the schedules stays at the front of what it sends and moves over all of them |
| SchedulerPass.RunComplete | src/fcm/worker.rs:89-207 | a schedule reached before a panic has its request among those sent and its move among those made |
| SchedulerPass.HaltPersists | src/fcm/worker.rs:181-188 | a pass dead before one schedule is dead at every later one |
| SchedulerPass.Apply | src/fcm/worker.rs:191-197 | the pass's updates keep every row, leave rows no advance names unchanged, change no column but next execution, last execution and update time, and the last update of a row leaves it as AdvancedRow of its original |
| SchedulerPass.ApplyUniform | src/fcm/worker.rs:191-197 | a row all of whose updates name the same next time ends as one update leaves it |
| SchedulerPass.PassOutcome | src/fcm/worker.rs:89-207 | each due schedule ends as its own step leaves it: moved to the step's time and stamped when reached alive and moved, as it was when not moved |
| SchedulerPass.RunStopsAtHalt | src/fcm/worker.rs:181-188 | once the cron parser panics, later schedules are not processed |
| SchedulerPass.AdvancesComeFromSteps | src/fcm/worker.rs:89-207 | every row moved is moved by the step of one of the due schedules |
| SchedulerPass.SentComeFromSteps | src/fcm/worker.rs:89-207 | every request sent is the one the step of a due schedule sends |
| SchedulerPass.PassLeavesOthers | src/fcm/worker.rs:79-85 | a pass over the due rows leaves every row that was not due as it was |
| FcmWorker.Wire | src/fcm/worker.rs:31-37 | the notification is written iff it is not empty (title or body present) |
| FcmWorker.WireRoundTrip | src/fcm/worker.rs:25-37 | leaving out an empty notification loses nothing |
| FcmWorker.EscapeChar | src/fcm/worker.rs:114 | a character is written as itself iff JSON needs no escape for it |
| FcmWorker.Escape | src/fcm/worker.rs:114 | text with nothing to escape is written unchanged |
| FcmWorker.Quote | src/fcm/worker.rs:114 | a JSON string's text starts and ends with a quote |
| FcmWorker.TextAsWritten | src/fcm/worker.rs:113-115 | as written, a string value becomes its quoted JSON text, any other value its JSON text |
| FcmWorker.Text | src/fcm/worker.rs:113-115 | corrected: a string value is carried as itself; other values as written |
| FcmWorker.DataAsWritten | src/fcm/worker.rs:110-124 | an object payload gives one entry per key holding `value.to_string()` (TextAsWritten: a string quoted and escaped, anything else rendered); a string payload is parsed (empty on failure); anything else gives none |
| FcmWorker.DataOf | src/fcm/worker.rs:110-124 | corrected: every key of an object payload carries Text of its value; other payloads as written |
| FcmWorker.AsWrittenQuotesStrings | src/fcm/worker.rs:110-124 | the written and the corrected data have the same keys and differ only where a string is quoted |
| FcmWorker.BuildData | src/fcm/worker.rs:110-124 | the insert loop builds exactly DataAsWritten |
| FcmWorker.SplitNotification | src/fcm/worker.rs:126-129 | title and body come out of the data into the notification; every other entry stays unchanged |
| FcmWorker.SplitRejoin | src/fcm/worker.rs:126-136 | the notification and the remaining data together give back every entry |
| FcmWorker.AuthorizationValue | src/fcm/worker.rs:139-145 | "Bearer " + token, present iff every token character is allowed in a header |
| FcmWorker.Endpoint | src/fcm/worker.rs:151-154 | the send URL is the API prefix, the project id and "/messages:send" |
| FcmWorker.EndpointInjective | src/fcm/worker.rs:151-154 | different projects get different endpoints |
| FcmWorker.Compose | src/fcm/worker.rs:92-154 | a request exists iff the project has a service account, a token and a valid header; it goes to the project's endpoint with the push token and the as-written data split into notification and rest |
| FcmWorker.Step | src/fcm/worker.rs:89-206 | a schedule moves forward iff its request got any HTTP answer, its pattern gives a next time and the update works; a failed HTTP status still moves it |
| FcmWorker.StepOf | src/fcm/worker.rs:89-206 | the step only moves the row it was given |
| FcmWorker.WorkerPassFaithful | src/fcm/worker.rs:89-207 | every moved row goes to the time its own pattern gives, and every request sent was composed for a due schedule |
| FcmWorker.WorkerPassComplete | src/fcm/worker.rs:89-207 | conversely, every schedule reached before a panic has its request sent and its move made when its step makes them |
| FcmWorker.WorkerPassOutcome | src/fcm/worker.rs:180-206 | a due row reached before a panic whose step moves it ends as AdvancedRow of the old row, its pattern's time and the pass's time; a row whose step does not move it keeps its row |
| FcmWorker.ProcessMessage | src/fcm/worker.rs:89-206 | the loop body sends Step's request and leaves the table as Step's advance says |
| FcmWorker.PollOnce | src/fcm/worker.rs:76-207 | reads exactly the due rows (none on a failed read), then the table becomes Apply of the pass |
| FcmWorker.TitleQuotedAsWritten | src/fcm/worker.rs:113-115 | as written, the title "Reminder" reaches the device as "\"Reminder\"" |
| FcmWorker.StringsReachDevice | src/fcm/worker.rs:110-136 | corrected: each string entry reaches the device unchanged as title, body or data |
| BackendFcm.Status | backend/src/fcm.rs:84-122 | 200 exactly for Ok, 401 Unauthorized, 400 Bad Request, 404 Not Found, 500 Internal Server Error; a panic gives no status |
| BackendFcm.ExtractBearerClaims | backend/src/fcm.rs:357-369 | the raw token is decoded; success iff it decodes, with its claims, and every failure is "Unauthorized" |
| BackendFcm.NewBackendRow | backend/src/fcm.rs:144-171 | owner and project from the claims, fields from the body, one instant for last execution, creation and update |
| BackendFcm.UpdatedBackendRow | backend/src/fcm.rs:320-330 | only name, token, pattern, payload, next execution and update time change; the identity fields of the body are ignored |
| BackendFcm.BackendTable.constructor | backend/src/fcm.rs:42-65 | an empty table whose rowids start at 1 |
| BackendFcm.BackendTable.Insert | backend/src/fcm.rs:156-171 | the row stored under the next rowid, which is returned |
| BackendFcm.BackendTable.SelectById | backend/src/fcm.rs:173-180 | the row with that rowid; the statement's error when it fails; sqlx's RowNotFound text ("no rows returned by a query that expected to return at least one row") for a missing row; the table is unchanged |
| BackendFcm.BackendTable.SelectOwned | backend/src/fcm.rs:236-252 | a row iff the lookup works and the caller owns the id |
| BackendFcm.BackendTable.SelectByUser | backend/src/fcm.rs:204-211 | exactly the caller's rows, once each |
| BackendFcm.BackendTable.DeleteOwned | backend/src/fcm.rs:254-261 | removes the caller's row (1 affected), or nothing (0) |
| BackendFcm.BackendTable.UpdateOwned | backend/src/fcm.rs:320-333 | rewrites only the caller's row (1 affected), or nothing (0) |
| BackendFcm.CreateOutcome | backend/src/fcm.rs:137-152 | claims first (401 "Unauthorized"), then the cron pattern: absent panics, invalid is 400; no project or payload check |
| BackendFcm.CreateSchedule | backend/src/fcm.rs:130-185 | for a body within the framework's length limits (backend/src/fcm.rs:45-54): a failed check writes nothing; otherwise NewBackendRow is inserted and read back by its rowid |
| BackendFcm.FindAllSchedules | backend/src/fcm.rs:189-216 | exactly the caller's rows |
| BackendFcm.DeleteSchedule | backend/src/fcm.rs:220-272 | a foreign or missing id is 404 with no change; otherwise exactly that row goes and is returned as it was |
| BackendFcm.UpdateOutcome | backend/src/fcm.rs:284-316 | claims, then ownership (404), then the cron pattern: for an owned id an absent pattern panics and an invalid one is a 400 "Invalid cron pattern" |
| BackendFcm.UpdateSchedule | backend/src/fcm.rs:276-354 | a failed check changes nothing; otherwise only that row becomes UpdatedBackendRow and is read back |
| BackendFcmLoop.LoopData | backend/src/fcm_loop.rs:93-104 | an object payload is copied unchanged; a string is parsed as an object (empty on failure); anything else gives none |
| BackendFcmLoop.CopyData | backend/src/fcm_loop.rs:93-99 | the insert loop builds exactly LoopData |
| BackendFcmLoop.LoopCompose | backend/src/fcm_loop.rs:75-132 | a request exists iff service account, token and header exist; its data is the whole payload map and its token the push token |
| BackendFcmLoop.LoopStep | backend/src/fcm_loop.rs:72-178 | same skip and advance rules as the current worker; a failed HTTP status still advances |
| BackendFcmLoop.LoopStepOf | backend/src/fcm_loop.rs:72-178 | the step only moves the row it was given |
| BackendFcmLoop.ProcessLoopMessage | backend/src/fcm_loop.rs:72-178 | the loop body sends LoopStep's request and leaves the table as its advance says |
| BackendFcmLoop.PollOnce | backend/src/fcm_loop.rs:60-179 | reads exactly the due rows, then the table becomes Apply of the pass |
| BackendFcmLoop.LoopPassOutcome | backend/src/fcm_loop.rs:72-178 | a due row reached before a panic whose step moves it ends as AdvancedRow of the old row, its pattern's time and the pass's time; an unmoved row keeps its row; every request of a schedule reached before a panic is sent |
| Base64.CharOf | src/browser/handler.rs:207 | each 6-bit value maps to one alphabet character, in the alphabet's ranges |
| Base64.ValueOf | src/browser/handler.rs:207 | a character has a value iff it is in the alphabet |
| Base64.ValueOfCharOf | src/browser/handler.rs:207 | the character of a value decodes back to it |
| Base64.Padding | src/browser/handler.rs:207 | at most two pad characters, none iff the length is a multiple of 3 |
| Base64.EncodeShape | src/browser/handler.rs:207 | 4 characters per started group of 3 bytes; '=' exactly in the last Padding positions, alphabet characters elsewhere |
| Base64.GroupRoundTrip | src/browser/handler.rs:207 | a full group of three bytes comes back from its four characters |
| Base64.ShortRoundTrip | src/browser/handler.rs:207 | one or two bytes come back from their padded last group |
| Base64.DecodeEncode | src/browser/handler.rs:207 | decoding the encoding gives the bytes back |
| Base64.EncodeInjective | src/browser/handler.rs:207 | different byte strings have different encodings |
| BrowserImages.ImageOf | src/browser/handler.rs:275-316 | an element is kept iff src reads and is present and both rect reads work; a failed alt read leaves alt out; size = width * height |
| BrowserImages.CollectedSound | src/browser/handler.rs:275-316 | every listed image is the record of one of the elements |
| BrowserImages.CollectedComplete | src/browser/handler.rs:275-316 | every element that is kept is listed |
| BrowserImages.CollectImages | src/browser/handler.rs:273-317 | the push loop builds exactly Collected, in page order |
| BrowserImages.Insert | src/browser/handler.rs:330 | inserting adds exactly that image |
| BrowserImages.InsertSorted | src/browser/handler.rs:330 | inserting into a largest-first list keeps it largest-first |
| BrowserImages.SortBySize | src/browser/handler.rs:330 | the result is largest-first and a permutation of the input |
| BrowserImages.SortBySizeStable | src/browser/handler.rs:330 | images of equal size keep the page's order |
| BrowserImages.StableSortIsUnique | src/browser/handler.rs:330 | the sorted, stable list is the only one with both properties |
| Browser.Remove | src/browser/handler.rs:377 | closing a window leaves exactly the other windows |
| Browser.RemoveOpen | src/browser/handler.rs:377 | closing an open window removes exactly one entry and creates no repeats |
| Browser.RemoveAppended | src/browser/handler.rs:340-411 | opening a fresh window and closing it gives the list back |
| Browser.Cleanup | src/browser/handler.rs:377-411 | close the focused window, list, focus the first; each failure gives its message; on success the windows are the others and the first has focus |
| Browser.Setup | src/browser/handler.rs:340-369 | opening the tab fails, changing nothing, when the driver says so or the window in focus is closed (W3C New Window); a switch failure answers with Cleanup's error, or "Failed to switch to new tab" when Cleanup works, and leaves Cleanup's session; a goto failure the same with "Failed to navigate to URL" after the focus moved; success iff the focused window is open and no step fails, with the new tab open, focused and at the URL |
| Browser.GotoFailureRestoresWindows | src/browser/handler.rs:357-364 | a failed navigation with a working cleanup answers "Failed to navigate to URL" and leaves the windows as before, the first in focus |
| Browser.Target | src/browser/handler.rs:48-51 | the caller's URL, or the 12ft.io front end ("https://12ft.io/" for `get_html`, the proxy "https://12ft.io/api/proxy?ref=&q=" for the other three, lines 108-111) followed by the URL when bypassing |
| Browser.ServeAnswers | src/browser/handler.rs:39-85 | a wrong key is 401 with the session untouched; success iff the key, setup, extraction and cleanup all work, with the extracted value; other failures are 500 |
| Browser.HtmlExtract | src/browser/handler.rs:64-72 | the page source, or "Failed to get page source" |
| Browser.TextExtract | src/browser/handler.rs:124-142 | the body's text, or the body or text failure message |
| Browser.ScreenshotExtract | src/browser/handler.rs:198-219 | "data:image/png;base64," followed by text that decodes back to the PNG bytes |
| Browser.ImagesExtract | src/browser/handler.rs:263-271 | the collected images largest first, as a permutation of the collected list |
| Browser.HealthCheck | src/browser/handler.rs:414-441 | setup, source and cleanup on https://example.com; a failure answers "Failed to setup driver: ", "Failed to get page source: " or "Failed to cleanup driver: " followed by the step's error |
| Browser.ServeRestoresWindows | src/browser/handler.rs:340-411 | a successful request leaves the windows as they were, with the first focused, after navigating the tab to the target |
| Browser.ExtractionFailureLeaksTab | src/browser/handler.rs:64-71 | a failed extraction answers at once and leaves the new tab open and focused |
| Browser.CleanupFailureOverrides | src/browser/handler.rs:74-82 | a failed cleanup replaces the page's content with "Failed to cleanup driver" |
| Browser.FailedCleanupBlocksNextSetup | src/browser/handler.rs:372-387 | a cleanup that closed the focused window and then failed leaves focus on the closed window, so the next setup fails at once with "Failed to create new tab" and changes nothing |
| Browser.SwitchFailureClosesPreviousWindow | src/browser/handler.rs:348-354 | after a failed switch, the cleanup closes the previously focused window and the new tab stays open |
| Browser.UnauthorizedTouchesNothing | src/browser/handler.rs:39-46 | a failed key check is 401 and leaves the session as it was |
| Browser.WebDriver.constructor | src/browser/handler.rs:23-25 | one window, focused, lock free |
| Browser.WebDriver.Lock | src/browser/handler.rs:39 | the lock is taken and counted |
| Browser.WebDriver.NewTab | src/browser/handler.rs:340 | fails, changing nothing, when the driver says so or the window in focus is not open; otherwise a fresh handle is added to the windows and focus stays |
| Browser.WebDriver.SwitchToWindow | src/browser/handler.rs:348 | focus moves iff the command works and the window is open |
| Browser.WebDriver.Goto | src/browser/handler.rs:357 | the focused window is navigated iff it is open and the command works |
| Browser.WebDriver.CloseWindow | src/browser/handler.rs:377 | the focused window is removed iff it is open and the command works |
| Browser.WebDriver.Windows | src/browser/handler.rs:385 | the open windows, or nothing when the command fails |
| Browser.Selenium.CleanupDriver | src/browser/handler.rs:372-412 | the driver's session and the result are those of Cleanup |
| Browser.Selenium.SetupDriver | src/browser/handler.rs:335-370 | the driver's session and the result are those of Setup |
| Browser.Selenium.GetHtml | src/browser/handler.rs:29-85 | answer and session are Serve with Target(HtmlFront) and HtmlExtract; the lock is taken once and released |
| Browser.Selenium.GetText | src/browser/handler.rs:89-155 | answer and session are Serve with Target(ProxyFront) and TextExtract |
| Browser.Selenium.GetScreenshot | src/browser/handler.rs:163-220 | answer and session are Serve with Target(ProxyFront) and ScreenshotExtract |
| Browser.Selenium.GetImages | src/browser/handler.rs:228-333 | answer and session are Serve with Target(ProxyFront) and ImagesExtract |
| Browser.Selenium.Health | src/browser/handler.rs:414-442 | result and session are those of HealthCheck |

## Left out

- Timing: the handlers' `sleep(delay)` and the worker's one-minute pause are left out; a poll is one call of `PollOnce`.
- Concurrency: the tokio `Mutex` is a `locked` flag and an acquisition count. Each handler holds it for its whole run, so handlers run one after another.
- The W3C rule that closing the last window ends the session is not modelled, so "Failed to get window handle" is reachable. Handles are numbers, not opaque strings.
- The `img` probe in `setup_driver` (src/browser/handler.rs:367) has no effect on the session and is left out.
- Image width, height and size are `f64` in the source and integers here. So the NaN panic of `partial_cmp().unwrap()` (src/browser/handler.rs:330) is not modelled.
- WebDriver, the page, jsonwebtoken, cron_parser, gcp_auth, reqwest, sqlx, `Url::parse` and serde's parser and printer are outside the model. Their answers are parameters of the functions and methods.
- The base64 crate is replaced by a definition of section 4 of RFC 4648, with a decoder as its partner.
- The SQL tables are maps keyed by id. Postgres sequences and SQLite rowids are a counter; rowid reuse after deletes is not modelled. `FcmModel.ScheduleTable.Insert` leaves the counter as it was after a failed INSERT, while a Postgres sequence is consumed anyway; ids stay unique, but may differ from the database's.
- The `rows_affected() == 0` branches after a successful lookup (src/fcm/handler.rs:189; backend/src/fcm.rs:263, 335) are only reachable under concurrent writes. In the sequential model they cannot happen.
- The clock (`Utc::now()`, the database's `NOW()`) is a parameter.
- `read_in_serivce_accounts` (src/fcm/worker.rs:41-70, backend/src/fcm_loop.rs:26-54) reads files, so its result is a parameter: the set of projects with a service account.
- Request-body validation belongs to the web framework. The length limits of src/fcm/model.rs are a precondition (`ValidSchedule`, `ValidUpdate`), and so are those of the older revision (backend/src/fcm.rs:45-54, `ValidBackendBody`, on `BackendFcm.CreateSchedule`).
- UpdatedBackendRow: an absent payload is written as the JSON null. sqlx binds `None` as SQL NULL, and a later read of that row into the non-optional `payload: Value` (backend/src/fcm.rs:56) would then fail; the model does not capture that failure.
- The schedule type of the older sender is declared in `backend/src/fcm_api.rs`, which is not part of this model. `FcmModel.Schedule` stands for it.
- backend/src/utils.rs `verify_apikey` and `BasicAuthEndpoint::call` are the same as in src/utils.rs, so `Utils.VerifyApiKey` and `Utils.BasicAuthCall` cover both.
- Left out because they are I/O only:
  - the yt-dlp handlers and `download_instgram_video`;
  - backend/src/browser/handler.rs;
  - main, module wiring and the health endpoints;
  - database connection setup;
  - logging.
- Logged-only outcomes:
  - An HTTP status that is not a success is only logged; the schedule is still moved forward (`Step`, `LoopStep`).
  - A failed worker UPDATE is only logged; the model records that the schedule is then not moved, and nothing more.
  - The HTTP response text is not kept.

## Findings

| source | as written | input that shows it | evidently intended | confidence | as-written member | corrected member |
|---|---|---|---|---|---|---|
| src/fcm/worker.rs:113-115 | each payload value goes into the data map as `value.to_string()`, and for a JSON string that is its JSON text, quotes included | payload `{"title": "Reminder"}` shows the title `"Reminder"` with the quotes on the device | a string value is carried as the string itself (src/fcm/model.rs:46-47 promises the title and body are used as the notification) | high, not executed | FcmWorker.TitleQuotedAsWritten (over FcmWorker.DataAsWritten, which BuildData, Compose, Step and PollOnce use) | FcmWorker.StringsReachDevice (over FcmWorker.DataOf; FcmWorker.AsWrittenQuotesStrings relates the two) |
