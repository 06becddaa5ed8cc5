# video-to-summary: the job pipeline, admission and streaming, in Dafny

A Dafny model of the core of video-to-summary, a Node/Express service. It turns
a YouTube video or an uploaded file into a transcript and an AI-written summary.
The model covers four pieces.

- **`outputSummary`** (`output_summary.dfy`). One job runs inside a per-job
  temporary directory: check the URL, download, transcribe, then either return
  the transcript or delete the audio while the summary is generated. Every awaited
  collaborator is an input outcome: `mkdir`, the downloader, the two model calls,
  both deletes and `rm`. A run is then a pure function (`OutputSummary.Run`) from
  those outcomes to a `Trace`: the progress updates, the calls made with their
  arguments, the cleanup steps, and the value or error the returned promise
  settles with. `Promise.all` is modelled in both settle orders (`SettleOrder`).
  The model keeps JavaScript's `try`/`catch`/`finally` rules: a `finally` that
  throws replaces the outcome, and `if (fileId)` is a truthiness test.
- **The server state** (`server.dfy`). This covers
  the `activeRequests` map behind `requestQueueMiddleware`, with capacity 2
  and a slot freed on `'finish'`. It also covers `getServerStatus`,
  `startServer`/`stopServer`, and which routes go through the middleware.
  `RunEvents` applies any sequence of arrivals, finishes, starts and stops.
- **`YouTubeDownloader`** (`youtube_downloader.dfy`). The file id is
  `path.basename(url)` with every character outside `[A-Za-z0-9]` replaced by
  `_`. Download errors are classified by substring. The file system is the set
  of paths that exist, so a second delete of the same file fails.
- **The upload route handlers** (`upload_routes.dfy`): `generateSummary`,
  `streamSummary` and `getTranscript`. `streamSummary`'s reply is the list of
  frames written plus whether the response was ended.
  `server_sent_events.dfy` gives the `data:` frame encoding and the client-side
  parsing from section 9.2 of the WHATWG HTML Living Standard
  ("Server-sent events"). It proves that a client decodes exactly the payloads
  written, in order.

`base.dfy` holds the shared values: `Option`, `Result`, a thrown JavaScript
value with its `String(...)` rendering, and `String.prototype.includes` with a
positional characterisation. `progress.dfy` holds the progress update and the
three checkpoints (10, 40, 70).

Behaviour of the code worth knowing:

- **Download failures are wrapped.** In `outputSummary` they become an
  `InternalServerError` with the processing prefix, like every other stage
  failure.
- **Cleanup failures mask the result.** A failing delete in the inner `finally`,
  or a failing `rm` in the outer one, replaces the job's result or error.
- **`deleteVideo` is not idempotent.** Deleting the same file twice fails with
  `DELETION_FAILED`.
- **`outputSummary` never reports a `done` update.** Its trace holds only the
  three `processing` checkpoints.
- **A failure mid-stream writes no terminal frame.** After the first forwarded
  update, `streamSummary` writes no `error` frame and leaves the response
  open.
- **A slot is freed only by `'finish'`.** Nothing else removes an entry from
  `activeRequests` except a successful `stopServer`.

## Model

| member | source | states |
|---|---|---|
| `OutputSummary.TempRoot` | src/services/summary/outputSummary.ts:58 | An unset or empty `TEMP_DIR` falls back to `./tmp`; a non-empty one is used as is. The root is never empty. |
| `OutputSummary.ValidUrl` | src/services/summary/outputSummary.ts:64 | A URL is accepted if and only if it is a string in which `?v=` occurs at some position. |
| `OutputSummary.Truthy` | src/services/summary/outputSummary.ts:114 | Of the values `fileId` can hold, exactly `undefined` and the empty string are falsy. |
| `OutputSummary.SettlePair` | src/services/summary/outputSummary.ts:96-99 | The parallel delete and summary resolve exactly when both resolve, and then with the summary and `fileId` reset. Otherwise they reject with the first rejection to settle: the delete's when the delete settles first and rejects, the summary's when the summary settles first and rejects, leaving `fileId` set in both cases. `fileId` is either reset or unchanged. |
| `OutputSummary.InnerTry` | src/services/summary/outputSummary.ts:67-107 | The inner block never touches the directory. Its cleanup is media deletions only, and its progress is a prefix of the checkpoints. It asks for a summary only after a download and a transcript without `returnTranscriptOnly`, and only with the transcript, word budget and prompt it was given. |
| `OutputSummary.InnerFinish` | src/services/summary/outputSummary.ts:108-115 | The inner `catch`/`finally` adds no progress and at most media deletions. It asks for no summary. A rejection becomes `InternalServerError(prefix + String(error))` and a resolved value is kept, unless the `finally` delete runs and rejects: then that delete's error is what the block throws. |
| `OutputSummary.OuterTry` | src/services/summary/outputSummary.ts:60-66 | The directory is created first and not touched again in the outer `try`. Off the summary path no summary is requested; on it, only with the transcript and the defaulted words and prompt. |
| `OutputSummary.Run` | src/services/summary/outputSummary.ts:49-119 | For every combination of outcomes: the first call creates `TEMP_DIR/sessionId` and the last removes it, with no other directory call. The last cleanup step is the removal. Progress is a prefix of `[10, 40, 70]`. `generateSummary` is called only on the summary path, with the defaulted arguments. Success needs `rm` to succeed, and a failing `rm` becomes the error. |
| `OutputSummaryProperties.InvalidUrlIsRefused` | src/services/summary/outputSummary.ts:64-66 | A URL that is not a string or lacks `?v=` is refused with an unwrapped `BadRequestError("Invalid YouTube URL")`. No progress is reported and the only calls are mkdir and rm. |
| `OutputSummaryProperties.MkdirFailureStopsEverything` | src/services/summary/outputSummary.ts:60-62 | A failing mkdir runs nothing else, still attempts the removal, and rejects with mkdir's error unless rm's error replaces it. |
| `OutputSummaryProperties.ProgressFollowsStages` | src/services/summary/outputSummary.ts:70-95 | The trace is strictly increasing and never `done`. It is empty exactly when the inner block is not reached and has one update exactly when the download fails. It has three updates, `[10, 40, 70]`, exactly on the summary path. |
| `OutputSummaryProperties.CallsWhenTranscriptFails` | src/services/summary/outputSummary.ts:83 | When the transcript fails, the calls are mkdir, download and transcribe, then a delete only for a non-empty `fileId`, then rm. |
| `OutputSummaryProperties.CallsOnTranscriptOnlyPath` | src/services/summary/outputSummary.ts:85-88 | The transcript-only path deletes once. The `finally` block deletes again only when that delete rejected and `fileId` is non-empty. |
| `OutputSummaryProperties.CallsOnSummaryPath` | src/services/summary/outputSummary.ts:96-99 | On the summary path the delete is issued before `generateSummary`, which receives the transcript and the defaulted words and prompt. A second delete follows exactly when `Promise.all` left `fileId` set. |
| `OutputSummaryProperties.SummaryCalledIff` | src/services/summary/outputSummary.ts:85-99 | `generateSummary` is called if and only if the job reaches the summary path. |
| `OutputSummaryProperties.SuccessIff` | src/services/summary/outputSummary.ts:60-119 | The job resolves if and only if the directory, URL, download, transcript, first delete, summary (unless transcript-only) and rm all succeed. It resolves with the transcript or the summary. |
| `OutputSummaryProperties.TranscriptOnlyShortCircuit` | src/services/summary/outputSummary.ts:85-88 | With `returnTranscriptOnly` no summary is requested and the trace is a prefix of `[10, 40]`. The transcript is returned only after its file's delete succeeded. |
| `OutputSummaryProperties.StageFailuresAreWrapped` | src/services/summary/outputSummary.ts:108-112 | When the cleanups succeed, the reached inner block fails exactly when some started stage rejects. The error is then `InternalServerError("Something went wrong during video processing: " + String(e))`, with `e` the error of the first stage to reject in settle order. |
| `OutputSummaryProperties.FirstRejection` | src/services/summary/outputSummary.ts:75-99 | The first rejection exists exactly when some settled stage rejected. It is that stage's error, and every stage before it resolved. |
| `OutputSummaryProperties.DownloadFailureDeletesNothing` | src/services/summary/outputSummary.ts:75 | A failed download leaves `fileId` unset. The calls are mkdir, download and rm, and the only cleanup is the removal. |
| `OutputSummaryProperties.DownloadedFileIsDeleted` | src/services/summary/outputSummary.ts:113-115 | A downloaded file whose transcript succeeded, or whose id is non-empty, gets a delete as the first cleanup step. |
| `OutputSummaryProperties.CompletedDeleteIsNotRepeated` | src/services/summary/outputSummary.ts:86 | Once the first delete resolved before the block was left, the cleanup is exactly that delete and the removal. |
| `OutputSummaryProperties.SecondDeleteIff` | src/services/summary/outputSummary.ts:97 | The `finally` block deletes a second time if and only if `fileId` is non-empty and the first delete rejected, or the summary rejected first. The cleanup has two or three steps. |
| `OutputSummaryProperties.FailedFinallyDeleteWins` | src/services/summary/outputSummary.ts:113-114 | When the `finally` block deletes again and that delete rejects, the job rejects with that delete's error, whatever the stage's error was. |
| `OutputSummaryProperties.SettleOrdersAgree` | src/services/summary/outputSummary.ts:96-99 | The two settle orders give the same outcome unless both branches reject. They leave `fileId` alike unless only the summary rejects. |
| `Progress.CheckpointPrefixIsOrdered` | src/services/summary/outputSummary.ts:70-95 | Any prefix of the checkpoints is strictly increasing, within [0, 100] and all `processing`. |
| `Text.ContainsIffOccurs` | src/services/summary/outputSummary.ts:64 | `includes` holds if and only if the substring occurs at some position. |
| `Text.OccurrenceShowsContains` | src/services/summary/internal/providers/media/youtube/youtubeDownloader.ts:70 | A substring found at some position makes `includes` true. |
| `Server.IpOrUnknown` | src/server/server.ts:90 | The recorded ip is never empty. A present, non-empty `req.ip` is kept; a missing or empty one becomes `unknown`. |
| `Server.Admit` | src/server/server.ts:74-98 | Busy if and only if two requests hold slots. A busy request gets 503 with the busy message and the state is unchanged. An admitted request is recorded under its id with its time and ip, the other entries stay, and the capacity is kept. |
| `Server.Finish` | src/server/server.ts:93-95 | Finishing removes that request's entry and only it, so the map never grows. |
| `Server.Step` | src/server/server.ts:74-165 | Only an arrival can add a slot, and only under its own id. A finish removes its id. No event takes the map past two slots. |
| `Server.RunEvents` | src/server/server.ts:88-95 | After any sequence of events, every slot was held at the start or belongs to a request that arrived during the sequence. |
| `Server.GetServerStatus` | src/server/server.ts:61-69 | `running` exactly when an instance exists, and `activeRequests` is the map size. |
| `Server.StartServer` | src/server/server.ts:119-128 | A no-op while running; otherwise it records the new instance and leaves the map alone. |
| `Server.StopServer` | src/server/server.ts:147-165 | Resolves unchanged when stopped, rejects unchanged when closing fails, and otherwise nulls the instance and clears the map. |
| `Server.RouteOf` | src/server/server.ts:110-114 | A path reaches a route only when it matches that route's mount the way Express matches by default: ignoring ASCII letter case and one trailing slash. A path that matches no mount reaches no route. |
| `Server.Dispatch` | src/server/server.ts:110-114 | Ungated routes pass straight to their handler with the state unchanged. A request is refused if and only if its route is gated and two requests hold slots, and a refusal changes nothing. An admitted request is recorded under its id with its time and ip. |
| `ServerProperties.CapacityNeverExceeded` | src/server/server.ts:81-95 | Over any sequence of events, at most two requests hold slots. |
| `ServerProperties.ReachableWithinCapacity` | src/server/server.ts:56 | Every state reached from the initial empty map holds at most two slots. |
| `ServerProperties.StatusWithinCapacity` | src/server/server.ts:61-69 | The status of every reachable state reports at most two active requests. |
| `ServerProperties.UnfinishedRequestKeepsSlot` | src/server/server.ts:93-95 | A request whose response never finishes keeps its slot until a successful stop. |
| `ServerProperties.AdmissionAddsOneSlot` | src/server/server.ts:79-97 | Admitting a gated request under a fresh id adds exactly that one key. |
| `ServerProperties.AtCapacity` | src/server/server.ts:81-86 | At capacity each gated route gets 503 with the state unchanged. `/api/info` and `/api/test-sse` still pass to their handlers. |
| `ServerProperties.RoutesRoundTrip` | src/server/server.ts:101-114 | Each route is found at its own path. Exactly the summary, summary-sse and transcript routes are gated. |
| `ServerProperties.ExampleEndpointIsGated` | src/server/server.ts:127 | Every path that folds to `/api/summary` or `/api/summary/`, the logged example endpoint among them, reaches the summary route, which is gated. |
| `ServerProperties.SummarySpellings` | src/server/server.ts:127 | The logged `/api/summary/` and `/API/Summary` both reach the summary route. |
| `ServerProperties.FinishIsIdempotent` | src/server/server.ts:93-95 | Finishing a request twice is the same as finishing it once. |
| `ServerProperties.StartStopCycle` | src/server/server.ts:119-165 | Starting and then stopping cleanly returns to the initial state. A second stop changes nothing, and the status then reports stopped with no active requests. |
| `ServerProperties.StartIsIdempotent` | src/server/server.ts:119-123 | Starting twice keeps the first instance. |
| `YouTubeDownloader.Basename` | src/services/summary/internal/providers/media/youtube/youtubeDownloader.ts:29 | The basename holds no slash and is no longer than the path. |
| `YouTubeDownloader.TrimTrailingSlashes` | src/services/summary/internal/providers/media/youtube/youtubeDownloader.ts:29 | The result is a prefix that does not end in a slash, and only slashes were removed. |
| `YouTubeDownloader.LastSegment` | src/services/summary/internal/providers/media/youtube/youtubeDownloader.ts:29 | The result is a slash-free suffix that is the whole string or starts right after a slash. |
| `YouTubeDownloader.ClassifyDownloadError` | src/services/summary/internal/providers/media/youtube/youtubeDownloader.ts:62-75 | Every download error has code `DOWNLOAD_FAILED`. The message is the authentication message if and only if the error text mentions "Sign in", "cookie" or "Private video". |
| `YouTubeDownloader.GenericMessageIsNotAuth` | src/services/summary/internal/providers/media/youtube/youtubeDownloader.ts:70-74 | A "Failed to download video: " message never equals the authentication message. |
| `YouTubeDownloader.DownloadVideo` | src/services/summary/internal/providers/media/youtube/youtubeDownloader.ts:28-76 | The download succeeds if and only if the cookie step, the ffmpeg lookup and yt-dlp succeed and `<AUDIOS>/<fileId>.mp3` exists afterwards. It then returns the file id. Every failure is `DOWNLOAD_FAILED`, and no file disappears. A failing cookie step, ffmpeg lookup or yt-dlp run is classified by its own error, checked in that order; a missing `.mp3` is classified by the `ENOENT` error of `fs.access` for its path. |
| `YouTubeDownloader.DeleteVideo` | src/services/summary/internal/providers/media/youtube/youtubeDownloader.ts:81-92 | The delete succeeds if and only if the `.mp3` exists. Afterwards it no longer exists, and failure is `DELETION_FAILED` "Failed to delete file". |
| `YouTubeDownloader.Sanitize` | src/services/summary/internal/providers/media/youtube/youtubeDownloader.ts:29 | Sanitising keeps the length. Position by position, an ASCII letter or digit is kept and anything else becomes `_`. |
| `YouTubeDownloader.FileId` | src/services/summary/internal/providers/media/youtube/youtubeDownloader.ts:29 | The file id is as long as the URL's basename. It is made of `[A-Za-z0-9_]`, with the basename's alphanumerics in place. |
| `YouTubeDownloaderProperties.SanitizeFixpointIff` | src/services/summary/internal/providers/media/youtube/youtubeDownloader.ts:29 | Sanitising leaves a string unchanged if and only if it is made of `[A-Za-z0-9_]`. |
| `YouTubeDownloaderProperties.SanitizeIdempotent` | src/services/summary/internal/providers/media/youtube/youtubeDownloader.ts:29 | Sanitising a file id again returns it unchanged. |
| `YouTubeDownloaderProperties.WatchUrlBasename` | src/services/summary/internal/providers/media/youtube/youtubeDownloader.ts:29 | For every video id without a slash, the basename of `https://www.youtube.com/watch?v=<id>` is `watch?v=<id>`, query string included. |
| `YouTubeDownloaderProperties.WatchUrlFileId` | src/services/summary/internal/providers/media/youtube/youtubeDownloader.ts:29 | The file id of such a watch URL is `watch_v_` followed by as many characters as the id has. |
| `YouTubeDownloaderProperties.LastSegmentAfterSlash` | src/services/summary/internal/providers/media/youtube/youtubeDownloader.ts:29 | The segment after a final slash is the whole slash-free tail. |
| `YouTubeDownloaderProperties.ClassificationIsFaithful` | src/services/summary/internal/providers/media/youtube/youtubeDownloader.ts:63-74 | An authentication error gets the fixed message. Any other error gets "Failed to download video: " followed by its own message. |
| `YouTubeDownloaderProperties.ClassificationInjective` | src/services/summary/internal/providers/media/youtube/youtubeDownloader.ts:74 | Two non-authentication errors classify alike only when their messages agree. |
| `YouTubeDownloaderProperties.CookieMessageNeedsAuth` | src/services/summary/internal/providers/media/youtube/youtubeDownloader.ts:70-71 | Any error message mentioning "cookie" is reported as the authentication problem. |
| `YouTubeDownloaderProperties.MissingPathMentioningCookie` | src/services/summary/internal/providers/media/youtube/youtubeDownloader.ts:58-71 | The `ENOENT` error for a path that mentions "cookie" is reported as the authentication problem. |
| `YouTubeDownloaderProperties.MissingFileUnderCookieDirReadsAsAuth` | src/services/summary/internal/providers/media/youtube/youtubeDownloader.ts:55-71 | With an audio directory whose path mentions "cookie", a download that writes no `.mp3` fails with the authentication message. |
| `Base.Thrown.Render` | src/services/summary/outputSummary.ts:111 | `String(error)` of an `Error` ends with its message and, when the name is non-empty, starts with its name. Any other value renders as its own text. |
| `Base.Thrown.MessageOr` | src/services/summary/internal/providers/media/youtube/youtubeDownloader.ts:63 | An `Error` gives its message; any other value gives the fallback, here `String(error)`. |
| `YouTubeDownloaderProperties.SecondDeleteFails` | src/services/summary/internal/providers/media/youtube/youtubeDownloader.ts:81-92 | After a successful download the first delete succeeds. A second delete of the same id fails with `DELETION_FAILED` and changes nothing. |
| `ServerSentEventsProperties.FrameDispatchesPayload` | src/server/routes/api/summary/upload/routes.ts:81 | One `data: <payload>\n\n` frame read between events dispatches exactly its payload. |
| `ServerSentEventsProperties.StreamDispatchesPayloads` | src/server/routes/api/summary/upload/routes.ts:78-83 | Frames written one after another are dispatched as the same payloads, in order. |
| `ServerSentEventsProperties.DecodeStream` | src/server/routes/api/summary/upload/routes.ts:100-104 | Decoding a stream of frames returns the payloads written, for payloads without line breaks. |
| `UploadRoutes.MaxWords` | src/server/routes/api/summary/upload/routes.ts:30 | The word budget is always truthy. It is either the requested number or 400. |
| `UploadRoutes.GenerateSummary` | src/server/routes/api/summary/upload/routes.ts:9-55 | With no file it replies 400 "No file provided" and makes no service call; with a file it makes the call, with a truthy word budget. Success replies 200 `{ data: content }`, and a failure is handed to `handleError`. |
| `UploadRoutes.StreamSummary` | src/server/routes/api/summary/upload/routes.ts:60-117 | With no file it replies 400 and makes no service call. Otherwise the event stream carries the SSE headers and at least one frame. |
| `UploadRoutes.GetTranscript` | src/server/routes/api/summary/upload/routes.ts:122-149 | With no file it replies 400 and makes no service call. Otherwise the call has exactly `{ returnTranscriptOnly: true }`. Success replies 200 `{ data: content }`, and a failure is handed to `handleError`. |
| `UploadRoutes.Forwarded` | src/server/routes/api/summary/upload/routes.ts:78-83 | No forwarded update is `done`. An update is forwarded if and only if it was reported and is not `done`. |
| `UploadRoutesProperties.ForwardedConcat` | src/server/routes/api/summary/upload/routes.ts:78-83 | Forwarding the updates of two stretches is forwarding each in turn. |
| `UploadRoutesProperties.ForwardedKeepsProcessing` | src/server/routes/api/summary/upload/routes.ts:78-83 | Updates without `done` are forwarded whole and in order. |
| `UploadRoutesProperties.StreamOnSuccess` | src/server/routes/api/summary/upload/routes.ts:99-105 | On success the frames are the forwarded updates followed by exactly one `done` frame with the summary at 100, and the response is ended. |
| `UploadRoutesProperties.StreamOnFailure` | src/server/routes/api/summary/upload/routes.ts:106-116 | On failure an `error` frame at 0 is written, and the response ended, if and only if nothing was written before. Otherwise the stream stops after the forwarded updates and stays open. |
| `UploadRoutesProperties.PipelineTraceStreamsInOrder` | src/server/routes/api/summary/upload/routes.ts:78-105 | A trace of processing updates is streamed as is, ahead of the final `done` frame. |
| `UploadRoutesProperties.SummaryHandlersAgreeOnOptions` | src/server/routes/api/summary/upload/routes.ts:20-32 | Both summary handlers send the uploaded buffer, name and size. Both send the `MaxWords` budget, the prompt unchanged and no transcript-only flag. |
| `UploadRoutesProperties.JsonHandlersReplyAlike` | src/server/routes/api/summary/upload/routes.ts:43-53 | `generateSummary` and `getTranscript` reply alike to the same service run, and send the same uploaded source. |
| `UploadRoutesProperties.MaxWordsKeepsTruthy` | src/server/routes/api/summary/upload/routes.ts:30 | The requested budget is kept if and only if it is truthy; `NaN` and 0 become 400. |
| `UploadRoutesProperties.ClientReceivesFrames` | src/server/routes/api/summary/upload/routes.ts:81 | A client decodes from the event stream exactly the serialised frames, in order, given a serialiser that writes no line breaks. |

## Left out

- I/O is not modelled. `fs.promises.mkdir`, `rm`, `access` and `unlink`, yt-dlp, the cookie handler, the ffmpeg lookup (`getFfmpegPath`, which can only throw or not here) and the OpenAI calls are input outcomes or sets of existing paths.
- Identifiers and time are parameters. `uuidv4()`, `Date.now()`, `process.uptime()` and the configured port and URL are passed in.
- `path.join` is written as `a + "/" + b`. Path normalisation of `.`, `..` and repeated slashes is not modelled.
- Strings are sequences of Dafny `char`, which are Unicode scalar values. JavaScript strings are UTF-16 code units, so the two agree only on text in the Basic Multilingual Plane.
- YouTubeDownloader.FileId: a character outside the Basic Multilingual Plane becomes one `_` here. The source's regular expression has no `u` flag, so it sees two code units and writes two `_`. `FileId`, `AudioPath` and the lengths that `FileId` states differ from the source for such URLs.
- Server.RouteOf: follows Express 4's default matching: case-insensitive, with one optional trailing slash. Query strings are not part of the path. Percent-decoding and Express's other routing options are not modelled.
- `JSON.stringify` is a parameter of `UploadRoutes.Body`. Payloads are opaque strings, assumed to contain no line break.
- `Number(req.query.words)` is not computed; the resulting JavaScript number is the input.
- The `words` option of `outputSummary` is an `int`. Fractional numbers are not modelled.
- The `updateProgress` callback is assumed not to throw.
- Logging is not modelled: `console.*`, `logRequest`, `logProcessStep`.
- `process.on` handlers, `handleUncaughtErrors` and `handleError` are left out. A failure passed to `handleError` is recorded as `Delegated`, and what that handler writes is not part of this model.
- Rate limiting (`express-rate-limit`) is configuration only, so it is left out.
- Errors raised by `app.listen` are left out.
- The monitor and status CLI commands, `getVideoInfo`, the routing tables and the OpenAI mock are left out.
- The `videoTools.js` module that `outputSummary` imports its downloader from is not part of this model. Its `downloadVideo` and `deleteVideo` are the outcomes `env.download`, `env.deleteMedia` and `env.deleteAgain`.
- YouTubeDownloader.DeleteVideo: the `MediaError` it throws carries the `fs.unlink` error as its `cause` (youtubeDownloader.ts:89). `MediaError` here has no `cause`, so the contract states only the message and the code.
- The non-`Error` branch of `deleteVideo` is left out. `fs.unlink` rejects only with `Error` objects.
- Only a missing file is modelled as an unlink failure. Other failures, such as permissions, are not.
- The concurrency of `Promise.all` is not modelled. Only which branch settles first matters to the code, and both orders are modelled.
- The SSE client parser handles only the `data` field. `event`, `id` and `retry` lines leave the data buffer alone, as the standard prescribes for them, and their other effects are not modelled.
