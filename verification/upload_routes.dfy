/** The upload route handlers: `generateSummary`, `streamSummary` and
    `getTranscript`.  The summary service is a collaborator: what it reports
    through `onProgress` and how `process` settles are inputs. */
module UploadRoutes {
  import opened Base
  import opened Progress
  import Sse = ServerSentEvents

  const DefaultMaxWords := 400
  const NoFileMessage := "No file provided"
  const UnknownErrorMessage := "Unknown error"

  /** The headers `streamSummary` sets before anything is written. */
  const SseHeaders := [
    ("Content-Type", "text/event-stream"),
    ("Cache-Control", "no-cache"),
    ("Connection", "keep-alive"),
    ("X-Accel-Buffering", "no")]

  /** A JavaScript number, as `Number(...)` may produce it. */
  datatype JsNumber = NaN | Finite(value: real) | Infinity(positive: bool)

  /** A number is falsy when it is `NaN` or zero. */
  predicate Truthy(n: JsNumber) {
    !n.NaN? && n != Finite(0.0)
  }

  /** `Number(req.query.words) || 400`. */
  function MaxWords(words: JsNumber): (r: JsNumber)
    ensures Truthy(r)
    ensures r == words || r == Finite(DefaultMaxWords as real)
  {
    if Truthy(words) then words else Finite(DefaultMaxWords as real)
  }

  /** The uploaded file multer attaches as `req.file`. */
  datatype UploadedFile = UploadedFile(buffer: seq<bv8>, originalname: string, size: nat)

  /** `{ type: 'file', data: { file, filename, size } }`. */
  datatype MediaSource = FileSource(file: seq<bv8>, filename: string, size: nat)

  /** The options object handed to `summaryService.process`; `None` is absent. */
  datatype ProcessOptions = ProcessOptions(
    maxWords: Option<JsNumber>,
    additionalPrompt: Option<string>,
    returnTranscriptOnly: Option<bool>)

  datatype ServiceCall = ServiceCall(source: MediaSource, options: ProcessOptions)

  /** A request: the upload, `Number(req.query.words)` and `req.query.prompt`. */
  datatype Request = Request(file: Option<UploadedFile>, words: JsNumber, prompt: Option<string>)

  /** What the service does: the updates it reports, then how `process` settles
      (with `summary.content` on success). */
  datatype ServiceRun = ServiceRun(progress: seq<ProgressUpdate>, outcome: Outcome<string>)

  datatype JsonBody = ErrorBody(error: string) | DataBody(data: string)

  /** What a handler leaves in the response. */
  datatype Reply =
    | Json(statusCode: int, body: JsonBody)      // res.status(..).json(..) or res.json(..)
    | Delegated(error: Thrown)                    // handed to handleError(error, res)
    | EventStream(headers: seq<(string, string)>, frames: seq<ProgressUpdate>, ended: bool)

  /** The service call a handler made, if any, and its reply. */
  datatype Handled = Handled(call: Option<ServiceCall>, reply: Reply)

  function SourceOf(f: UploadedFile): MediaSource {
    FileSource(f.buffer, f.originalname, f.size)
  }

  /** The options both summary handlers pass. */
  function SummaryOptions(req: Request): ProcessOptions {
    ProcessOptions(Some(MaxWords(req.words)), req.prompt, None)
  }

  /** The updates the `onProgress` listener writes: all but `done`, in order.
      None of them is `done`, and an update is written exactly when it was
      reported and is not `done`. */
  function Forwarded(updates: seq<ProgressUpdate>): (r: seq<ProgressUpdate>)
    ensures |r| <= |updates|
    ensures forall i :: 0 <= i < |r| ==> r[i].status != Done
    ensures forall u :: u in r <==> u in updates && u.status != Done
    decreases |updates|
  {
    if updates == [] then []
    else
      assert updates == [updates[0]] + updates[1..];
      (if updates[0].status != Done then [updates[0]] else []) + Forwarded(updates[1..])
  }

  /** `generateSummary`: a JSON reply with the summary. */
  function GenerateSummary(req: Request, service: ServiceRun): (h: Handled)
    ensures req.file.None? <==> h.reply == Json(400, ErrorBody(NoFileMessage))
    ensures req.file.None? <==> h.call.None?
    ensures h.call.Some? ==> h.call.value.options.maxWords.Some? && Truthy(h.call.value.options.maxWords.value)
    ensures req.file.Some? && service.outcome.Ok? ==> h.reply == Json(200, DataBody(service.outcome.value))
    ensures req.file.Some? && service.outcome.Err? ==> h.reply == Delegated(service.outcome.error)
  {
    match req.file
    case None => Handled(None, Json(400, ErrorBody(NoFileMessage)))
    case Some(f) =>
      var call := ServiceCall(SourceOf(f), SummaryOptions(req));
      match service.outcome
      case Ok(content) => Handled(Some(call), Json(200, DataBody(content)))
      case Err(e) => Handled(Some(call), Delegated(e))
  }

  /** `streamSummary`: the service's non-`done` updates as `data:` frames, then
      one `done` frame with the summary.  Headers go out with the first write,
      so after a failure the `error` frame is written, and the response ended,
      only when no update was forwarded. */
  function StreamSummary(req: Request, service: ServiceRun): (h: Handled)
    ensures req.file.None? <==> h.reply == Json(400, ErrorBody(NoFileMessage))
    ensures req.file.None? <==> h.call.None?
    ensures h.reply.EventStream? ==> h.reply.headers == SseHeaders && |h.reply.frames| > 0
  {
    match req.file
    case None => Handled(None, Json(400, ErrorBody(NoFileMessage)))
    case Some(f) =>
      var call := ServiceCall(SourceOf(f), SummaryOptions(req));
      var written := Forwarded(service.progress);
      match service.outcome
      case Ok(content) =>
        Handled(Some(call), EventStream(SseHeaders, written + [ProgressUpdate(Done, content, 100)], true))
      case Err(e) =>
        var headersSent := written != [];
        if !headersSent then
          Handled(Some(call), EventStream(SseHeaders, [ProgressUpdate(Error, e.MessageOr(UnknownErrorMessage), 0)], true))
        else
          Handled(Some(call), EventStream(SseHeaders, written, false))
  }

  /** `getTranscript`: asks only for the transcript. */
  function GetTranscript(req: Request, service: ServiceRun): (h: Handled)
    ensures req.file.None? <==> h.reply == Json(400, ErrorBody(NoFileMessage))
    ensures req.file.None? <==> h.call.None?
    ensures h.call.Some? ==> h.call.value.options == ProcessOptions(None, None, Some(true))
    ensures service.outcome.Ok? && req.file.Some? ==> h.reply == Json(200, DataBody(service.outcome.value))
    ensures service.outcome.Err? && req.file.Some? ==> h.reply == Delegated(service.outcome.error)
  {
    match req.file
    case None => Handled(None, Json(400, ErrorBody(NoFileMessage)))
    case Some(f) =>
      var call := ServiceCall(SourceOf(f), ProcessOptions(None, None, Some(true)));
      match service.outcome
      case Ok(content) => Handled(Some(call), Json(200, DataBody(content)))
      case Err(e) => Handled(Some(call), Delegated(e))
  }

  /** The bytes the event stream carries, with `stringify` standing for
      `JSON.stringify`. */
  function Body(stringify: ProgressUpdate -> string, frames: seq<ProgressUpdate>): string {
    Sse.Stream(seq(|frames|, i requires 0 <= i < |frames| => stringify(frames[i])))
  }
}

/** What the upload handlers guarantee. */
module UploadRoutesProperties {
  import opened Base
  import opened Progress
  import opened UploadRoutes
  import Sse = ServerSentEvents
  import SseProperties = ServerSentEventsProperties

  /** Forwarding distributes over concatenation. */
  lemma {:induction false} ForwardedConcat(a: seq<ProgressUpdate>, b: seq<ProgressUpdate>)
    ensures Forwarded(a + b) == Forwarded(a) + Forwarded(b)
    decreases |a|
  {
    if a == [] {
      assert a + b == b;
    } else {
      assert (a + b)[0] == a[0];
      assert (a + b)[1..] == a[1..] + b;
      ForwardedConcat(a[1..], b);
    }
  }

  /** A trace without `done` updates is forwarded whole, in order. */
  lemma {:induction false} ForwardedKeepsProcessing(updates: seq<ProgressUpdate>)
    requires forall i :: 0 <= i < |updates| ==> updates[i].status != Done
    ensures Forwarded(updates) == updates
    decreases |updates|
  {
    if updates != [] {
      ForwardedKeepsProcessing(updates[1..]);
      assert updates == [updates[0]] + updates[1..];
    }
  }

  /** On success the stream is the forwarded updates followed by exactly one
      `done` frame carrying the summary at 100, and the response is ended. */
  lemma StreamOnSuccess(req: Request, service: ServiceRun)
    requires req.file.Some? && service.outcome.Ok?
    ensures var r := StreamSummary(req, service).reply;
      && r.EventStream? && r.ended
      && r.frames == Forwarded(service.progress) + [ProgressUpdate(Done, service.outcome.value, 100)]
      && (forall i :: 0 <= i < |r.frames| - 1 ==> r.frames[i].status != Done)
  {
  }

  /** On failure the `error` frame at 0 is written, and the response ended,
      exactly when nothing was written before; otherwise the stream stops after
      the forwarded updates and stays open. */
  lemma StreamOnFailure(req: Request, service: ServiceRun)
    requires req.file.Some? && service.outcome.Err?
    ensures var r := StreamSummary(req, service).reply;
      var msg := service.outcome.error.MessageOr(UnknownErrorMessage);
      && r.EventStream?
      && (r.ended <==> Forwarded(service.progress) == [])
      && (Forwarded(service.progress) == [] ==> r.frames == [ProgressUpdate(Error, msg, 0)])
      && (Forwarded(service.progress) != [] ==> r.frames == Forwarded(service.progress))
      && (forall i :: 0 <= i < |r.frames| ==> r.frames[i].status != Done)
  {
  }

  /** The service's updates reach the stream in emission order: a trace of
      processing updates is written as is, ahead of the final frame. */
  lemma PipelineTraceStreamsInOrder(req: Request, service: ServiceRun)
    requires req.file.Some? && service.outcome.Ok?
    requires forall i :: 0 <= i < |service.progress| ==> service.progress[i].status != Done
    ensures StreamSummary(req, service).reply.frames ==
      service.progress + [ProgressUpdate(Done, service.outcome.value, 100)]
  {
    ForwardedKeepsProcessing(service.progress);
  }

  /** Both summary handlers pass the word budget through `MaxWords` and the
      prompt unchanged. */
  lemma SummaryHandlersAgreeOnOptions(req: Request, service: ServiceRun)
    requires req.file.Some?
    ensures GenerateSummary(req, service).call == StreamSummary(req, service).call
    ensures GenerateSummary(req, service).call ==
      Some(ServiceCall(FileSource(req.file.value.buffer, req.file.value.originalname, req.file.value.size),
                       ProcessOptions(Some(MaxWords(req.words)), req.prompt, None)))
  {
  }

  /** The two JSON handlers answer a given service run alike: the same missing
      file reply, the same `{ data }` on success, the same error handed to
      `handleError`; only the options they ask for differ. */
  lemma JsonHandlersReplyAlike(req: Request, service: ServiceRun)
    ensures GenerateSummary(req, service).reply == GetTranscript(req, service).reply
    ensures req.file.Some? ==>
      GenerateSummary(req, service).call.value.source == GetTranscript(req, service).call.value.source
  {
  }

  /** The word budget is kept exactly when it is truthy; `NaN` and 0 become 400. */
  lemma MaxWordsKeepsTruthy(words: JsNumber)
    ensures MaxWords(words) == words <==> Truthy(words)
    ensures MaxWords(NaN) == Finite(400.0) && MaxWords(Finite(0.0)) == Finite(400.0)
  {
  }

  /** What the client decodes from the stream is the payload of every frame,
      in order, given a serialiser that writes no line breaks (as
      `JSON.stringify` does not). */
  lemma ClientReceivesFrames(stringify: ProgressUpdate -> string, req: Request, service: ServiceRun)
    requires forall u :: Sse.SingleLine(stringify(u))
    requires StreamSummary(req, service).reply.EventStream?
    ensures var frames := StreamSummary(req, service).reply.frames;
      Sse.Decode(Body(stringify, frames)) ==
        seq(|frames|, i requires 0 <= i < |frames| => stringify(frames[i]))
  {
    var frames := StreamSummary(req, service).reply.frames;
    var payloads := seq(|frames|, i requires 0 <= i < |frames| => stringify(frames[i]));
    SseProperties.DecodeStream(payloads);
  }
}
