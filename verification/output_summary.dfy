/** `outputSummary`: one job run through download, transcript and summary inside a
    per-job temporary directory.  Every awaited collaborator (mkdir, the
    downloader, the two model calls, file deletion, rm) is an input outcome, so
    a run is a pure function from those outcomes to what the job did. */
module OutputSummary {
  import opened Base
  import Text
  import opened Progress

  const DefaultWords := 400
  const DefaultTempRoot := "./tmp"
  const InvalidUrlMessage := "Invalid YouTube URL"
  const ProcessingErrorPrefix := "Something went wrong during video processing: "

  /** The `url` option: a string, or a value whose `typeof` is not `'string'`. */
  datatype UrlArg = StringUrl(text: string) | NotAString

  /** The caller's options; `None` is an omitted option. */
  datatype Options = Options(
    url: UrlArg,
    words: Option<int>,
    additionalPrompt: Option<string>,
    returnTranscriptOnly: Option<bool>)

  /** Which branch of `Promise.all([deleteVideo(..), generateSummary(..)])`
      settles first. */
  datatype SettleOrder = DeleteSettlesFirst | SummarySettlesFirst

  /** Everything the job's collaborators decide. */
  datatype Env = Env(
    sessionId: string,            // uuidv4()
    tempRoot: Option<string>,     // process.env.TEMP_DIR
    mkdir: Outcome<()>,
    download: Outcome<string>,    // the fileId downloadVideo resolves with
    transcribe: Outcome<string>,
    deleteMedia: Outcome<()>,     // the delete that follows the transcript
    summarize: Outcome<string>,
    order: SettleOrder,
    deleteAgain: Outcome<()>,     // the delete issued by the inner `finally`
    rm: Outcome<()>)

  /** An invocation of a collaborator, with the arguments it received. */
  datatype Call =
    | MakeDir(dir: string)
    | Download(url: string)
    | Transcribe(fileId: string)
    | DeleteVideo(fileId: string)
    | Summarize(transcript: string, words: int, prompt: string)
    | RemoveDir(dir: string)

  /** A cleanup action together with how it settled. */
  datatype CleanupStep =
    | MediaDeletion(fileId: string, outcome: Outcome<()>)
    | TempDirRemoval(dir: string, outcome: Outcome<()>)

  /** What the returned promise rejects with. */
  datatype JobError =
    | BadRequestError(message: string)
    | InternalServerError(message: string)
    | Propagated(thrown: Thrown)          // thrown by mkdir or by a `finally` block

  /** All that one job does, as seen from outside. */
  datatype Trace = Trace(
    progress: seq<ProgressUpdate>,
    calls: seq<Call>,
    cleanup: seq<CleanupStep>,
    result: Result<string, JobError>)

  /** `process.env.TEMP_DIR || './tmp'`: an unset or empty variable falls back. */
  function TempRoot(env: Env): (root: string)
    ensures root != ""
    ensures env.tempRoot.Some? && env.tempRoot.value != "" ==> root == env.tempRoot.value
    ensures env.tempRoot == None || env.tempRoot == Some("") ==> root == DefaultTempRoot
  {
    match env.tempRoot
    case Some(r) => if r != "" then r else DefaultTempRoot
    case None => DefaultTempRoot
  }

  /** `path.join(root, sessionId)`; path normalisation is not modelled. */
  function TempDir(env: Env): string {
    TempRoot(env) + "/" + env.sessionId
  }

  /** `typeof url === 'string' && url.includes('?v=')`: a string in which `?v=`
      occurs somewhere. */
  function ValidUrl(url: UrlArg): (b: bool)
    ensures b <==> url.StringUrl? && exists i :: Text.OccursAt(url.text, "?v=", i)
  {
    if url.StringUrl? then
      Text.ContainsIffOccurs(url.text, "?v=");
      Text.Contains(url.text, "?v=")
    else false
  }

  /** `if (fileId)`: of the values `fileId` can hold, only `undefined` and the
      empty string are falsy. */
  function Truthy(fileId: Option<string>): (b: bool)
    ensures b <==> fileId != None && fileId != Some("")
  {
    fileId.Some? && fileId.value != ""
  }

  /** A stretch of the trace: progress updates, calls and cleanup steps. */
  datatype Acc = Acc(progress: seq<ProgressUpdate>, calls: seq<Call>, cleanup: seq<CleanupStep>) {
    function Emit(u: ProgressUpdate): Acc {
      this.(progress := progress + [u])
    }
    function Invoke(c: Call): Acc {
      this.(calls := calls + [c])
    }
    function Clean(step: CleanupStep): Acc {
      this.(cleanup := cleanup + [step])
    }
    /** This stretch followed by `next`. */
    function Then(next: Acc): Acc {
      Acc(progress + next.progress, calls + next.calls, cleanup + next.cleanup)
    }
  }

  const Nothing := Acc([], [], [])

  /** No call in `cs` creates or removes the temporary directory. */
  ghost predicate NoDirCalls(cs: seq<Call>) {
    forall i :: 0 <= i < |cs| ==> !cs[i].MakeDir? && !cs[i].RemoveDir?
  }

  /** Every step in `steps` deletes the media file. */
  ghost predicate OnlyMediaDeletions(steps: seq<CleanupStep>) {
    forall i :: 0 <= i < |steps| ==> steps[i].MediaDeletion?
  }

  /** No call in `cs` asks for a summary. */
  ghost predicate NoSummaryCall(cs: seq<Call>) {
    forall i :: 0 <= i < |cs| ==> !cs[i].Summarize?
  }

  /** Every call in `cs` that asks for a summary is `c`. */
  ghost predicate SummaryCallsAre(cs: seq<Call>, c: Call) {
    forall i :: 0 <= i < |cs| && cs[i].Summarize? ==> cs[i] == c
  }

  /** Joining two stretches of calls keeps what holds of both. */
  lemma JoinKeepsCalls(x: seq<Call>, y: seq<Call>)
    ensures NoDirCalls(x) && NoDirCalls(y) ==> NoDirCalls(x + y)
    ensures NoSummaryCall(x) && NoSummaryCall(y) ==> NoSummaryCall(x + y)
    ensures forall c :: SummaryCallsAre(x, c) && NoSummaryCall(y) ==> SummaryCallsAre(x + y, c)
  {
  }

  lemma JoinKeepsCleanup(x: seq<CleanupStep>, y: seq<CleanupStep>)
    ensures OnlyMediaDeletions(x) && OnlyMediaDeletions(y) ==> OnlyMediaDeletions(x + y)
  {
  }

  /** The inner block is reached: the directory exists and the URL is valid. */
  predicate Reached(opts: Options, env: Env) {
    env.mkdir.Ok? && ValidUrl(opts.url)
  }

  predicate TranscriptOnly(opts: Options) {
    opts.returnTranscriptOnly.GetOr(false)
  }

  /** The path on which the summary model is asked for a summary. */
  predicate OnSummaryPath(opts: Options, env: Env) {
    Reached(opts, env) && env.download.Ok? && env.transcribe.Ok? && !TranscriptOnly(opts)
  }

  /** The one summary request a run may make. */
  function SummaryRequest(opts: Options, env: Env): Call
    requires env.transcribe.Ok?
  {
    Summarize(env.transcribe.value, opts.words.GetOr(DefaultWords), opts.additionalPrompt.GetOr(""))
  }

  /** How `Promise.all` settles for the delete/summary pair: it rejects with the
      first rejection to settle and resolves once both resolve.  The first
      component is `fileId` at that moment: the delete's `.then` resets it only
      when the delete has resolved by then. */
  function SettlePair(order: SettleOrder, del: Outcome<()>, sum: Outcome<string>, fileId: string)
    : (r: (Option<string>, Outcome<string>))
    ensures r.1.Ok? <==> del.Ok? && sum.Ok?
    ensures r.1.Ok? ==> r.1 == sum && r.0 == None
    ensures r.1.Err? ==> (del.Err? && r.1.error == del.error) || (sum.Err? && r.1.error == sum.error)
    ensures r.0 == None || r.0 == Some(fileId)
    ensures order == DeleteSettlesFirst && del.Err? ==> r == (Some(fileId), Err(del.error))
    ensures order == SummarySettlesFirst && sum.Err? ==> r == (Some(fileId), Err(sum.error))
  {
    match order
    case DeleteSettlesFirst =>
      (match del
       case Err(e) => (Some(fileId), Err(e))
       case Ok(_) =>
         (None, match sum
                case Ok(s) => Ok(s)
                case Err(e) => Err(e)))
    case SummarySettlesFirst =>
      (match sum
       case Err(e) => (Some(fileId), Err(e))
       case Ok(s) =>
         (match del
          case Err(e) => (Some(fileId), Err(e))
          case Ok(_) => (None, Ok(s))))
  }

  /** The inner `try` block, from the first progress update to the first
      rejection or the `return`.  Yields what the block did, `fileId` as the
      block leaves it, and how it left. */
  function InnerTry(url: string, words: int, prompt: string, transcriptOnly: bool, env: Env)
    : (r: (Acc, Option<string>, Outcome<string>))
    ensures NoDirCalls(r.0.calls) && OnlyMediaDeletions(r.0.cleanup)
    ensures r.0.progress <= Checkpoints
    ensures !(env.download.Ok? && env.transcribe.Ok? && !transcriptOnly) ==> NoSummaryCall(r.0.calls)
    ensures env.transcribe.Ok? ==> SummaryCallsAre(r.0.calls, Summarize(env.transcribe.value, words, prompt))
  {
    var a1 := Nothing.Emit(Downloading).Invoke(Download(url));
    match env.download
    case Err(e) => (a1, None, Err(e))
    case Ok(fid) =>
      var a2 := a1.Emit(Transcribing).Invoke(Transcribe(fid));
      match env.transcribe
      case Err(e) => (a2, Some(fid), Err(e))
      case Ok(transcript) =>
        if transcriptOnly then
          var a3 := a2.Invoke(DeleteVideo(fid)).Clean(MediaDeletion(fid, env.deleteMedia));
          match env.deleteMedia
          case Err(e) => (a3, Some(fid), Err(e))
          case Ok(_) => (a3, None, Ok(transcript))
        else
          var a3 := a2.Emit(Summarizing)
                      .Invoke(DeleteVideo(fid)).Clean(MediaDeletion(fid, env.deleteMedia))
                      .Invoke(Summarize(transcript, words, prompt));
          var settled := SettlePair(env.order, env.deleteMedia, env.summarize, fid);
          (a3, settled.0, settled.1)
  }

  /** The inner `catch` and `finally`: a rejection becomes an
      `InternalServerError`, then a file still referenced by `fileId` is deleted;
      a rejection of that delete replaces the outcome. */
  function InnerFinish(fileId: Option<string>, inner: Outcome<string>, env: Env)
    : (r: (Acc, Result<string, JobError>))
    ensures r.0.progress == [] && NoDirCalls(r.0.calls) && OnlyMediaDeletions(r.0.cleanup)
    ensures NoSummaryCall(r.0.calls)
    ensures inner.Err? && (!Truthy(fileId) || env.deleteAgain.Ok?) ==>
      r.1 == Err(InternalServerError(ProcessingErrorPrefix + inner.error.Render()))
    ensures inner.Ok? && (!Truthy(fileId) || env.deleteAgain.Ok?) ==> r.1 == Ok(inner.value)
    ensures Truthy(fileId) && env.deleteAgain.Err? ==> r.1 == Err(Propagated(env.deleteAgain.error))
  {
    var caught: Result<string, JobError> :=
      match inner
      case Ok(v) => Ok(v)
      case Err(e) => Err(InternalServerError(ProcessingErrorPrefix + e.Render()));
    if Truthy(fileId) then
      var a1 := Nothing.Invoke(DeleteVideo(fileId.value)).Clean(MediaDeletion(fileId.value, env.deleteAgain));
      match env.deleteAgain
      case Err(e) => (a1, Err(Propagated(e)))
      case Ok(_) => (a1, caught)
    else
      (Nothing, caught)
  }

  /** The outer `try`: create the directory, check the URL, run the inner block. */
  function OuterTry(opts: Options, env: Env): (r: (Acc, Result<string, JobError>))
    ensures |r.0.calls| >= 1 && r.0.calls[0] == MakeDir(TempDir(env))
    ensures NoDirCalls(r.0.calls[1..])
    ensures OnlyMediaDeletions(r.0.cleanup)
    ensures r.0.progress <= Checkpoints
    ensures !OnSummaryPath(opts, env) ==> NoSummaryCall(r.0.calls)
    ensures env.transcribe.Ok? ==> SummaryCallsAre(r.0.calls, SummaryRequest(opts, env))
  {
    var start := Nothing.Invoke(MakeDir(TempDir(env)));
    match env.mkdir
    case Err(e) => (start, Err(Propagated(e)))
    case Ok(_) =>
      if !ValidUrl(opts.url) then
        (start, Err(BadRequestError(InvalidUrlMessage)))
      else
        var inner := InnerTry(opts.url.text, opts.words.GetOr(DefaultWords),
                              opts.additionalPrompt.GetOr(""),
                              opts.returnTranscriptOnly.GetOr(false), env);
        var finish := InnerFinish(inner.1, inner.2, env);
        var work := inner.0.Then(finish.0);
        JoinKeepsCalls(inner.0.calls, finish.0.calls);
        JoinKeepsCleanup(inner.0.cleanup, finish.0.cleanup);
        assert (start.calls + work.calls)[1..] == work.calls;
        (start.Then(work), finish.1)
  }

  /** One call of `outputSummary`, including the outer `finally` that removes the
      temporary directory; a rejection of that removal replaces the outcome.

      Whatever the collaborators do: the directory is created first and removed
      last, each exactly once; the progress trace is a prefix of the three
      checkpoints; the downloader is reached only through a valid URL. */
  function Run(opts: Options, env: Env): (t: Trace)
    ensures |t.calls| >= 2
    ensures t.calls[0] == MakeDir(TempDir(env))
    ensures t.calls[|t.calls| - 1] == RemoveDir(TempDir(env))
    ensures forall i :: 0 < i < |t.calls| - 1 ==> !t.calls[i].MakeDir? && !t.calls[i].RemoveDir?
    ensures |t.cleanup| >= 1 && t.cleanup[|t.cleanup| - 1] == TempDirRemoval(TempDir(env), env.rm)
    ensures forall i :: 0 <= i < |t.cleanup| - 1 ==> t.cleanup[i].MediaDeletion?
    ensures t.progress <= Checkpoints
    ensures !OnSummaryPath(opts, env) ==> forall i :: 0 <= i < |t.calls| ==> !t.calls[i].Summarize?
    ensures env.transcribe.Ok? ==>
      forall i :: 0 <= i < |t.calls| && t.calls[i].Summarize? ==> t.calls[i] == SummaryRequest(opts, env)
    ensures t.result.Ok? ==> env.rm.Ok?
    ensures env.rm.Err? ==> t.result == Err(Propagated(env.rm.error))
  {
    var outer := OuterTry(opts, env);
    var a := outer.0.Invoke(RemoveDir(TempDir(env))).Clean(TempDirRemoval(TempDir(env), env.rm));
    var result := match env.rm
      case Err(e) => Err(Propagated(e))
      case Ok(_) => outer.1;
    Trace(a.progress, a.calls, a.cleanup, result)
  }
}

/** What a run of `outputSummary` guarantees, path by path. */
module OutputSummaryProperties {
  import opened Base
  import opened Progress
  import opened OutputSummary


  /** The rejection of an outcome, if it is one. */
  function Rejection<T>(o: Outcome<T>): Option<Thrown> {
    if o.Err? then Some(o.error) else None
  }

  /** The stages of the inner block that are started, in the order they
      settle: each stage starts only once the previous one resolved, and the
      delete and the summary both start and settle in `env.order`. */
  function SettleSequence(opts: Options, env: Env): seq<Option<Thrown>> {
    [Rejection(env.download)]
    + if env.download.Err? then []
      else
        [Rejection(env.transcribe)]
        + if env.transcribe.Err? then []
          else if TranscriptOnly(opts) then [Rejection(env.deleteMedia)]
          else if env.order == DeleteSettlesFirst then [Rejection(env.deleteMedia), Rejection(env.summarize)]
          else [Rejection(env.summarize), Rejection(env.deleteMedia)]
  }

  /** The first rejection in a sequence of settled stages. */
  function FirstRejection(s: seq<Option<Thrown>>): (r: Option<Thrown>)
    ensures r.Some? <==> exists i :: 0 <= i < |s| && s[i].Some?
    ensures r.Some? ==> exists i :: 0 <= i < |s| && s[i] == r && forall j :: 0 <= j < i ==> s[j].None?
    decreases |s|
  {
    if s == [] then None
    else if s[0].Some? then s[0]
    else
      var r := FirstRejection(s[1..]);
      assert forall i :: 0 < i < |s| ==> s[i] == s[1..][i - 1];
      r
  }

  /** A URL that is not a string or lacks `?v=` is refused with a
      `BadRequestError` that is not wrapped: no progress, no download, only the
      directory created and removed. */
  lemma InvalidUrlIsRefused(opts: Options, env: Env)
    requires env.mkdir.Ok? && !ValidUrl(opts.url)
    ensures var t := Run(opts, env);
      && t.progress == []
      && t.calls == [MakeDir(TempDir(env)), RemoveDir(TempDir(env))]
      && t.cleanup == [TempDirRemoval(TempDir(env), env.rm)]
      && (env.rm.Ok? ==> t.result == Err(BadRequestError(InvalidUrlMessage)))
  {
  }

  /** When the directory cannot be created nothing else runs, yet the removal
      is still attempted. */
  lemma MkdirFailureStopsEverything(opts: Options, env: Env)
    requires env.mkdir.Err?
    ensures var t := Run(opts, env);
      && t.progress == []
      && t.calls == [MakeDir(TempDir(env)), RemoveDir(TempDir(env))]
      && t.result == Err(Propagated(if env.rm.Err? then env.rm.error else env.mkdir.error))
  {
  }

  /** The progress trace is exactly the checkpoints of the stages that were
      started: strictly increasing, never `done`, and all three only on the
      summary path. */
  lemma ProgressFollowsStages(opts: Options, env: Env)
    ensures var t := Run(opts, env);
      && StrictlyIncreasing(t.progress)
      && NoneDone(t.progress)
      && (|t.progress| == 0 <==> !Reached(opts, env))
      && (|t.progress| == 1 <==> Reached(opts, env) && env.download.Err?)
      && (|t.progress| == 3 <==> Reached(opts, env) && env.download.Ok? && env.transcribe.Ok? && !TranscriptOnly(opts))
      && (|t.progress| == 3 ==> t.progress == Checkpoints)
  {
    var t := Run(opts, env);
    CheckpointPrefixIsOrdered(t.progress);
  }

  /** The calls when the transcript fails: the `finally` block deletes the file
      unless `fileId` is empty. */
  lemma CallsWhenTranscriptFails(opts: Options, env: Env)
    requires Reached(opts, env) && env.download.Ok? && env.transcribe.Err?
    ensures var fid := env.download.value;
      Run(opts, env).calls ==
        [MakeDir(TempDir(env)), Download(opts.url.text), Transcribe(fid)]
        + (if fid != "" then [DeleteVideo(fid)] else [])
        + [RemoveDir(TempDir(env))]
  {
  }

  /** The calls on the transcript-only path: one delete, and a second one from
      the `finally` block when the first rejects. */
  lemma CallsOnTranscriptOnlyPath(opts: Options, env: Env)
    requires Reached(opts, env) && env.download.Ok? && env.transcribe.Ok? && TranscriptOnly(opts)
    ensures var fid := env.download.value;
      Run(opts, env).calls ==
        [MakeDir(TempDir(env)), Download(opts.url.text), Transcribe(fid), DeleteVideo(fid)]
        + (if env.deleteMedia.Err? && fid != "" then [DeleteVideo(fid)] else [])
        + [RemoveDir(TempDir(env))]
  {
  }

  /** The calls on the summary path: the delete is started before the summary,
      and the `finally` block deletes again when `fileId` was not reset. */
  lemma CallsOnSummaryPath(opts: Options, env: Env)
    requires Reached(opts, env) && env.download.Ok? && env.transcribe.Ok? && !TranscriptOnly(opts)
    ensures var fid := env.download.value;
      Run(opts, env).calls ==
        [MakeDir(TempDir(env)), Download(opts.url.text), Transcribe(fid), DeleteVideo(fid),
         Summarize(env.transcribe.value, opts.words.GetOr(DefaultWords), opts.additionalPrompt.GetOr(""))]
        + (if SettlePair(env.order, env.deleteMedia, env.summarize, fid).0.Some? && fid != ""
           then [DeleteVideo(fid)] else [])
        + [RemoveDir(TempDir(env))]
  {
  }

  /** `generateSummary` is called exactly on the summary path. */
  lemma SummaryCalledIff(opts: Options, env: Env)
    ensures var t := Run(opts, env);
      (exists i :: 0 <= i < |t.calls| && t.calls[i].Summarize?) <==> OnSummaryPath(opts, env)
  {
    if OnSummaryPath(opts, env) {
      CallsOnSummaryPath(opts, env);
      assert Run(opts, env).calls[4].Summarize?;
    }
  }

  /** The job resolves exactly when every stage it needs resolves, and then with
      the transcript or the summary. */
  lemma SuccessIff(opts: Options, env: Env)
    ensures var t := Run(opts, env);
      && (t.result.Ok? <==>
            && Reached(opts, env) && env.download.Ok? && env.transcribe.Ok?
            && env.deleteMedia.Ok? && (TranscriptOnly(opts) || env.summarize.Ok?) && env.rm.Ok?)
      && (t.result.Ok? ==>
            t.result.value == if TranscriptOnly(opts) then env.transcribe.value else env.summarize.value)
  {
  }

  /** With `returnTranscriptOnly` the summary model is never called, at most two
      checkpoints are reported, and the transcript is returned only after the
      file was deleted. */
  lemma TranscriptOnlyShortCircuit(opts: Options, env: Env)
    requires TranscriptOnly(opts)
    ensures var t := Run(opts, env);
      && (forall i :: 0 <= i < |t.calls| ==> !t.calls[i].Summarize?)
      && t.progress <= [Downloading, Transcribing]
      && (t.result.Ok? ==>
            && t.result.value == env.transcribe.value
            && env.deleteMedia.Ok?
            && t.cleanup[0] == MediaDeletion(env.download.value, env.deleteMedia))
  {
    var t := Run(opts, env);
    SummaryCalledIff(opts, env);
    ProgressFollowsStages(opts, env);
    assert t.progress <= Checkpoints && |t.progress| <= 2;
    assert Checkpoints[..2] == [Downloading, Transcribing];
    SuccessIff(opts, env);
    if t.result.Ok? {
      CompletedDeleteIsNotRepeated(opts, env);
    }
  }

  /** Every failure inside the inner block surfaces as an `InternalServerError`
      whose message is the fixed prefix followed by the error of the first
      stage to reject, unless a cleanup in a `finally` block itself fails; and
      the block fails exactly when some started stage rejects. */
  lemma StageFailuresAreWrapped(opts: Options, env: Env)
    requires Reached(opts, env) && env.deleteAgain.Ok? && env.rm.Ok?
    ensures var t := Run(opts, env);
      var first := FirstRejection(SettleSequence(opts, env));
      && (t.result.Err? <==> first.Some?)
      && (first.Some? ==> t.result == Err(InternalServerError(ProcessingErrorPrefix + first.value.Render())))
  {
    var d := Rejection(env.download);
    if env.download.Err? {
      assert SettleSequence(opts, env) == [d];
    } else {
      var rest := SettleSequence(opts, env)[1..];
      assert SettleSequence(opts, env) == [d] + rest;
      FirstRejectionSkips(d, rest);
      var tr := Rejection(env.transcribe);
      if env.transcribe.Ok? {
        var tail := rest[1..];
        assert rest == [tr] + tail;
        FirstRejectionSkips(tr, tail);
        if TranscriptOnly(opts) {
          FirstRejectionSkips(Rejection(env.deleteMedia), []);
        } else if env.order == DeleteSettlesFirst {
          FirstRejectionSkips(Rejection(env.deleteMedia), [Rejection(env.summarize)]);
          FirstRejectionSkips(Rejection(env.summarize), []);
        } else {
          FirstRejectionSkips(Rejection(env.summarize), [Rejection(env.deleteMedia)]);
          FirstRejectionSkips(Rejection(env.deleteMedia), []);
        }
      }
    }
  }

  /** The first rejection is the head's, or else the first of the rest. */
  lemma FirstRejectionSkips(x: Option<Thrown>, rest: seq<Option<Thrown>>)
    ensures FirstRejection([x] + rest) == if x.Some? then x else FirstRejection(rest)
  {
    assert ([x] + rest)[1..] == rest;
  }

  /** A failed download leaves `fileId` unset: no delete is attempted. */
  lemma DownloadFailureDeletesNothing(opts: Options, env: Env)
    requires Reached(opts, env) && env.download.Err?
    ensures var t := Run(opts, env);
      && t.calls == [MakeDir(TempDir(env)), Download(opts.url.text), RemoveDir(TempDir(env))]
      && t.cleanup == [TempDirRemoval(TempDir(env), env.rm)]
      && (env.rm.Ok? ==>
            t.result == Err(InternalServerError(ProcessingErrorPrefix + env.download.error.Render())))
  {
  }

  /** A downloaded file always gets a delete: on every path past the transcript,
      and from the `finally` block when the transcript fails (for a non-empty
      `fileId`, the only kind `if (fileId)` accepts). */
  lemma DownloadedFileIsDeleted(opts: Options, env: Env)
    requires Reached(opts, env) && env.download.Ok?
    requires env.transcribe.Ok? || env.download.value != ""
    ensures var t := Run(opts, env);
      && |t.cleanup| >= 2
      && t.cleanup[0].MediaDeletion? && t.cleanup[0].fileId == env.download.value
  {
  }

  /** Once the first delete has resolved before the block is left, `fileId` is
      reset and the `finally` block does not delete again. */
  lemma CompletedDeleteIsNotRepeated(opts: Options, env: Env)
    requires Reached(opts, env) && env.download.Ok? && env.transcribe.Ok? && env.deleteMedia.Ok?
    requires TranscriptOnly(opts) || env.order == DeleteSettlesFirst || env.summarize.Ok?
    ensures Run(opts, env).cleanup ==
      [MediaDeletion(env.download.value, env.deleteMedia), TempDirRemoval(TempDir(env), env.rm)]
  {
  }

  /** The `finally` block deletes a second time exactly when the first delete had
      not resolved when the block was left: it rejected, or the summary rejected
      first. */
  lemma SecondDeleteIff(opts: Options, env: Env)
    requires Reached(opts, env) && env.download.Ok? && env.transcribe.Ok?
    ensures var t := Run(opts, env);
      && (|t.cleanup| == 3 <==>
            && env.download.value != ""
            && (env.deleteMedia.Err? ||
                (!TranscriptOnly(opts) && env.order == SummarySettlesFirst && env.summarize.Err?)))
      && (|t.cleanup| == 3 ==> t.cleanup[1] == MediaDeletion(env.download.value, env.deleteAgain))
      && 2 <= |t.cleanup| <= 3
  {
  }

  /** When the `finally` block deletes again and that delete rejects, its
      rejection replaces whatever the block was about to return or throw: the
      stage's error is lost. */
  lemma FailedFinallyDeleteWins(opts: Options, env: Env)
    requires Reached(opts, env) && env.download.Ok? && env.download.value != ""
    requires env.deleteAgain.Err? && env.rm.Ok?
    requires || env.transcribe.Err?
             || env.deleteMedia.Err?
             || (!TranscriptOnly(opts) && env.order == SummarySettlesFirst && env.summarize.Err?)
    ensures var t := Run(opts, env);
      && t.result == Err(Propagated(env.deleteAgain.error))
      && MediaDeletion(env.download.value, env.deleteAgain) in t.cleanup
  {
  }

  /** The two settle orders of `Promise.all` differ only in which error wins when
      both branches reject, and in whether `fileId` was reset when only the
      summary rejects. */
  lemma SettleOrdersAgree(del: Outcome<()>, sum: Outcome<string>, fileId: string)
    ensures !(del.Err? && sum.Err?) ==>
      SettlePair(DeleteSettlesFirst, del, sum, fileId).1 == SettlePair(SummarySettlesFirst, del, sum, fileId).1
    ensures !(del.Ok? && sum.Err?) ==>
      SettlePair(DeleteSettlesFirst, del, sum, fileId).0 == SettlePair(SummarySettlesFirst, del, sum, fileId).0
  {
  }
}
