/** `YouTubeDownloader`: deriving the file id from a URL, classifying download
    errors, and deleting the downloaded audio.  The file system is the set of
    paths that exist; yt-dlp and the cookie handler are input outcomes. */
module YouTubeDownloader {
  import opened Base
  import Text

  const AuthMessage := "YouTube requires " + "authentication. Please check " + "your cookies configuration."
  const DownloadFailedPrefix := "Failed to download video: "
  const DeleteFailedMessage := "Failed to delete file"

  datatype MediaErrorCode = DownloadFailed | DeletionFailed

  /** `new MediaError(message, code)`. */
  datatype MediaError = MediaError(message: string, code: MediaErrorCode)

  /** Node's POSIX `path.basename`: the last `/`-separated segment, ignoring
      trailing slashes; `''` for a path made only of slashes. */
  function Basename(path: string): (r: string)
    ensures '/' !in r
    ensures |r| <= |path|
  {
    LastSegment(TrimTrailingSlashes(path))
  }

  /** `s` without its trailing slashes. */
  function TrimTrailingSlashes(s: string): (r: string)
    ensures r <= s
    ensures r == [] || r[|r| - 1] != '/'
    ensures forall i :: |r| <= i < |s| ==> s[i] == '/'
    decreases |s|
  {
    if |s| > 0 && s[|s| - 1] == '/' then TrimTrailingSlashes(s[..|s| - 1]) else s
  }

  /** The part of `s` after its last slash. */
  function LastSegment(s: string): (r: string)
    ensures |r| <= |s| && r == s[|s| - |r|..]
    ensures '/' !in r
    ensures |r| == |s| || s[|s| - |r| - 1] == '/'
    decreases |s|
  {
    if |s| == 0 || s[|s| - 1] == '/' then []
    else LastSegment(s[..|s| - 1]) + [s[|s| - 1]]
  }

  /** Matched by neither branch of `/[^a-z0-9]/gi`: an ASCII letter of either
      case or an ASCII digit. */
  predicate IsAlnum(c: char) {
    ('a' <= c <= 'z') || ('A' <= c <= 'Z') || ('0' <= c <= '9')
  }

  /** Characters a file id may hold. */
  predicate IsIdChar(c: char) {
    IsAlnum(c) || c == '_'
  }

  /** `s.replace(/[^a-z0-9]/gi, '_')`, one character at a time. */
  function Sanitize(s: string): (r: string)
    ensures |r| == |s|
    ensures forall i :: 0 <= i < |s| ==> r[i] == if IsAlnum(s[i]) then s[i] else '_'
    decreases |s|
  {
    if s == [] then []
    else
      var rest := Sanitize(s[1..]);
      assert forall i :: 1 <= i < |s| ==> s[1..][i - 1] == s[i];
      (if IsAlnum(s[0]) then [s[0]] else ['_']) + rest
  }

  /** The id a download is stored under: as many characters as the URL's
      basename, all of them file-id characters, the alphanumerics in place. */
  function FileId(url: string): (r: string)
    ensures |r| == |Basename(url)|
    ensures forall i :: 0 <= i < |r| ==> IsIdChar(r[i])
    ensures forall i :: 0 <= i < |r| && IsAlnum(Basename(url)[i]) ==> r[i] == Basename(url)[i]
  {
    Sanitize(Basename(url))
  }

  /** `${TempPaths.AUDIOS}/${fileId}.mp3`; path normalisation is not modelled. */
  function AudioPath(audios: string, fileId: string): string {
    audios + "/" + fileId + ".mp3"
  }

  /** The messages yt-dlp gives when YouTube wants a signed-in session. */
  predicate NeedsAuthentication(msg: string) {
    Text.Contains(msg, "Sign in") || Text.Contains(msg, "cookie") || Text.Contains(msg, "Private video")
  }

  /** The `catch` of `downloadVideo`: authentication problems get a fixed
      message, anything else keeps its own after a prefix; both are
      `DOWNLOAD_FAILED`. */
  function ClassifyDownloadError(thrown: Thrown): (e: MediaError)
    ensures e.code == DownloadFailed
    ensures e.message == AuthMessage <==> NeedsAuthentication(thrown.MessageOr(thrown.Render()))
  {
    var msg := thrown.MessageOr(thrown.Render());
    if NeedsAuthentication(msg) then MediaError(AuthMessage, DownloadFailed)
    else
      GenericMessageIsNotAuth(msg);
      MediaError(DownloadFailedPrefix + msg, DownloadFailed)
  }

  /** A prefixed message never reads as the authentication message. */
  lemma GenericMessageIsNotAuth(msg: string)
    ensures DownloadFailedPrefix + msg != AuthMessage
  {
    assert (DownloadFailedPrefix + msg)[0] == 'F';
    assert AuthMessage[0] == 'Y';
  }

  /** The error Node's `fs.access` rejects with for a missing file. */
  function MissingFileError(path: string): Thrown {
    ErrorObject("Error", "ENOENT: no such file or directory, access '" + path + "'")
  }

  /** `downloadVideo(url)` against the files `files` present beforehand:
      `cookies` is the cookie handler, `ffmpeg` the ffmpeg lookup, `exec` yt-dlp
      (resolving with the files it wrote).  Succeeds with the file id exactly
      when the `.mp3` exists afterwards. */
  function DownloadVideo(files: set<string>, audios: string, url: string,
                         cookies: Outcome<()>, ffmpeg: Outcome<()>, exec: Outcome<set<string>>)
    : (r: (set<string>, Result<string, MediaError>))
    ensures r.1.Ok? <==> cookies.Ok? && ffmpeg.Ok? && exec.Ok? && AudioPath(audios, FileId(url)) in r.0
    ensures r.1.Ok? ==> r.1.value == FileId(url)
    ensures r.1.Err? ==> r.1.error.code == DownloadFailed
    ensures cookies.Err? ==> r.1 == Err(ClassifyDownloadError(cookies.error))
    ensures cookies.Ok? && ffmpeg.Err? ==> r.1 == Err(ClassifyDownloadError(ffmpeg.error))
    ensures cookies.Ok? && ffmpeg.Ok? && exec.Err? ==> r.1 == Err(ClassifyDownloadError(exec.error))
    ensures cookies.Ok? && ffmpeg.Ok? && exec.Ok? && r.1.Err? ==>
      r.1 == Err(ClassifyDownloadError(MissingFileError(AudioPath(audios, FileId(url)))))
    ensures files <= r.0
    ensures cookies.Ok? && ffmpeg.Ok? && exec.Ok? ==> r.0 == files + exec.value
  {
    match cookies
    case Err(e) => (files, Err(ClassifyDownloadError(e)))
    case Ok(_) =>
      match ffmpeg
      case Err(e) => (files, Err(ClassifyDownloadError(e)))
      case Ok(_) =>
        match exec
        case Err(e) => (files, Err(ClassifyDownloadError(e)))
        case Ok(written) =>
          var after := files + written;
          var path := AudioPath(audios, FileId(url));
          if path in after then (after, Ok(FileId(url)))
          else (after, Err(ClassifyDownloadError(MissingFileError(path))))
  }

  /** `deleteVideo(fileId)`: unlinks the `.mp3`, failing with `DELETION_FAILED`
      when it does not exist. */
  function DeleteVideo(files: set<string>, audios: string, fileId: string)
    : (r: (set<string>, Result<(), MediaError>))
    ensures r.1.Ok? <==> AudioPath(audios, fileId) in files
    ensures r.0 == files - {AudioPath(audios, fileId)}
    ensures r.1.Err? ==> r.1.error == MediaError(DeleteFailedMessage, DeletionFailed)
  {
    var path := AudioPath(audios, fileId);
    if path in files then (files - {path}, Ok(()))
    else (files, Err(MediaError(DeleteFailedMessage, DeletionFailed)))
  }
}

/** What the downloader guarantees. */
module YouTubeDownloaderProperties {
  import opened Base
  import Text
  import opened YouTubeDownloader

  /** Every character of a sanitised string may appear in a file id. */
  /** A string is left unchanged by sanitising exactly when it already consists
      of file-id characters. */
  lemma SanitizeFixpointIff(s: string)
    ensures Sanitize(s) == s <==> forall i :: 0 <= i < |s| ==> IsIdChar(s[i])
  {
    if forall i :: 0 <= i < |s| ==> IsIdChar(s[i]) {
      assert forall i :: 0 <= i < |s| ==> Sanitize(s)[i] == s[i];
    }
  }

  /** Sanitising an id again returns it unchanged. */
  lemma SanitizeIdempotent(s: string)
    ensures Sanitize(Sanitize(s)) == Sanitize(s)
  {
    SanitizeFixpointIff(Sanitize(s));
  }

  /** For a watch URL whose video id holds no slash, the basename is
      `watch?v=<id>`, query included. */
  lemma WatchUrlBasename(id: string)
    requires '/' !in id
    ensures Basename("https://www.youtube.com/watch?v=" + id) == "watch?v=" + id
  {
    var tail := "watch?v=" + id;
    var url := "https://www.youtube.com" + "/" + tail;
    assert url == "https://www.youtube.com/watch?v=" + id;
    assert '/' !in tail by {
      assert forall i :: 0 <= i < |tail| ==> tail[i] == if i < 8 then "watch?v="[i] else id[i - 8];
    }
    assert url[|url| - 1] == tail[|tail| - 1];
    assert TrimTrailingSlashes(url) == url;
    LastSegmentAfterSlash("https://www.youtube.com", tail);
  }

  /** The id of the usual watch URL. */
  lemma WatchUrlFileId(id: string)
    requires '/' !in id
    ensures |FileId("https://www.youtube.com/watch?v=" + id)| == 8 + |id|
    ensures FileId("https://www.youtube.com/watch?v=" + id)[..8] == "watch_v_"
  {
    WatchUrlBasename(id);
  }

  /** The segment after a final slash is the whole tail. */
  lemma {:induction false} LastSegmentAfterSlash(head: string, tail: string)
    requires '/' !in tail
    ensures LastSegment(head + "/" + tail) == tail
    decreases |tail|
  {
    var s := head + "/" + tail;
    if tail != [] {
      var last := tail[|tail| - 1];
      assert s[..|s| - 1] == head + "/" + tail[..|tail| - 1];
      assert last in tail;
      LastSegmentAfterSlash(head, tail[..|tail| - 1]);
      assert tail == tail[..|tail| - 1] + [last];
    } else {
      assert s[|s| - 1] == '/';
    }
  }

  /** The error messages keep the two cases apart, and a non-authentication
      error keeps its message after the prefix. */
  lemma ClassificationIsFaithful(thrown: Thrown)
    ensures var msg := thrown.MessageOr(thrown.Render());
      var e := ClassifyDownloadError(thrown);
      && (NeedsAuthentication(msg) ==> e == MediaError(AuthMessage, DownloadFailed))
      && (!NeedsAuthentication(msg) ==>
            && DownloadFailedPrefix <= e.message
            && e.message[|DownloadFailedPrefix|..] == msg)
  {
  }

  /** Two errors that are not about authentication classify alike only when
      their messages agree. */
  lemma ClassificationInjective(a: Thrown, b: Thrown)
    requires !NeedsAuthentication(a.MessageOr(a.Render()))
    requires !NeedsAuthentication(b.MessageOr(b.Render()))
    requires ClassifyDownloadError(a) == ClassifyDownloadError(b)
    ensures a.MessageOr(a.Render()) == b.MessageOr(b.Render())
  {
    ClassificationIsFaithful(a);
    ClassificationIsFaithful(b);
  }

  /** Any message mentioning a cookie is reported as an authentication problem. */
  lemma CookieMessageNeedsAuth(prefix: string, suffix: string)
    ensures ClassifyDownloadError(ErrorObject("Error", prefix + "cookie" + suffix)).message == AuthMessage
  {
    var msg := prefix + "cookie" + suffix;
    assert msg[|prefix|..|prefix| + |"cookie"|] == "cookie";
    Text.OccurrenceShowsContains(msg, "cookie", |prefix|);
  }

  /** A missing `.mp3` under an audio directory whose path mentions `cookie` is
      reported as an authentication problem: the `ENOENT` message quotes the
      path, and the classifier only looks for the word. */
  lemma MissingFileUnderCookieDirReadsAsAuth(files: set<string>, before: string, after: string,
                                             url: string, written: set<string>)
    requires AudioPath(before + "cookie" + after, FileId(url)) !in files + written
    ensures DownloadVideo(files, before + "cookie" + after, url, Ok(()), Ok(()), Ok(written)).1
      == Err(MediaError(AuthMessage, DownloadFailed))
  {
    var audios := before + "cookie" + after;
    var id := FileId(url);
    MissingFileIsClassified(files, audios, url, written);
    CookieDirPath(before, after, id);
    MissingPathMentioningCookie(AudioPath(audios, id), before, after + "/" + id + ".mp3");
  }

  lemma CookieDirPath(before: string, after: string, id: string)
    ensures AudioPath(before + "cookie" + after, id) == before + "cookie" + (after + "/" + id + ".mp3")
  {
  }

  /** A run that writes no `.mp3` fails with the classified `ENOENT` error. */
  lemma MissingFileIsClassified(files: set<string>, audios: string, url: string, written: set<string>)
    requires AudioPath(audios, FileId(url)) !in files + written
    ensures DownloadVideo(files, audios, url, Ok(()), Ok(()), Ok(written)).1
      == Err(ClassifyDownloadError(MissingFileError(AudioPath(audios, FileId(url)))))
  {
  }

  /** The `ENOENT` error for a path that mentions `cookie` classifies as an
      authentication problem. */
  lemma MissingPathMentioningCookie(path: string, before: string, after: string)
    requires path == before + "cookie" + after
    ensures ClassifyDownloadError(MissingFileError(path)) == MediaError(AuthMessage, DownloadFailed)
  {
    var lead := "ENOENT: no such file or directory, access '" + before;
    var rest := after + "'";
    assert MissingFileError(path) == ErrorObject("Error", lead + "cookie" + rest);
    CookieMessageNeedsAuth(lead, rest);
  }

  /** Deleting is not idempotent: after a download and one delete, a second
      delete of the same id fails with `DELETION_FAILED`. */
  lemma SecondDeleteFails(files: set<string>, audios: string, url: string,
                          cookies: Outcome<()>, ffmpeg: Outcome<()>, exec: Outcome<set<string>>)
    requires DownloadVideo(files, audios, url, cookies, ffmpeg, exec).1.Ok?
    ensures var d := DownloadVideo(files, audios, url, cookies, ffmpeg, exec);
      var first := DeleteVideo(d.0, audios, d.1.value);
      var second := DeleteVideo(first.0, audios, d.1.value);
      && first.1.Ok?
      && second.1 == Err(MediaError(DeleteFailedMessage, DeletionFailed))
      && second.0 == first.0
  {
  }
}
