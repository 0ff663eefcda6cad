/** The stages of one job (main.js:12-81, 108-113 and 122-127) as functions
    of the world they act on: the files of the `temp` directory and the
    record of the calls that the outside world sees or that change `temp`
    (reads of files and of the directory leave no entry). The network
    answers and ffmpeg's results are not computed here; they come in a
    `JobEnv`, one outcome per external call. */
module Stages {
  import opened Text
  import opened Hex
  import opened Names
  import opened Messages

  /** The files the handler works with, by path; all of them live in `temp`. */
  type Files = map<string, seq<byte>>

  /** A call the bot makes that the outside world sees or that changes
      `temp`. Reads (`readdirSync`, `readFileSync`, `existsSync`) and the
      random draws are not recorded. */
  datatype Event =
    | PostToApi(url: string)                      // axios.post to the TikTok download API
    | RunFetch(source: string, output: string)    // ffmpeg copies the media URL into a file
    | RunTranscode(input: string, output: string) // ffmpeg rewrites metadata and adds noise
    | PostVideo(video: string)                    // axios.post to the page's /videos endpoint
    | RemoveFile(path: string)                    // fs.unlinkSync
    | Wait(ms: nat)                               // the setTimeout between batch items
    | SendReply(text: string)                     // msg.reply
    | WriteFile(path: string, data: seq<byte>)    // fs.writeFileSync in secureCleanup

  datatype World = World(files: Files, log: seq<Event>)

  /** A value, or the message of the Error an async function threw. */
  datatype Try<T> = Ok(value: T) | Thrown(message: string)

  /** What the TikTok API call gives: a response whose `data.url` may be
      missing, or a thrown error. */
  datatype ApiOutcome = Answered(mediaUrl: Option<string>) | ApiFailed(message: string)

  /** How an ffmpeg run ends: the `end` event with the bytes it wrote, or the `error` event. */
  datatype FfmpegOutcome = Finished(media: seq<byte>) | FfmpegFailed(message: string)

  /** How the upload ends: a response, or an error that may carry the Graph API's own message. */
  datatype UploadOutcome = Accepted | Rejected(remoteMessage: Option<string>, message: string)

  /** The outcome of every external call one job can make, and the random
      bytes its two file names are made from. */
  datatype JobEnv = JobEnv(
    api: ApiOutcome,
    rawToken: Token,
    fetch: FfmpegOutcome,
    processedToken: Token,
    transcode: FfmpegOutcome,
    upload: UploadOutcome)

  function Record(w: World, e: Event): World
  {
    World(w.files, w.log + [e])
  }

  /** `downloadTikTok(url)`: ask the API for the media URL, refuse a falsy
      one, then let ffmpeg copy it to `temp/<hex>.mp4`; any error inside is
      rethrown as "Download failed: ...". */
  function Download(w: World, url: string, env: JobEnv): (World, Try<string>)
  {
    var asked := Record(w, PostToApi(url));
    match env.api
    case ApiFailed(m) => (asked, Thrown(DownloadFailed(m)))
    case Answered(media) =>
      if !Truthy(media) then (asked, Thrown(DownloadFailed(InvalidTikTokUrl)))
      else
        var path := RawPath(env.rawToken);
        var fetching := Record(asked, RunFetch(media.value, path));
        match env.fetch
        case FfmpegFailed(m) => (fetching, Thrown(DownloadFailed(m)))
        case Finished(data) => (World(fetching.files[path := data], fetching.log), Ok(path))
  }

  /** `processVideo(input)`: ffmpeg writes `temp/<hex>_processed.mp4`; its
      error is thrown unchanged. */
  function Process(w: World, input: string, env: JobEnv): (World, Try<string>)
  {
    var path := ProcessedPath(env.processedToken);
    var running := Record(w, RunTranscode(input, path));
    match env.transcode
    case FfmpegFailed(m) => (running, Thrown(m))
    case Finished(data) => (World(running.files[path := data], running.log), Ok(path))
  }

  /** `uploadToFacebook(videoPath)`: one POST; any error is rethrown as
      "Facebook upload failed: ...". */
  function Upload(w: World, video: string, env: JobEnv): (World, Try<()>)
  {
    var posted := Record(w, PostVideo(video));
    match env.upload
    case Accepted => (posted, Ok(()))
    case Rejected(remote, m) => (posted, Thrown(UploadFailed(remote, m)))
  }

  /** `fs.unlinkSync(path)`: removes the entry, or throws ENOENT. */
  function Unlink(w: World, path: string): (World, Try<()>)
  {
    var tried := Record(w, RemoveFile(path));
    if path in w.files then (World(w.files - {path}, tried.log), Ok(()))
    else (tried, Thrown(NoSuchFile("unlink", path)))
  }

  /** `paths.forEach(file => fs.unlinkSync(file))`: stops at the first throw. */
  function UnlinkAll(w: World, paths: seq<string>): (World, Try<()>)
    decreases |paths|
  {
    if paths == [] then (w, Ok(()))
    else
      var (w1, r) := Unlink(w, paths[0]);
      if r.Thrown? then (w1, r) else UnlinkAll(w1, paths[1..])
  }

  /** One job: download, process, upload, then unlink both working files.
      Each stage starts only after the previous one succeeded; a throw
      skips everything after it, the unlinks included. */
  function Job(w: World, url: string, env: JobEnv): (World, Try<()>)
  {
    var (w1, raw) := Download(w, url, env);
    if raw.Thrown? then (w1, Thrown(raw.message))
    else
      var (w2, processed) := Process(w1, raw.value, env);
      if processed.Thrown? then (w2, Thrown(processed.message))
      else
        var (w3, uploaded) := Upload(w2, processed.value, env);
        if uploaded.Thrown? then (w3, Thrown(uploaded.message))
        else UnlinkAll(w3, [raw.value, processed.value])
  }

  // ---------------------------------------------------------------------
  // What a job does, read off its outcomes alone

  /** The media URL the API answered with, once that stage succeeded. */
  function MediaUrl(env: JobEnv): string
  {
    if env.api.Answered? && env.api.mediaUrl.Some? then env.api.mediaUrl.value else ""
  }

  /** The calls a job makes when nothing fails, in order. */
  function Planned(url: string, env: JobEnv): seq<Event>
  {
    [ PostToApi(url),
      RunFetch(MediaUrl(env), RawPath(env.rawToken)),
      RunTranscode(RawPath(env.rawToken), ProcessedPath(env.processedToken)),
      PostVideo(ProcessedPath(env.processedToken)),
      RemoveFile(RawPath(env.rawToken)),
      RemoveFile(ProcessedPath(env.processedToken)) ]
  }

  /** How many of the planned calls are made: up to and including the first one that fails. */
  function Progress(env: JobEnv): nat
  {
    if env.api.ApiFailed? || !Truthy(env.api.mediaUrl) then 1
    else if env.fetch.FfmpegFailed? then 2
    else if env.transcode.FfmpegFailed? then 3
    else if env.upload.Rejected? then 4
    else 6
  }

  /** The message of the first stage that fails, if one does. */
  function Failure(env: JobEnv): Option<string>
  {
    if env.api.ApiFailed? then Some(DownloadFailed(env.api.message))
    else if !Truthy(env.api.mediaUrl) then Some(DownloadFailed(InvalidTikTokUrl))
    else if env.fetch.FfmpegFailed? then Some(DownloadFailed(env.fetch.message))
    else if env.transcode.FfmpegFailed? then Some(env.transcode.message)
    else if env.upload.Rejected? then Some(UploadFailed(env.upload.remoteMessage, env.upload.message))
    else None
  }

  /** The message a failing job throws: every download error carries the
      "Download failed: " prefix, a missing or empty media URL reads
      "Download failed: Invalid TikTok URL", a transcoder error is passed on
      unchanged, and an upload error carries "Facebook upload failed: "
      followed by the Graph API's message when it gave a non-empty one and
      the local message otherwise. A job fails exactly when one stage does. */
  lemma FailureMessages(env: JobEnv)
    ensures Failure(env).None? <==> Progress(env) == 6
    ensures Progress(env) <= 2 ==> Failure(env).Some? && StartsWith(Failure(env).value, DownloadPrefix)
    ensures env.api.Answered? && !Truthy(env.api.mediaUrl) ==> Failure(env) == Some(DownloadPrefix + InvalidTikTokUrl)
    ensures Progress(env) == 3 ==> Failure(env) == Some(env.transcode.message)
    ensures Progress(env) == 4 ==> Failure(env).Some? && StartsWith(Failure(env).value, UploadPrefix)
    ensures Progress(env) == 4 ==>
      Failure(env).value[|UploadPrefix|..] ==
        if Truthy(env.upload.remoteMessage) then env.upload.remoteMessage.value else env.upload.message
  {
    var m := Failure(env);
    if Progress(env) <= 2 {
      assert m.value[..|DownloadPrefix|] == DownloadPrefix;
    } else if Progress(env) == 4 {
      assert m.value[..|UploadPrefix|] == UploadPrefix;
    }
  }

  /** The two paths a job writes its files to. */
  function JobPaths(env: JobEnv): set<string>
  {
    {RawPath(env.rawToken), ProcessedPath(env.processedToken)}
  }

  /** The files a failing job has written before the stage that threw. */
  function Leftovers(env: JobEnv): Files
  {
    if Progress(env) <= 2 then map[]
    else if Progress(env) == 3 then map[RawPath(env.rawToken) := env.fetch.media]
    else map[RawPath(env.rawToken) := env.fetch.media, ProcessedPath(env.processedToken) := env.transcode.media]
  }

  /** What a job does, read off its outcomes alone: the message it throws,
      if any, the two paths it writes to, and the files it leaves in temp
      when it throws. */
  datatype Effect = Effect(failure: Option<string>, paths: set<string>, leftovers: Files)

  function EffectOf(env: JobEnv): Effect
  {
    Effect(Failure(env), JobPaths(env), Leftovers(env))
  }

  /** The whole behaviour of a job. Its calls are a prefix of the planned
      ones, ending at the first failure; it throws exactly the first
      failure's message; on success it removes exactly its two files, and on
      failure it removes nothing and leaves what it wrote. */
  lemma JobSteps(w: World, url: string, env: JobEnv)
    ensures Job(w, url, env).0.log == w.log + Planned(url, env)[..Progress(env)]
    ensures Job(w, url, env).1 == if Failure(env).None? then Ok(()) else Thrown(Failure(env).value)
    ensures Job(w, url, env).0.files ==
      if Failure(env).None? then w.files - JobPaths(env) else w.files + Leftovers(env)
  {
    if Progress(env) <= 2 {
      DownloadFails(w, url, env);
    } else if Progress(env) == 3 {
      ProcessFails(w, url, env);
    } else if Progress(env) == 4 {
      UploadFails(w, url, env);
    } else {
      NothingFails(w, url, env);
    }
  }

  lemma DownloadFails(w: World, url: string, env: JobEnv)
    requires Progress(env) <= 2
    ensures Job(w, url, env).0.log == w.log + Planned(url, env)[..Progress(env)]
    ensures Job(w, url, env).0.files == w.files + Leftovers(env)
    ensures Job(w, url, env).1 == Thrown(Failure(env).value)
  {
    var plan := Planned(url, env);
    if Progress(env) == 1 {
      assert plan[..1] == [PostToApi(url)];
    } else {
      assert plan[..2] == [plan[0], plan[1]];
    }
    assert w.files + map[] == w.files;
  }

  lemma ProcessFails(w: World, url: string, env: JobEnv)
    requires Progress(env) == 3
    ensures Job(w, url, env).0.log == w.log + Planned(url, env)[..3]
    ensures Job(w, url, env).0.files == w.files + Leftovers(env)
    ensures Job(w, url, env).1 == Thrown(Failure(env).value)
  {
    var plan := Planned(url, env);
    assert plan[..3] == [plan[0], plan[1], plan[2]];
    assert w.files[RawPath(env.rawToken) := env.fetch.media] == w.files + Leftovers(env);
  }

  lemma UploadFails(w: World, url: string, env: JobEnv)
    requires Progress(env) == 4
    ensures Job(w, url, env).0.log == w.log + Planned(url, env)[..4]
    ensures Job(w, url, env).0.files == w.files + Leftovers(env)
    ensures Job(w, url, env).1 == Thrown(Failure(env).value)
  {
    var plan := Planned(url, env);
    assert plan[..4] == [plan[0], plan[1], plan[2], plan[3]];
    var raw, processed := RawPath(env.rawToken), ProcessedPath(env.processedToken);
    assert w.files[raw := env.fetch.media][processed := env.transcode.media] == w.files + Leftovers(env);
  }

  lemma NothingFails(w: World, url: string, env: JobEnv)
    requires Progress(env) == 6
    ensures Job(w, url, env).0.log == w.log + Planned(url, env)
    ensures Job(w, url, env).0.files == w.files - JobPaths(env)
    ensures Job(w, url, env).1 == Ok(())
  {
    var raw, processed := RawPath(env.rawToken), ProcessedPath(env.processedToken);
    PathsDistinct(env.rawToken, env.processedToken);
    var (w1, d) := Download(w, url, env);
    var (w2, p) := Process(w1, d.value, env);
    var (w3, u) := Upload(w2, p.value, env);
    UnlinkBoth(w3, raw, processed);
    assert (w.files[raw := env.fetch.media][processed := env.transcode.media]) - {raw, processed} == w.files - JobPaths(env);
    assert Planned(url, env)[..6] == Planned(url, env);
  }

  /** Unlinking two distinct files that exist removes both and throws nothing. */
  lemma UnlinkBoth(w: World, a: string, b: string)
    requires a in w.files && b in w.files && a != b
    ensures UnlinkAll(w, [a, b]).0.files == w.files - {a, b}
    ensures UnlinkAll(w, [a, b]).0.log == w.log + [RemoveFile(a), RemoveFile(b)]
    ensures UnlinkAll(w, [a, b]).1 == Ok(())
  {
    var (w1, r1) := Unlink(w, a);
    var (w2, r2) := Unlink(w1, b);
    assert [a, b][1..] == [b] && [b][1..] == [];
    assert UnlinkAll(w, [a, b]) == UnlinkAll(w1, [b]);
    assert UnlinkAll(w1, [b]) == (w2, r2);
    assert w2.files == w.files - {a, b};
    assert w2.log == w.log + [RemoveFile(a), RemoveFile(b)];
  }

  /** A job that throws has run no unlink: the files it wrote stay in temp,
      and the stages after the failing one were never called. */
  lemma FailedJobKeepsItsFiles(w: World, url: string, env: JobEnv)
    requires Job(w, url, env).1.Thrown?
    ensures var w' := Job(w, url, env).0;
      && w'.files == w.files + Leftovers(env)
      && |w.log| < |w'.log| <= |w.log| + 4
      && forall e :: e in w'.log[|w.log|..] ==> !e.RemoveFile?
  {
    JobSteps(w, url, env);
    var w' := Job(w, url, env).0;
    assert w'.log[|w.log|..] == Planned(url, env)[..Progress(env)];
  }

  /** With fresh names, a job that succeeds leaves temp exactly as it found it. */
  lemma SuccessfulJobRestoresTemp(w: World, url: string, env: JobEnv)
    requires JobPaths(env) !! w.files.Keys
    requires Job(w, url, env).1.Ok?
    ensures Job(w, url, env).0.files == w.files
  {
    JobSteps(w, url, env);
    assert w.files - JobPaths(env) == w.files;
  }

  /** The unlinks of a job never throw: once the upload succeeds, both files
      it wrote are still there to remove. */
  lemma CleanupNeverThrows(w: World, url: string, env: JobEnv)
    requires Failure(env).None?
    ensures Job(w, url, env).1.Ok?
    ensures RemoveFile(RawPath(env.rawToken)) in Job(w, url, env).0.log
    ensures RemoveFile(ProcessedPath(env.processedToken)) in Job(w, url, env).0.log
  {
    JobSteps(w, url, env);
    var log' := Job(w, url, env).0.log;
    assert log'[|w.log| + 4] == RemoveFile(RawPath(env.rawToken));
    assert log'[|w.log| + 5] == RemoveFile(ProcessedPath(env.processedToken));
  }

  /** A job whose upload is the stage that fails throws the upload error and
      leaves both of its files in temp. */
  lemma RejectedUpload(env: JobEnv)
    requires Progress(env) == 4
    ensures Failure(env) == Some(UploadFailed(env.upload.remoteMessage, env.upload.message))
    ensures Leftovers(env).Keys == JobPaths(env)
  {
    PathsDistinct(env.rawToken, env.processedToken);
  }
}
