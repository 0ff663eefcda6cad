/** The running bot (main.js:12-81, 102-166) as an object: the files of
    `temp` and the record of the calls that leave a trace are its state.
    Each function of main.js is a method that changes them step by step,
    except `encrypt` (which stays `Crypto.Encrypt`), the WhatsApp client's
    callbacks and the SIGINT listener. Every method but the primitives
    `SendReply`, `ReadDir`, `ReadFileSync` and `WriteFileSync` is proved to
    do exactly what a function of `Stages`, `Orchestrator` or `SecureStore`
    says, so what is proved about those functions holds of the running bot. */
module Relay {
  import opened Text
  import opened Hex
  import opened Names
  import opened Messages
  import opened Commands
  import opened Crypto
  import opened Stages
  import opened Orchestrator
  import opened SecureStore

  class Bot {
    /** The contents of `temp`, by path. */
    var files: Files
    /** The calls made so far that the outside world sees or that change
        `temp`, in order; reads leave no entry. */
    var log: seq<Event>
    /** Whether the `temp` directory exists. Start-up creates it and no
        method removes it; only removing `temp` from outside the process,
        which is not modelled, could make this false. */
    var tempExists: bool

    function State(): World
      reads this
    {
      World(files, log)
    }

    /** Every file the bot knows of lives in `temp`. */
    predicate Valid()
      reads this
    {
      forall p :: p in files ==> StartsWith(p, TempDir)
    }

    /** Start-up (main.js:157-158): `temp` is created when it is missing,
        and keeps whatever an earlier run left in it when it is not. */
    constructor (present: bool, earlier: Files)
      requires forall p :: p in earlier ==> StartsWith(p, TempDir)
      ensures Valid() && tempExists && log == []
      ensures files == if present then earlier else map[]
    {
      files := if present then earlier else map[];
      log := [];
      tempExists := true;
    }

    /** `downloadTikTok(url)`. */
    method DownloadTikTok(url: string, env: JobEnv) returns (r: Try<string>)
      requires Valid()
      modifies this`files, this`log
      ensures Valid()
      ensures (State(), r) == Download(old(State()), url, env)
    {
      log := log + [PostToApi(url)];
      match env.api {
        case ApiFailed(m) =>
          r := Thrown(DownloadFailed(m));
        case Answered(media) =>
          if !Truthy(media) {
            r := Thrown(DownloadFailed(InvalidTikTokUrl));
          } else {
            var path := RawPath(env.rawToken);
            log := log + [RunFetch(media.value, path)];
            match env.fetch {
              case FfmpegFailed(m) =>
                r := Thrown(DownloadFailed(m));
              case Finished(data) =>
                EntryRoundTrip(RawName(env.rawToken), path);
                files := files[path := data];
                r := Ok(path);
            }
          }
      }
    }

    /** `processVideo(input)`. */
    method ProcessVideo(input: string, env: JobEnv) returns (r: Try<string>)
      requires Valid()
      modifies this`files, this`log
      ensures Valid()
      ensures (State(), r) == Process(old(State()), input, env)
    {
      var path := ProcessedPath(env.processedToken);
      log := log + [RunTranscode(input, path)];
      match env.transcode {
        case FfmpegFailed(m) =>
          r := Thrown(m);
        case Finished(data) =>
          EntryRoundTrip(ProcessedName(env.processedToken), path);
          files := files[path := data];
          r := Ok(path);
      }
    }

    /** `uploadToFacebook(videoPath)`. */
    method UploadToFacebook(video: string, env: JobEnv) returns (r: Try<()>)
      modifies this`log
      ensures (State(), r) == Upload(old(State()), video, env)
    {
      log := log + [PostVideo(video)];
      match env.upload {
        case Accepted =>
          r := Ok(());
        case Rejected(remote, m) =>
          r := Thrown(UploadFailed(remote, m));
      }
    }

    /** `fs.unlinkSync(path)`. */
    method UnlinkSync(path: string) returns (r: Try<()>)
      requires Valid()
      modifies this`files, this`log
      ensures Valid()
      ensures (State(), r) == Unlink(old(State()), path)
    {
      log := log + [RemoveFile(path)];
      if path in files {
        files := files - {path};
        r := Ok(());
      } else {
        r := Thrown(NoSuchFile("unlink", path));
      }
    }

    /** `[rawVideo, processedVideo].forEach(file => fs.unlinkSync(file))`:
        a throw leaves the loop. */
    method RemoveWorkingFiles(paths: seq<string>) returns (r: Try<()>)
      requires Valid()
      modifies this`files, this`log
      ensures Valid()
      ensures (State(), r) == UnlinkAll(old(State()), paths)
    {
      r := Ok(());
      var i := 0;
      while i < |paths| && r.Ok?
        invariant 0 <= i <= |paths| && Valid()
        invariant r.Ok? ==> UnlinkAll(old(State()), paths) == UnlinkAll(State(), paths[i..])
        invariant r.Thrown? ==> (State(), r) == UnlinkAll(old(State()), paths)
      {
        assert paths[i..][1..] == paths[i + 1..];
        r := UnlinkSync(paths[i]);
        i := i + 1;
      }
      if r.Ok? {
        assert paths[i..] == [] && r.value == ();
      }
    }

    /** One job, as both branches of the handler run it (main.js:108-113, 122-127). */
    method RunJob(url: string, env: JobEnv) returns (r: Try<()>)
      requires Valid()
      modifies this`files, this`log
      ensures Valid()
      ensures (State(), r) == Job(old(State()), url, env)
    {
      var raw := DownloadTikTok(url, env);
      if raw.Thrown? {
        return Thrown(raw.message);
      }
      var processed := ProcessVideo(raw.value, env);
      if processed.Thrown? {
        return Thrown(processed.message);
      }
      var uploaded := UploadToFacebook(processed.value, env);
      if uploaded.Thrown? {
        return Thrown(uploaded.message);
      }
      r := RemoveWorkingFiles([raw.value, processed.value]);
    }

    /** The `for (const url of urls)` loop with its 30-second wait; a
        throw leaves the loop. Job `i` meets the outcomes `env(next + i)`. */
    method RunBatch(urls: seq<string>, env: nat -> JobEnv, next: nat) returns (r: Try<()>)
      requires Valid()
      modifies this`files, this`log
      ensures Valid()
      ensures (State(), r) == Orchestrator.RunBatch(old(State()), urls, env, next)
    {
      r := Ok(());
      var i := 0;
      while i < |urls| && r.Ok?
        invariant 0 <= i <= |urls| && Valid()
        invariant r.Ok? ==> Orchestrator.RunBatch(old(State()), urls, env, next)
                            == Orchestrator.RunBatch(State(), urls[i..], env, next + i)
        invariant r.Thrown? ==> (State(), r) == Orchestrator.RunBatch(old(State()), urls, env, next)
      {
        assert urls[i..][1..] == urls[i + 1..];
        r := RunJob(urls[i], env(next + i));
        if r.Ok? {
          log := log + [Wait(BatchDelay)];
        }
        i := i + 1;
      }
      if r.Ok? {
        assert urls[i..] == [] && r.value == ();
      }
    }

    /** `msg.reply(text)`. */
    method SendReply(text: string)
      modifies this`log
      ensures log == old(log) + [Event.SendReply(text)]
    {
      log := log + [Event.SendReply(text)];
    }

    /** The `message` handler (main.js:102-136): the two prefix tests one
        after the other, and one reply from the `catch` when a job throws. */
    method OnMessage(body: string, env: nat -> JobEnv)
      requires Valid()
      modifies this`files, this`log
      ensures Valid()
      ensures State() == Handle(old(State()), body, env)
    {
      if StartsWith(body, SinglePrefix) {
        assert body == "!s" + [' '] + body[3..];
        SplitAtFirstSeparator("!s", body[3..], ' ');
        var url := Split(body, ' ')[1];
        var r := RunJob(url, env(0));
        SendReply(if r.Ok? then SingleDone else ErrorReply(r.message));
      }
      if StartsWith(body, BatchPrefix) {
        var urls := Split(body, '\n')[1..];
        var r := RunBatch(urls, env, 0);
        SendReply(if r.Ok? then BatchDone(|urls|) else ErrorReply(r.message));
      }
    }

    /** `fs.readdirSync('temp')`: every entry once, in an order the model
        leaves open. */
    method ReadDir() returns (listing: seq<string>)
      requires Valid()
      ensures IsListing(files, listing)
    {
      listing := [];
      var left := files.Keys;
      while left != {}
        invariant left <= files.Keys
        invariant Distinct(listing)
        invariant ListedPaths(listing) == files.Keys - left
        decreases left
      {
        var path :| path in left;
        EntryRoundTrip("", path);
        var name := EntryOf(path).value;
        forall k | 0 <= k < |listing|
          ensures listing[k] != name
        {
          assert TempPath(listing[k]) in ListedPaths(listing);
        }
        assert ListedPaths(listing + [name]) == ListedPaths(listing) + {path};
        listing := listing + [name];
        left := left - {path};
      }
    }

    /** `fs.readFileSync(path)`: the contents, or Node's ENOENT error. A
        read is not an event of the record: it changes nothing. */
    method ReadFileSync(path: string) returns (r: Try<seq<byte>>)
      ensures path in files <==> r.Ok?
      ensures r.Ok? ==> r.value == files[path]
      ensures r.Thrown? ==> r.message == NoSuchFile("open", path)
    {
      if path in files {
        r := Ok(files[path]);
      } else {
        r := Thrown(NoSuchFile("open", path));
      }
    }

    /** `fs.writeFileSync(path, data)` on a path inside `temp`: the file
        now holds `data`, and the write is recorded. */
    method WriteFileSync(path: string, data: seq<byte>)
      requires Valid() && StartsWith(path, TempDir)
      modifies this`files, this`log
      ensures Valid()
      ensures files == old(files)[path := data]
      ensures log == old(log) + [WriteFile(path, data)]
    {
      files := files[path := data];
      log := log + [WriteFile(path, data)];
    }

    /** One turn of the `forEach` in `secureCleanup`. */
    method EraseEntry(name: string, key: Option<seq<byte>>, iv: Iv, cipher: Cipher) returns (fault: Option<Fault>)
      requires Valid()
      modifies this`files, this`log
      ensures Valid()
      ensures (State(), fault) == SecureStore.EraseEntry(old(State()), name, key, iv, cipher)
    {
      var path := TempPath(name);
      var data := ReadFileSync(path);
      if data.Thrown? {
        return Some(FsFault(data.message));
      }
      match Encrypt(data.value, key, iv, cipher) {
        case Refused(e) =>
          fault := Some(CryptoFault(e));
        case Ciphertext(blob) =>
          EntryRoundTrip(name, path);
          WriteFileSync(path, blob);
          var r := UnlinkSync(path);
          assert r.Ok?;
          fault := None;
      }
    }

    /** The `forEach` of `secureCleanup` over a listing: the first throw leaves it. */
    method EraseListed(listing: seq<string>, key: Option<seq<byte>>, ivs: nat -> Iv, cipher: Cipher)
      returns (fault: Option<Fault>)
      requires Valid()
      modifies this`files, this`log
      ensures Valid()
      ensures (State(), fault) == EraseEach(old(State()), listing, key, ivs, cipher, 0)
    {
      fault := None;
      var i := 0;
      while i < |listing| && fault == None
        invariant 0 <= i <= |listing| && Valid()
        invariant fault == None ==> EraseEach(old(State()), listing, key, ivs, cipher, 0)
                                    == EraseEach(State(), listing[i..], key, ivs, cipher, i)
        invariant fault != None ==> (State(), fault) == EraseEach(old(State()), listing, key, ivs, cipher, 0)
      {
        assert listing[i..][1..] == listing[i + 1..];
        fault := EraseEntry(listing[i], key, ivs(i), cipher);
        i := i + 1;
      }
      if fault == None {
        assert listing[i..] == [];
      }
    }

    /** `secureCleanup()`: the entries of `temp`, as `readdirSync` lists
        them, each encrypted under the next IV, written back and unlinked. */
    method SecureCleanup(key: Option<seq<byte>>, ivs: nat -> Iv, cipher: Cipher)
      returns (listing: seq<string>, fault: Option<Fault>)
      requires Valid()
      modifies this`files, this`log
      ensures Valid()
      ensures old(tempExists) ==> IsListing(old(files), listing)
      ensures (State(), fault) == SecureStore.SecureCleanup(old(State()), tempExists, listing, key, ivs, cipher)
    {
      if tempExists {
        listing := ReadDir();
        fault := EraseListed(listing, key, ivs, cipher);
      } else {
        listing, fault := [], None;
      }
    }
  }
}
