/** The message handler (main.js:102-136) as a function of the world: the
    command router picks a single job or a batch, the batch runs its jobs
    strictly in order with a 30-second wait after each, and whatever is
    thrown ends the command with one error reply. */
module Orchestrator {
  import opened Text
  import opened Names
  import opened Messages
  import opened Commands
  import opened Stages

  /** The `setTimeout` after each batch item, in milliseconds. */
  const BatchDelay := 30000

  /** The `for (const url of urls)` loop: the first throw ends the batch. */
  function RunBatch(w: World, urls: seq<string>, env: nat -> JobEnv, next: nat): (World, Try<()>)
    decreases |urls|
  {
    if urls == [] then (w, Ok(()))
    else AfterJob(Job(w, urls[0], env(next)), urls, env, next)
  }

  function AfterJob(done: (World, Try<()>), urls: seq<string>, env: nat -> JobEnv, next: nat): (World, Try<()>)
    requires urls != []
    decreases |urls|, 0
  {
    if done.1.Thrown? then done
    else RunBatch(Record(done.0, Wait(BatchDelay)), urls[1..], env, next + 1)
  }

  /** The `msg.reply` that ends a command: the success text, or "❌ Error: "
      and the message the command threw. */
  function Reply(done: (World, Try<()>), success: string): World
  {
    Record(done.0, SendReply(if done.1.Ok? then success else ErrorReply(done.1.message)))
  }

  /** The whole handler for one message; job `i` of the message meets the outcomes `env(i)`. */
  function Handle(w: World, body: string, env: nat -> JobEnv): World
  {
    match ParseCommand(body)
    case NotACommand => w
    case SingleJob(url) => Reply(Job(w, url, env(0)), SingleDone)
    case BatchJob(urls) => Reply(RunBatch(w, urls, env, 0), BatchDone(|urls|))
  }

  // ---------------------------------------------------------------------
  // Views of the record of calls

  /** The URLs sent to the download API, in order: one per job started. */
  function Requests(log: seq<Event>): seq<string>
    decreases |log|
  {
    if log == [] then []
    else (if log[0].PostToApi? then [log[0].url] else []) + Requests(log[1..])
  }

  /** The replies sent to the chat, in order. */
  function Replies(log: seq<Event>): seq<string>
    decreases |log|
  {
    if log == [] then []
    else (if log[0].SendReply? then [log[0].text] else []) + Replies(log[1..])
  }

  lemma {:induction false} RequestsAppend(a: seq<Event>, b: seq<Event>)
    ensures Requests(a + b) == Requests(a) + Requests(b)
    decreases |a|
  {
    if a == [] {
      assert a + b == b;
    } else {
      RequestsAppend(a[1..], b);
      assert (a + b)[0] == a[0];
      assert (a + b)[1..] == a[1..] + b;
    }
  }

  lemma {:induction false} RepliesAppend(a: seq<Event>, b: seq<Event>)
    ensures Replies(a + b) == Replies(a) + Replies(b)
    decreases |a|
  {
    if a == [] {
      assert a + b == b;
    } else {
      RepliesAppend(a[1..], b);
      assert (a + b)[0] == a[0];
      assert (a + b)[1..] == a[1..] + b;
    }
  }

  /** Both views of a record of calls are taken call by call. */
  lemma ViewsAppend(a: seq<Event>, b: seq<Event>)
    ensures Requests(a + b) == Requests(a) + Requests(b)
    ensures Replies(a + b) == Replies(a) + Replies(b)
  {
    RequestsAppend(a, b);
    RepliesAppend(a, b);
  }

  /** Calls that are neither API requests nor replies show in neither view. */
  lemma {:induction false} QuietCalls(s: seq<Event>)
    requires forall i :: 0 <= i < |s| ==> !s[i].PostToApi? && !s[i].SendReply?
    ensures Requests(s) == [] && Replies(s) == []
    decreases |s|
  {
    if s != [] {
      QuietCalls(s[1..]);
    }
  }

  /** The calls a job makes ask the API about its URL once and reply nothing. */
  lemma PlannedViews(url: string, env: JobEnv)
    ensures Requests(Planned(url, env)[..Progress(env)]) == [url]
    ensures Replies(Planned(url, env)[..Progress(env)]) == []
  {
    var p := Planned(url, env)[..Progress(env)];
    QuietCalls(p[1..]);
    ViewsAppend([p[0]], p[1..]);
    assert p == [p[0]] + p[1..];
  }

  /** A job asks the API about its own URL once and sends no reply. */
  lemma JobViews(w: World, url: string, env: JobEnv)
    ensures Requests(Job(w, url, env).0.log) == Requests(w.log) + [url]
    ensures Replies(Job(w, url, env).0.log) == Replies(w.log)
  {
    JobSteps(w, url, env);
    PlannedViews(url, env);
    ViewsAppend(w.log, Planned(url, env)[..Progress(env)]);
  }

  /** The reply adds one reply, as the last call, and nothing else. */
  lemma ReplyViews(done: (World, Try<()>), success: string)
    ensures var text := if done.1.Ok? then success else ErrorReply(done.1.message);
      var w' := Reply(done, success);
      && Requests(w'.log) == Requests(done.0.log)
      && Replies(w'.log) == Replies(done.0.log) + [text]
      && w'.log == done.0.log + [SendReply(text)]
      && w'.files == done.0.files
  {
    ViewsAppend(done.0.log, [SendReply(if done.1.Ok? then success else ErrorReply(done.1.message))]);
  }

  // ---------------------------------------------------------------------
  // What a batch does, read off the effects of its jobs alone

  /** Job `j` of a message has the effect its outcomes `env(j)` give it. */
  function Effects(env: nat -> JobEnv): nat -> Effect
  {
    (j: nat) => EffectOf(env(j))
  }

  /** What a batch of `count` jobs, the first of them job `next`, throws:
      the message of the first failing job, or nothing. */
  function BatchResult(fx: nat -> Effect, next: nat, count: nat): Try<()>
    decreases count
  {
    if count == 0 then Ok(())
    else if fx(next).failure.Some? then Thrown(fx(next).failure.value)
    else BatchResult(fx, next + 1, count - 1)
  }

  /** How many jobs of the batch start: all of them, or those up to and including the failing one. */
  function Started(fx: nat -> Effect, next: nat, count: nat): (n: nat)
    ensures n <= count
    ensures count > 0 ==> n >= 1
    decreases count
  {
    if count == 0 then 0
    else if fx(next).failure.Some? then 1
    else 1 + Started(fx, next + 1, count - 1)
  }

  /** The paths the jobs `next` .. `next + count - 1` write to. */
  function BatchPaths(fx: nat -> Effect, next: nat, count: nat): set<string>
    decreases count
  {
    if count == 0 then {} else fx(next).paths + BatchPaths(fx, next + 1, count - 1)
  }

  /** The files a batch leaves, job by job: each job that succeeds removes
      its two paths, the first one that fails adds its leftovers and ends the batch. */
  function BatchLeaves(files: Files, fx: nat -> Effect, next: nat, count: nat): Files
    decreases count
  {
    if count == 0 then files
    else if fx(next).failure.Some? then files + fx(next).leftovers
    else BatchLeaves(files - fx(next).paths, fx, next + 1, count - 1)
  }

  /** The batch result and the started jobs are those of the first failing
      job: every job started before it succeeds, it fails with the message
      the batch throws, and when no job fails all of them start. */
  lemma {:induction false} FirstFailure(fx: nat -> Effect, next: nat, count: nat)
    ensures var n := Started(fx, next, count);
      && (forall j :: next <= j < next + n - 1 ==> fx(j).failure.None?)
      && (BatchResult(fx, next, count).Ok? <==> forall j :: next <= j < next + count ==> fx(j).failure.None?)
      && (BatchResult(fx, next, count).Ok? ==> n == count)
      && (BatchResult(fx, next, count).Thrown? ==>
            n >= 1 && fx(next + n - 1).failure == Some(BatchResult(fx, next, count).message))
    decreases count
  {
    if count > 0 && fx(next).failure.None? {
      FirstFailure(fx, next + 1, count - 1);
    }
  }

  /** In closed form: the jobs before the failing one have removed their
      files, the failing one leaves what it wrote. */
  lemma {:induction false} BatchLeavesClosed(files: Files, fx: nat -> Effect, next: nat, count: nat)
    ensures var n := Started(fx, next, count);
      BatchLeaves(files, fx, next, count) ==
        if BatchResult(fx, next, count).Ok? then files - BatchPaths(fx, next, count)
        else (files - BatchPaths(fx, next, n - 1)) + fx(next + n - 1).leftovers
    decreases count
  {
    if count == 0 || fx(next).failure.Some? {
      assert files - {} == files;
    } else {
      BatchLeavesClosed(files - fx(next).paths, fx, next + 1, count - 1);
      var n := Started(fx, next + 1, count - 1);
      assert (files - fx(next).paths) - BatchPaths(fx, next + 1, count - 1) == files - BatchPaths(fx, next, count);
      if BatchResult(fx, next + 1, count - 1).Thrown? {
        assert (files - fx(next).paths) - BatchPaths(fx, next + 1, n - 1) == files - BatchPaths(fx, next, n);
      }
    }
  }

  /** What a batch throws: the message of its first failing job. */
  lemma {:induction false} BatchThrows(w: World, urls: seq<string>, env: nat -> JobEnv, next: nat)
    ensures RunBatch(w, urls, env, next).1 == BatchResult(Effects(env), next, |urls|)
    decreases |urls|
  {
    if urls != [] {
      var job := env(next);
      var (w1, r) := Job(w, urls[0], job);
      JobSteps(w, urls[0], job);
      assert Effects(env)(next) == EffectOf(job);
      if r.Ok? {
        BatchThrows(Record(w1, Wait(BatchDelay)), urls[1..], env, next + 1);
      }
    }
  }

  /** The calls a batch makes, job after job: the calls of each job up to
      its first failure, and the wait after each job that succeeds. */
  function BatchCalls(urls: seq<string>, env: nat -> JobEnv, next: nat): seq<Event>
    decreases |urls|
  {
    if urls == [] then []
    else
      var job := env(next);
      Planned(urls[0], job)[..Progress(job)]
        + if Failure(job).Some? then [] else [Wait(BatchDelay)] + BatchCalls(urls[1..], env, next + 1)
  }

  /** A batch makes exactly the calls `BatchCalls` lists, after those made before it. */
  lemma {:induction false} BatchLog(w: World, urls: seq<string>, env: nat -> JobEnv, next: nat)
    ensures RunBatch(w, urls, env, next).0.log == w.log + BatchCalls(urls, env, next)
    decreases |urls|
  {
    if urls != [] {
      var job := env(next);
      var (w1, r) := Job(w, urls[0], job);
      JobSteps(w, urls[0], job);
      var p := Planned(urls[0], job)[..Progress(job)];
      if r.Ok? {
        var rest := BatchCalls(urls[1..], env, next + 1);
        BatchLog(Record(w1, Wait(BatchDelay)), urls[1..], env, next + 1);
        assert (w.log + p + [Wait(BatchDelay)]) + rest == w.log + (p + ([Wait(BatchDelay)] + rest));
      } else {
        assert p + [] == p;
      }
    }
  }

  /** The calls of a batch ask the API about the URLs of the jobs it starts,
      strictly in input order, and reply nothing. */
  lemma {:induction false} BatchCallsViews(urls: seq<string>, env: nat -> JobEnv, next: nat)
    ensures Requests(BatchCalls(urls, env, next)) == urls[..Started(Effects(env), next, |urls|)]
    ensures Replies(BatchCalls(urls, env, next)) == []
    decreases |urls|
  {
    if urls != [] {
      var job := env(next);
      var p := Planned(urls[0], job)[..Progress(job)];
      assert Effects(env)(next) == EffectOf(job);
      PlannedViews(urls[0], job);
      if Failure(job).Some? {
        assert p + [] == p;
      } else {
        var rest := urls[1..];
        BatchCallsViews(rest, env, next + 1);
        CallsStep(p, BatchCalls(rest, env, next + 1), urls[0], rest[..Started(Effects(env), next + 1, |rest|)]);
        assert urls[..Started(Effects(env), next, |urls|)] == [urls[0]] + rest[..Started(Effects(env), next + 1, |rest|)];
      }
    }
  }

  /** One step of `BatchCallsViews`: a job that succeeds, its wait, then the rest of the batch. */
  lemma CallsStep(p: seq<Event>, tail: seq<Event>, url: string, later: seq<string>)
    requires Requests(p) == [url] && Replies(p) == []
    requires Requests(tail) == later && Replies(tail) == []
    ensures Requests(p + ([Wait(BatchDelay)] + tail)) == [url] + later
    ensures Replies(p + ([Wait(BatchDelay)] + tail)) == []
  {
    ViewsAppend([Wait(BatchDelay)], tail);
    ViewsAppend(p, [Wait(BatchDelay)] + tail);
  }

  /** Which URLs a batch asks the API about: those of the jobs it starts,
      strictly in input order; and it sends no reply. */
  lemma BatchViews(w: World, urls: seq<string>, env: nat -> JobEnv, next: nat)
    ensures var w' := RunBatch(w, urls, env, next).0;
      && Requests(w'.log) == Requests(w.log) + urls[..Started(Effects(env), next, |urls|)]
      && Replies(w'.log) == Replies(w.log)
  {
    BatchLog(w, urls, env, next);
    BatchCallsViews(urls, env, next);
    ViewsAppend(w.log, BatchCalls(urls, env, next));
  }

  /** A batch leaves temp as its jobs' effects say, one job after the other. */
  lemma {:induction false} BatchLeavesRun(w: World, urls: seq<string>, env: nat -> JobEnv, next: nat)
    ensures RunBatch(w, urls, env, next).0.files == BatchLeaves(w.files, Effects(env), next, |urls|)
    decreases |urls|
  {
    if urls != [] {
      var job := env(next);
      var (w1, r) := Job(w, urls[0], job);
      JobSteps(w, urls[0], job);
      assert Effects(env)(next) == EffectOf(job);
      if r.Ok? {
        BatchLeavesRun(Record(w1, Wait(BatchDelay)), urls[1..], env, next + 1);
      }
    }
  }

  /** What a batch leaves in temp: the jobs before the failing one have
      removed their files, the failing one leaves what it wrote. */
  lemma BatchFiles(w: World, urls: seq<string>, env: nat -> JobEnv, next: nat)
    ensures var fx := Effects(env);
      var n := Started(fx, next, |urls|);
      RunBatch(w, urls, env, next).0.files ==
        if BatchResult(fx, next, |urls|).Ok? then w.files - BatchPaths(fx, next, |urls|)
        else (w.files - BatchPaths(fx, next, n - 1)) + fx(next + n - 1).leftovers
  {
    BatchLeavesRun(w, urls, env, next);
    BatchLeavesClosed(w.files, Effects(env), next, |urls|);
  }

  /** With fresh names, a batch that succeeds leaves temp exactly as it found it. */
  lemma BatchRestoresTemp(w: World, urls: seq<string>, env: nat -> JobEnv)
    requires BatchPaths(Effects(env), 0, |urls|) !! w.files.Keys
    requires RunBatch(w, urls, env, 0).1.Ok?
    ensures RunBatch(w, urls, env, 0).0.files == w.files
  {
    BatchThrows(w, urls, env, 0);
    BatchViews(w, urls, env, 0);
    BatchFiles(w, urls, env, 0);
    assert w.files - BatchPaths(Effects(env), 0, |urls|) == w.files;
  }

  // ---------------------------------------------------------------------
  // Commands

  /** `!s <url>`: one job on the first token, then one reply, the success
      text or "❌ Error: " with the first failure's message. */
  lemma SingleCommand(w: World, body: string, env: nat -> JobEnv)
    requires StartsWith(body, SinglePrefix)
    ensures var url := ParseCommand(body).url;
      var job := env(0);
      var w' := Handle(w, body, env);
      && w'.log == w.log + Planned(url, job)[..Progress(job)]
                 + [SendReply(if Failure(job).None? then SingleDone else ErrorReply(Failure(job).value))]
      && w'.files == if Failure(job).None? then w.files - JobPaths(job) else w.files + Leftovers(job)
  {
    JobSteps(w, ParseCommand(body).url, env(0));
    ReplyViews(Job(w, ParseCommand(body).url, env(0)), SingleDone);
  }

  /** `!l` with one URL per line: the jobs start in line order and stop at
      the first failing one; the one reply, sent last, counts every line
      after the header, blank ones included, or carries the failing job's message. */
  lemma BatchCommand(w: World, body: string, env: nat -> JobEnv)
    requires StartsWith(body, BatchPrefix)
    ensures var urls := ParseCommand(body).urls;
      var r := BatchResult(Effects(env), 0, |urls|);
      var n := Started(Effects(env), 0, |urls|);
      var text := if r.Ok? then BatchDone(multiset(body)['\n']) else ErrorReply(r.message);
      var w' := Handle(w, body, env);
      && Requests(w'.log) == Requests(w.log) + urls[..n]
      && Replies(w'.log) == Replies(w.log) + [text]
      && w'.log[|w'.log| - 1] == SendReply(text)
      && w'.files == if r.Ok? then w.files - BatchPaths(Effects(env), 0, |urls|)
                     else (w.files - BatchPaths(Effects(env), 0, n - 1)) + Leftovers(env(n - 1))
  {
    var urls := ParseCommand(body).urls;
    var done := RunBatch(w, urls, env, 0);
    BatchSize(body);
    BatchThrows(w, urls, env, 0);
    BatchViews(w, urls, env, 0);
    BatchFiles(w, urls, env, 0);
    ReplyViews(done, BatchDone(|urls|));
    assert Handle(w, body, env) == Reply(done, BatchDone(|urls|));
    if done.1.Thrown? {
      var n := Started(Effects(env), 0, |urls|);
      assert Effects(env)(n - 1) == EffectOf(env(n - 1));
    }
  }

  /** `!s <url>` seen through the two views: one API request, for the
      command's URL, and one reply. */
  lemma SingleViews(w: World, body: string, env: nat -> JobEnv)
    requires StartsWith(body, SinglePrefix)
    ensures var url := ParseCommand(body).url;
      var job := env(0);
      var w' := Handle(w, body, env);
      && Requests(w'.log) == Requests(w.log) + [url]
      && Replies(w'.log) == Replies(w.log)
           + [if Failure(job).None? then SingleDone else ErrorReply(Failure(job).value)]
  {
    var url := ParseCommand(body).url;
    JobViews(w, url, env(0));
    JobSteps(w, url, env(0));
    ReplyViews(Job(w, url, env(0)), SingleDone);
  }

  /** Exactly one reply per command, and a message that is not a command
      changes nothing at all. */
  lemma OneReplyPerCommand(w: World, body: string, env: nat -> JobEnv)
    ensures ParseCommand(body).NotACommand? ==> Handle(w, body, env) == w
    ensures !ParseCommand(body).NotACommand? ==>
      exists text :: Replies(Handle(w, body, env).log) == Replies(w.log) + [text]
  {
    match ParseCommand(body)
    case NotACommand =>
    case SingleJob(url) =>
      SingleViews(w, body, env);
    case BatchJob(urls) =>
      BatchCommand(w, body, env);
  }

  // ---------------------------------------------------------------------
  // Two scenarios

  /** A link of one token whose every stage succeeds, on an empty temp
      directory: one API request for that link, the success reply, and temp
      ends empty. */
  lemma GoodLinkScenario(w: World, url: string, env: nat -> JobEnv)
    requires ' ' !in url
    requires w.files == map[] && Failure(env(0)).None?
    ensures var w' := Handle(w, SinglePrefix + url, env);
      && w'.files == map[]
      && Requests(w'.log) == Requests(w.log) + [url]
      && Replies(w'.log) == Replies(w.log) + [SingleDone]
  {
    SingleUrlIsFirstToken(url, "");
    assert SinglePrefix + url + "" == SinglePrefix + url;
    SingleViews(w, SinglePrefix + url, env);
    JobSteps(w, url, env(0));
  }

  /** An empty URL is not refused before a job starts: `!s ` with nothing
      after it runs a job that asks the download API about the empty string. */
  lemma EmptyUrlRunsAJob(w: World, env: nat -> JobEnv)
    ensures ParseCommand("!s ") == SingleJob("")
    ensures Requests(Handle(w, "!s ", env).log) == Requests(w.log) + [""]
  {
    SingleUrlIsFirstToken("", "");
    assert SinglePrefix + "" + "" == "!s ";
    SingleViews(w, "!s ", env);
  }

  /** Nor is a blank line of a batch: it is a job on the empty URL. */
  lemma BlankLineRunsAJob(w: World, env: nat -> JobEnv)
    ensures ParseCommand("!l\n") == BatchJob([""])
    ensures Requests(Handle(w, "!l\n", env).log) == Requests(w.log) + [""]
  {
    BatchUrlsAreLines("!l", [""]);
    assert "!l" + "\n" + Join([""], '\n') == "!l\n";
    BatchViews(w, [""], env, 0);
    assert Handle(w, "!l\n", env) == Reply(RunBatch(w, [""], env, 0), BatchDone(1));
    ReplyViews(RunBatch(w, [""], env, 0), BatchDone(1));
  }

  /** A batch of three whose second upload is rejected: the first job is
      published and cleaned up, the third is never started, the second
      job's two files stay in temp, and the one reply is the upload error. */
  lemma BatchStopsAtFailedUpload(w: World, env: nat -> JobEnv, a: string, b: string, c: string)
    requires '\n' !in a && '\n' !in b && '\n' !in c
    requires Failure(env(0)).None?
    requires Progress(env(1)) == 4
    ensures var w' := Handle(w, "!l\n" + a + "\n" + b + "\n" + c, env);
      && Requests(w'.log) == Requests(w.log) + [a, b]
      && Replies(w'.log) == Replies(w.log)
           + [ErrorReply(UploadFailed(env(1).upload.remoteMessage, env(1).upload.message))]
      && w'.files == (w.files - JobPaths(env(0))) + Leftovers(env(1))
      && Leftovers(env(1)).Keys == JobPaths(env(1))
  {
    ThreeLines(a, b, c);
    StopsAtSecond(w, "!l\n" + a + "\n" + b + "\n" + c, env);
  }

  lemma StopsAtSecond(w: World, body: string, env: nat -> JobEnv)
    requires StartsWith(body, BatchPrefix) && |ParseCommand(body).urls| == 3
    requires Failure(env(0)).None?
    requires Progress(env(1)) == 4
    ensures var w' := Handle(w, body, env);
      && Requests(w'.log) == Requests(w.log) + ParseCommand(body).urls[..2]
      && Replies(w'.log) == Replies(w.log)
           + [ErrorReply(UploadFailed(env(1).upload.remoteMessage, env(1).upload.message))]
      && w'.files == (w.files - JobPaths(env(0))) + Leftovers(env(1))
      && Leftovers(env(1)).Keys == JobPaths(env(1))
  {
    BatchCommand(w, body, env);
    assert Effects(env)(0) == EffectOf(env(0));
    assert Effects(env)(1) == EffectOf(env(1));
    RejectedUpload(env(1));
    SecondOfThreeFails(Effects(env));
  }

  /** A header and three lines make a batch of those three URLs. */
  lemma ThreeLines(a: string, b: string, c: string)
    requires '\n' !in a && '\n' !in b && '\n' !in c
    ensures var body := "!l\n" + a + "\n" + b + "\n" + c;
      StartsWith(body, BatchPrefix) && ParseCommand(body) == BatchJob([a, b, c])
  {
    var lines := [a, b, c];
    assert Join(lines, '\n') == a + "\n" + b + "\n" + c by {
      assert Join(lines[1..], '\n') == b + "\n" + Join(lines[2..], '\n');
    }
    BatchUrlsAreLines("!l", lines);
    assert "!l" + "\n" + Join(lines, '\n') == "!l\n" + a + "\n" + b + "\n" + c;
  }

  /** A batch of three jobs whose second one fails. */
  lemma SecondOfThreeFails(fx: nat -> Effect)
    requires fx(0).failure.None? && fx(1).failure.Some?
    ensures BatchResult(fx, 0, 3) == Thrown(fx(1).failure.value)
    ensures Started(fx, 0, 3) == 2
    ensures BatchPaths(fx, 0, 1) == fx(0).paths
  {
    assert BatchPaths(fx, 1, 0) == {};
  }
}
